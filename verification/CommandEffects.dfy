/** What every command does to the management data, told by components, ports, lists, abilities
    and classes: when it is accepted, what it changes, and that it changes nothing else. */
module CommandEffects {
  import opened SppTypes
  import opened Management

  /** The live component of that name. */
  ghost predicate Named(m: Mng, id: nat, name: string) {
    id < |m.comps| && Live(m.comps[id]) && m.comps[id].name == name
  }

  ghost predicate NoneNamed(m: Mng, name: string) {
    forall id: nat :: !Named(m, id, name)
  }

  lemma NamedIs(m: Mng, id: nat, name: string)
    requires Managed(m) && Named(m, id, name)
    ensures GetComponentId(m.comps, name) == Some(id)
  {
    NamedOnce(m, id);
    var r := FindName(m.comps, name, 0);
    assert r.Some? ==> r.value == id;
  }

  lemma NoneIs(m: Mng, name: string)
    requires Managed(m) && NoneNamed(m, name)
    ensures GetComponentId(m.comps, name).None?
  {
    var r := FindName(m.comps, name, 0);
    if name != "" && r.Some? {
      assert Named(m, r.value, name);
    }
  }

  /** The other components are what they were. */
  ghost predicate OthersSame(m: Mng, r: Mng, id: nat) {
    |r.comps| == |m.comps| && forall i: nat :: i < |m.comps| && i != id ==> r.comps[i] == m.comps[i]
  }

  /** One component changed its ports, and only those of one direction. */
  ghost predicate Rewired(m: Mng, r: Mng, id: nat, d: RxTx) {
    && OthersSame(m, r, id) && id < |m.comps|
    && r.comps[id].name == m.comps[id].name && r.comps[id].typ == m.comps[id].typ
    && r.comps[id].lcore == m.comps[id].lcore && r.comps[id].id == m.comps[id].id
    && (if d.Rx? then r.comps[id].tx == m.comps[id].tx else r.comps[id].rx == m.comps[id].rx)
  }

  /** The pending lists of the other lcores are what they were. */
  ghost predicate OtherListsSame(m: Mng, r: Mng, l: nat) {
    |r.pend| == |m.pend| && forall k: nat :: k < |m.pend| && k != l ==> r.pend[k] == m.pend[k]
  }

  /** One element of the list is gone, the others are as they were, in their order. */
  ghost predicate Loses<T>(was: seq<T>, now: seq<T>, x: T) {
    exists k :: 0 <= k < |was| && was[k] == x && now == was[..k] + was[k + 1..]
  }

  lemma RemoveLastLoses<T>(x: T, s: seq<T>)
    requires x in s
    ensures Loses(s, RemoveLast(x, s), x)
  {
    var k := LastIndex(x, s).value;
    assert s[k] == x && RemoveLast(x, s) == s[..k] + s[k + 1..];
  }

  /** What no command on components touches. */
  ghost predicate PortDataSame(m: Mng, r: Mng) {
    && r.usable == m.usable && r.maxPorts == m.maxPorts && r.added == m.added && r.cls == m.cls
    && forall q :: AbilityOf(r, q) == AbilityOf(m, q)
  }

  /** At first no slot is taken and no list has a number, the ports added are the physical ones, and
      no port has an operation or a class. */
  lemma InitEffect(n: nat, usable: seq<bool>, maxPorts: nat, phys: set<PortIndex>, p: PortIndex)
    requires |usable| == n
    ensures var m := Init(n, usable, maxPorts, phys);
            && |m.comps| == |m.pend| == n && m.usable == usable && m.maxPorts == maxPorts
            && (forall i :: 0 <= i < n ==> !Live(m.comps[i]) && m.pend[i] == [] && !m.chgComp[i] && !m.chgCore[i])
            && (p in m.added <==> p in phys)
            && ClassOf(m, p).vid == 4095 && ClassOf(m, p).mac == 0
            && |AbilityOf(m, p)| == 4 && forall k :: 0 <= k < 4 ==> AbilityOf(m, p)[k].ope == NoOpe
  {
  }

  // ----- Start and stop -----

  /** A start is accepted exactly if the lcore is usable, no component has the name and a slot is
      free. */
  lemma StartIff(m: Mng, name: string, l: nat, typ: CompType)
    requires Managed(m) && name != ""
    ensures Execute(m, StartComp(name, l, typ)).Some? <==>
              l < |m.comps| && m.usable[l] && NoneNamed(m, name) && exists i :: 0 <= i < |m.comps| && !Live(m.comps[i])
  {
    if i :| 0 <= i < |m.comps| && !Live(m.comps[i]) {
      FirstFree(m.comps, 0, i);
    }
    if NoneNamed(m, name) {
      NoneIs(m, name);
    } else {
      var id: nat :| Named(m, id, name);
      NamedIs(m, id, name);
    }
  }

  /** It gives the first free slot to a component of that name, type and lcore, without ports,
      and appends its number to the lcore's pending list. */
  lemma StartEffect(m: Mng, name: string, l: nat, typ: CompType) returns (id: nat)
    requires Managed(m) && Execute(m, StartComp(name, l, typ)).Some?
    ensures id < |m.comps| && !Live(m.comps[id]) && forall i: nat :: i < id ==> Live(m.comps[i])
    ensures var r := Execute(m, StartComp(name, l, typ)).value;
            && OthersSame(m, r, id) && PortDataSame(m, r)
            && r.comps[id].name == name && r.comps[id].typ == typ && r.comps[id].lcore == l && r.comps[id].id == id
            && r.comps[id].rx == [] && r.comps[id].tx == []
            && OtherListsSame(m, r, l) && l < |m.pend| && r.pend[l] == m.pend[l] + [id]
            && (forall i: nat :: i < |m.comps| ==> r.chgComp[i] == (m.chgComp[i] || i == id))
            && (forall i: nat :: i < |m.comps| ==> r.chgCore[i] == (m.chgCore[i] || i == l))
  {
    id := FindFree(m.comps, 0).value;
    forall i: nat | i < id ensures Live(m.comps[i]) {
      if !Live(m.comps[i]) {
        FirstFree(m.comps, 0, i);
      }
    }
  }

  /** A stop zeroes the slot of the component of that name and takes its number off its lcore's
      pending list; of ports, abilities and classes it touches nothing.  An unknown name is
      accepted and changes nothing. */
  lemma StopEffect(m: Mng, name: string)
    requires Managed(m)
    ensures Execute(m, StopComp(name)).Some?
    ensures NoneNamed(m, name) ==> Execute(m, StopComp(name)) == Some(m)
    ensures forall id: nat :: Named(m, id, name) ==> Stopped(m, Execute(m, StopComp(name)).value, id)
  {
    if NoneNamed(m, name) {
      NoneIs(m, name);
    }
    forall id: nat | Named(m, id, name) ensures Stopped(m, Execute(m, StopComp(name)).value, id) {
      NamedIs(m, id, name);
      StopOne(m, Stop(m, name), name, id);
    }
  }

  lemma StopOne(m: Mng, r: Mng, name: string, id: nat)
    requires Managed(m) && Named(m, id, name) && GetComponentId(m.comps, name) == Some(id)
    requires r == Stop(m, name)
    ensures Stopped(m, r, id)
  {
    RemoveLastLoses(id, m.pend[m.comps[id].lcore]);
  }

  ghost predicate Stopped(m: Mng, r: Mng, id: nat)
    requires Shape(m) && Shape(r)
  {
    && OthersSame(m, r, id) && PortDataSame(m, r) && id < |m.comps|
    && r.comps[id].name == "" && r.comps[id].typ == Unuse && r.comps[id].rx == [] && r.comps[id].tx == []
    && var l := m.comps[id].lcore;
    && l < |m.pend| && OtherListsSame(m, r, l) && Loses(m.pend[l], r.pend[l], id)
    && (forall i: nat :: i < |m.comps| ==> r.chgComp[i] == (m.chgComp[i] && i != id))
    && (forall i: nat :: i < |m.comps| ==> r.chgCore[i] == (m.chgCore[i] || i == l))
  }

  // ----- Ports -----

  /** The component has the port in that direction. */
  ghost predicate Has(c: Component, p: PortIndex, d: RxTx) {
    if d.Rx? then p in c.rx else p in c.tx
  }

  /** Its type lets it take one more port in that direction. */
  ghost predicate RoomFor(c: Component, d: RxTx) {
    (c.typ.Merge? && d.Rx?) || (c.typ.ClassifierMac? && d.Tx?) || (if d.Rx? then c.rx == [] else c.tx == [])
  }

  /** Entry `k` is the first of the list with that operation. */
  ghost predicate FirstWith(a: seq<Ability>, k: nat, ope: AbilityOpe) {
    k < |a| && a[k].ope == ope && forall j: nat :: j < k ==> a[j].ope != ope
  }

  lemma {:induction false} FindOpeFirst(a: seq<Ability>, ope: AbilityOpe, from: nat)
    requires forall j: nat :: j < from && j < |a| ==> a[j].ope != ope
    ensures var r := FindOpe(a, ope, from); if r.Some? then FirstWith(a, r.value, ope) else forall j: nat :: j < |a| ==> a[j].ope != ope
    decreases |a| - from
  {
    if from < |a| && a[from].ope != ope {
      FindOpeFirst(a, ope, from + 1);
    }
  }

  /** What the abilities of a port must allow. */
  ghost predicate Takes(a: seq<Ability>, again: bool, ope: AbilityOpe) {
    if again then ope == AddVlanTag ==> exists k :: 0 <= k < |a| && a[k].ope == AddVlanTag
    else ope != NoOpe ==> exists k :: 0 <= k < |a| && a[k].ope == NoOpe
  }

  /** A `port add` is accepted exactly if the component exists, its type takes one more port in the
      direction, and, of a new port, the array and for an operation the ability list have a
      place left; of a port it has already, for a tag, some entry adds one. */
  lemma AddIff(m: Mng, p: PortIndex, d: RxTx, name: string, ability: Ability)
    requires Managed(m)
    ensures NoneNamed(m, name) ==> Execute(m, AddPort(p, d, name, ability)).None?
    ensures forall id: nat :: Named(m, id, name) ==>
              (Execute(m, AddPort(p, d, name, ability)).Some? <==>
               && RoomFor(m.comps[id], d)
               && Takes(AbilityOf(m, p), Has(m.comps[id], p, d), ability.ope)
               && (!Has(m.comps[id], p, d) ==> |Ports(m.comps[id], d)| < m.maxPorts))
  {
    if NoneNamed(m, name) {
      NoneIs(m, name);
    }
    forall id: nat | Named(m, id, name)
      ensures Execute(m, AddPort(p, d, name, ability)).Some? <==>
              && RoomFor(m.comps[id], d)
              && Takes(AbilityOf(m, p), Has(m.comps[id], p, d), ability.ope)
              && (!Has(m.comps[id], p, d) ==> |Ports(m.comps[id], d)| < m.maxPorts)
    {
      NamedIs(m, id, name);
      RoomIff(m, id, d);
    }
  }

  lemma RoomIff(m: Mng, id: nat, d: RxTx)
    requires Managed(m) && id < |m.comps| && Live(m.comps[id])
    ensures var c := m.comps[id]; CheckPortCount(c.typ, d, |c.rx|, |c.tx|) <==> RoomFor(c, d)
  {
    assert PortsOk(m.comps[id], m.maxPorts);
  }

  /** What an accepted `port add` leaves: the port is the last of the component's in that direction,
      behind those it had, or where it was if it had it; the operation is in the first empty
      entry of the port, or, for a port it had, in place of its first tag. */
  ghost predicate Added(m: Mng, r: Mng, p: PortIndex, d: RxTx, id: nat, ability: Ability)
    requires Shape(m) && Shape(r)
  {
    && Rewired(m, r, id, d)
    && (forall q :: q != p ==> AbilityOf(r, q) == AbilityOf(m, q))
    && r.pend == m.pend && r.usable == m.usable && r.chgCore == m.chgCore && r.maxPorts == m.maxPorts && r.cls == m.cls
    && (if Has(m.comps[id], p, d) then
          && r.comps == m.comps && r.added == m.added
          && (if ability.ope == AddVlanTag then
                && Written(AbilityOf(m, p), AbilityOf(r, p), AddVlanTag, ability)
                && forall i: nat :: i < |m.comps| ==> r.chgComp[i] == (m.chgComp[i] || i == id)
              else AbilityOf(r, p) == AbilityOf(m, p) && r.chgComp == m.chgComp)
        else
          && (if d.Rx? then r.comps[id].rx == m.comps[id].rx + [p] else r.comps[id].tx == m.comps[id].tx + [p])
          && (forall q :: q in r.added <==> q in m.added || q == p)
          && (forall i: nat :: i < |m.comps| ==> r.chgComp[i] == (m.chgComp[i] || i == id))
          && (if ability.ope == NoOpe then AbilityOf(r, p) == AbilityOf(m, p)
              else Written(AbilityOf(m, p), AbilityOf(r, p), NoOpe, ability)))
  }

  /** The entry is written over the first one with that operation. */
  ghost predicate Written(was: seq<Ability>, now: seq<Ability>, over: AbilityOpe, e: Ability) {
    exists k: nat :: FirstWith(was, k, over) && now == was[k := e]
  }

  lemma AddEffect(m: Mng, p: PortIndex, d: RxTx, name: string, id: nat, ability: Ability)
    requires Managed(m) && Named(m, id, name) && Execute(m, AddPort(p, d, name, ability)).Some?
    ensures Added(m, Execute(m, AddPort(p, d, name, ability)).value, p, d, id, ability)
  {
    var r := Execute(m, AddPort(p, d, name, ability)).value;
    NamedIs(m, id, name);
    if Has(m.comps[id], p, d) {
      AddAgain(m, r, p, d, name, id, ability);
    } else {
      AddNew(m, r, p, d, name, id, ability);
    }
  }

  lemma AddAgain(m: Mng, r: Mng, p: PortIndex, d: RxTx, name: string, id: nat, ability: Ability)
    requires Shape(m) && Shape(r) && id < |m.comps| && GetComponentId(m.comps, name) == Some(id)
    requires PortAdd(m, p, d, name, ability) == Some(r) && Has(m.comps[id], p, d)
    ensures Added(m, r, p, d, id, ability)
  {
    FindOpeFirst(AbilityOf(m, p), AddVlanTag, 0);
  }

  lemma AddNew(m: Mng, r: Mng, p: PortIndex, d: RxTx, name: string, id: nat, ability: Ability)
    requires Shape(m) && Shape(r) && id < |m.comps| && GetComponentId(m.comps, name) == Some(id)
    requires PortAdd(m, p, d, name, ability) == Some(r) && !Has(m.comps[id], p, d)
    ensures Added(m, r, p, d, id, ability)
  {
    FindOpeFirst(AbilityOf(m, p), NoOpe, 0);
  }

  /** What a `port del` leaves: the component is without the port in that direction, its others are
      there in their order; no entry of the port for that direction has an operation, and
      its other entries, and those of other ports, are as before. */
  ghost predicate Deleted(m: Mng, r: Mng, p: PortIndex, d: RxTx, id: nat)
    requires Shape(m) && Shape(r)
  {
    && Rewired(m, r, id, d)
    && !Has(r.comps[id], p, d)
    && (if Has(m.comps[id], p, d) then
          if d.Rx? then Loses(m.comps[id].rx, r.comps[id].rx, p) else Loses(m.comps[id].tx, r.comps[id].tx, p)
        else r.comps == m.comps)
    && Cleared(AbilityOf(m, p), AbilityOf(r, p), d)
    && (forall q :: q != p ==> AbilityOf(r, q) == AbilityOf(m, q))
    && r.pend == m.pend && r.usable == m.usable && r.chgCore == m.chgCore && r.maxPorts == m.maxPorts
    && r.cls == m.cls && r.added == m.added
    && forall i: nat :: i < |m.comps| ==> r.chgComp[i] == (m.chgComp[i] || i == id)
  }

  ghost predicate Cleared(was: seq<Ability>, now: seq<Ability>, d: RxTx) {
    && |now| == |was|
    && (forall k :: 0 <= k < |was| && now[k].rxtx == d ==> now[k].ope == NoOpe)
    && (forall k :: 0 <= k < |was| && (was[k].rxtx != d || was[k].ope == NoOpe) ==> now[k] == was[k])
    && (forall k :: 0 <= k < |was| && now[k] != was[k] ==> now[k].ope == NoOpe)
  }

  /** A `port del` is accepted exactly if the component exists, whether it has the port or not. */
  lemma DelEffect(m: Mng, p: PortIndex, d: RxTx, name: string)
    requires Managed(m)
    ensures NoneNamed(m, name) ==> Execute(m, DelPort(p, d, name)).None?
    ensures forall id: nat :: Named(m, id, name) ==>
              Execute(m, DelPort(p, d, name)).Some? && Shape(Execute(m, DelPort(p, d, name)).value)
              && Deleted(m, Execute(m, DelPort(p, d, name)).value, p, d, id)
  {
    if NoneNamed(m, name) {
      NoneIs(m, name);
    }
    forall id: nat | Named(m, id, name)
      ensures Execute(m, DelPort(p, d, name)).Some? && Shape(Execute(m, DelPort(p, d, name)).value)
      ensures Deleted(m, Execute(m, DelPort(p, d, name)).value, p, d, id)
    {
      NamedIs(m, id, name);
      DelFrom(m, p, d, name, id);
    }
  }

  lemma DelFrom(m: Mng, p: PortIndex, d: RxTx, name: string, id: nat)
    requires Managed(m) && id < |m.comps| && GetComponentId(m.comps, name) == Some(id)
    ensures Execute(m, DelPort(p, d, name)).Some? && Shape(Execute(m, DelPort(p, d, name)).value)
    ensures Deleted(m, Execute(m, DelPort(p, d, name)).value, p, d, id)
  {
    assert PortsOk(m.comps[id], m.maxPorts);
    DelIt(m, PortDel(m, p, d, name).value, p, d, name, id);
  }

  lemma DelIt(m: Mng, r: Mng, p: PortIndex, d: RxTx, name: string, id: nat)
    requires Shape(m) && Shape(r) && id < |m.comps| && GetComponentId(m.comps, name) == Some(id)
    requires NoDups(m.comps[id].rx) && NoDups(m.comps[id].tx) && PortDel(m, p, d, name) == Some(r)
    ensures Deleted(m, r, p, d, id)
  {
    RemovedFrom(p, Ports(m.comps[id], d));
    ClearedList(AbilityOf(m, p), d);
  }

  lemma RemovedFrom<T>(x: T, s: seq<T>)
    requires NoDups(s)
    ensures x !in RemoveLast(x, s) && (if x in s then Loses(s, RemoveLast(x, s), x) else RemoveLast(x, s) == s)
  {
    RemoveLastFacts(x, s);
    if x in s {
      RemoveLastLoses(x, s);
    }
  }

  lemma ClearedList(a: seq<Ability>, d: RxTx)
    ensures Cleared(a, ClearAbility(a, d), d)
  {
  }

  // ----- Classes -----

  /** A class command touches the class of its port, and flags the first live component that sends
      to it, if there is one. */
  ghost predicate Reclassed(m: Mng, r: Mng, p: PortIndex)
    requires Shape(m) && Shape(r)
  {
    && r.comps == m.comps && r.pend == m.pend && PortDataButClass(m, r)
    && (forall q :: q != p ==> ClassOf(r, q) == ClassOf(m, q))
    && r.chgCore == m.chgCore && |r.chgComp| == |m.chgComp|
    && forall i: nat :: i < |m.comps| ==> r.chgComp[i] == (m.chgComp[i] || FirstSender(m, p, i))
  }

  ghost predicate PortDataButClass(m: Mng, r: Mng) {
    && r.usable == m.usable && r.maxPorts == m.maxPorts && r.added == m.added
    && forall q :: AbilityOf(r, q) == AbilityOf(m, q)
  }

  ghost predicate Sends(m: Mng, p: PortIndex, i: nat) {
    i < |m.comps| && Live(m.comps[i]) && p in m.comps[i].tx
  }

  ghost predicate FirstSender(m: Mng, p: PortIndex, i: nat) {
    Sends(m, p, i) && forall j: nat :: j < i ==> !Sends(m, p, j)
  }

  lemma {:induction false} UsedByFirst(m: Mng, p: PortIndex, from: nat)
    requires from <= |m.comps| && forall j: nat :: j < from ==> !Sends(m, p, j)
    ensures var r := UsedBy(m.comps, p, Tx, from);
            if r.Some? then FirstSender(m, p, r.value) else forall j: nat :: !Sends(m, p, j)
    decreases |m.comps| - from
  {
    if from < |m.comps| && !Sends(m, p, from) {
      UsedByFirst(m, p, from + 1);
    }
  }

  /** A class is added exactly to a port that was added and has none; it is then the one given, VID
      and address. */
  lemma ClassAddEffect(m: Mng, p: PortIndex, vid: nat, mac: nat)
    requires Shape(m)
    ensures Execute(m, AddClass(p, vid, mac)).Some? <==> p in m.added && ClassOf(m, p).vid == 4095 && ClassOf(m, p).mac == 0
    ensures Execute(m, AddClass(p, vid, mac)).Some? ==>
              var r := Execute(m, AddClass(p, vid, mac)).value;
              Shape(r) && Reclassed(m, r, p) && ClassOf(r, p).vid == vid && ClassOf(r, p).mac == mac
  {
    UsedByFirst(m, p, 0);
  }

  /** It is deleted exactly where VID and address agree with it, a stored zero agreeing with
      everything; the port is then untagged and without address. */
  lemma ClassDelEffect(m: Mng, p: PortIndex, vid: nat, mac: nat)
    requires Shape(m)
    ensures Execute(m, DelClass(p, vid, mac)).Some? <==>
              && p in m.added && (ClassOf(m, p).vid == vid || ClassOf(m, p).vid == 0)
              && (ClassOf(m, p).mac == mac || ClassOf(m, p).mac == 0)
    ensures Execute(m, DelClass(p, vid, mac)).Some? ==>
              var r := Execute(m, DelClass(p, vid, mac)).value;
              Shape(r) && Reclassed(m, r, p) && ClassOf(r, p).vid == 4095 && ClassOf(r, p).mac == 0
  {
    UsedByFirst(m, p, 0);
  }
}

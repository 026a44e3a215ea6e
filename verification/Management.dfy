/** The management data of spp_vf and what each command does to it: components, the
    pending component list of every lcore, port assignments, abilities and classifier
    entries.  All functions here are the specification of the class in Manager. */
module Management {
  import opened SppTypes

  datatype Component = Component(
    name: string, typ: CompType, lcore: nat, id: nat, rx: seq<PortIndex>, tx: seq<PortIndex>)

  /** A component slot after it has been zeroed. */
  const NO_COMPONENT := Component("", Unuse, 0, 0, [], [])

  /** Classifier entry of a port: VID and MAC address, (UNTAGGED_VID, 0) when there is none. */
  datatype ClassId = ClassId(vid: nat, mac: nat)

  const NO_CLASS := ClassId(UNTAGGED_VID, 0)

  /** `usable[l]`: the status of lcore `l` is not "unused".  `ports`, the port array size. */
  datatype Mng = Mng(
    comps: seq<Component>, pend: seq<seq<nat>>, usable: seq<bool>,
    chgCore: seq<bool>, chgComp: seq<bool>,
    added: set<PortIndex>, abil: map<PortIndex, seq<Ability>>, cls: map<PortIndex, ClassId>,
    maxPorts: nat)

  datatype Command =
    | StartComp(name: string, lcore: nat, typ: CompType)
    | StopComp(name: string)
    | AddPort(port: PortIndex, rxtx: RxTx, name: string, ability: Ability)
    | DelPort(port: PortIndex, rxtx: RxTx, name: string)
    | AddClass(port: PortIndex, vid: nat, mac: nat)
    | DelClass(port: PortIndex, vid: nat, mac: nat)

  predicate Live(c: Component) { !c.typ.Unuse? }

  function Init(n: nat, usable: seq<bool>, maxPorts: nat, phys: set<PortIndex>): Mng
    requires |usable| == n
  {
    Mng(seq(n, i requires 0 <= i < n => NO_COMPONENT.(id := i)), seq(n, _ => []), usable,
        seq(n, _ => false), seq(n, _ => false), phys, map[], map[], maxPorts)
  }

  // ----- Looking things up -----

  function FindName(comps: seq<Component>, name: string, from: nat): (r: Option<nat>)
    ensures r.Some? ==> from <= r.value < |comps| && comps[r.value].name == name
    ensures r.None? ==> forall i :: from <= i < |comps| ==> comps[i].name != name
    decreases |comps| - from
  {
    if from >= |comps| then None
    else if comps[from].name == name then Some(from)
    else FindName(comps, name, from + 1)
  }

  /** The empty name is never found. */
  function GetComponentId(comps: seq<Component>, name: string): Option<nat> {
    if name == "" then None else FindName(comps, name, 0)
  }

  function FindFree(comps: seq<Component>, from: nat): (r: Option<nat>)
    ensures r.Some? ==> from <= r.value < |comps| && comps[r.value].typ.Unuse?
    ensures r.None? ==> forall i :: from <= i < |comps| ==> Live(comps[i])
    decreases |comps| - from
  {
    if from >= |comps| then None
    else if comps[from].typ.Unuse? then Some(from)
    else FindFree(comps, from + 1)
  }

  /** Index of the last occurrence. */
  function LastIndex<T(==)>(x: T, s: seq<T>): (r: Option<nat>)
    ensures r.Some? ==> r.value < |s| && s[r.value] == x && x !in s[r.value + 1..]
    ensures r.None? <==> x !in s
  {
    if s == [] then None
    else if s[|s| - 1] == x then Some(|s| - 1)
    else
      assert s == s[..|s| - 1] + [s[|s| - 1]];
      LastIndex(x, s[..|s| - 1])
  }

  /** The shift-delete: the last occurrence goes, everything behind it moves up. */
  function RemoveLast<T(==)>(x: T, s: seq<T>): seq<T> {
    match LastIndex(x, s)
    case None => s
    case Some(k) => s[..k] + s[k + 1..]
  }

  /** Independent description of a deletion: what is left when every `x` is left out. */
  function Without<T(==)>(x: T, s: seq<T>): seq<T> {
    if s == [] then []
    else Without(x, s[..|s| - 1]) + (if s[|s| - 1] == x then [] else [s[|s| - 1]])
  }

  /** On a list without repetitions the shift-delete drops exactly the one element and
      keeps the others in their order. */
  lemma {:induction false} RemoveLastIsWithout<T>(x: T, s: seq<T>)
    requires NoDups(s)
    ensures RemoveLast(x, s) == Without(x, s)
  {
    if s != [] {
      var init, last := s[..|s| - 1], s[|s| - 1];
      assert s == init + [last];
      if last == x {
        WithoutAbsent(x, init);
      } else {
        RemoveLastIsWithout(x, init);
        match LastIndex(x, init)
        case None =>
        case Some(k) => assert s[..k] + s[k + 1..] == (init[..k] + init[k + 1..]) + [last];
      }
    }
  }

  lemma {:induction false} WithoutAbsent<T>(x: T, s: seq<T>)
    requires x !in s
    ensures Without(x, s) == s
  {
    if s != [] {
      assert s == s[..|s| - 1] + [s[|s| - 1]];
      WithoutAbsent(x, s[..|s| - 1]);
    }
  }

  lemma RemoveLastFacts<T>(x: T, s: seq<T>)
    requires NoDups(s)
    ensures NoDups(RemoveLast(x, s))
    ensures forall y :: y in RemoveLast(x, s) <==> y in s && y != x
    ensures |RemoveLast(x, s)| == |s| - (if x in s then 1 else 0)
  {
    match LastIndex(x, s)
    case None =>
    case Some(k) =>
      var r := s[..k] + s[k + 1..];
      forall y ensures y in r <==> y in s && y != x {
        if y in s && y != x {
          var j :| 0 <= j < |s| && s[j] == y;
          assert r[if j < k then j else j - 1] == y;
        }
      }
  }

  // ----- Components -----

  /** `component start`. */
  function Start(m: Mng, name: string, lcore: nat, typ: CompType): Option<Mng>
    requires Shape(m)
  {
    if lcore >= |m.comps| || !m.usable[lcore] then None
    else if GetComponentId(m.comps, name).Some? then None
    else
      match FindFree(m.comps, 0)
      case None => None
      case Some(id) =>
        Some(m.(comps := m.comps[id := Component(name, typ, lcore, id, [], [])],
                pend := m.pend[lcore := m.pend[lcore] + [id]],
                chgComp := m.chgComp[id := true],
                chgCore := m.chgCore[lcore := true]))
  }

  /** `component stop`; an unknown name is accepted and changes nothing. */
  function Stop(m: Mng, name: string): Mng
    requires Shape(m)
  {
    match GetComponentId(m.comps, name)
    case None => m
    case Some(id) =>
      var l := m.comps[id].lcore;
      if l >= |m.pend| then m
      else m.(comps := m.comps[id := NO_COMPONENT],
              pend := m.pend[l := RemoveLast(id, m.pend[l])],
              chgComp := m.chgComp[id := false],
              chgCore := m.chgCore[l := true])
  }

  // ----- Ports -----

  /** Whether the component may take one more port in that direction. */
  predicate CheckPortCount(typ: CompType, rxtx: RxTx, numRx: nat, numTx: nat) {
    var nrx := if rxtx.Rx? then numRx + 1 else numRx;
    var ntx := if rxtx.Tx? then numTx + 1 else numTx;
    match typ
    case Forward => nrx <= 1 && ntx <= 1
    case Merge => ntx <= 1
    case ClassifierMac => nrx <= 1
    case Mirror => nrx <= 1 && ntx <= 2
    case Unuse => false
  }

  function AbilityOf(m: Mng, p: PortIndex): seq<Ability> {
    if p in m.abil then m.abil[p] else seq(ABILITY_MAX, _ => NO_ABILITY)
  }

  function ClassOf(m: Mng, p: PortIndex): ClassId {
    if p in m.cls then m.cls[p] else NO_CLASS
  }

  /** First entry with that operation. */
  function FindOpe(a: seq<Ability>, ope: AbilityOpe, from: nat): (r: Option<nat>)
    ensures r.Some? ==> from <= r.value < |a| && a[r.value].ope == ope
    ensures r.None? ==> forall i :: from <= i < |a| ==> a[i].ope != ope
    decreases |a| - from
  {
    if from >= |a| then None
    else if a[from].ope == ope then Some(from)
    else FindOpe(a, ope, from + 1)
  }

  function Ports(c: Component, rxtx: RxTx): seq<PortIndex> {
    if rxtx.Rx? then c.rx else c.tx
  }

  function WithPorts(c: Component, rxtx: RxTx, ps: seq<PortIndex>): Component {
    if rxtx.Rx? then c.(rx := ps) else c.(tx := ps)
  }

  /** `port add`.  A port the component already has only gets its VLAN tag replaced, and
      only when it carries one. */
  function PortAdd(m: Mng, p: PortIndex, rxtx: RxTx, name: string, ability: Ability): Option<Mng>
    requires Shape(m)
  {
    match GetComponentId(m.comps, name)
    case None => None
    case Some(id) =>
      var c, a := m.comps[id], AbilityOf(m, p);
      if !CheckPortCount(c.typ, rxtx, |c.rx|, |c.tx|) then None
      else if p in Ports(c, rxtx) then
        if ability.ope != AddVlanTag then Some(m)
        else match FindOpe(a, AddVlanTag, 0)
             case None => None
             case Some(k) => Some(m.(abil := m.abil[p := a[k := ability]], chgComp := m.chgComp[id := true]))
      else if |Ports(c, rxtx)| >= m.maxPorts then None
      else
        var c' := WithPorts(c, rxtx, Ports(c, rxtx) + [p]);
        var m1 := m.(comps := m.comps[id := c'], chgComp := m.chgComp[id := true], added := m.added + {p});
        if ability.ope == NoOpe then Some(m1)
        else match FindOpe(a, NoOpe, 0)
             case None => None
             case Some(k) => Some(m1.(abil := m.abil[p := a[k := ability]]))
  }

  function ClearAbility(a: seq<Ability>, rxtx: RxTx): (r: seq<Ability>)
    ensures |r| == |a|
  {
    seq(|a|, i requires 0 <= i < |a| => if a[i].ope != NoOpe && a[i].rxtx == rxtx then NO_ABILITY else a[i])
  }

  /** `port del`. */
  function PortDel(m: Mng, p: PortIndex, rxtx: RxTx, name: string): Option<Mng>
    requires Shape(m)
  {
    match GetComponentId(m.comps, name)
    case None => None
    case Some(id) =>
      var c := m.comps[id];
      Some(m.(comps := m.comps[id := WithPorts(c, rxtx, RemoveLast(p, Ports(c, rxtx)))],
              chgComp := m.chgComp[id := true],
              abil := m.abil[p := ClearAbility(AbilityOf(m, p), rxtx)]))
  }

  // ----- Classifier entries -----

  /** First component that uses the port in that direction. */
  function UsedBy(comps: seq<Component>, p: PortIndex, rxtx: RxTx, from: nat): (r: Option<nat>)
    ensures r.Some? ==> from <= r.value < |comps| && Live(comps[r.value]) && p in Ports(comps[r.value], rxtx)
    ensures r.None? ==> forall i :: from <= i < |comps| && Live(comps[i]) ==> p !in Ports(comps[i], rxtx)
    decreases |comps| - from
  {
    if from >= |comps| then None
    else if Live(comps[from]) && p in Ports(comps[from], rxtx) then Some(from)
    else UsedBy(comps, p, rxtx, from + 1)
  }

  function FlagUser(m: Mng, p: PortIndex): Mng
    requires Shape(m)
  {
    match UsedBy(m.comps, p, Tx, 0)
    case None => m
    case Some(i) => m.(chgComp := m.chgComp[i := true])
  }

  function ClassAdd(m: Mng, p: PortIndex, vid: nat, mac: nat): Option<Mng>
    requires Shape(m)
  {
    if p !in m.added then None
    else if ClassOf(m, p).vid != UNTAGGED_VID || ClassOf(m, p).mac != 0 then None
    else Some(FlagUser(m.(cls := m.cls[p := ClassId(vid, mac)]), p))
  }

  function ClassDel(m: Mng, p: PortIndex, vid: nat, mac: nat): Option<Mng>
    requires Shape(m)
  {
    if p !in m.added then None
    else if ClassOf(m, p).vid != 0 && ClassOf(m, p).vid != vid then None
    else if ClassOf(m, p).mac != 0 && ClassOf(m, p).mac != mac then None
    else Some(FlagUser(m.(cls := m.cls[p := NO_CLASS]), p))
  }

  /** One command; `None` is an error reply. */
  function Execute(m: Mng, cmd: Command): (r: Option<Mng>)
    requires Shape(m)
    ensures r.Some? ==> Shape(r.value) && |r.value.comps| == |m.comps|
  {
    match cmd
    case StartComp(name, lcore, typ) => Start(m, name, lcore, typ)
    case StopComp(name) => Some(Stop(m, name))
    case AddPort(p, rxtx, name, ability) => PortAdd(m, p, rxtx, name, ability)
    case DelPort(p, rxtx, name) => PortDel(m, p, rxtx, name)
    case AddClass(p, vid, mac) => ClassAdd(m, p, vid, mac)
    case DelClass(p, vid, mac) => ClassDel(m, p, vid, mac)
  }

  /** What the command decoder lets through: names are non-empty tokens, and a component
      is started with a real type. */
  predicate Decodable(cmd: Command) {
    match cmd
    case StartComp(name, _, typ) => name != "" && (typ.ClassifierMac? || typ.Merge? || typ.Forward?)
    case AddClass(_, vid, _) => vid < NUM_VLAN_VID
    case _ => true
  }

  // ----- The invariant of every reachable state -----

  predicate Shape(m: Mng) {
    && |m.pend| == |m.usable| == |m.chgCore| == |m.chgComp| == |m.comps|
    && forall p | p in m.abil :: |m.abil[p]| == ABILITY_MAX
  }

  ghost predicate SlotsOk(comps: seq<Component>) {
    && (forall i :: 0 <= i < |comps| && Live(comps[i]) ==>
          comps[i].name != "" && comps[i].id == i && comps[i].lcore < |comps|)
    && (forall i :: 0 <= i < |comps| && !Live(comps[i]) ==> comps[i].name == "")
    && (forall i, j :: 0 <= i < j < |comps| && Live(comps[i]) && Live(comps[j]) ==> comps[i].name != comps[j].name)
  }

  /** Live ids and pending lists mirror each other. */
  ghost predicate ListsOk(comps: seq<Component>, pend: seq<seq<nat>>)
  {
    && |pend| == |comps|
    && (forall i :: 0 <= i < |comps| && Live(comps[i]) && comps[i].lcore < |pend| ==> i in pend[comps[i].lcore])
    && (forall l, k :: 0 <= l < |pend| && 0 <= k < |pend[l]| ==>
          pend[l][k] < |comps| && Live(comps[pend[l][k]]) && comps[pend[l][k]].lcore == l)
    && (forall l :: 0 <= l < |pend| ==> NoDups(pend[l]))
  }

  /** Port limits of the component type, no port twice. */
  ghost predicate PortsOk(c: Component, maxPorts: nat) {
    && NoDups(c.rx) && NoDups(c.tx) && |c.rx| <= maxPorts && |c.tx| <= maxPorts
    && (c.typ.Forward? ==> |c.rx| <= 1 && |c.tx| <= 1)
    && (c.typ.Merge? ==> |c.tx| <= 1)
    && (c.typ.ClassifierMac? ==> |c.rx| <= 1)
    && !c.typ.Mirror?
    && (c.typ.Unuse? ==> c.rx == [] && c.tx == [])
  }

  ghost predicate Managed(m: Mng) {
    && Shape(m)
    && SlotsOk(m.comps)
    && ListsOk(m.comps, m.pend)
    && (forall i :: 0 <= i < |m.comps| ==> PortsOk(m.comps[i], m.maxPorts))
    && (forall i :: 0 <= i < |m.comps| && Live(m.comps[i]) ==> m.usable[m.comps[i].lcore])
    && (forall i :: 0 <= i < |m.comps| && m.chgComp[i] ==> Live(m.comps[i]))
  }

  lemma InitManaged(n: nat, usable: seq<bool>, maxPorts: nat, phys: set<PortIndex>)
    requires |usable| == n
    ensures Managed(Init(n, usable, maxPorts, phys))
  {
  }

  /** A new component joins the end of its lcore's pending list. */
  lemma StartLists(comps: seq<Component>, pend: seq<seq<nat>>, id: nat, c: Component)
    requires ListsOk(comps, pend) && id < |comps| && !Live(comps[id]) && Live(c) && c.lcore < |pend|
    ensures ListsOk(comps[id := c], pend[c.lcore := pend[c.lcore] + [id]])
  {
    var l := c.lcore;
    var pend' := pend[l := pend[l] + [id]];
    assert forall k, x :: 0 <= k < |pend| && 0 <= x < |pend[k]| ==> pend[k][x] != id;
    assert forall k | 0 <= k < |pend| && k != l :: pend'[k] == pend[k];
    assert pend'[l][|pend[l]|] == id;
    assert forall i | i in pend[l] :: i in pend'[l];
  }

  lemma StartManaged(m: Mng, name: string, lcore: nat, typ: CompType)
    requires Managed(m) && Decodable(StartComp(name, lcore, typ))
    requires Start(m, name, lcore, typ).Some?
    ensures Managed(Start(m, name, lcore, typ).value)
  {
    var m' := Start(m, name, lcore, typ).value;
    var id := FindFree(m.comps, 0).value;
    StartLists(m.comps, m.pend, id, m'.comps[id]);
    assert m'.comps[id].rx == [] && m'.comps[id].tx == [];
  }

  /** A stopped component leaves its lcore's pending list. */
  lemma StopLists(comps: seq<Component>, pend: seq<seq<nat>>, id: nat)
    requires ListsOk(comps, pend) && id < |comps| && Live(comps[id]) && comps[id].lcore < |pend|
    ensures ListsOk(comps[id := NO_COMPONENT], pend[comps[id].lcore := RemoveLast(id, pend[comps[id].lcore])])
  {
    var l := comps[id].lcore;
    var comps', pend' := comps[id := NO_COMPONENT], pend[l := RemoveLast(id, pend[l])];
    RemoveLastFacts(id, pend[l]);
    forall k, x | 0 <= k < |pend'| && 0 <= x < |pend'[k]|
      ensures pend'[k][x] < |comps| && Live(comps'[pend'[k][x]]) && comps'[pend'[k][x]].lcore == k
    {
      var y := pend'[k][x];
      assert y in pend'[k];
      assert y in pend[k];
      var z :| 0 <= z < |pend[k]| && pend[k][z] == y;
      assert comps[y].lcore == k;
    }
  }

  lemma StopSlots(comps: seq<Component>, id: nat)
    requires SlotsOk(comps) && id < |comps|
    ensures SlotsOk(comps[id := NO_COMPONENT])
  {
  }

  lemma StopManaged(m: Mng, name: string)
    requires Managed(m)
    ensures Managed(Stop(m, name))
  {
    if GetComponentId(m.comps, name).Some? {
      var id := GetComponentId(m.comps, name).value;
      StopSlots(m.comps, id);
      StopLists(m.comps, m.pend, id);
    }
  }

  /** Replacing the ports of a live component keeps slots and lists in order. */
  lemma RewireManaged(m: Mng, id: nat, c: Component)
    requires Managed(m) && id < |m.comps| && Live(m.comps[id])
    requires c.name == m.comps[id].name && c.typ == m.comps[id].typ && c.lcore == m.comps[id].lcore && c.id == m.comps[id].id
    requires PortsOk(c, m.maxPorts)
    ensures Managed(m.(comps := m.comps[id := c], chgComp := m.chgComp[id := true]))
  {
    var comps := m.comps[id := c];
    forall l, k | 0 <= l < |m.pend| && 0 <= k < |m.pend[l]|
      ensures m.pend[l][k] < |comps| && Live(comps[m.pend[l][k]]) && comps[m.pend[l][k]].lcore == l
    {
      assert m.comps[m.pend[l][k]].lcore == l;
    }
  }

  lemma FoundIsLive(m: Mng, name: string)
    requires Managed(m) && GetComponentId(m.comps, name).Some?
    ensures Live(m.comps[GetComponentId(m.comps, name).value])
  {
  }

  /** Abilities and the set of added ports play no part in the invariant. */
  lemma AbilityManaged(m: Mng, p: PortIndex, a: seq<Ability>, added: set<PortIndex>)
    requires Managed(m) && |a| == ABILITY_MAX
    ensures Managed(m.(added := added)) && Managed(m.(added := added, abil := m.abil[p := a]))
  {
  }

  lemma GrowPorts(c: Component, rxtx: RxTx, p: PortIndex, maxPorts: nat)
    requires PortsOk(c, maxPorts) && CheckPortCount(c.typ, rxtx, |c.rx|, |c.tx|)
    requires p !in Ports(c, rxtx) && |Ports(c, rxtx)| < maxPorts
    ensures PortsOk(WithPorts(c, rxtx, Ports(c, rxtx) + [p]), maxPorts)
  {
  }

  lemma PortAddManaged(m: Mng, p: PortIndex, rxtx: RxTx, name: string, ability: Ability)
    requires Managed(m) && PortAdd(m, p, rxtx, name, ability).Some?
    ensures Managed(PortAdd(m, p, rxtx, name, ability).value)
  {
    FoundIsLive(m, name);
    var id := GetComponentId(m.comps, name).value;
    var c, a := m.comps[id], AbilityOf(m, p);
    if p in Ports(c, rxtx) {
      if ability.ope == AddVlanTag {
        var k := FindOpe(a, AddVlanTag, 0).value;
        RewireManaged(m, id, c);
        assert m.comps == m.comps[id := c];
        AbilityManaged(m.(chgComp := m.chgComp[id := true]), p, a[k := ability], m.added);
      }
    } else {
      GrowPorts(c, rxtx, p, m.maxPorts);
      var c' := WithPorts(c, rxtx, Ports(c, rxtx) + [p]);
      RewireManaged(m, id, c');
      var m1 := m.(comps := m.comps[id := c'], chgComp := m.chgComp[id := true]);
      match FindOpe(a, NoOpe, 0)
      case None => AbilityManaged(m1, p, a, m.added + {p});
      case Some(k) => AbilityManaged(m1, p, a[k := ability], m.added + {p});
    }
  }

  lemma PortDelManaged(m: Mng, p: PortIndex, rxtx: RxTx, name: string)
    requires Managed(m) && PortDel(m, p, rxtx, name).Some?
    ensures Managed(PortDel(m, p, rxtx, name).value)
  {
    FoundIsLive(m, name);
    var id := GetComponentId(m.comps, name).value;
    var c := m.comps[id];
    assert PortsOk(c, m.maxPorts);
    RemoveLastFacts(p, Ports(c, rxtx));
    RewireManaged(m, id, WithPorts(c, rxtx, RemoveLast(p, Ports(c, rxtx))));
  }

  /** Every accepted command keeps the invariant. */
  lemma ExecuteManaged(m: Mng, cmd: Command)
    requires Managed(m) && Decodable(cmd) && Execute(m, cmd).Some?
    ensures Managed(Execute(m, cmd).value)
  {
    match cmd
    case StartComp(name, lcore, typ) => StartManaged(m, name, lcore, typ);
    case StopComp(name) => StopManaged(m, name);
    case AddPort(p, rxtx, name, ability) => PortAddManaged(m, p, rxtx, name, ability);
    case DelPort(p, rxtx, name) => PortDelManaged(m, p, rxtx, name);
    case AddClass(p, vid, mac) =>
    case DelClass(p, vid, mac) =>
  }

  /** The flags are cleared when a flush is complete. */
  function Flushed(m: Mng): Mng {
    m.(chgCore := seq(|m.chgCore|, _ => false), chgComp := seq(|m.chgComp|, _ => false))
  }

  /** A rejected command changes nothing; an accepted one is flushed. */
  function ExecuteAll(m: Mng, cmds: seq<Command>): (r: Mng)
    requires Shape(m)
    ensures Shape(r)
    decreases |cmds|
  {
    if cmds == [] then m
    else match Execute(m, cmds[0])
         case None => ExecuteAll(m, cmds[1..])
         case Some(m') => ExecuteAll(Flushed(m'), cmds[1..])
  }

  /** Over every run of commands: distinct names, ids and lists in step, port limits. */
  lemma {:induction false} RunManaged(m: Mng, cmds: seq<Command>)
    requires Managed(m) && forall c :: c in cmds ==> Decodable(c)
    ensures Managed(ExecuteAll(m, cmds))
    decreases |cmds|
  {
    if cmds != [] {
      assert cmds[0] in cmds;
      match Execute(m, cmds[0])
      case None => RunManaged(m, cmds[1..]);
      case Some(m') =>
        ExecuteManaged(m, cmds[0]);
        RunManaged(Flushed(m'), cmds[1..]);
    }
  }

  // ----- Consequences -----

  /** The append to a pending list never leaves its array: while a slot is free, every
      list is shorter than the number of slots. */
  lemma AppendInRange(m: Mng, lcore: nat)
    requires Managed(m) && lcore < |m.pend| && FindFree(m.comps, 0).Some?
    ensures |m.pend[lcore]| < |m.comps|
  {
    Pigeonhole(m.pend[lcore], |m.comps|, FindFree(m.comps, 0).value);
  }

  /** Uniqueness of names rests on names being non-empty: wherever two slots are free and an
      lcore usable, two starts with the empty name are both accepted. */
  lemma EmptyNameTwice(m: Mng, lcore: nat, typ: CompType, i: nat, j: nat)
    requires Managed(m) && i < j < |m.comps| && !Live(m.comps[i]) && !Live(m.comps[j])
    requires lcore < |m.comps| && m.usable[lcore] && !typ.Unuse?
    ensures var r := Start(m, "", lcore, typ);
            && r.Some? && var q := Start(Flushed(r.value), "", lcore, typ);
            && q.Some? && exists x, y :: 0 <= x < y < |q.value.comps| && Live(q.value.comps[x]) && Live(q.value.comps[y])
                                         && q.value.comps[x].name == q.value.comps[y].name == ""
  {
    var x := FindFree(m.comps, 0).value;
    FirstFree(m.comps, 0, i);
    var r := Start(m, "", lcore, typ).value;
    assert !Live(r.comps[j]);
    var y := FindFree(Flushed(r).comps, 0).value;
    assert x != y;
    var q := Start(Flushed(r), "", lcore, typ).value;
    assert Live(q.comps[x]) && Live(q.comps[y]);
    var lo, hi := if x < y then x else y, if x < y then y else x;
    assert Live(q.comps[lo]) && Live(q.comps[hi]);
  }

  lemma {:induction false} FirstFree(comps: seq<Component>, from: nat, i: nat)
    requires from <= i < |comps| && !Live(comps[i])
    ensures FindFree(comps, from).Some? && FindFree(comps, from).value <= i
    decreases |comps| - from
  {
    if Live(comps[from]) {
      FirstFree(comps, from + 1, i);
    }
  }

  /** A start without a type, which the decoder lets through when the type is left out, takes
      the first free slot and leaves it free: the slot's name is overwritten, and the pending
      list grows past the ids there are. */
  lemma UntypedStart(m: Mng, name: string, lcore: nat)
    requires Shape(m) && lcore < |m.comps| && m.usable[lcore] && name != ""
    requires GetComponentId(m.comps, name).None? && FindFree(m.comps, 0).Some?
    ensures var r := Start(m, name, lcore, Unuse);
            && r.Some? && !Managed(r.value)
            && FindFree(r.value.comps, 0) == FindFree(m.comps, 0)
            && r.value.comps == m.comps[FindFree(m.comps, 0).value := Component(name, Unuse, lcore, FindFree(m.comps, 0).value, [], [])]
            && r.value.pend == m.pend[lcore := m.pend[lcore] + [FindFree(m.comps, 0).value]]
  {
    var id := FindFree(m.comps, 0).value;
    var c := Component(name, Unuse, lcore, id, [], []);
    SameFree(m.comps, 0, id, c);
  }

  lemma {:induction false} SameFree(comps: seq<Component>, from: nat, id: nat, c: Component)
    requires FindFree(comps, from) == Some(id) && !Live(c)
    ensures FindFree(comps[id := c], from) == Some(id)
    decreases |comps| - from
  {
    if from < id {
      SameFree(comps, from + 1, id, c);
    }
  }

  /** Replacing the tag of a port a component already has succeeds exactly when the type
      has room for one more port in that direction, since the count is checked first:
      never for a forwarder, a merger's tx or a classifier's rx. */
  lemma RetagIff(m: Mng, p: PortIndex, rxtx: RxTx, name: string, tag: Ability)
    requires Managed(m) && tag.ope == AddVlanTag
    requires GetComponentId(m.comps, name).Some?
    requires p in Ports(m.comps[GetComponentId(m.comps, name).value], rxtx)
    requires FindOpe(AbilityOf(m, p), AddVlanTag, 0).Some?
    ensures PortAdd(m, p, rxtx, name, tag).Some? <==>
            var t := m.comps[GetComponentId(m.comps, name).value].typ;
            (t.Merge? && rxtx.Rx?) || (t.ClassifierMac? && rxtx.Tx?)
  {
    var id := GetComponentId(m.comps, name).value;
    assert PortsOk(m.comps[id], m.maxPorts);
    FoundIsLive(m, name);
  }

  // ----- One component per port and direction -----

  /** No port serves two components in one direction. */
  ghost predicate Exclusive(m: Mng) {
    forall p, d: RxTx, i, j ::
      0 <= i < |m.comps| && 0 <= j < |m.comps| && Live(m.comps[i]) && Live(m.comps[j])
      && p in Ports(m.comps[i], d) && p in Ports(m.comps[j], d)
      ==> i == j
  }

  /** The check the decoder makes before a `port add`.  It is skipped for a request of the
      greatest number of words, whatever its operation. */
  predicate AddAccepted(m: Mng, p: PortIndex, rxtx: RxTx, longest: bool) {
    longest
    || (!(UsedBy(m.comps, p, Rx, 0).Some? && UsedBy(m.comps, p, Tx, 0).Some?)
        && UsedBy(m.comps, p, rxtx, 0).None?)
  }

  /** The port is in use, in that direction, by a component other than the one named. */
  ghost predicate UsedElsewhere(m: Mng, p: PortIndex, rxtx: RxTx, name: string) {
    exists i :: 0 <= i < |m.comps| && Live(m.comps[i]) && m.comps[i].name != name && p in Ports(m.comps[i], rxtx)
  }

  /** An accepted `port add` keeps ports exclusive exactly when no other component uses
      the port in that direction. */
  lemma AddKeepsExclusiveIff(m: Mng, p: PortIndex, rxtx: RxTx, name: string, ability: Ability)
    requires Managed(m) && Exclusive(m)
    requires PortAdd(m, p, rxtx, name, ability).Some?
    ensures Exclusive(PortAdd(m, p, rxtx, name, ability).value) <==> !UsedElsewhere(m, p, rxtx, name)
  {
    FoundIsLive(m, name);
    var m' := PortAdd(m, p, rxtx, name, ability).value;
    var id := GetComponentId(m.comps, name).value;
    AddedPorts(m, p, rxtx, name, ability);
    if UsedElsewhere(m, p, rxtx, name) {
      var i :| 0 <= i < |m.comps| && Live(m.comps[i]) && m.comps[i].name != name && p in Ports(m.comps[i], rxtx);
      assert p in Ports(m'.comps[i], rxtx) && p in Ports(m'.comps[id], rxtx);
      assert !Exclusive(m');
    } else {
      NamedOnce(m, id);
      StaysExclusive(m, m', p, rxtx, name);
    }
  }

  lemma NamedOnce(m: Mng, id: nat)
    requires Managed(m) && id < |m.comps| && Live(m.comps[id])
    ensures forall i: nat :: i < |m.comps| && m.comps[i].name == m.comps[id].name ==> i == id
  {
    forall i: nat | i < |m.comps| && i != id ensures m.comps[i].name != m.comps[id].name {
      OtherNames(m, id, i);
    }
  }

  lemma StaysExclusive(m: Mng, m': Mng, p: PortIndex, rxtx: RxTx, name: string)
    requires Exclusive(m) && !UsedElsewhere(m, p, rxtx, name) && Adds(m, m', p, rxtx, name)
    requires forall i, j :: 0 <= i < |m.comps| && 0 <= j < |m.comps| && m.comps[i].name == name == m.comps[j].name ==> i == j
    ensures Exclusive(m')
  {
    forall q, d: RxTx, i, j | 0 <= i < |m'.comps| && 0 <= j < |m'.comps|
      && Live(m'.comps[i]) && Live(m'.comps[j]) && q in Ports(m'.comps[i], d) && q in Ports(m'.comps[j], d)
      ensures i == j
    {
      if !(q == p && d == rxtx) {
        assert q in Ports(m.comps[i], d) && q in Ports(m.comps[j], d);
      }
    }
  }

  /** The components differ only in that the one named also has the port. */
  ghost predicate Adds(m: Mng, m': Mng, p: PortIndex, rxtx: RxTx, name: string) {
    && |m'.comps| == |m.comps|
    && forall i :: 0 <= i < |m.comps| ==>
         && Live(m'.comps[i]) == Live(m.comps[i])
         && forall q, d: RxTx :: q in Ports(m'.comps[i], d) <==>
              q in Ports(m.comps[i], d) || (m.comps[i].name == name && q == p && d == rxtx)
  }

  /** The component as `port add` leaves it. */
  function Grown(c: Component, p: PortIndex, rxtx: RxTx): Component {
    if p in Ports(c, rxtx) then c else WithPorts(c, rxtx, Ports(c, rxtx) + [p])
  }

  lemma AddedComps(m: Mng, p: PortIndex, rxtx: RxTx, name: string, ability: Ability)
    requires Managed(m) && PortAdd(m, p, rxtx, name, ability).Some?
    ensures var id := GetComponentId(m.comps, name).value;
            PortAdd(m, p, rxtx, name, ability).value.comps == m.comps[id := Grown(m.comps[id], p, rxtx)]
  {
  }

  lemma OtherNames(m: Mng, id: nat, i: nat)
    requires Managed(m) && id < |m.comps| && i < |m.comps| && i != id && Live(m.comps[id])
    ensures m.comps[i].name != m.comps[id].name
  {
    if Live(m.comps[i]) {
      var lo, hi := if i < id then i else id, if i < id then id else i;
      assert m.comps[lo].name != m.comps[hi].name;
    }
  }

  /** What a `port add` does to who has which port. */
  lemma AddedPorts(m: Mng, p: PortIndex, rxtx: RxTx, name: string, ability: Ability)
    requires Managed(m) && PortAdd(m, p, rxtx, name, ability).Some?
    ensures Adds(m, PortAdd(m, p, rxtx, name, ability).value, p, rxtx, name)
  {
    var id := GetComponentId(m.comps, name).value;
    FoundIsLive(m, name);
    AddedComps(m, p, rxtx, name, ability);
    NamedOnce(m, id);
    GrownPorts(m.comps[id], p, rxtx);
  }

  lemma GrownPorts(c: Component, p: PortIndex, rxtx: RxTx)
    ensures forall q, d: RxTx :: q in Ports(Grown(c, p, rxtx), d) <==> q in Ports(c, d) || (q == p && d == rxtx)
    ensures Live(Grown(c, p, rxtx)) == Live(c)
  {
  }

  /** So the decoder's check protects exclusiveness where it is made. */
  lemma CheckedAddKeepsExclusive(m: Mng, p: PortIndex, rxtx: RxTx, name: string, ability: Ability)
    requires Managed(m) && Exclusive(m)
    requires AddAccepted(m, p, rxtx, false) && PortAdd(m, p, rxtx, name, ability).Some?
    ensures Exclusive(PortAdd(m, p, rxtx, name, ability).value)
  {
    AddKeepsExclusiveIff(m, p, rxtx, name, ability);
  }

  /** Two forwarders on two lcores, the first one receiving from `p`. */
  function TwoForwarders(p: PortIndex): Mng {
    Init(2, [true, true], 1, {}).(
      comps := [Component("a", Forward, 0, 0, [p], []), Component("b", Forward, 1, 1, [], [])],
      pend := [[0], [1]])
  }

  lemma TwoForwardersManaged(p: PortIndex)
    ensures Managed(TwoForwarders(p))
  {
    var m := TwoForwarders(p);
    assert "a"[0] != "b"[0];
    assert SlotsOk(m.comps);
    assert m.pend[0] == [0] && m.pend[1] == [1] && ListsOk(m.comps, m.pend);
  }

  lemma TwoForwardersExclusive(p: PortIndex)
    ensures Exclusive(TwoForwarders(p))
  {
    forall q | q in Ports(TwoForwarders(p).comps[1], Rx) || q in Ports(TwoForwarders(p).comps[1], Tx) ensures false {
    }
  }

  /** Where it is not made, a port already received from by one forwarder is given to a second
      one, with an ability of either kind. */
  lemma LongestAddBreaksExclusive(p: PortIndex, ability: Ability)
    requires ability.ope != NoOpe
    ensures var m := TwoForwarders(p);
            Managed(m) && Exclusive(m) && AddAccepted(m, p, Rx, true)
            && PortAdd(m, p, Rx, "b", ability).Some? && !Exclusive(PortAdd(m, p, Rx, "b", ability).value)
  {
    var m := TwoForwarders(p);
    TwoForwardersManaged(p);
    TwoForwardersExclusive(p);
    assert FindName(m.comps, "b", 0) == FindName(m.comps, "b", 1) == Some(1) by {
      assert "a"[0] != "b"[0];
    }
    assert AbilityOf(m, p)[0].ope == NoOpe;
    assert UsedElsewhere(m, p, Rx, "b") by {
      assert "a"[0] != "b"[0];
      assert p in Ports(m.comps[0], Rx);
    }
    AddKeepsExclusiveIff(m, p, Rx, "b", ability);
  }
}

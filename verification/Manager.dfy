/** The management data as spp_vf keeps it: component slots and pending lists in fixed
    arrays, edited in place.  Every operation is proved against the function of the
    same name in Management. */
module Manager {
  import opened SppTypes
  import opened Management

  /** The shift-delete on the first `num` entries of an array: the last entry equal to `x`
      goes, the ones behind it move up, the freed entry is cleared. */
  method ShiftDelete<T(==)>(x: T, empty: T, num: nat, a: array<T>) returns (found: bool)
    requires num <= a.Length
    modifies a
    ensures found == (x in old(a[..num]))
    ensures !found ==> a[..] == old(a[..])
    ensures found ==> a[..num - 1] == RemoveLast(x, old(a[..num])) && a[num - 1] == empty && a[num..] == old(a[num..])
  {
    var match_ := -1;
    for cnt := 0 to num
      invariant match_ < cnt
      invariant match_ == -1 ==> x !in a[..cnt]
      invariant match_ != -1 ==> 0 <= match_ && a[match_] == x && x !in a[match_ + 1..cnt]
    {
      if x == a[cnt] {
        match_ := cnt;
      }
    }
    if match_ < 0 {
      return false;
    }
    ghost var was := a[..num];
    assert LastIndex(x, was) == Some(match_) by {
      LastIndexUnique(x, was, match_);
    }
    var cnt := match_;
    while cnt < num - 1
      invariant match_ <= cnt <= num - 1
      invariant forall k :: 0 <= k < match_ ==> a[k] == was[k]
      invariant forall k :: match_ <= k < cnt ==> a[k] == was[k + 1]
      invariant forall k :: cnt <= k < num ==> a[k] == was[k]
      invariant a[num..] == old(a[num..])
    {
      a[cnt] := a[cnt + 1];
      cnt := cnt + 1;
    }
    a[cnt] := empty;
    assert a[..num - 1] == was[..match_] + was[match_ + 1..];
    return true;
  }

  lemma {:induction false} LastIndexUnique<T>(x: T, s: seq<T>, k: nat)
    requires k < |s| && s[k] == x && x !in s[k + 1..]
    ensures LastIndex(x, s) == Some(k)
  {
    if k < |s| - 1 {
      var init := s[..|s| - 1];
      assert s[|s| - 1] == s[k + 1..][|s| - k - 2];
      assert init[k + 1..] <= s[k + 1..];
      LastIndexUnique(x, init, k);
    }
  }

  /** There is room on the pending list for one more id; see `ManagedRoom`. */
  predicate Room(m: Mng, lcore: nat) {
    FindFree(m.comps, 0).Some? && lcore < |m.pend| ==> |m.pend[lcore]| < |m.comps|
  }

  /** The lcore of the named component is in range. */
  predicate Placed(m: Mng, name: string) {
    match GetComponentId(m.comps, name)
    case None => true
    case Some(id) => m.comps[id].lcore < |m.comps|
  }

  lemma ManagedRoom(m: Mng, lcore: nat, name: string)
    requires Managed(m)
    ensures Room(m, lcore) && Placed(m, name)
  {
    if FindFree(m.comps, 0).Some? && lcore < |m.pend| {
      AppendInRange(m, lcore);
    }
  }

  // ----- Component slots -----

  predicate AllSome<T>(s: seq<Option<T>>) {
    forall i :: 0 <= i < |s| ==> s[i].Some?
  }

  function Unwrap<T>(s: seq<Option<T>>): seq<T>
    requires AllSome(s)
  {
    seq(|s|, i requires 0 <= i < |s| => s[i].value)
  }

  lemma UnwrapRemove<T>(x: T, s: seq<Option<T>>)
    requires AllSome(s)
    ensures AllSome(RemoveLast(Some(x), s)) && Unwrap(RemoveLast(Some(x), s)) == RemoveLast(x, Unwrap(s))
    ensures Some(x) in s <==> x in Unwrap(s)
  {
    var u := Unwrap(s);
    match LastIndex(Some(x), s)
    case None =>
      assert x !in u;
    case Some(k) =>
      assert u[k] == x;
      var rest, urest := s[k + 1..], u[k + 1..];
      assert forall j :: 0 <= j < |urest| ==> rest[j] == Some(urest[j]);
      LastIndexUnique(x, u, k);
      assert Unwrap(s[..k] + s[k + 1..]) == u[..k] + u[k + 1..];
  }

  class ComponentSlot {
    var name: string
    var typ: CompType
    var lcore: nat
    var id: nat
    var numRx: nat
    var numTx: nat
    const rxPorts: array<Option<PortIndex>>
    const txPorts: array<Option<PortIndex>>

    ghost function Repr(): set<object> { {this, rxPorts, txPorts} }

    ghost predicate Valid()
      reads Repr()
    {
      && rxPorts != txPorts
      && numRx <= rxPorts.Length && numTx <= txPorts.Length
      && AllSome(rxPorts[..numRx]) && AllSome(txPorts[..numTx])
    }

    ghost function Value(): Component
      requires Valid()
      reads Repr()
    {
      Component(name, typ, lcore, id, Unwrap(rxPorts[..numRx]), Unwrap(txPorts[..numTx]))
    }

    constructor (cnt: nat, maxPorts: nat)
      ensures Valid() && fresh(Repr())
      ensures Value() == NO_COMPONENT.(id := cnt)
      ensures rxPorts.Length == txPorts.Length == maxPorts
    {
      name, typ, lcore, id, numRx, numTx := "", Unuse, 0, cnt, 0, 0;
      rxPorts := new Option<PortIndex>[maxPorts](_ => None);
      txPorts := new Option<PortIndex>[maxPorts](_ => None);
    }

    /** `memset` of the slot, then the fields a start sets. */
    method Reset(name: string, typ: CompType, lcore: nat, id: nat)
      requires Valid()
      modifies this
      ensures Valid() && Value() == Component(name, typ, lcore, id, [], [])
    {
      this.name, this.typ, this.lcore, this.id := name, typ, lcore, id;
      numRx, numTx := 0, 0;
    }

    method AppendPort(p: PortIndex, rxtx: RxTx)
      requires Valid()
      requires if rxtx.Rx? then numRx < rxPorts.Length else numTx < txPorts.Length
      modifies Repr()
      ensures Valid() && Value() == WithPorts(old(Value()), rxtx, Ports(old(Value()), rxtx) + [p])
    {
      if rxtx.Rx? {
        rxPorts[numRx] := Some(p);
        numRx := numRx + 1;
        assert rxPorts[..numRx] == old(rxPorts[..numRx]) + [Some(p)];
        assert txPorts[..numTx] == old(txPorts[..numTx]);
        assert Value().rx == old(Value()).rx + [p];
      } else {
        txPorts[numTx] := Some(p);
        numTx := numTx + 1;
        assert txPorts[..numTx] == old(txPorts[..numTx]) + [Some(p)];
        assert rxPorts[..numRx] == old(rxPorts[..numRx]);
        assert Value().tx == old(Value()).tx + [p];
      }
    }

    method DeletePort(p: PortIndex, rxtx: RxTx)
      requires Valid()
      modifies Repr()
      ensures Valid() && Value() == WithPorts(old(Value()), rxtx, RemoveLast(p, Ports(old(Value()), rxtx)))
    {
      ghost var rx, tx := rxPorts[..numRx], txPorts[..numTx];
      if rxtx.Rx? {
        UnwrapRemove(p, rx);
        var found := ShiftDelete(Some(p), None, numRx, rxPorts);
        if found {
          numRx := numRx - 1;
        }
        assert rxPorts[..numRx] == RemoveLast(Some(p), rx) by {
          if !found {
            assert rxPorts[..numRx] == old(rxPorts[..])[..numRx] == rx;
          }
        }
        assert txPorts[..numTx] == tx;
      } else {
        UnwrapRemove(p, tx);
        var found := ShiftDelete(Some(p), None, numTx, txPorts);
        if found {
          numTx := numTx - 1;
        }
        assert txPorts[..numTx] == RemoveLast(Some(p), tx) by {
          if !found {
            assert txPorts[..numTx] == old(txPorts[..])[..numTx] == tx;
          }
        }
        assert rxPorts[..numRx] == rx;
      }
    }
  }

  /** The pending component list of one lcore. */
  class CoreInfo {
    var num: nat
    const id: array<nat>

    ghost function Repr(): set<object> { {this, id} }

    ghost predicate Valid()
      reads Repr()
    {
      num <= id.Length
    }

    ghost function Contents(): seq<nat>
      requires Valid()
      reads Repr()
    {
      id[..num]
    }

    constructor (max: nat)
      ensures Valid() && fresh(Repr()) && Contents() == [] && id.Length == max
    {
      num := 0;
      id := new nat[max](_ => 0);
    }

    method Append(x: nat)
      requires Valid() && num < id.Length
      modifies Repr()
      ensures Valid() && Contents() == old(Contents()) + [x]
    {
      id[num] := x;
      num := num + 1;
    }

    method Delete(x: nat)
      requires Valid()
      modifies Repr()
      ensures Valid() && Contents() == RemoveLast(x, old(Contents()))
    {
      var found := ShiftDelete(x, 0, num, id);
      if found {
        num := num - 1;
      } else {
        assert id[..num] == old(id[..])[..num];
      }
    }
  }

  // ----- All of it -----

  ghost predicate Blank(c: ComponentSlot, cnt: nat, maxPorts: nat)
    reads c.Repr()
  {
    c.Valid() && c.Value() == NO_COMPONENT.(id := cnt) && c.rxPorts.Length == c.txPorts.Length == maxPorts
  }

  method NewSlots(n: nat, maxPorts: nat) returns (cs: seq<ComponentSlot>, ghost repr: set<object>)
    ensures |cs| == n && fresh(repr)
    ensures forall k :: 0 <= k < n ==> cs[k].Repr() <= repr && Blank(cs[k], k, maxPorts)
    ensures forall j, k :: 0 <= j < k < n ==> cs[j].Repr() !! cs[k].Repr()
  {
    cs, repr := [], {};
    for i := 0 to n
      invariant |cs| == i && fresh(repr)
      invariant forall k :: 0 <= k < i ==> cs[k].Repr() <= repr && Blank(cs[k], k, maxPorts)
      invariant forall j, k :: 0 <= j < k < i ==> cs[j].Repr() !! cs[k].Repr()
    {
      var c := new ComponentSlot(i, maxPorts);
      assert Blank(c, i, maxPorts);
      cs, repr := cs + [c], repr + c.Repr();
    }
  }

  method NewLists(n: nat) returns (ls: seq<CoreInfo>, ghost repr: set<object>)
    ensures |ls| == n && fresh(repr)
    ensures forall k :: 0 <= k < n ==> ls[k].Repr() <= repr && ls[k].Valid() && ls[k].Contents() == []
    ensures forall k :: 0 <= k < n ==> ls[k].id.Length == n
    ensures forall j, k :: 0 <= j < k < n ==> ls[j].Repr() !! ls[k].Repr()
  {
    ls, repr := [], {};
    for i := 0 to n
      invariant |ls| == i && fresh(repr)
      invariant forall k :: 0 <= k < i ==> ls[k].Repr() <= repr && ls[k].Valid() && ls[k].Contents() == []
      invariant forall k :: 0 <= k < i ==> ls[k].id.Length == n
      invariant forall j, k :: 0 <= j < k < i ==> ls[j].Repr() !! ls[k].Repr()
    {
      var c := new CoreInfo(n);
      ls, repr := ls + [c], repr + c.Repr();
    }
  }

  class MngData {
    const comps: seq<ComponentSlot>
    const cores: seq<CoreInfo>
    const chgCore: array<bool>
    const chgComp: array<bool>
    const maxPorts: nat
    ghost const compRepr: set<object>  // the slots and their arrays
    ghost const coreRepr: set<object>  // the lists and their arrays
    var usable: seq<bool>
    var added: set<PortIndex>
    var abil: map<PortIndex, seq<Ability>>
    var cls: map<PortIndex, ClassId>

    ghost function Repr(): set<object> {
      {this, chgCore, chgComp} + compRepr + coreRepr
    }

    /** Slots and lists are separate objects of the right sizes. */
    ghost predicate Layout() {
      && |comps| == |cores| == chgCore.Length == chgComp.Length
      && chgCore != chgComp
      && (forall i :: 0 <= i < |comps| ==> comps[i].Repr() <= compRepr)
      && (forall l :: 0 <= l < |cores| ==> cores[l].Repr() <= coreRepr)
      && (forall i, j :: 0 <= i < j < |comps| ==> comps[i].Repr() !! comps[j].Repr())
      && (forall l, k :: 0 <= l < k < |cores| ==> cores[l].Repr() !! cores[k].Repr())
      && compRepr !! coreRepr
      && {this, chgCore, chgComp} !! compRepr + coreRepr
      && (forall i :: 0 <= i < |comps| ==> comps[i].rxPorts.Length == comps[i].txPorts.Length == maxPorts)
      && (forall l :: 0 <= l < |cores| ==> cores[l].id.Length == |comps|)
    }

    ghost predicate SlotsValid()
      requires Layout()
      reads compRepr
    {
      forall i :: 0 <= i < |comps| ==> comps[i].Valid()
    }

    ghost predicate ListsValid()
      requires Layout()
      reads coreRepr
    {
      forall l :: 0 <= l < |cores| ==> cores[l].Valid()
    }

    ghost predicate Valid()
      reads Repr()
    {
      Layout() && SlotsValid() && ListsValid()
    }

    ghost function Comps(): (r: seq<Component>)
      requires Layout() && SlotsValid()
      reads compRepr
      ensures |r| == |comps| && forall i :: 0 <= i < |comps| ==> r[i] == comps[i].Value()
    {
      seq(|comps|, i requires 0 <= i < |comps| && SlotsValid() reads compRepr => comps[i].Value())
    }

    ghost function Pending(): (r: seq<seq<nat>>)
      requires Layout() && ListsValid()
      reads coreRepr
      ensures |r| == |cores| && forall l :: 0 <= l < |cores| ==> r[l] == cores[l].Contents()
    {
      seq(|cores|, l requires 0 <= l < |cores| && ListsValid() reads coreRepr => cores[l].Contents())
    }

    ghost function Model(): Mng
      requires Valid()
      reads Repr()
    {
      Mng(Comps(), Pending(), usable, chgCore[..], chgComp[..], added, abil, cls, maxPorts)
    }

    lemma SlotInRepr(cid: nat)
      requires Layout() && cid < |comps|
      ensures comps[cid].Repr() <= compRepr <= Repr()
      ensures forall i :: 0 <= i < |comps| && i != cid ==> comps[i].Repr() !! comps[cid].Repr()
    {
    }

    lemma ListInRepr(l: nat)
      requires Layout() && l < |cores|
      ensures cores[l].Repr() <= coreRepr <= Repr()
      ensures forall i :: 0 <= i < |cores| && i != l ==> cores[i].Repr() !! cores[l].Repr()
    {
    }

    // ----- Edits of one slot, one list or one flag -----

    method ResetSlot(cid: nat, name: string, typ: CompType, lcore: nat, id: nat)
      requires Valid() && cid < |comps|
      modifies compRepr
      ensures Valid()
      ensures Model() == old(Model()).(comps := old(Comps())[cid := Component(name, typ, lcore, id, [], [])])
    {
      SlotInRepr(cid);
      comps[cid].Reset(name, typ, lcore, id);
      assert Comps() == old(Comps())[cid := Component(name, typ, lcore, id, [], [])];
    }

    method AppendSlotPort(cid: nat, p: PortIndex, rxtx: RxTx)
      requires Valid() && cid < |comps| && |Ports(Comps()[cid], rxtx)| < maxPorts
      modifies compRepr
      ensures Valid()
      ensures var c := old(Comps())[cid];
              Model() == old(Model()).(comps := old(Comps())[cid := WithPorts(c, rxtx, Ports(c, rxtx) + [p])])
    {
      SlotInRepr(cid);
      ghost var c := Comps()[cid];
      comps[cid].AppendPort(p, rxtx);
      assert Comps() == old(Comps())[cid := WithPorts(c, rxtx, Ports(c, rxtx) + [p])];
    }

    method DeleteSlotPort(cid: nat, p: PortIndex, rxtx: RxTx)
      requires Valid() && cid < |comps|
      modifies compRepr
      ensures Valid()
      ensures var c := old(Comps())[cid];
              Model() == old(Model()).(comps := old(Comps())[cid := WithPorts(c, rxtx, RemoveLast(p, Ports(c, rxtx)))])
    {
      SlotInRepr(cid);
      ghost var c := Comps()[cid];
      comps[cid].DeletePort(p, rxtx);
      assert Comps() == old(Comps())[cid := WithPorts(c, rxtx, RemoveLast(p, Ports(c, rxtx)))];
    }

    method AppendPending(l: nat, x: nat)
      requires Valid() && l < |cores| && |Pending()[l]| < |comps|
      modifies coreRepr
      ensures Valid()
      ensures Model() == old(Model()).(pend := old(Pending())[l := old(Pending())[l] + [x]])
    {
      ListInRepr(l);
      cores[l].Append(x);
      assert Pending() == old(Pending())[l := old(Pending())[l] + [x]];
    }

    method DeletePending(l: nat, x: nat)
      requires Valid() && l < |cores|
      modifies coreRepr
      ensures Valid()
      ensures Model() == old(Model()).(pend := old(Pending())[l := RemoveLast(x, old(Pending())[l])])
    {
      ListInRepr(l);
      cores[l].Delete(x);
      assert Pending() == old(Pending())[l := RemoveLast(x, old(Pending())[l])];
    }

    method SetChange(core: nat, cid: nat, start: bool)
      requires Valid() && core < |comps| && cid < |comps|
      modifies chgCore, chgComp
      ensures Valid()
      ensures Model() == old(Model()).(chgCore := old(Model()).chgCore[core := true], chgComp := old(Model()).chgComp[cid := start])
    {
      chgComp[cid] := start;
      chgCore[core] := true;
    }

    method SetChangeComp(cid: nat)
      requires Valid() && cid < |comps|
      modifies chgComp
      ensures Valid()
      ensures Model() == old(Model()).(chgComp := old(Model()).chgComp[cid := true])
    {
      chgComp[cid] := true;
    }

    method SetAbility(p: PortIndex, a: seq<Ability>)
      requires Valid()
      modifies this
      ensures Valid()
      ensures Model() == old(Model()).(abil := old(Model()).abil[p := a])
    {
      abil := abil[p := a];
    }

    method SetAdded(p: PortIndex)
      requires Valid()
      modifies this
      ensures Valid()
      ensures Model() == old(Model()).(added := old(Model()).added + {p})
    {
      added := added + {p};
    }

    // ----- Commands -----

    constructor (n: nat, usable: seq<bool>, maxPorts: nat, phys: set<PortIndex>)
      ensures Layout() && fresh(Repr()) && |comps| == n
      ensures this.usable == usable && this.maxPorts == maxPorts
      ensures added == phys && abil == map[] && cls == map[]
      ensures forall i :: 0 <= i < n ==> Blank(comps[i], i, maxPorts)
      ensures forall l :: 0 <= l < n ==> cores[l].Valid() && cores[l].Contents() == []
      ensures forall i :: 0 <= i < n ==> !chgCore[i] && !chgComp[i]
    {
      chgCore := new bool[n](_ => false);
      chgComp := new bool[n](_ => false);
      var cs, crepr := NewSlots(n, maxPorts);
      var ls, lrepr := NewLists(n);
      compRepr, coreRepr := crepr, lrepr;
      this.comps, this.cores, this.usable, this.maxPorts := cs, ls, usable, maxPorts;
      this.added, this.abil, this.cls := phys, map[], map[];
    }

    /** The management data after initialisation: no component, empty lists. */
    static method Create(n: nat, usable: seq<bool>, maxPorts: nat, phys: set<PortIndex>) returns (d: MngData)
      requires |usable| == n
      ensures d.Valid() && fresh(d.Repr()) && d.Model() == Init(n, usable, maxPorts, phys)
    {
      d := new MngData(n, usable, maxPorts, phys);
      forall i | 0 <= i < n ensures d.comps[i].Valid() {
        assert Blank(d.comps[i], i, maxPorts);
      }
      assert d.Comps() == Init(n, usable, maxPorts, phys).comps;
      assert d.Pending() == Init(n, usable, maxPorts, phys).pend;
    }

    method GetComponentId(name: string) returns (id: int)
      requires Valid()
      ensures Valid() && Model() == old(Model())
      ensures match Management.GetComponentId(Comps(), name)
              case None => id == -1
              case Some(k) => id == k
    {
      if name == "" {
        return -1;
      }
      var cnt := 0;
      while cnt < |comps|
        invariant 0 <= cnt <= |comps|
        invariant FindName(Comps(), name, 0) == FindName(Comps(), name, cnt)
      {
        if comps[cnt].name == name {
          return cnt;
        }
        cnt := cnt + 1;
      }
      return -1;
    }

    method GetFreeComponent() returns (id: int)
      requires Valid()
      ensures Valid() && Model() == old(Model())
      ensures match FindFree(Comps(), 0)
              case None => id == -1
              case Some(k) => id == k
    {
      var cnt := 0;
      while cnt < |comps|
        invariant 0 <= cnt <= |comps|
        invariant FindFree(Comps(), 0) == FindFree(Comps(), cnt)
      {
        if comps[cnt].typ.Unuse? {
          return cnt;
        }
        cnt := cnt + 1;
      }
      return -1;
    }

    /** `component start`. */
    method StartComponent(name: string, lcore: nat, typ: CompType) returns (ok: bool)
      requires Valid() && Shape(Model()) && Room(Model(), lcore)
      modifies Repr()
      ensures Valid()
      ensures ok == Start(old(Model()), name, lcore, typ).Some?
      ensures Model() == (if ok then Start(old(Model()), name, lcore, typ).value else old(Model()))
    {
      ghost var m := Model();
      assert |usable| == |m.comps| && m.comps == Comps();
      if lcore >= |usable| || !usable[lcore] {
        return false;
      }
      var cid := GetComponentId(name);
      if cid >= 0 {
        assert Start(m, name, lcore, typ) == None;
        return false;
      }
      cid := GetFreeComponent();
      if cid < 0 {
        assert Start(m, name, lcore, typ) == None;
        return false;
      }
      assert FindFree(m.comps, 0) == Some(cid);
      assert |m.pend[lcore]| < |m.comps|;
      ghost var m' := Started(m, cid, name, lcore, typ);
      assert Start(m, name, lcore, typ) == Some(m');
      Enter(cid, name, lcore, typ);
      assert Model() == m';
      return true;
    }

    ghost function Started(m: Mng, cid: nat, name: string, lcore: nat, typ: CompType): Mng
      requires Shape(m) && cid < |m.comps| && lcore < |m.comps|
    {
      m.(comps := m.comps[cid := Component(name, typ, lcore, cid, [], [])],
         pend := m.pend[lcore := m.pend[lcore] + [cid]],
         chgComp := m.chgComp[cid := true], chgCore := m.chgCore[lcore := true])
    }

    method Enter(cid: nat, name: string, lcore: nat, typ: CompType)
      requires Valid() && Shape(Model()) && cid < |comps| && lcore < |cores| && |Model().pend[lcore]| < |comps|
      modifies Repr()
      ensures Valid()
      ensures Model() == Started(old(Model()), cid, name, lcore, typ)
    {
      ResetSlot(cid, name, typ, lcore, cid);
      AppendPending(lcore, cid);
      SetChange(lcore, cid, true);
    }

    /** `component stop`. */
    method StopComponent(name: string)
      requires Valid() && Shape(Model()) && Placed(Model(), name)
      modifies Repr()
      ensures Valid() && Model() == Stop(old(Model()), name)
    {
      var cid := GetComponentId(name);
      if cid < 0 {
        return;
      }
      var lcore := comps[cid].lcore;
      ResetSlot(cid, "", Unuse, 0, 0);
      DeletePending(lcore, cid);
      SetChange(lcore, cid, false);
    }

    /** `port add`. */
    method AddPort(p: PortIndex, rxtx: RxTx, name: string, ability: Ability) returns (ok: bool)
      requires Valid() && Shape(Model())
      modifies Repr()
      ensures Valid()
      ensures ok == PortAdd(old(Model()), p, rxtx, name, ability).Some?
      ensures Model() == (if ok then PortAdd(old(Model()), p, rxtx, name, ability).value else old(Model()))
    {
      var cid := GetComponentId(name);
      if cid < 0 {
        return false;
      }
      ghost var c := Model().comps[cid];
      assert |c.rx| == comps[cid].numRx && |c.tx| == comps[cid].numTx && c.typ == comps[cid].typ;
      if !CheckPortCount(comps[cid].typ, rxtx, comps[cid].numRx, comps[cid].numTx) {
        return false;
      }
      var has := HasPort(cid, p, rxtx);
      if has {
        ok := Retag(cid, p, ability);
      } else {
        ok := AddNew(cid, p, rxtx, ability);
      }
    }

    /** The component already has the port. */
    method Retag(cid: nat, p: PortIndex, ability: Ability) returns (ok: bool)
      requires Valid() && Shape(Model()) && cid < |comps|
      modifies this, chgComp
      ensures Valid()
      ensures var m, k := old(Model()), FindOpe(AbilityOf(old(Model()), p), AddVlanTag, 0);
              && ok == (ability.ope != AddVlanTag || k.Some?)
              && Model() == (if ability.ope != AddVlanTag || k.None? then m
                             else m.(abil := m.abil[p := AbilityOf(m, p)[k.value := ability]],
                                     chgComp := m.chgComp[cid := true]))
    {
      if ability.ope != AddVlanTag {
        return true;
      }
      var a := if p in abil then abil[p] else seq(ABILITY_MAX, _ => NO_ABILITY);
      var k := FirstOpe(a, AddVlanTag);
      if k < 0 {
        return false;
      }
      SetAbility(p, a[k := ability]);
      SetChangeComp(cid);
      return true;
    }

    method AddNew(cid: nat, p: PortIndex, rxtx: RxTx, ability: Ability) returns (ok: bool)
      requires Valid() && Shape(Model()) && cid < |comps|
      modifies Repr()
      ensures Valid()
      ensures var m, k := old(Model()), FindOpe(AbilityOf(old(Model()), p), NoOpe, 0);
              var c := m.comps[cid];
              var m1 := m.(comps := m.comps[cid := WithPorts(c, rxtx, Ports(c, rxtx) + [p])],
                           chgComp := m.chgComp[cid := true], added := m.added + {p});
              && ok == (|Ports(c, rxtx)| < maxPorts && (ability.ope == NoOpe || k.Some?))
              && Model() == (if !ok then m
                             else if ability.ope == NoOpe then m1
                             else m1.(abil := m.abil[p := AbilityOf(m, p)[k.value := ability]]))
    {
      var num := if rxtx.Rx? then comps[cid].numRx else comps[cid].numTx;
      assert num == |Ports(Model().comps[cid], rxtx)|;
      if num >= maxPorts {
        return false;
      }
      if ability.ope != NoOpe {
        var a := if p in abil then abil[p] else seq(ABILITY_MAX, _ => NO_ABILITY);
        var k := FirstOpe(a, NoOpe);
        if k < 0 {
          return false;
        }
        SetAbility(p, a[k := ability]);
      }
      SetAdded(p);
      AppendSlotPort(cid, p, rxtx);
      SetChangeComp(cid);
      return true;
    }

    method HasPort(cid: nat, p: PortIndex, rxtx: RxTx) returns (has: bool)
      requires Valid() && cid < |comps|
      ensures Valid() && Model() == old(Model())
      ensures has == (p in Ports(Model().comps[cid], rxtx))
    {
      var c := comps[cid];
      var a := if rxtx.Rx? then c.rxPorts else c.txPorts;
      var num := if rxtx.Rx? then c.numRx else c.numTx;
      has := false;
      for cnt := 0 to num
        invariant has == (Some(p) in a[..cnt])
      {
        if a[cnt] == Some(p) {
          has := true;
        }
      }
      UnwrapRemove(p, a[..num]);
    }

    /** First ability entry with that operation, -1 when there is none. */
    method FirstOpe(a: seq<Ability>, ope: AbilityOpe) returns (k: int)
      requires Valid()
      ensures Valid() && Model() == old(Model())
      ensures match FindOpe(a, ope, 0)
              case None => k == -1
              case Some(i) => k == i
    {
      var cnt := 0;
      while cnt < |a| && a[cnt].ope != ope
        invariant 0 <= cnt <= |a|
        invariant FindOpe(a, ope, 0) == FindOpe(a, ope, cnt)
      {
        cnt := cnt + 1;
      }
      return if cnt < |a| then cnt else -1;
    }

    /** `port del`. */
    method DelPort(p: PortIndex, rxtx: RxTx, name: string) returns (ok: bool)
      requires Valid() && Shape(Model())
      modifies Repr()
      ensures Valid()
      ensures ok == PortDel(old(Model()), p, rxtx, name).Some?
      ensures Model() == (if ok then PortDel(old(Model()), p, rxtx, name).value else old(Model()))
    {
      var cid := GetComponentId(name);
      if cid < 0 {
        return false;
      }
      var a := Cleared(if p in abil then abil[p] else seq(ABILITY_MAX, _ => NO_ABILITY), rxtx);
      SetAbility(p, a);
      DeleteSlotPort(cid, p, rxtx);
      SetChangeComp(cid);
      return true;
    }

    method Cleared(before: seq<Ability>, rxtx: RxTx) returns (a: seq<Ability>)
      requires Valid() && |before| == ABILITY_MAX
      ensures Valid() && Model() == old(Model())
      ensures a == ClearAbility(before, rxtx)
    {
      a := before;
      for cnt := 0 to ABILITY_MAX
        invariant |a| == ABILITY_MAX
        invariant forall i :: 0 <= i < cnt ==> a[i] == ClearAbility(before, rxtx)[i]
        invariant forall i :: cnt <= i < ABILITY_MAX ==> a[i] == before[i]
      {
        if a[cnt].ope != NoOpe && a[cnt].rxtx == rxtx {
          a := a[cnt := NO_ABILITY];
        }
      }
    }

    /** First component that uses the port in that direction, -1 when there is none. */
    method CheckUsedPort(p: PortIndex, rxtx: RxTx) returns (id: int)
      requires Valid()
      ensures Valid() && Model() == old(Model())
      ensures match UsedBy(Comps(), p, rxtx, 0)
              case None => id == -1
              case Some(k) => id == k
    {
      var cnt := 0;
      while cnt < |comps|
        invariant 0 <= cnt <= |comps|
        invariant Valid() && Model() == old(Model())
        invariant UsedBy(Comps(), p, rxtx, 0) == UsedBy(Comps(), p, rxtx, cnt)
      {
        if !comps[cnt].typ.Unuse? {
          var has := HasPort(cnt, p, rxtx);
          if has {
            return cnt;
          }
        }
        cnt := cnt + 1;
      }
      return -1;
    }

    method SetClass(p: PortIndex, c: ClassId)
      requires Valid() && Shape(Model())
      modifies this, chgComp
      ensures Valid()
      ensures Model() == FlagUser(old(Model()).(cls := old(Model()).cls[p := c]), p)
    {
      var id := CheckUsedPort(p, Tx);
      cls := cls[p := c];
      if id >= 0 {
        SetChangeComp(id);
      }
    }

    /** `classifier_table add`. */
    method AddClass(p: PortIndex, vid: nat, mac: nat) returns (ok: bool)
      requires Valid() && Shape(Model())
      modifies this, chgComp
      ensures Valid()
      ensures ok == ClassAdd(old(Model()), p, vid, mac).Some?
      ensures Model() == (if ok then ClassAdd(old(Model()), p, vid, mac).value else old(Model()))
    {
      var c := if p in cls then cls[p] else NO_CLASS;
      if p !in added || c.vid != UNTAGGED_VID || c.mac != 0 {
        return false;
      }
      SetClass(p, ClassId(vid, mac));
      return true;
    }

    /** `classifier_table del`. */
    method DelClass(p: PortIndex, vid: nat, mac: nat) returns (ok: bool)
      requires Valid() && Shape(Model())
      modifies this, chgComp
      ensures Valid()
      ensures ok == ClassDel(old(Model()), p, vid, mac).Some?
      ensures Model() == (if ok then ClassDel(old(Model()), p, vid, mac).value else old(Model()))
    {
      var c := if p in cls then cls[p] else NO_CLASS;
      if p !in added || (c.vid != 0 && c.vid != vid) || (c.mac != 0 && c.mac != mac) {
        return false;
      }
      SetClass(p, NO_CLASS);
      return true;
    }
  }
}

/** The MAC/VLAN classifier: per-VID tables built from the list of transmit ports, and the
    lookup that selects a port for a frame.  The tables are a fast index over the list: the
    lookup is proved equal to a direct scan of it, and to what the list says case by case. */
module Classifier {
  import opened SppTypes
  import opened Management

  /** What the classifier looks at: destination, first octet in the low byte, and the tag
      control information if the frame is tagged. */
  datatype Frame = Frame(dst: nat, tci: Option<nat>)

  function GetVid(f: Frame): (vid: nat)
    ensures vid < NUM_VLAN_VID
  {
    match f.tci
    case Some(t) => t % NUM_VLAN_VID
    case None => UNTAGGED_VID
  }

  predicate IsMulticast(dst: nat) { dst % 2 == 1 }

  /** Result codes of the selection besides an index. */
  const NO_DESTINATION := -1
  const MULTICAST := -2

  /** Keys a classification table can hold. */
  const TABLE_ENTRIES: nat := 128

  /** The hash key: the six address octets. */
  function Key(mac: nat): nat { mac % MAC_LIMIT }

  datatype MacClassification = MacClassification(tab: map<nat, nat>, active: seq<nat>, default_: int)

  const NEW_CLASSIFICATION := MacClassification(map[], [], -1)

  // ----- The direct scan -----

  /** Port `i` has an entry for the VID. */
  predicate Entered(ports: seq<ClassId>, i: nat, vid: nat)
    requires i < |ports|
  {
    ports[i].vid == vid && ports[i].mac != 0
  }

  /** Last of the first `k` ports entered for that VID and address, -1 if none. */
  function LastFor(ports: seq<ClassId>, vid: nat, dst: nat, k: nat): (r: int)
    requires k <= |ports|
    ensures -1 <= r < k
  {
    if k == 0 then -1
    else if Entered(ports, k - 1, vid) && ports[k - 1].mac != DEFAULT_MAC && Key(ports[k - 1].mac) == dst then k - 1
    else LastFor(ports, vid, dst, k - 1)
  }

  /** Last of the first `k` ports that is a default of that VID, -1 if none. */
  function DefaultFor(ports: seq<ClassId>, vid: nat, k: nat): (r: int)
    requires k <= |ports|
    ensures -1 <= r < k
  {
    if k == 0 then -1
    else if Entered(ports, k - 1, vid) && ports[k - 1].mac == DEFAULT_MAC then k - 1
    else DefaultFor(ports, vid, k - 1)
  }

  /** Ports among the first `k` entered for the VID, in order. */
  function ActiveFor(ports: seq<ClassId>, vid: nat, k: nat): seq<nat>
    requires k <= |ports|
  {
    if k == 0 then []
    else ActiveFor(ports, vid, k - 1) + (if Entered(ports, k - 1, vid) then [k - 1] else [])
  }

  /** What the list of ports alone says about a frame: the last port entered for its VID and
      address; else the multicast code if the VID has any entry; else the default of the
      VID; else the default of untagged frames; else nothing. */
  function DirectScan(ports: seq<ClassId>, f: Frame): int {
    var vid, n := GetVid(f), |ports|;
    var general := DefaultFor(ports, UNTAGGED_VID, n);
    if ActiveFor(ports, vid, n) == [] then general
    else if LastFor(ports, vid, f.dst, n) >= 0 then LastFor(ports, vid, f.dst, n)
    else if IsMulticast(f.dst) then MULTICAST
    else if DefaultFor(ports, vid, n) >= 0 then DefaultFor(ports, vid, n)
    else general
  }

  // ----- What the list says, without scanning it -----

  /** Port `i` is entered for that VID and address. */
  ghost predicate Addressed(ports: seq<ClassId>, i: nat, vid: nat, dst: nat) {
    i < |ports| && ports[i].vid == vid && ports[i].mac != 0 && ports[i].mac != DEFAULT_MAC && ports[i].mac % MAC_LIMIT == dst
  }

  /** Port `i` is a default of that VID. */
  ghost predicate IsDefault(ports: seq<ClassId>, i: nat, vid: nat) {
    i < |ports| && ports[i].vid == vid && ports[i].mac == DEFAULT_MAC
  }

  /** Some port is entered for that VID, with whatever address. */
  ghost predicate Known(ports: seq<ClassId>, vid: nat) {
    exists i :: 0 <= i < |ports| && ports[i].vid == vid && ports[i].mac != 0
  }

  ghost predicate LastAddressed(ports: seq<ClassId>, i: nat, vid: nat, dst: nat) {
    Addressed(ports, i, vid, dst) && forall j: nat :: i < j ==> !Addressed(ports, j, vid, dst)
  }

  ghost predicate LastDefault(ports: seq<ClassId>, i: nat, vid: nat) {
    IsDefault(ports, i, vid) && forall j: nat :: i < j ==> !IsDefault(ports, j, vid)
  }

  ghost predicate NoneAddressed(ports: seq<ClassId>, vid: nat, dst: nat) {
    forall i: nat :: !Addressed(ports, i, vid, dst)
  }

  ghost predicate NoDefault(ports: seq<ClassId>, vid: nat) {
    forall i: nat :: !IsDefault(ports, i, vid)
  }

  /** The index selected for a frame of that VID and destination: the last port entered for
      both; else, if the VID has any port and the destination is a group address, the
      multicast code; else the last default of the VID; else the last default of untagged
      frames, also where the VID has no port; else none. */
  ghost predicate Selects(ports: seq<ClassId>, vid: nat, dst: nat, r: int) {
    && (forall i: nat :: LastAddressed(ports, i, vid, dst) ==> r == i)
    && (NoneAddressed(ports, vid, dst) ==>
          if Known(ports, vid) && dst % 2 == 1 then r == MULTICAST
          else
            && (forall i: nat :: LastDefault(ports, i, vid) ==> r == i)
            && (NoDefault(ports, vid) ==>
                  && (forall i: nat :: LastDefault(ports, i, UNTAGGED_VID) ==> r == i)
                  && (NoDefault(ports, UNTAGGED_VID) ==> r == NO_DESTINATION)))
  }

  /** The cases of `Selects` leave out nothing: one index is selected and no other. */
  lemma SelectsOne(ports: seq<ClassId>, vid: nat, dst: nat, r: int, q: int)
    requires Selects(ports, vid, dst, r) && Selects(ports, vid, dst, q)
    ensures r == q
  {
    LastForCase(ports, vid, dst);
    DefaultForCase(ports, vid);
    DefaultForCase(ports, UNTAGGED_VID);
  }

  lemma LastForCase(ports: seq<ClassId>, vid: nat, dst: nat)
    ensures var r := LastFor(ports, vid, dst, |ports|);
            if r >= 0 then LastAddressed(ports, r, vid, dst) else NoneAddressed(ports, vid, dst)
  {
    LastForExact(ports, vid, dst, |ports|);
  }

  lemma DefaultForCase(ports: seq<ClassId>, vid: nat)
    ensures var r := DefaultFor(ports, vid, |ports|);
            if r >= 0 then LastDefault(ports, r, vid) else NoDefault(ports, vid)
  {
    DefaultForExact(ports, vid, |ports|);
  }

  lemma KnownCase(ports: seq<ClassId>, vid: nat)
    ensures Known(ports, vid) <==> ActiveFor(ports, vid, |ports|) != []
  {
    ActiveForExact(ports, vid, |ports|);
    var a := ActiveFor(ports, vid, |ports|);
    if a != [] {
      assert a[0] in a;
      assert Entered(ports, a[0], vid);
    }
    if Known(ports, vid) {
      var i: nat :| i < |ports| && ports[i].vid == vid && ports[i].mac != 0;
      assert Entered(ports, i, vid);
      assert i in a;
    }
  }

  /** The direct scan selects it. */
  lemma ScanSelects(ports: seq<ClassId>, f: Frame)
    ensures Selects(ports, GetVid(f), f.dst, DirectScan(ports, f))
  {
    var vid := GetVid(f);
    LastForCase(ports, vid, f.dst);
    DefaultForCase(ports, vid);
    DefaultForCase(ports, UNTAGGED_VID);
    KnownCase(ports, vid);
  }

  /** The transmit ports that receive a frame, according to the list alone. */
  function Dests(ports: seq<ClassId>, f: Frame): seq<nat> {
    var r, general := DirectScan(ports, f), DefaultFor(ports, UNTAGGED_VID, |ports|);
    if r >= 0 then [r]
    else if r == MULTICAST then
      ActiveFor(ports, GetVid(f), |ports|) + (if general >= 0 && GetVid(f) != UNTAGGED_VID then [general] else [])
    else []
  }

  /** No port receives a frame twice, and only ports of the list do. */
  lemma DestsOnce(ports: seq<ClassId>, f: Frame)
    ensures NoDups(Dests(ports, f))
    ensures forall i :: i in Dests(ports, f) ==> i < |ports|
  {
    ActiveForExact(ports, GetVid(f), |ports|);
    DefaultForExact(ports, UNTAGGED_VID, |ports|);
    var a := ActiveFor(ports, GetVid(f), |ports|);
    assert forall x :: 0 <= x < |a| ==> a[x] in a;
  }

  /** The listing of a VID's ports: each once, in increasing order. */
  lemma {:induction false} ActiveForExact(ports: seq<ClassId>, vid: nat, k: nat)
    requires k <= |ports|
    ensures var a := ActiveFor(ports, vid, k);
            && (forall i: nat :: i in a <==> i < k && Entered(ports, i, vid))
            && (forall x, y :: 0 <= x < y < |a| ==> a[x] < a[y])
  {
    if k > 0 {
      ActiveForExact(ports, vid, k - 1);
      var b := ActiveFor(ports, vid, k - 1);
      assert forall x :: 0 <= x < |b| ==> b[x] in b;
    }
  }

  /** The scan picks a port that matches, and the last such. */
  lemma {:induction false} LastForExact(ports: seq<ClassId>, vid: nat, dst: nat, k: nat)
    requires k <= |ports|
    ensures var r := LastFor(ports, vid, dst, k);
            && (r >= 0 ==> Entered(ports, r, vid) && ports[r].mac != DEFAULT_MAC && Key(ports[r].mac) == dst)
            && forall i: nat :: r < i < k && Entered(ports, i, vid) && Key(ports[i].mac) == dst ==>
                 ports[i].mac == DEFAULT_MAC
  {
    if k > 0 {
      LastForExact(ports, vid, dst, k - 1);
    }
  }

  lemma {:induction false} DefaultForExact(ports: seq<ClassId>, vid: nat, k: nat)
    requires k <= |ports|
    ensures var r := DefaultFor(ports, vid, k);
            && (r >= 0 ==> Entered(ports, r, vid) && ports[r].mac == DEFAULT_MAC)
            && forall i: nat :: r < i < k && Entered(ports, i, vid) ==> ports[i].mac != DEFAULT_MAC
  {
    if k > 0 {
      DefaultForExact(ports, vid, k - 1);
    }
  }

  /** The ports of a VID and behind them the default of untagged frames. */
  lemma FanoutCases(ports: seq<ClassId>, vid: nat, out: seq<nat>)
    requires var general := DefaultFor(ports, UNTAGGED_VID, |ports|);
             out == ActiveFor(ports, vid, |ports|) + (if general >= 0 && vid != UNTAGGED_VID then [general] else [])
    ensures NoDups(out)
    ensures forall i: nat :: i in out <==>
              && i < |ports|
              && ((ports[i].vid == vid && ports[i].mac != 0) || (vid != UNTAGGED_VID && LastDefault(ports, i, UNTAGGED_VID)))
    ensures forall x, y :: 0 <= x < y < |out| && out[y] < |ports| && ports[out[y]].vid == vid ==> out[x] < out[y]
  {
    ActiveForExact(ports, vid, |ports|);
    DefaultForCase(ports, UNTAGGED_VID);
    var a := ActiveFor(ports, vid, |ports|);
    forall x | 0 <= x < |a| ensures a[x] < |ports| && Entered(ports, a[x], vid) {
      assert a[x] in a;
    }
    forall i: nat | i < |ports| ensures i in a <==> ports[i].vid == vid && ports[i].mac != 0 {
      assert Entered(ports, i, vid) <==> ports[i].vid == vid && ports[i].mac != 0;
    }
    forall i: nat ensures i in out <==> i in a || (vid != UNTAGGED_VID && LastDefault(ports, i, UNTAGGED_VID)) {
    }
  }

  // ----- The tables -----

  /** The classification of one VID says what the first `k` ports say. */
  ghost predicate Indexed(o: Option<MacClassification>, ports: seq<ClassId>, vid: nat, k: nat)
    requires k <= |ports|
  {
    match o
    case None => ActiveFor(ports, vid, k) == [] && DefaultFor(ports, vid, k) == -1
    case Some(c) =>
      && c.active == ActiveFor(ports, vid, k) != []
      && c.default_ == DefaultFor(ports, vid, k)
      && (forall dst :: dst in c.tab <==> LastFor(ports, vid, dst, k) >= 0)
      && (forall dst :: dst in c.tab ==> c.tab[dst] == LastFor(ports, vid, dst, k))
  }

  /** A full table that port `i` does not fit into. */
  ghost predicate Overfull(c: MacClassification, ports: seq<ClassId>, i: nat)
    requires i < |ports|
  {
    var vid := ports[i].vid;
    && c.active == ActiveFor(ports, vid, i + 1)
    && c.default_ == DefaultFor(ports, vid, i)
    && (forall dst :: dst in c.tab <==> LastFor(ports, vid, dst, i) >= 0)
    && (forall dst :: dst in c.tab ==> c.tab[dst] == LastFor(ports, vid, dst, i))
    && |c.tab| >= TABLE_ENTRIES && Key(ports[i].mac) !in c.tab
  }

  lemma {:induction false} NothingEntered(ports: seq<ClassId>, vid: nat, dst: nat, k: nat)
    requires k <= |ports| && ActiveFor(ports, vid, k) == []
    ensures LastFor(ports, vid, dst, k) == -1
  {
    if k > 0 {
      NothingEntered(ports, vid, dst, k - 1);
    }
  }

  /** Port `k` joins the classification of its VID. */
  lemma Joins(o: Option<MacClassification>, ports: seq<ClassId>, k: nat)
    requires k < |ports| && ports[k].mac != 0 && Indexed(o, ports, ports[k].vid, k)
    ensures var c := if o.Some? then o.value else NEW_CLASSIFICATION;
            var c1 := c.(active := c.active + [k]);
            Indexed(Some(if ports[k].mac == DEFAULT_MAC then c1.(default_ := k)
                         else c1.(tab := c.tab[Key(ports[k].mac) := k])), ports, ports[k].vid, k + 1)
  {
    var vid := ports[k].vid;
    if o.None? {
      forall dst: nat ensures LastFor(ports, vid, dst, k) == -1 {
        NothingEntered(ports, vid, dst, k);
      }
    }
    var c := if o.Some? then o.value else NEW_CLASSIFICATION;
    assert forall dst: nat :: dst in c.tab <==> LastFor(ports, vid, dst, k) >= 0;
    forall dst: nat
      ensures LastFor(ports, vid, dst, k + 1) ==
              if ports[k].mac != DEFAULT_MAC && Key(ports[k].mac) == dst then k else LastFor(ports, vid, dst, k)
    {
    }
  }

  /** Port `k` does not concern the VID. */
  lemma Skips(o: Option<MacClassification>, ports: seq<ClassId>, vid: nat, k: nat)
    requires k < |ports| && !Entered(ports, k, vid) && Indexed(o, ports, vid, k)
    ensures Indexed(o, ports, vid, k + 1)
  {
    assert forall dst: nat :: LastFor(ports, vid, dst, k + 1) == LastFor(ports, vid, dst, k);
  }

  /** One area of the classifier. */
  class ComponentInfo {
    const macCls: array<Option<MacClassification>>
    var macAddrEntry: bool
    var nTx: nat
    var rxPort: Option<nat>

    ghost predicate Valid() { macCls.Length == NUM_VLAN_VID }

    constructor ()
      ensures Valid() && Blank() && fresh(macCls)
    {
      macCls := new Option<MacClassification>[NUM_VLAN_VID](_ => None);
      macAddrEntry, nTx, rxPort := false, 0, None;
    }

    ghost predicate Blank()
      reads this, macCls
    {
      && Valid() && !macAddrEntry && nTx == 0 && rxPort == None
      && forall v :: 0 <= v < macCls.Length ==> macCls[v] == None
    }

    /** The area says what the first `k` ports say. */
    ghost predicate Indexes(ports: seq<ClassId>, k: nat)
      requires k <= |ports|
      reads this, macCls
    {
      && Valid()
      && (macAddrEntry <==> exists j :: 0 <= j < k && ports[j].mac != 0)
      && (forall v: nat :: v < NUM_VLAN_VID ==> Indexed(macCls[v], ports, v, k))
      && (forall v: nat :: v < NUM_VLAN_VID && macCls[v].Some? ==> |macCls[v].value.tab| <= k)
    }

    ghost predicate Built(rx: Option<nat>, ports: seq<ClassId>)
      reads this, macCls
    {
      Indexes(ports, |ports|) && nTx == |ports| && rxPort == rx
    }

    /** The table of port `i`'s VID is full of other addresses: the port is already among the
        VID's ports, and everything else says what the ports before it say. */
    ghost predicate Refused(ports: seq<ClassId>, i: nat)
      requires i < |ports|
      reads this, macCls
    {
      && Valid() && macAddrEntry && ports[i].vid < NUM_VLAN_VID && ports[i].mac != 0 && ports[i].mac != DEFAULT_MAC
      && (forall v: nat :: v < NUM_VLAN_VID && v != ports[i].vid ==> Indexed(macCls[v], ports, v, i))
      && macCls[ports[i].vid].Some? && Overfull(macCls[ports[i].vid].value, ports, i)
    }

    lemma BlankIndexes(ports: seq<ClassId>)
      requires Blank()
      ensures Indexes(ports, 0)
    {
    }

    /** Registers one transmit port. */
    method Enter(ports: seq<ClassId>, i: nat) returns (ok: bool)
      requires i < |ports| && ports[i].vid < NUM_VLAN_VID && Indexes(ports, i)
      modifies this`macAddrEntry, macCls
      ensures ok ==> Indexes(ports, i + 1)
      ensures !ok ==> Refused(ports, i)
      ensures i < TABLE_ENTRIES ==> ok
    {
      var vid, mac := ports[i].vid, ports[i].mac;
      forall v: nat | v < NUM_VLAN_VID && !Entered(ports, i, v) ensures Indexed(macCls[v], ports, v, i + 1) {
        Skips(macCls[v], ports, v, i);
      }
      if mac == 0 {
        return true;
      }
      Joins(macCls[vid], ports, i);
      if macCls[vid] == None {
        macCls[vid] := Some(NEW_CLASSIFICATION);
      }
      var c := macCls[vid].value;
      c := c.(active := c.active + [i]);
      macAddrEntry := true;
      if mac == DEFAULT_MAC {
        c := c.(default_ := i);
      } else {
        if |c.tab| >= TABLE_ENTRIES && Key(mac) !in c.tab {
          macCls[vid] := Some(c);
          return false;
        }
        c := c.(tab := c.tab[Key(mac) := i]);
      }
      macCls[vid] := Some(c);
      return true;
    }

    /** `init_component_info` on a blank area.  It stops at the first port whose VID has a full
        table, and leaves what it has entered so far. */
    method Init(rx: Option<nat>, ports: seq<ClassId>) returns (ok: bool)
      requires Blank() && forall i :: 0 <= i < |ports| ==> ports[i].vid < NUM_VLAN_VID
      modifies this, macCls
      ensures Valid()
      ensures nTx == |ports| && rxPort == rx
      ensures ok ==> Built(rx, ports)
      ensures !ok ==> exists i :: 0 <= i < |ports| && Refused(ports, i)
      ensures |ports| <= TABLE_ENTRIES ==> ok
    {
      BlankIndexes(ports);
      rxPort, nTx, macAddrEntry := rx, |ports|, false;
      var i := 0;
      while i < |ports|
        invariant i <= |ports| && Indexes(ports, i)
        invariant nTx == |ports| && rxPort == rx
      {
        ok := Enter(ports, i);
        if !ok {
          return;
        }
        i := i + 1;
      }
      return true;
    }

    /** `uninit_component_info`. */
    method Uninit()
      requires Valid()
      modifies this, macCls
      ensures Blank()
    {
      forall v | 0 <= v < macCls.Length { macCls[v] := None; }
      macAddrEntry, nTx, rxPort := false, 0, None;
    }

    function GeneralDefault(): int
      requires Valid()
      reads macCls
    {
      match macCls[UNTAGGED_VID]
      case None => NO_DESTINATION
      case Some(c) => c.default_
    }

    /** `select_classified_index`. */
    function Select(f: Frame): int
      requires Valid()
      reads macCls
    {
      var vid := GetVid(f);
      match macCls[vid]
      case None => GeneralDefault()
      case Some(c) =>
        if f.dst in c.tab then c.tab[f.dst]
        else if IsMulticast(f.dst) then MULTICAST
        else if c.default_ < 0 && vid != UNTAGGED_VID then GeneralDefault()
        else c.default_
    }

    /** The lookup refines the scan, for every list of ports and every frame. */
    lemma SelectIsScan(rx: Option<nat>, ports: seq<ClassId>, f: Frame)
      requires Built(rx, ports)
      ensures Select(f) == DirectScan(ports, f)
    {
      assert Indexed(macCls[GetVid(f)], ports, GetVid(f), |ports|);
      assert Indexed(macCls[UNTAGGED_VID], ports, UNTAGGED_VID, |ports|);
    }

    /** `handle_l2multicast_packet`: the buffers the packet is pushed to, in order. */
    function Fanout(f: Frame): seq<nat>
      requires Valid()
      reads macCls
    {
      var vid, general := GetVid(f), GeneralDefault();
      if macCls[vid].None? || macCls[vid].value.active == [] then
        if general < 0 then [] else [general]
      else
        macCls[vid].value.active + (if general >= 0 && vid != UNTAGGED_VID then [general] else [])
    }

    /** The buffers a classified packet ends up in. */
    function Destinations(f: Frame): seq<nat>
      requires Valid()
      reads macCls
    {
      var s := Select(f);
      if s >= 0 then [s] else if s == MULTICAST then Fanout(f) else []
    }

    /** The lookup selects, for every list of ports and every frame, what the list says case by
        case. */
    lemma SelectCases(rx: Option<nat>, ports: seq<ClassId>, f: Frame)
      requires Built(rx, ports)
      ensures Selects(ports, GetVid(f), f.dst, Select(f))
    {
      SelectIsScan(rx, ports, f);
      ScanSelects(ports, f);
    }

    /** An unregistered multicast frame goes exactly once to every port of its VID, in their
        order, and behind them once to the last default of untagged frames when its VID is not
        the untagged one; never twice to one port; and the branch for a VID without table is
        not taken. */
    lemma FanoutExact(rx: Option<nat>, ports: seq<ClassId>, f: Frame)
      requires Built(rx, ports) && Select(f) == MULTICAST
      ensures var vid := GetVid(f);
              && macCls[vid].Some? && macCls[vid].value.active != []
              && NoDups(Fanout(f))
              && (forall i: nat :: i in Fanout(f) <==>
                   && i < |ports|
                   && ((ports[i].vid == vid && ports[i].mac != 0) || (vid != UNTAGGED_VID && LastDefault(ports, i, UNTAGGED_VID))))
              && (forall x, y :: 0 <= x < y < |Fanout(f)| && Fanout(f)[y] < |ports| && ports[Fanout(f)[y]].vid == vid ==> Fanout(f)[x] < Fanout(f)[y])
    {
      var vid := GetVid(f);
      assert Indexed(macCls[vid], ports, vid, |ports|) && Indexed(macCls[UNTAGGED_VID], ports, UNTAGGED_VID, |ports|);
      FanoutCases(ports, vid, Fanout(f));
    }

    /** Where a frame ends up is what the list of ports says: the one port selected, every port
        of the VID and the general default, or none. */
    lemma DestinationsExact(rx: Option<nat>, ports: seq<ClassId>, f: Frame)
      requires Built(rx, ports)
      ensures Destinations(f) == Dests(ports, f)
      ensures Select(f) >= 0 ==> Destinations(f) == [Select(f)]
      ensures Select(f) == MULTICAST ==> Destinations(f) == Fanout(f)
      ensures Select(f) == NO_DESTINATION ==> Destinations(f) == []
    {
      SelectIsScan(rx, ports, f);
      assert Indexed(macCls[GetVid(f)], ports, GetVid(f), |ports|);
      assert Indexed(macCls[UNTAGGED_VID], ports, UNTAGGED_VID, |ports|);
    }
  }
}

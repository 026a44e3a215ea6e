/** Requests as they are executed: the command a request has executed, field by field, and what
    then holds of the frames of its port. */
module RequestEffects {
  import opened SppTypes
  import opened Decimal
  import opened Text
  import opened CommandText
  import opened CommandTrip
  import R = Requests
  import M = Management
  import CE = CommandEffects
  import V = VlanTag
  import PA = PortAbility
  import TE = TagEffect
  import Classifier

  // ----- What a request has executed -----

  /** Some slot has the name. */
  ghost predicate HasName(m: M.Mng, name: string) {
    exists i :: 0 <= i < |m.comps| && m.comps[i].name == name
  }

  /** A live component has the port in that direction. */
  ghost predicate InUse(m: M.Mng, p: PortIndex, d: RxTx) {
    exists i :: 0 <= i < |m.comps| && M.Live(m.comps[i]) && CE.Has(m.comps[i], p, d)
  }

  /** The number an address text stands for. */
  function AddressOf(mac: string): nat
    requires GoodMac(mac)
  {
    if mac == "default" then 0x0100_0000_0000 else MacValue(mac)
  }

  /** The port was added and has that class. */
  ghost predicate Classified(m: M.Mng, p: PortIndex, vid: nat, mac: nat) {
    p in m.added && M.ClassOf(m, p).vid == vid && M.ClassOf(m, p).mac == mac
  }

  /** What the decoder asks of the management data. */
  ghost predicate Admits(m: M.Mng, r: Request)
    requires WellFormed(r)
  {
    match r
    case StartComponent(name, _, _) => !HasName(m, name)
    case StopComponent(_) => true
    case PortAdd(port, d, name, op) => HasName(m, name) && (op.AddTag? || !InUse(m, port, d))
    case PortDel(_, _, name) => HasName(m, name)
    case SetTable(_, port) => Classified(m, port, 4095, 0)
    case SetTableVlan(_, port, _) => Classified(m, port, 4095, 0)
    case ClearTable(mac, port) => Classified(m, port, 4095, AddressOf(mac))
    case ClearTableVlan(mac, port, vlan) => Classified(m, port, vlan, AddressOf(mac))
  }

  /** The ability that goes with a port. */
  ghost predicate Asks(a: Ability, op: Operation, d: RxTx) {
    match op
    case NoOperation => a.ope == NoOpe
    case DelTag => a.ope == DelVlanTag && a.rxtx == d && a.tci == 0
    case AddTag(vid, pcp) => a.ope == AddVlanTag && a.rxtx == d && a.vid == vid && a.pcp == pcp && a.tci == 0
  }

  /** The command is the one the request asks for. */
  ghost predicate Does(cmd: M.Command, r: Request)
    requires WellFormed(r)
  {
    match r
    case StartComponent(name, core, typ) => cmd.StartComp? && cmd.name == name && cmd.lcore == core && cmd.typ == typ
    case StopComponent(name) => cmd.StopComp? && cmd.name == name
    case PortAdd(port, d, name, op) =>
      cmd.AddPort? && cmd.port == port && cmd.rxtx == d && cmd.name == name && Asks(cmd.ability, op, d)
    case PortDel(port, d, name) => cmd.DelPort? && cmd.port == port && cmd.rxtx == d && cmd.name == name
    case SetTable(mac, port) => cmd.AddClass? && cmd.port == port && cmd.vid == 4095 && cmd.mac == AddressOf(mac)
    case SetTableVlan(mac, port, vlan) => cmd.AddClass? && cmd.port == port && cmd.vid == vlan && cmd.mac == AddressOf(mac)
    case ClearTable(mac, port) => cmd.DelClass? && cmd.port == port && cmd.vid == 4095 && cmd.mac == AddressOf(mac)
    case ClearTableVlan(mac, port, vlan) => cmd.DelClass? && cmd.port == port && cmd.vid == vlan && cmd.mac == AddressOf(mac)
  }

  lemma NameUsed(m: M.Mng, name: string)
    requires name != ""
    ensures R.ChecksOf(m).nameUsed(name) <==> HasName(m, name)
  {
    var r := M.FindName(m.comps, name, 0);
    if r.Some? {
      assert m.comps[r.value].name == name;
    }
  }

  lemma PortInUse(m: M.Mng, p: PortIndex, d: RxTx)
    ensures R.ChecksOf(m).portUsed(PortOf(p), d) <==> InUse(m, p, d)
  {
    var r := M.UsedBy(m.comps, p, d, 0);
    if r.Some? {
      assert M.Live(m.comps[r.value]) && CE.Has(m.comps[r.value], p, d);
    }
  }

  lemma AddressRead(mac: string)
    requires GoodMac(mac)
    ensures MacNumber(MacOf(mac)) == Some(AddressOf(mac))
  {
    MacRead(mac);
    DefaultText();
  }

  lemma AdmitsIff(m: M.Mng, r: Request)
    requires WellFormed(r)
    ensures Passes(r, R.ChecksOf(m)) <==> Admits(m, r)
  {
    match r
    case StartComponent(name, _, _) => NameUsed(m, name);
    case StopComponent(_) =>
    case PortAdd(port, d, name, op) => NameUsed(m, name); PortInUse(m, port, d);
    case PortDel(_, _, name) => NameUsed(m, name);
    case SetTable(_, port) =>
    case SetTableVlan(_, port, _) =>
    case ClearTable(mac, port) => AddressRead(mac);
    case ClearTableVlan(mac, port, vlan) => AddressRead(mac);
  }

  lemma CommandDoes(r: Request)
    requires WellFormed(r)
    ensures R.CommandOf(Meaning(r)).Some? && Does(R.CommandOf(Meaning(r)).value, r)
  {
    if r.SetTable? || r.SetTableVlan? || r.ClearTable? || r.ClearTableVlan? {
      AddressRead(r.mac);
    }
  }

  /** A well-formed request has its command executed, every field as the request says, exactly if
      the management data admit it; otherwise nothing is executed. */
  lemma RequestDoesIff(m: M.Mng, r: Request)
    requires WellFormed(r)
    ensures R.Request(m, Build(r)).Some? <==> Admits(m, r)
    ensures Admits(m, r) ==> Does(R.Request(m, Build(r)).value, r)
  {
    RoundTrip(r, R.ChecksOf(m));
    AdmitsIff(m, r);
    CommandDoes(r);
  }

  /** What is served is what the commands' effects say, and the flags are clear afterwards. */
  lemma ServeDoes(m: M.Mng, r: Request) returns (cmd: M.Command)
    requires M.Shape(m) && WellFormed(r) && Admits(m, r)
    ensures Does(cmd, r) && R.Request(m, Build(r)) == Some(cmd)
    ensures M.Execute(m, cmd).None? ==> R.Serve(m, Build(r)) == m
    ensures M.Execute(m, cmd).Some? ==>
              var e, x := R.Serve(m, Build(r)), M.Execute(m, cmd).value;
              && e.comps == x.comps && e.pend == x.pend && e.usable == x.usable && e.maxPorts == x.maxPorts
              && e.added == x.added && e.abil == x.abil && e.cls == x.cls
              && forall i :: 0 <= i < |e.comps| ==> !e.chgCore[i] && !e.chgComp[i]
  {
    RequestDoesIff(m, r);
    cmd := R.Request(m, Build(r)).value;
  }

  // ----- Tags -----

  /** Every frame of the port in that direction that gets through its abilities carries the VID and
      the priority. */
  ghost predicate FramesCarry(m: M.Mng, p: PortIndex, d: RxTx, vid: nat, pcp: nat) {
    var list := PA.Published(M.AbilityOf(m, p), d);
    && PA.Listed(list)
    && forall f: seq<Byte> | V.Whole(f) && PA.Outcomes(list, f).Done? ::
         var g := PA.Outcomes(list, f).frame;
         V.Whole(g) && V.Tagged(g) && V.Number(g[14..16]) % 0x1000 == vid && V.Number(g[14..16]) / 0x2000 == pcp
  }

  lemma TagParts(g: seq<Byte>, vid: nat, pcp: nat)
    requires vid < NUM_VLAN_VID && pcp < 8 && PA.Carries(g, V.Tci(vid, pcp))
    ensures V.Whole(g) && V.Tagged(g) && V.Number(g[14..16]) % 0x1000 == vid && V.Number(g[14..16]) / 0x2000 == pcp
  {
    V.TciParts(vid, pcp);
  }

  lemma CarriedTag(m: M.Mng, p: PortIndex, d: RxTx, vid: nat, pcp: nat)
    requires vid < NUM_VLAN_VID && pcp < 8
    requires var list := PA.Published(M.AbilityOf(m, p), d); PA.Listed(list) && PA.ShowsTag(list, V.Tci(vid, pcp))
    ensures FramesCarry(m, p, d, vid, pcp)
  {
    var list := PA.Published(M.AbilityOf(m, p), d);
    forall f: seq<Byte> | V.Whole(f) && PA.Outcomes(list, f).Done?
      ensures var g := PA.Outcomes(list, f).frame;
              V.Whole(g) && V.Tagged(g) && V.Number(g[14..16]) % 0x1000 == vid && V.Number(g[14..16]) / 0x2000 == pcp
    {
      TagParts(PA.Outcomes(list, f).frame, vid, pcp);
    }
  }

  /** No entry of the port for that direction has an operation. */
  ghost predicate Untouched(m: M.Mng, p: PortIndex, d: RxTx) {
    forall x :: 0 <= x < |M.AbilityOf(m, p)| ==> M.AbilityOf(m, p)[x].ope == NoOpe || M.AbilityOf(m, p)[x].rxtx != d
  }

  lemma ServedIs(m: M.Mng, text: string, cmd: M.Command)
    requires M.Shape(m) && R.Request(m, text) == Some(cmd) && M.Execute(m, cmd).Some?
    ensures R.Serve(m, text) == M.Flushed(M.Execute(m, cmd).value)
  {
  }

  lemma ExecutedTag(m: M.Mng, port: PortIndex, d: RxTx, name: string, tag: Ability, pcp: nat, x: M.Mng)
    requires M.Managed(m) && TE.AllSane(m) && Untouched(m, port, d) && M.PortAdd(m, port, d, name, tag) == Some(x)
    requires tag.ope == AddVlanTag && tag.rxtx == d && tag.tci == 0 && 0 <= tag.vid < NUM_VLAN_VID
    requires pcp < 8 && V.Tci(tag.vid, tag.pcp) == V.Tci(tag.vid, pcp)
    ensures FramesCarry(M.Flushed(x), port, d, tag.vid, pcp)
  {
    TE.FreshPortTakesEffect(m, port, d, name, tag);
    assert M.AbilityOf(M.Flushed(x), port) == M.AbilityOf(x, port);
    CarriedTag(M.Flushed(x), port, d, tag.vid, pcp);
  }

  lemma ServedTag(m: M.Mng, text: string, port: PortIndex, d: RxTx, name: string, tag: Ability, pcp: nat)
    requires M.Managed(m) && TE.AllSane(m) && Untouched(m, port, d)
    requires R.Request(m, text) == Some(M.AddPort(port, d, name, tag)) && M.Execute(m, M.AddPort(port, d, name, tag)).Some?
    requires tag.ope == AddVlanTag && tag.rxtx == d && tag.tci == 0 && 0 <= tag.vid < NUM_VLAN_VID
    requires pcp < 8 && V.Tci(tag.vid, tag.pcp) == V.Tci(tag.vid, pcp)
    ensures FramesCarry(R.Serve(m, text), port, d, tag.vid, pcp)
  {
    var cmd := M.AddPort(port, d, name, tag);
    ServedIs(m, text, cmd);
    ExecutedTag(m, port, d, name, tag, pcp, M.Execute(m, cmd).value);
  }

  lemma RequestedTag(m: M.Mng, port: PortIndex, d: RxTx, name: string, vid: nat, pcp: nat) returns (tag: Ability)
    requires WellFormed(PortAdd(port, d, name, AddTag(vid, pcp)))
    requires R.Request(m, Build(PortAdd(port, d, name, AddTag(vid, pcp)))).Some?
    ensures R.Request(m, Build(PortAdd(port, d, name, AddTag(vid, pcp)))) == Some(M.AddPort(port, d, name, tag))
    ensures Asks(tag, AddTag(vid, pcp), d)
  {
    RequestDoesIff(m, PortAdd(port, d, name, AddTag(vid, pcp)));
    tag := R.Request(m, Build(PortAdd(port, d, name, AddTag(vid, pcp)))).value.ability;
  }

  /** When a request to add a port with a tag has been accepted, and the port had no operation for the
      direction, its frames carry the VID and the priority in the text of the request. */
  lemma RequestedTagCarried(m: M.Mng, port: PortIndex, d: RxTx, name: string, vid: nat, pcp: nat)
    requires M.Managed(m) && TE.AllSane(m) && WellFormed(PortAdd(port, d, name, AddTag(vid, pcp)))
    requires Untouched(m, port, d)
    requires var req := R.Request(m, Build(PortAdd(port, d, name, AddTag(vid, pcp))));
             req.Some? && M.Execute(m, req.value).Some?
    ensures FramesCarry(R.Serve(m, Build(PortAdd(port, d, name, AddTag(vid, pcp)))), port, d, vid, pcp)
  {
    var tag := RequestedTag(m, port, d, name, vid, pcp);
    ServedTag(m, Build(PortAdd(port, d, name, AddTag(vid, pcp))), port, d, name, tag, pcp);
  }

  /** A `port add` whose tag has no priority, which spp-ctl does not print. */
  function Unprioritised(port: PortIndex, d: RxTx, name: string, vid: nat): seq<string> {
    ["port", "add", PortText(port), DirectionText(d), name, "add_vlantag", Unsigned(vid)]
  }

  lemma UnprioritisedDecoded(port: PortIndex, d: RxTx, name: string, vid: nat, chk: Checks)
    requires GoodPort(port) && GoodName(name) && vid < NUM_VLAN_VID && chk.nameUsed(name) && !chk.portUsed(PortOf(port), d)
    ensures Decode(Join(Unprioritised(port, d, name, vid), ' '), chk)
            == Ok(PortCmd(PortSpec(Add, PortOf(port), Some(d), name, Tagging(AddVlanTag, Some(d), vid, -1))))
  {
    var argv, rest := Unprioritised(port, d, name, vid), ["add_vlantag", Unsigned(vid)];
    PortTextWord(port);
    UnsignedIsWord(vid, ' ');
    assert Words(argv, ' ');
    TokensOfJoin(argv, ' ');
    assert argv == ["port", "add", PortText(port), DirectionText(d), name] + rest;
    PortTrip(Add, "add", port, d, name, rest, chk);
    var c := PortSpec(Add, PortOf(port), Some(d), name, NO_TAG);
    var c5 := c.(tag := Tagging(AddVlanTag, Some(d), 0, 0));
    IntRead(vid, ETH_VLAN_ID_MAX);
    StepParams(PortKind, PortCmd(c), argv, 5, false, chk);
    StepParams(PortKind, PortCmd(c5), argv, 6, false, chk);
  }

  /** Accepted all the same, it gives the frames its VID and the highest priority. */
  lemma UnprioritisedIsHighest(m: M.Mng, port: PortIndex, d: RxTx, name: string, vid: nat)
    requires M.Managed(m) && TE.AllSane(m) && GoodPort(port) && GoodName(name) && vid < NUM_VLAN_VID
    requires HasName(m, name) && !InUse(m, port, d) && Untouched(m, port, d)
    ensures var req := R.Request(m, Join(Unprioritised(port, d, name, vid), ' '));
            && req.Some?
            && (M.Execute(m, req.value).Some? ==>
                  FramesCarry(R.Serve(m, Join(Unprioritised(port, d, name, vid), ' ')), port, d, vid, 7))
  {
    var text := Join(Unprioritised(port, d, name, vid), ' ');
    NameUsed(m, name);
    PortInUse(m, port, d);
    UnprioritisedDecoded(port, d, name, vid, R.ChecksOf(m));
    var tag := Ability(AddVlanTag, d, vid, -1, 0);
    assert V.Tci(vid, -1) == V.Tci(vid, 7);
    if M.Execute(m, M.AddPort(port, d, name, tag)).Some? {
      ServedTag(m, text, port, d, name, tag, 7);
    }
  }

  /** Whatever texts have been served before, starts without a type apart, the management data are
      as this assumes. */
  lemma {:induction false} ServedSane(m: M.Mng, texts: seq<string>)
    requires M.Managed(m) && TE.AllSane(m) && forall i :: 0 <= i < |texts| ==> !R.ShortStart(texts[i])
    ensures M.Managed(R.ServeAll(m, texts)) && TE.AllSane(R.ServeAll(m, texts))
    decreases |texts|
  {
    if texts != [] {
      OneServedSane(m, texts[0]);
      ServedSane(R.Serve(m, texts[0]), texts[1..]);
    }
  }

  lemma OneServedSane(m: M.Mng, text: string)
    requires M.Managed(m) && TE.AllSane(m) && !R.ShortStart(text)
    ensures M.Managed(R.Serve(m, text)) && TE.AllSane(R.Serve(m, text))
  {
    var cmd := R.Request(m, text);
    if cmd.Some? && M.Execute(m, cmd.value).Some? {
      R.RequestKeepsManagedIff(m, text);
      TE.ExecuteSane(m, cmd.value);
      var x := M.Execute(m, cmd.value).value;
      assert forall p :: M.AbilityOf(M.Flushed(x), p) == M.AbilityOf(x, p);
    }
  }

  // ----- Classes -----

  /** What an update reads of the ports a component sends to. */
  function Classes(m: M.Mng, tx: seq<PortIndex>): (r: seq<M.ClassId>)
    ensures |r| == |tx|
  {
    seq(|tx|, i requires 0 <= i < |tx| => M.ClassOf(m, tx[i]))
  }

  lemma AddressFits(mac: string)
    requires GoodMac(mac)
    ensures AddressOf(mac) < MAC_LIMIT
  {
    if mac != "default" {
      var os := Octets(Tokens(mac, ':'));
      OneMoreOctet(os, 0);
      SixOctets();
    }
  }

  /** The VID a request classifies by. */
  function VidOf(r: Request): nat
    requires r.SetTable? || r.SetTableVlan?
  {
    if r.SetTable? then 4095 else r.vlan
  }

  /** A request to classify that is admitted is executed: the port has the VID and address of its text. */
  lemma RequestedClass(m: M.Mng, r: Request)
    requires M.Shape(m) && WellFormed(r) && (r.SetTable? || r.SetTableVlan?) && Admits(m, r)
    ensures var e := R.Serve(m, Build(r));
            && Classified(e, r.port, VidOf(r), AddressOf(r.mac)) && e.comps == m.comps
            && forall q :: q != r.port ==> M.ClassOf(e, q) == M.ClassOf(m, q)
  {
    var cmd := ServeDoes(m, r);
    CE.ClassAddEffect(m, cmd.port, cmd.vid, cmd.mac);
    SameClasses(R.Serve(m, Build(r)), M.Execute(m, cmd).value);
  }

  lemma SameClasses(m: M.Mng, e: M.Mng)
    requires m.cls == e.cls
    ensures forall q :: M.ClassOf(m, q) == M.ClassOf(e, q)
  {
  }

  /** A table built of a component's ports sends the frames of a port's VID and address to that port and
      to no other, unless a later port has the same. */
  lemma ClassSelects(m: M.Mng, tx: seq<PortIndex>, i: nat, area: Classifier.ComponentInfo, rx: Option<nat>, f: Classifier.Frame)
    requires i < |tx| && area.Built(rx, Classes(m, tx)) && Classified(m, tx[i], Classifier.GetVid(f), f.dst)
    requires 0 < f.dst < MAC_LIMIT && f.dst != DEFAULT_MAC
    requires forall j: nat :: i < j ==> !Classifier.Addressed(Classes(m, tx), j, Classifier.GetVid(f), f.dst)
    ensures area.Select(f) == i && area.Destinations(f) == [i]
  {
    assert Classifier.LastAddressed(Classes(m, tx), i, Classifier.GetVid(f), f.dst);
    area.SelectCases(rx, Classes(m, tx), f);
    area.DestinationsExact(rx, Classes(m, tx), f);
  }

  /** So, when a request to classify has been served, the frames with the VID and address in its
      text go to the port it names. */
  lemma RequestedClassSelects(m: M.Mng, r: Request, tx: seq<PortIndex>, i: nat, area: Classifier.ComponentInfo,
                              rx: Option<nat>, f: Classifier.Frame)
    requires M.Shape(m) && WellFormed(r) && (r.SetTable? || r.SetTableVlan?) && Admits(m, r)
    requires i < |tx| && tx[i] == r.port && area.Built(rx, Classes(R.Serve(m, Build(r)), tx))
    requires Classifier.GetVid(f) == VidOf(r) && f.dst == AddressOf(r.mac) && f.dst != 0 && f.dst != DEFAULT_MAC
    requires forall j: nat :: i < j ==>
               !Classifier.Addressed(Classes(R.Serve(m, Build(r)), tx), j, Classifier.GetVid(f), f.dst)
    ensures area.Select(f) == i && area.Destinations(f) == [i]
  {
    RequestedClass(m, r);
    AddressFits(r.mac);
    ClassSelects(R.Serve(m, Build(r)), tx, i, area, rx, f);
  }

  lemma {:induction false} SameOctets(os: seq<nat>, bs: seq<Byte>)
    requires |os| == |bs| && forall k :: 0 <= k < |os| ==> os[k] == bs[k]
    ensures LittleEndian(os) == V.Address(bs)
  {
    if os != [] {
      SameOctets(os[1..], bs[1..]);
    }
  }

  /** The address in a request and the one a frame is compared by are the same six octets, in the
      order in which they are written and sent. */
  lemma AddressOnWire(mac: string, f: seq<Byte>)
    requires MacText(mac) && V.Whole(f)
    requires forall k :: 0 <= k < 6 ==> Octets(Tokens(mac, ':'))[k] == f[k]
    ensures V.View(f).dst == MacValue(mac)
  {
    SameOctets(Octets(Tokens(mac, ':')), f[..6]);
  }
}

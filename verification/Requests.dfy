/** Requests from text to management data: decoding against the data, then executing. */
module Requests {
  import opened SppTypes
  import opened Decimal
  import opened Text
  import opened CommandText
  import opened CommandTrip
  import M = Management

  // ----- Decoding against the management data -----

  predicate Known(p: Port) { p.kind.Some? && p.no >= 0 }

  function IndexOf(p: Port): PortIndex
    requires Known(p)
  {
    PortIndex(p.kind.value, p.no)
  }

  /** The answers the decoder gets. */
  function ChecksOf(m: M.Mng): Checks {
    Checks(
      name => M.GetComponentId(m.comps, name).Some?,
      (p: Port, d: RxTx) => Known(p) && M.UsedBy(m.comps, IndexOf(p), d, 0).Some?,
      p => Known(p) && IndexOf(p) in m.added,
      p => if Known(p) then M.ClassOf(m, IndexOf(p)).vid else 0,
      p => if Known(p) then M.ClassOf(m, IndexOf(p)).mac else 0)
  }

  function AbilityFrom(t: Tagging): Ability {
    Ability(t.ope, if t.rxtx.Some? then t.rxtx.value else Rx, t.vid, t.pcp, 0)
  }

  /** What a decoded request has executed; None if nothing is, or if a port number is negative. */
  function CommandOf(c: Cmd): Option<M.Command> {
    match c
    case Simple(_) => None
    case Component(s) =>
      if s.action == Start then Some(M.StartComp(s.name, s.core, s.typ))
      else if s.action == Stop then Some(M.StopComp(s.name))
      else None
    case PortCmd(s) =>
      if !Known(s.port) || s.rxtx == None then None
      else if s.action == Add then Some(M.AddPort(IndexOf(s.port), s.rxtx.value, s.name, AbilityFrom(s.tag)))
      else if s.action == Del then Some(M.DelPort(IndexOf(s.port), s.rxtx.value, s.name))
      else None
    case Table(s) =>
      if !Known(s.port) || s.vid < 0 || MacNumber(s.mac).None? then None
      else if s.action == Add then Some(M.AddClass(IndexOf(s.port), s.vid, MacNumber(s.mac).value))
      else if s.action == Del then Some(M.DelClass(IndexOf(s.port), s.vid, MacNumber(s.mac).value))
      else None
  }

  /** The command a text has executed, if any. */
  function Request(m: M.Mng, text: string): Option<M.Command> {
    match Decode(text, ChecksOf(m))
    case Err(_) => None
    case Ok(c) => CommandOf(c)
  }

  // ----- What decoding establishes -----

  /** A parameter of a component command keeps what the earlier ones set. */
  lemma ComponentParamKeeps(c: ComponentSpec, pi: nat, arg: string, chk: Checks)
    requires pi >= 1 && ComponentParam(c, pi, arg, chk).Some?
    ensures var d := ComponentParam(c, pi, arg, chk).value;
            && (pi == 1 ==> (d.action == Start || d.action == Stop) && d.name == c.name && d.typ == c.typ)
            && (pi == 2 ==> d.action == c.action && d.name == arg && d.typ == c.typ)
            && (pi == 3 ==> d.action == c.action && d.name == c.name && d.typ == c.typ)
            && (pi >= 4 ==> d.action == c.action && d.name == c.name
                            && (c.action == Start ==> d.typ == Forward || d.typ == Merge || d.typ == ClassifierMac))
  {
  }

  /** What the parameters of a component command up to `pi` have set. */
  predicate ComponentSoFar(c: ComponentSpec, argv: seq<string>, pi: nat)
    requires pi <= |argv|
  {
    && (pi >= 2 ==> c.action == Start || c.action == Stop)
    && (pi >= 3 ==> c.name == argv[2])
    && (pi <= 4 ==> c.typ == Unuse)
    && (pi >= 5 && c.action == Start ==> c.typ == Forward || c.typ == Merge || c.typ == ClassifierMac)
  }

  lemma {:induction false} ComponentDecoded(c: ComponentSpec, argv: seq<string>, pi: nat, longest: bool, chk: Checks)
    requires 1 <= pi <= |argv| <= 5 && ComponentSoFar(c, argv, pi)
    requires Params(ComponentKind, Component(c), argv, pi, longest, chk).Ok?
    ensures var r := Params(ComponentKind, Component(c), argv, pi, longest, chk).cmd;
            r.Component? && ComponentSoFar(r.component, argv, |argv|)
    decreases |argv| - pi
  {
    if pi < |argv| {
      StepParams(ComponentKind, Component(c), argv, pi, longest, chk);
      ComponentParamKeeps(c, pi, argv[pi], chk);
      ComponentDecoded(ComponentParam(c, pi, argv[pi], chk).value, argv, pi + 1, longest, chk);
    }
  }

  lemma TableParamVid(c: TableSpec, vlan: bool, pi: nat, arg: string, chk: Checks)
    requires 0 <= c.vid <= ETH_VLAN_ID_MAX && TableParam(c, vlan, pi, arg, chk).Some?
    ensures 0 <= TableParam(c, vlan, pi, arg, chk).value.vid <= ETH_VLAN_ID_MAX
  {
  }

  lemma {:induction false} TableDecoded(kind: Kind, c: TableSpec, argv: seq<string>, pi: nat, longest: bool, chk: Checks)
    requires (kind == TableMac || kind == TableVlan) && pi <= |argv| && 0 <= c.vid <= ETH_VLAN_ID_MAX
    requires Params(kind, Table(c), argv, pi, longest, chk).Ok?
    ensures var r := Params(kind, Table(c), argv, pi, longest, chk).cmd;
            r.Table? && 0 <= r.table.vid <= ETH_VLAN_ID_MAX
    decreases |argv| - pi
  {
    if pi < |argv| {
      StepParams(kind, Table(c), argv, pi, longest, chk);
      TableParamVid(c, kind == TableVlan, pi, argv[pi], chk);
      TableDecoded(kind, TableParam(c, kind == TableVlan, pi, argv[pi], chk).value, argv, pi + 1, longest, chk);
    }
  }

  /** What the parameters of a `port add` have established: the check, unless it is skipped. */
  predicate PortSoFar(c: PortSpec, pi: nat, longest: bool, chk: Checks) {
    && (pi >= 4 && c.action == Add && !longest ==> c.rxtx.Some? && !chk.portUsed(c.port, c.rxtx.value))
    && (pi >= 4 && c.action == Add && !longest ==> !(chk.portUsed(c.port, Rx) && chk.portUsed(c.port, Tx)))
    && (pi == 3 && c.action == Add && !longest ==> !(chk.portUsed(c.port, Rx) && chk.portUsed(c.port, Tx)))
  }

  lemma PortParamSoFar(c: PortSpec, pi: nat, arg: string, longest: bool, chk: Checks)
    requires pi >= 1 && PortSoFar(c, pi, longest, chk) && PortParam(c, pi, arg, longest, chk).Some?
    ensures PortSoFar(PortParam(c, pi, arg, longest, chk).value, pi + 1, longest, chk)
  {
  }

  lemma {:induction false} PortDecoded(c: PortSpec, argv: seq<string>, pi: nat, longest: bool, chk: Checks)
    requires 1 <= pi <= |argv| && PortSoFar(c, pi, longest, chk)
    requires Params(PortKind, PortCmd(c), argv, pi, longest, chk).Ok?
    ensures var r := Params(PortKind, PortCmd(c), argv, pi, longest, chk).cmd;
            r.PortCmd? && PortSoFar(r.port, |argv|, longest, chk)
    decreases |argv| - pi
  {
    if pi < |argv| {
      StepParams(PortKind, PortCmd(c), argv, pi, longest, chk);
      PortParamSoFar(c, pi, argv[pi], longest, chk);
      PortDecoded(PortParam(c, pi, argv[pi], longest, chk).value, argv, pi + 1, longest, chk);
    }
  }

  // ----- Requests and the invariant -----

  /** A start of fewer than five words: the type, or lcore and type, are left out. */
  predicate ShortStart(text: string) {
    var argv := Tokens(text, ' ');
    3 <= |argv| < 5 && argv[0] == "component" && argv[1] == "start"
  }

  lemma ChosenKind(argv: seq<string>, chk: Checks)
    requires argv != [] && DecodeWords(argv, chk).Ok?
    ensures Choose(argv[0], |argv|).Chosen?
    ensures var ch := Choose(argv[0], |argv|);
            DecodeWords(argv, chk) == Params(ch.kind, Zero(ch.kind), argv, 1, |argv| == ch.most, chk)
  {
  }

  lemma StartWord(argv: seq<string>, chk: Checks)
    requires 3 <= |argv| <= 5 && argv[0] == "component" && DecodeWords(argv, chk).Ok?
    ensures var r := DecodeWords(argv, chk).cmd;
            && r.Component? && ComponentSoFar(r.component, argv, |argv|)
            && (r.component.action == Start <==> argv[1] == "start")
  {
    var c := NO_COMPONENT;
    ActionTexts();
    ComponentDecoded(c, argv, 1, |argv| == 5, chk);
    StepParams(ComponentKind, Component(c), argv, 1, |argv| == 5, chk);
    var c1 := ComponentParam(c, 1, argv[1], chk).value;
    ActionStays(c1, argv, 2, |argv| == 5, chk);
  }

  lemma {:induction false} ActionStays(c: ComponentSpec, argv: seq<string>, pi: nat, longest: bool, chk: Checks)
    requires 2 <= pi <= |argv| && Params(ComponentKind, Component(c), argv, pi, longest, chk).Ok?
    ensures var r := Params(ComponentKind, Component(c), argv, pi, longest, chk).cmd;
            r.Component? && r.component.action == c.action
    decreases |argv| - pi
  {
    if pi < |argv| {
      StepParams(ComponentKind, Component(c), argv, pi, longest, chk);
      ComponentParamKeeps(c, pi, argv[pi], chk);
      ActionStays(ComponentParam(c, pi, argv[pi], chk).value, argv, pi + 1, longest, chk);
    }
  }

  /** A request gives a command that the management invariant is about, exactly unless it is a
      start without its type. */
  lemma DecodableIff(m: M.Mng, text: string)
    requires Request(m, text).Some?
    ensures M.Decodable(Request(m, text).value) <==> !ShortStart(text)
  {
    var chk, argv := ChecksOf(m), Tokens(text, ' ');
    TokensAreWords(text, ' ');
    ChosenKind(argv, chk);
    var kind := Choose(argv[0], |argv|).kind;
    if kind == ComponentKind {
      assert Word(argv[2], ' ');
      StartWord(argv, chk);
    } else if kind == TableMac || kind == TableVlan {
      TableDecoded(kind, NO_TABLE, argv, 1, true, chk);
    } else if kind == PortKind {
      PortDecoded(NO_PORT, argv, 1, |argv| == 8, chk);
    }
  }

  /** Whatever text arrives: if it is accepted, the management invariant survives exactly
      unless it is a start without its type. */
  lemma RequestKeepsManagedIff(m: M.Mng, text: string)
    requires M.Managed(m) && Request(m, text).Some? && M.Execute(m, Request(m, text).value).Some?
    ensures M.Managed(M.Execute(m, Request(m, text).value).value) <==> !ShortStart(text)
  {
    var cmd := Request(m, text).value;
    DecodableIff(m, text);
    if ShortStart(text) {
      ShortStartCommand(m, text);
      M.UntypedStart(m, cmd.name, cmd.lcore);
    } else {
      M.ExecuteManaged(m, cmd);
    }
  }

  lemma ShortStartCommand(m: M.Mng, text: string)
    requires ShortStart(text) && Request(m, text).Some?
    ensures var cmd := Request(m, text).value;
            cmd.StartComp? && cmd.typ == Unuse && cmd.name == Tokens(text, ' ')[2] != ""
  {
    var argv := Tokens(text, ' ');
    TokensAreWords(text, ' ');
    assert Word(argv[2], ' ');
    StartWord(argv, ChecksOf(m));
  }

  /** One request: refused ones change nothing, accepted ones are flushed. */
  function Serve(m: M.Mng, text: string): (r: M.Mng)
    requires M.Shape(m)
    ensures M.Shape(r)
  {
    match Request(m, text)
    case None => m
    case Some(cmd) =>
      match M.Execute(m, cmd)
      case None => m
      case Some(r) => M.Flushed(r)
  }

  function ServeAll(m: M.Mng, texts: seq<string>): (r: M.Mng)
    requires M.Shape(m)
    ensures M.Shape(r)
    decreases |texts|
  {
    if texts == [] then m else ServeAll(Serve(m, texts[0]), texts[1..])
  }

  /** Over every sequence of texts without such a start: distinct names, ids and lists in step,
      port limits, and so no append out of range. */
  lemma {:induction false} RunServed(m: M.Mng, texts: seq<string>)
    requires M.Managed(m) && forall i :: 0 <= i < |texts| ==> !ShortStart(texts[i])
    ensures M.Managed(ServeAll(m, texts))
    decreases |texts|
  {
    if texts != [] {
      var cmd := Request(m, texts[0]);
      if cmd.Some? && M.Execute(m, cmd.value).Some? {
        RequestKeepsManagedIff(m, texts[0]);
      }
      RunServed(Serve(m, texts[0]), texts[1..]);
    }
  }

  // ----- Starts without a type -----

  function Letter(a: bool): string { if a then "a" else "b" }

  /** A start on lcore `l` that ends before the type. */
  function ShortStartText(a: bool, l: nat): string { "component start " + Letter(a) + " " + Unsigned(l) }

  /** Two names in turn. */
  function ShortStarts(k: nat, a: bool, l: nat): (r: seq<string>)
    ensures |r| == k
  {
    if k == 0 then [] else [ShortStartText(a, l)] + ShortStarts(k - 1, !a, l)
  }

  lemma ShortStartWords(a: bool, l: nat)
    ensures Tokens(ShortStartText(a, l), ' ') == ["component", "start", Letter(a), Unsigned(l)]
  {
    var n, u := Letter(a), Unsigned(l);
    Join3("component", "start", n);
    JoinSnoc(["component", "start", n], u);
    assert ["component", "start", n] + [u] == ["component", "start", n, u];
    OtherTexts();
    UnsignedIsWord(l, ' ');
    assert Word("component", ' ') && Word("start", ' ') && Word(n, ' ');
    TokensOfJoin(["component", "start", n, u], ' ');
    assert "component" + " " + "start" + " " + n + " " + u == ShortStartText(a, l);
  }

  lemma ShortStartDecoded(a: bool, l: nat, chk: Checks)
    requires !chk.nameUsed(Letter(a)) && l < RTE_MAX_LCORE
    ensures Decode(ShortStartText(a, l), chk) == Ok(Component(ComponentSpec(Start, Letter(a), l, Unuse)))
  {
    ShortStartWords(a, l);
    var argv := ["component", "start", Letter(a), Unsigned(l)];
    ActionTexts();
    DecimalReadBack(l);
    var c1 := NO_COMPONENT.(action := Start);
    var c2 := c1.(name := Letter(a));
    StepParams(ComponentKind, Component(NO_COMPONENT), argv, 1, false, chk);
    StepParams(ComponentKind, Component(c1), argv, 2, false, chk);
    StepParams(ComponentKind, Component(c2), argv, 3, false, chk);
  }

  /** Lcore `l` is usable and has a pending list of length `k`; slot `id`, not named `a`, is the
      first free one, and no other is named `a` or `b`. */
  ghost predicate Overgrown(m: M.Mng, l: nat, id: nat, k: nat, a: bool) {
    && M.Shape(m) && l < |m.comps| && l < RTE_MAX_LCORE && m.usable[l] && |m.pend[l]| == k
    && M.FindFree(m.comps, 0) == Some(id) && m.comps[id].name != Letter(a)
    && forall i :: 0 <= i < |m.comps| && i != id ==> m.comps[i].name != "a" && m.comps[i].name != "b"
  }

  lemma ShortStartRequest(m: M.Mng, l: nat, id: nat, k: nat, a: bool)
    requires Overgrown(m, l, id, k, a)
    ensures M.GetComponentId(m.comps, Letter(a)).None?
    ensures Request(m, ShortStartText(a, l)) == Some(M.StartComp(Letter(a), l, Unuse))
  {
    ShortStartDecoded(a, l, ChecksOf(m));
  }

  lemma UntypedGrows(m: M.Mng, l: nat, id: nat, k: nat, a: bool)
    requires Overgrown(m, l, id, k, a) && M.GetComponentId(m.comps, Letter(a)).None?
    ensures var r := M.Start(m, Letter(a), l, Unuse);
            r.Some? && Overgrown(M.Flushed(r.value), l, id, k + 1, !a)
  {
    M.UntypedStart(m, Letter(a), l);
    assert "a"[0] != "b"[0];
  }

  lemma OneShortStart(m: M.Mng, l: nat, id: nat, k: nat, a: bool, r: M.Mng)
    requires Overgrown(m, l, id, k, a) && r == Serve(m, ShortStartText(a, l))
    ensures Overgrown(r, l, id, k + 1, !a)
  {
    ShortStartRequest(m, l, id, k, a);
    UntypedGrows(m, l, id, k, a);
  }

  lemma FirstServed(m: M.Mng, l: nat, id: nat, j: nat, k: nat, a: bool, r: M.Mng) returns (n: M.Mng)
    requires k > 0 && Overgrown(m, l, id, j, a) && r == ServeAll(m, ShortStarts(k, a, l))
    ensures Overgrown(n, l, id, j + 1, !a) && r == ServeAll(n, ShortStarts(k - 1, !a, l))
  {
    var texts := ShortStarts(k, a, l);
    assert texts[0] == ShortStartText(a, l) && texts[1..] == ShortStarts(k - 1, !a, l);
    n := Serve(m, texts[0]);
    OneShortStart(m, l, id, j, a, n);
  }

  lemma {:induction false} KeepsGrowing(m: M.Mng, l: nat, id: nat, j: nat, k: nat, a: bool, r: M.Mng)
    requires Overgrown(m, l, id, j, a) && r == ServeAll(m, ShortStarts(k, a, l))
    ensures |r.pend| == |r.comps| && l < |r.pend| && |r.pend[l]| == j + k
    decreases k
  {
    if k > 0 {
      var n := FirstServed(m, l, id, j, k, a, r);
      KeepsGrowing(n, l, id, j + 1, k - 1, !a, r);
    }
  }

  /** Starts without a type can be repeated without end: in every process with a free slot and
      two names not in use, each text lengthens the pending list of the usable lcore it names
      by one, past the end of its array. */
  lemma ShortStartsOverflow(m: M.Mng, l: nat, k: nat)
    requires M.Shape(m) && M.FindFree(m.comps, 0).Some? && l < |m.comps| && l < RTE_MAX_LCORE && m.usable[l]
    requires forall i :: 0 <= i < |m.comps| ==> m.comps[i].name != "a" && m.comps[i].name != "b"
    ensures var r := ServeAll(m, ShortStarts(k, true, l));
            |r.pend| == |r.comps| && l < |r.pend| && |r.pend[l]| == |m.pend[l]| + k
  {
    KeepsGrowing(m, l, M.FindFree(m.comps, 0).value, |m.pend[l]|, k, true, ServeAll(m, ShortStarts(k, true, l)));
  }

  // ----- Requests and exclusive ports -----

  /** A request has the greatest number of words a `port` command may have. */
  predicate Longest(text: string) { |Tokens(text, ' ')| == 8 }

  /** A decoded `port add` has passed the check on the management data, unless its request has
      eight words. */
  lemma AddWasChecked(m: M.Mng, text: string)
    requires Request(m, text).Some? && Request(m, text).value.AddPort?
    ensures var cmd := Request(m, text).value; M.AddAccepted(m, cmd.port, cmd.rxtx, Longest(text))
  {
    var chk, argv := ChecksOf(m), Tokens(text, ' ');
    ChosenKind(argv, chk);
    OnlyPortAdds(m, text);
    PortDecoded(NO_PORT, argv, 1, |argv| == 8, chk);
  }

  lemma OnlyPortAdds(m: M.Mng, text: string)
    requires Request(m, text).Some? && Request(m, text).value.AddPort?
    ensures var argv := Tokens(text, ' '); argv != [] && Choose(argv[0], |argv|).Chosen? && Choose(argv[0], |argv|).kind == PortKind
  {
    var chk, argv := ChecksOf(m), Tokens(text, ' ');
    ChosenKind(argv, chk);
    var kind := Choose(argv[0], |argv|).kind;
    if kind == ComponentKind {
      StartWord(argv, chk);
    } else if kind == TableMac || kind == TableVlan {
      TableDecoded(kind, NO_TABLE, argv, 1, true, chk);
    }
  }

  /** An accepted `port add` of fewer than eight words keeps every port with one component per
      direction; one of eight words does exactly if no other component uses the port. */
  lemma RequestKeepsExclusiveIff(m: M.Mng, text: string)
    requires M.Managed(m) && M.Exclusive(m) && Request(m, text).Some? && Request(m, text).value.AddPort?
    requires M.Execute(m, Request(m, text).value).Some?
    ensures var cmd := Request(m, text).value;
            M.Exclusive(M.Execute(m, cmd).value)
            <==> !(Longest(text) && M.UsedElsewhere(m, cmd.port, cmd.rxtx, cmd.name))
  {
    var cmd := Request(m, text).value;
    AddWasChecked(m, text);
    M.AddKeepsExclusiveIff(m, cmd.port, cmd.rxtx, cmd.name, cmd.ability);
    if !Longest(text) {
      M.CheckedAddKeepsExclusive(m, cmd.port, cmd.rxtx, cmd.name, cmd.ability);
    }
  }

  /** The words of a `port add` with three more behind the name. */
  function LongAdd(p: PortIndex, ope: string): seq<string> {
    ["port", "add", PortText(p), "rx", "b", ope, "0", "0"]
  }

  lemma LongAddDecoded(p: PortIndex, ope: string, chk: Checks)
    requires GoodPort(p) && chk.nameUsed("b") && (ope == "add_vlantag" || ope == "del_vlantag")
    ensures var r := Decode(Join(LongAdd(p, ope), ' '), chk);
            && r.Ok? && r.cmd.PortCmd? && r.cmd.port.action == Add && r.cmd.port.port == PortOf(p)
            && r.cmd.port.rxtx == Some(Rx) && r.cmd.port.name == "b"
            && r.cmd.port.tag == Tagging(if ope == "add_vlantag" then AddVlanTag else DelVlanTag, Some(Rx), 0, 0)
    ensures Longest(Join(LongAdd(p, ope), ' '))
  {
    var argv, rest := LongAdd(p, ope), [ope, "0", "0"];
    PortTextWord(p);
    assert Words(argv, ' ');
    TokensOfJoin(argv, ' ');
    assert argv == ["port", "add", PortText(p), DirectionText(Rx), "b"] + rest;
    PortTrip(Add, "add", p, Rx, "b", rest, chk);
    var c := PortSpec(Add, PortOf(p), Some(Rx), "b", NO_TAG);
    LongTail(c, argv, ope, chk);
  }

  lemma LongTail(c: PortSpec, argv: seq<string>, ope: string, chk: Checks)
    requires |argv| == 8 && argv[5] == ope && argv[6] == "0" && argv[7] == "0" && c.tag == NO_TAG && c.rxtx == Some(Rx)
    requires ope == "add_vlantag" || ope == "del_vlantag"
    ensures Params(PortKind, PortCmd(c), argv, 5, true, chk)
            == Ok(PortCmd(c.(tag := Tagging(if ope == "add_vlantag" then AddVlanTag else DelVlanTag, Some(Rx), 0, 0))))
  {
    assert "add_vlantag"[0] != "del_vlantag"[0];
    assert Unsigned(0) == "0";
    IntRead(0, ETH_VLAN_ID_MAX);
    IntRead(0, VLAN_PCP_MAX);
    var o := if ope == "add_vlantag" then AddVlanTag else DelVlanTag;
    var c5 := c.(tag := Tagging(o, Some(Rx), 0, 0));
    var c6 := if o == AddVlanTag then c.(tag := Tagging(o, Some(Rx), 0, -1)) else c5;
    StepParams(PortKind, PortCmd(c), argv, 5, true, chk);
    StepParams(PortKind, PortCmd(c5), argv, 6, true, chk);
    StepParams(PortKind, PortCmd(c6), argv, 7, true, chk);
  }

  lemma LongRequest(p: PortIndex, ope: string)
    requires GoodPort(p) && (ope == "add_vlantag" || ope == "del_vlantag")
    ensures var r := Request(M.TwoForwarders(p), Join(LongAdd(p, ope), ' '));
            && r.Some? && r.value.AddPort? && r.value.port == p && r.value.rxtx == Rx && r.value.name == "b"
            && r.value.ability.ope != NoOpe
  {
    var m := M.TwoForwarders(p);
    assert "a"[0] != "b"[0];
    assert M.FindName(m.comps, "b", 0) == M.FindName(m.comps, "b", 1) == Some(1);
    LongAddDecoded(p, ope, ChecksOf(m));
  }

  /** A request of eight words, adding a tag or deleting one, gives a port that one forwarder
      receives from to a second one. */
  lemma LongRequestBreaksExclusive(p: PortIndex, ope: string)
    requires GoodPort(p) && (ope == "add_vlantag" || ope == "del_vlantag")
    ensures var m, text := M.TwoForwarders(p), Join(LongAdd(p, ope), ' ');
            M.Managed(m) && M.Exclusive(m) && !M.Exclusive(Serve(m, text))
  {
    var m, text := M.TwoForwarders(p), Join(LongAdd(p, ope), ' ');
    LongRequest(p, ope);
    var cmd := Request(m, text).value;
    M.LongestAddBreaksExclusive(p, cmd.ability);
    var r := M.Execute(m, cmd).value;
    assert Serve(m, text) == M.Flushed(r) && M.Flushed(r).comps == r.comps;
  }
}

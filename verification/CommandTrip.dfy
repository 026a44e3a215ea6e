/** Round trip of commands: decoding the string spp-ctl builds gives back the command. */
module CommandTrip {
  import opened SppTypes
  import opened Decimal
  import opened Text
  import opened CommandText

  predicate GoodMac(mac: string) { Word(mac, ' ') && (mac == DEFAULT_SPEC || MacText(mac)) }

  predicate GoodName(name: string) { Word(name, ' ') && |name| < 32 }

  predicate GoodPort(p: PortIndex) { p.no < 0x8000_0000 }

  /** What spp-ctl's own checks let through. */
  predicate WellFormed(r: Request) {
    match r
    case StartComponent(name, core, typ) =>
      GoodName(name) && core < RTE_MAX_LCORE && (typ == Forward || typ == Merge || typ == ClassifierMac)
    case StopComponent(name) => GoodName(name)
    case PortAdd(port, _, name, op) =>
      GoodName(name) && GoodPort(port) && (op.AddTag? ==> op.vid < NUM_VLAN_VID && op.pcp < 8)
    case PortDel(port, _, name) => GoodName(name) && GoodPort(port)
    case SetTable(mac, port) => GoodMac(mac) && GoodPort(port)
    case ClearTable(mac, port) => GoodMac(mac) && GoodPort(port)
    case SetTableVlan(mac, port, vlan) => GoodMac(mac) && GoodPort(port) && vlan < NUM_VLAN_VID
    case ClearTableVlan(mac, port, vlan) => GoodMac(mac) && GoodPort(port) && vlan < NUM_VLAN_VID
  }

  function PortOf(p: PortIndex): Port { Port(Some(p.kind), p.no) }

  function MacOf(mac: string): string { if mac == DEFAULT_SPEC then DEFAULT_TEXT else mac }

  function TagOf(op: Operation, d: RxTx): Tagging {
    match op
    case NoOperation => NO_TAG
    case AddTag(vid, pcp) => Tagging(AddVlanTag, Some(d), vid, pcp)
    case DelTag => Tagging(DelVlanTag, Some(d), 0, 0)
  }

  /** The command a request means. */
  function Meaning(r: Request): Cmd {
    match r
    case StartComponent(name, core, typ) => Component(ComponentSpec(Start, name, core, typ))
    case StopComponent(name) => Component(ComponentSpec(Stop, name, 0, Unuse))
    case PortAdd(port, d, name, op) => PortCmd(PortSpec(Add, PortOf(port), Some(d), name, TagOf(op, d)))
    case PortDel(port, d, name) => PortCmd(PortSpec(Del, PortOf(port), Some(d), name, NO_TAG))
    case SetTable(mac, port) => Table(TableSpec(Add, Mac, ETH_VLAN_ID_MAX, MacOf(mac), PortOf(port)))
    case ClearTable(mac, port) => Table(TableSpec(Del, Mac, ETH_VLAN_ID_MAX, MacOf(mac), PortOf(port)))
    case SetTableVlan(mac, port, vlan) => Table(TableSpec(Add, Vlan, vlan, MacOf(mac), PortOf(port)))
    case ClearTableVlan(mac, port, vlan) => Table(TableSpec(Del, Vlan, vlan, MacOf(mac), PortOf(port)))
  }

  predicate Unclassed(chk: Checks, p: Port) {
    chk.portAdded(p) && chk.classMac(p) == 0 && chk.classVid(p) == ETH_VLAN_ID_MAX
  }

  predicate Classed(chk: Checks, p: Port, vid: int, mac: string) {
    chk.portAdded(p) && MacNumber(mac) == Some(chk.classMac(p)) && chk.classVid(p) == vid
  }

  /** What the decoder requires of the management data for a request. */
  predicate Passes(r: Request, chk: Checks) {
    match r
    case StartComponent(name, _, _) => !chk.nameUsed(name)
    case StopComponent(_) => true
    case PortAdd(port, d, name, op) =>
      chk.nameUsed(name) && (op.AddTag? || !chk.portUsed(PortOf(port), d))
    case PortDel(_, _, name) => chk.nameUsed(name)
    case SetTable(_, port) => Unclassed(chk, PortOf(port))
    case SetTableVlan(_, port, _) => Unclassed(chk, PortOf(port))
    case ClearTable(mac, port) => Classed(chk, PortOf(port), ETH_VLAN_ID_MAX, MacOf(mac))
    case ClearTableVlan(mac, port, vlan) => Classed(chk, PortOf(port), vlan, MacOf(mac))
  }

  // ----- Words -----

  function WordsOf(r: Request): seq<string> {
    match r
    case StartComponent(name, core, typ) => ["component", "start", name, Unsigned(core), TypeText(typ)]
    case StopComponent(name) => ["component", "stop", name]
    case PortAdd(port, d, name, op) =>
      ["port", "add", PortText(port), DirectionText(d), name] +
      (match op
       case NoOperation => []
       case DelTag => ["del_vlantag"]
       case AddTag(vid, pcp) => ["add_vlantag", Unsigned(vid), Unsigned(pcp)])
    case PortDel(port, d, name) => ["port", "del", PortText(port), DirectionText(d), name]
    case SetTable(mac, port) => ["classifier_table", "add", "mac", mac, PortText(port)]
    case ClearTable(mac, port) => ["classifier_table", "del", "mac", mac, PortText(port)]
    case SetTableVlan(mac, port, vlan) => ["classifier_table", "add", "vlan", Unsigned(vlan), mac, PortText(port)]
    case ClearTableVlan(mac, port, vlan) => ["classifier_table", "del", "vlan", Unsigned(vlan), mac, PortText(port)]
  }

  lemma PortTextWord(p: PortIndex)
    ensures Word(PortText(p), ' ')
  {
    UnsignedIsWord(p.no, ' ');
  }

  lemma {:induction false} JoinSnoc(ws: seq<string>, w: string)
    requires ws != []
    ensures Join(ws + [w], ' ') == Join(ws, ' ') + " " + w
  {
    if |ws| == 1 {
      assert (ws + [w])[1..] == [w];
    } else {
      assert (ws + [w])[1..] == ws[1..] + [w];
      JoinSnoc(ws[1..], w);
      var front, rest := ws[0] + " ", Join(ws[1..], ' ');
      assert front + (rest + " " + w) == front + rest + " " + w;
    }
  }

  lemma Join3(a: string, b: string, c: string)
    ensures Join([a, b, c], ' ') == a + " " + b + " " + c
  {
    JoinSnoc([a], b);
    JoinSnoc([a, b], c);
    assert [a] + [b] == [a, b] && [a, b] + [c] == [a, b, c];
  }

  lemma Join5(a: string, b: string, c: string, d: string, e: string)
    ensures Join([a, b, c, d, e], ' ') == a + " " + b + " " + c + " " + d + " " + e
  {
    Join3(a, b, c);
    JoinSnoc([a, b, c], d);
    JoinSnoc([a, b, c, d], e);
    assert [a, b, c] + [d] == [a, b, c, d] && [a, b, c, d] + [e] == [a, b, c, d, e];
  }

  lemma Join6(a: string, b: string, c: string, d: string, e: string, f: string)
    ensures Join([a, b, c, d, e, f], ' ') == a + " " + b + " " + c + " " + d + " " + e + " " + f
  {
    Join5(a, b, c, d, e);
    JoinSnoc([a, b, c, d, e], f);
    assert [a, b, c, d, e] + [f] == [a, b, c, d, e, f];
  }

  lemma Join8(a: string, b: string, c: string, d: string, e: string, f: string, g: string, h: string)
    ensures Join([a, b, c, d, e, f, g, h], ' ') == a + " " + b + " " + c + " " + d + " " + e + " " + f + " " + g + " " + h
  {
    Join6(a, b, c, d, e, f);
    JoinSnoc([a, b, c, d, e, f], g);
    JoinSnoc([a, b, c, d, e, f, g], h);
    assert [a, b, c, d, e, f] + [g] == [a, b, c, d, e, f, g] && [a, b, c, d, e, f, g] + [h] == [a, b, c, d, e, f, g, h];
  }

  lemma TableTexts()
    ensures "classifier_table" + " " + "add" + " " + "mac" + " " == "classifier_table add mac "
    ensures "classifier_table" + " " + "del" + " " + "mac" + " " == "classifier_table del mac "
    ensures "classifier_table" + " " + "add" + " " + "vlan" + " " == "classifier_table add vlan "
    ensures "classifier_table" + " " + "del" + " " + "vlan" + " " == "classifier_table del vlan "
  {
  }

  lemma OtherTexts()
    ensures "component" + " " + "start" + " " == "component start "
    ensures "component" + " " + "stop" + " " == "component stop "
    ensures "port" + " " + "add" + " " == "port add "
    ensures "port" + " " + "del" + " " == "port del "
  {
  }

  lemma BuildAdd(port: PortIndex, d: RxTx, name: string, op: Operation)
    ensures var r := PortAdd(port, d, name, op); Build(r) == Join(WordsOf(r), ' ')
  {
    OtherTexts();
    var p, t := PortText(port), DirectionText(d);
    var ws := WordsOf(PortAdd(port, d, name, op));
    if op.NoOperation? {
      assert ws == ["port", "add", p, t, name];
      Join5("port", "add", p, t, name);
    } else if op.DelTag? {
      assert ws == ["port", "add", p, t, name, "del_vlantag"];
      Join6("port", "add", p, t, name, "del_vlantag");
    } else {
      assert ws == ["port", "add", p, t, name, "add_vlantag", Unsigned(op.vid), Unsigned(op.pcp)];
      Join8("port", "add", p, t, name, "add_vlantag", Unsigned(op.vid), Unsigned(op.pcp));
    }
  }

  lemma BuildTable(action: string, mac: string, port: string, vlan: string)
    ensures Join(["classifier_table", action, "mac", mac, port], ' ')
            == "classifier_table" + " " + action + " " + "mac" + " " + mac + " " + port
    ensures Join(["classifier_table", action, "vlan", vlan, mac, port], ' ')
            == "classifier_table" + " " + action + " " + "vlan" + " " + vlan + " " + mac + " " + port
  {
    Join5("classifier_table", action, "mac", mac, port);
    Join6("classifier_table", action, "vlan", vlan, mac, port);
  }

  /** The printed command is its words joined by single blanks. */
  lemma BuildIsJoin(r: Request)
    ensures Build(r) == Join(WordsOf(r), ' ')
  {
    match r
    case StartComponent(name, core, typ) => OtherTexts(); Join5("component", "start", name, Unsigned(core), TypeText(typ));
    case StopComponent(name) => OtherTexts(); Join3("component", "stop", name);
    case PortAdd(port, d, name, op) => BuildAdd(port, d, name, op);
    case PortDel(port, d, name) => OtherTexts(); Join5("port", "del", PortText(port), DirectionText(d), name);
    case SetTable(mac, port) => TableTexts(); BuildTable("add", mac, PortText(port), "");
    case ClearTable(mac, port) => TableTexts(); BuildTable("del", mac, PortText(port), "");
    case SetTableVlan(mac, port, vlan) => TableTexts(); BuildTable("add", mac, PortText(port), Unsigned(vlan));
    case ClearTableVlan(mac, port, vlan) => TableTexts(); BuildTable("del", mac, PortText(port), Unsigned(vlan));
  }

  lemma AddWords(port: PortIndex, d: RxTx, name: string, op: Operation)
    requires GoodName(name)
    ensures Words(WordsOf(PortAdd(port, d, name, op)), ' ')
  {
    PortTextWord(port);
    if op.AddTag? {
      UnsignedIsWord(op.vid, ' ');
      UnsignedIsWord(op.pcp, ' ');
    }
  }

  lemma TableWords(word: string, mac: string, port: PortIndex, vlan: nat)
    requires Word(word, ' ') && Word(mac, ' ')
    ensures Words(["classifier_table", word, "mac", mac, PortText(port)], ' ')
    ensures Words(["classifier_table", word, "vlan", Unsigned(vlan), mac, PortText(port)], ' ')
  {
    PortTextWord(port);
    UnsignedIsWord(vlan, ' ');
  }

  lemma WordsAreWords(r: Request)
    requires WellFormed(r)
    ensures Words(WordsOf(r), ' ')
    ensures 3 <= |WordsOf(r)| <= MAX_PARAMETERS
  {
    match r
    case StartComponent(name, core, typ) => UnsignedIsWord(core, ' ');
    case StopComponent(name) =>
    case PortAdd(port, d, name, op) => AddWords(port, d, name, op);
    case PortDel(port, d, name) => PortTextWord(port);
    case SetTable(mac, port) => TableWords("add", mac, port, 0);
    case ClearTable(mac, port) => TableWords("del", mac, port, 0);
    case SetTableVlan(mac, port, vlan) => TableWords("add", mac, port, vlan);
    case ClearTableVlan(mac, port, vlan) => TableWords("del", mac, port, vlan);
  }

  // ----- Parameters -----

  lemma PortRead(p: PortIndex)
    requires GoodPort(p)
    ensures PortValue(PortText(p)) == Some(PortOf(p))
  {
    DecimalReadBack(p.no);
    var s := PortText(p);
    var n := |KindText(p.kind)| + 1;
    assert s[..n] == KindText(p.kind) + ":" && s[n..] == Unsigned(p.no);
    assert s[0] == KindText(p.kind)[0];
  }

  lemma IntRead(n: nat, max: int)
    requires n <= max < 0x8000_0000
    ensures IntValue(Unsigned(n), 0, max) == Some(n)
  {
    DecimalReadBack(n);
  }

  lemma ActionTexts()
    ensures ActionOf("start") == Some(Start) && ActionOf("stop") == Some(Stop)
    ensures ActionOf("add") == Some(Add) && ActionOf("del") == Some(Del)
  {
    assert "add"[0] != "del"[0];
  }

  lemma DefaultOctets()
    ensures OctetTexts(DEFAULT_MAC, 6) == ["00", "00", "00", "00", "00", "01"]
  {
    assert HexOctet(0) == "00" && HexOctet(1) == "01";
    assert OctetTexts(0x01, 1) == [HexOctet(1)] + OctetTexts(0, 0);
    assert OctetTexts(0x01_00, 2) == [HexOctet(0)] + OctetTexts(0x01, 1);
    assert OctetTexts(0x01_0000, 3) == [HexOctet(0)] + OctetTexts(0x01_00, 2);
    assert OctetTexts(0x01_00_0000, 4) == [HexOctet(0)] + OctetTexts(0x01_0000, 3);
    assert OctetTexts(0x01_0000_0000, 5) == [HexOctet(0)] + OctetTexts(0x01_00_0000, 4);
    assert OctetTexts(DEFAULT_MAC, 6) == [HexOctet(0)] + OctetTexts(0x01_0000_0000, 5);
  }

  lemma JoinColon(w: string, ws: seq<string>)
    requires ws != []
    ensures Join([w] + ws, ':') == w + ":" + Join(ws, ':')
  {
    assert ([w] + ws)[1..] == ws;
  }

  lemma DefaultJoin()
    ensures Join(["00", "00", "00", "00", "00", "01"], ':') == DEFAULT_TEXT
  {
    JoinColon("00", ["01"]);
    assert ["00"] + ["01"] == ["00", "01"] && "00" + ":" + "01" == "00:01";
    JoinColon("00", ["00", "01"]);
    assert ["00"] + ["00", "01"] == ["00", "00", "01"] && "00" + ":" + "00:01" == "00:00:01";
    JoinColon("00", ["00", "00", "01"]);
    assert ["00"] + ["00", "00", "01"] == ["00", "00", "00", "01"] && "00" + ":" + "00:00:01" == "00:00:00:01";
    JoinColon("00", ["00", "00", "00", "01"]);
    assert ["00"] + ["00", "00", "00", "01"] == ["00", "00", "00", "00", "01"];
    assert "00" + ":" + "00:00:00:01" == "00:00:00:00:01";
    JoinColon("00", ["00", "00", "00", "00", "01"]);
    assert ["00"] + ["00", "00", "00", "00", "01"] == ["00", "00", "00", "00", "00", "01"];
    assert "00" + ":" + "00:00:00:00:01" == DEFAULT_TEXT;
  }

  /** The text that stands for the default port is an address, and the default one. */
  lemma DefaultText()
    ensures MacText(DEFAULT_TEXT) && MacValue(DEFAULT_TEXT) == DEFAULT_MAC
  {
    DefaultOctets();
    DefaultJoin();
    MacReadBack(DEFAULT_MAC);
  }

  lemma MacRead(mac: string)
    requires GoodMac(mac)
    ensures MacText(MacOf(mac)) && MacNumber(MacOf(mac)) == Some(MacValue(MacOf(mac)))
  {
    DefaultText();
    MacTextNumber(MacOf(mac));
  }

  // ----- The round trip -----

  lemma StepParams(kind: Kind, c: Cmd, argv: seq<string>, pi: nat, override_: bool, chk: Checks)
    requires Fits(kind, c) && pi < |argv|
    ensures var d := Param(kind, c, pi, argv[pi], override_, chk);
            Params(kind, c, argv, pi, override_, chk)
            == if d.Some? then Params(kind, d.value, argv, pi + 1, override_, chk)
               else Err(BadValue(argv[pi], ParamName(kind, pi)))
  {
  }

  lemma ComponentTrip(r: Request, chk: Checks)
    requires WellFormed(r) && (r.StartComponent? || r.StopComponent?)
    ensures var d := DecodeWords(WordsOf(r), chk);
            if Passes(r, chk) then d == Ok(Meaning(r)) else d.Err?
  {
    ActionTexts();
    var argv := WordsOf(r);
    var c1 := NO_COMPONENT.(action := if r.StartComponent? then Start else Stop);
    var c2 := c1.(name := r.name);
    StepParams(ComponentKind, Component(NO_COMPONENT), argv, 1, |argv| == 5, chk);
    StepParams(ComponentKind, Component(c1), argv, 2, |argv| == 5, chk);
    if r.StartComponent? {
      DecimalReadBack(r.core);
      var c3 := c2.(core := r.core);
      StepParams(ComponentKind, Component(c2), argv, 3, true, chk);
      StepParams(ComponentKind, Component(c3), argv, 4, true, chk);
    }
  }

  lemma PortTrip(action: Action, word: string, port: PortIndex, d: RxTx, name: string, rest: seq<string>, chk: Checks)
    requires (action == Add && word == "add") || (action == Del && word == "del")
    requires GoodPort(port) && GoodName(name) && |rest| <= 3
    ensures var argv := ["port", word, PortText(port), DirectionText(d), name] + rest;
            var r := DecodeWords(argv, chk);
            if chk.nameUsed(name) && (action == Del || |rest| == 3 || !chk.portUsed(PortOf(port), d))
            then r == Params(PortKind, PortCmd(PortSpec(action, PortOf(port), Some(d), name, NO_TAG)), argv, 5, |rest| == 3, chk)
            else r.Err?
  {
    ActionTexts();
    PortRead(port);
    var argv := ["port", word, PortText(port), DirectionText(d), name] + rest;
    var o := |rest| == 3;
    var c1 := NO_PORT.(action := action);
    var c2 := c1.(port := PortOf(port));
    var c3 := c2.(rxtx := Some(d));
    StepParams(PortKind, PortCmd(NO_PORT), argv, 1, o, chk);
    StepParams(PortKind, PortCmd(c1), argv, 2, o, chk);
    StepParams(PortKind, PortCmd(c2), argv, 3, o, chk);
    StepParams(PortKind, PortCmd(c3), argv, 4, o, chk);
    assert "rx"[0] != "tx"[0];
  }

  /** The tail of a `port add` command. */
  lemma TagTrip(c: PortSpec, argv: seq<string>, op: Operation, d: RxTx, o: bool, chk: Checks)
    requires |argv| >= 5 && c.tag == NO_TAG && c.rxtx == Some(d)
    requires argv[5..] == (match op
                           case NoOperation => []
                           case DelTag => ["del_vlantag"]
                           case AddTag(vid, pcp) => ["add_vlantag", Unsigned(vid), Unsigned(pcp)])
    requires op.AddTag? ==> op.vid < NUM_VLAN_VID && op.pcp < 8
    ensures Params(PortKind, PortCmd(c), argv, 5, o, chk) == Ok(PortCmd(c.(tag := TagOf(op, d))))
  {
    if op.DelTag? {
      assert argv[5] == argv[5..][0];
      assert "add_vlantag"[0] != "del_vlantag"[0];
      StepParams(PortKind, PortCmd(c), argv, 5, o, chk);
    } else if op.AddTag? {
      assert argv[5] == argv[5..][0] && argv[6] == argv[5..][1] && argv[7] == argv[5..][2];
      IntRead(op.vid, ETH_VLAN_ID_MAX);
      IntRead(op.pcp, VLAN_PCP_MAX);
      var c5 := c.(tag := Tagging(AddVlanTag, Some(d), 0, 0));
      var c6 := c.(tag := Tagging(AddVlanTag, Some(d), op.vid, -1));
      StepParams(PortKind, PortCmd(c), argv, 5, o, chk);
      StepParams(PortKind, PortCmd(c5), argv, 6, o, chk);
      StepParams(PortKind, PortCmd(c6), argv, 7, o, chk);
    }
  }

  lemma TableMacRead(c: TableSpec, mac: string)
    requires GoodMac(mac)
    ensures TableMacAddress(c, mac) == Some(c.(mac := MacOf(mac)))
  {
    MacRead(mac);
  }

  lemma LastParam(kind: Kind, c: Cmd, argv: seq<string>, override_: bool, chk: Checks)
    requires argv != [] && Fits(kind, c)
    ensures var pi := |argv| - 1;
            var d := Param(kind, c, pi, argv[pi], override_, chk);
            Params(kind, c, argv, pi, override_, chk)
            == if d.Some? then Ok(d.value) else Err(BadValue(argv[pi], ParamName(kind, pi)))
  {
    StepParams(kind, c, argv, |argv| - 1, override_, chk);
  }

  lemma TablePortRead(c: TableSpec, port: PortIndex, chk: Checks)
    requires GoodPort(port) && (c.action == Add || c.action == Del)
    ensures var vid := if c.table == Mac then ETH_VLAN_ID_MAX else c.vid;
            TablePort(c, PortText(port), chk)
            == if (if c.action == Add then Unclassed(chk, PortOf(port)) else Classed(chk, PortOf(port), vid, c.mac))
               then Some(c.(vid := vid, port := PortOf(port))) else None
  {
    PortRead(port);
  }

  lemma TableTrip(action: Action, word: string, mac: string, port: PortIndex, chk: Checks)
    requires (action == Add && word == "add") || (action == Del && word == "del")
    requires GoodPort(port) && GoodMac(mac)
    ensures var r := DecodeWords(["classifier_table", word, "mac", mac, PortText(port)], chk);
            if (if action == Add then Unclassed(chk, PortOf(port)) else Classed(chk, PortOf(port), ETH_VLAN_ID_MAX, MacOf(mac)))
            then r == Ok(Table(TableSpec(action, Mac, ETH_VLAN_ID_MAX, MacOf(mac), PortOf(port))))
            else r.Err?
  {
    ActionTexts();
    MacRead(mac);
    var argv := ["classifier_table", word, "mac", mac, PortText(port)];
    var c1 := NO_TABLE.(action := action);
    var c2 := c1.(table := Mac);
    var c3 := c2.(mac := MacOf(mac));
    StepParams(TableMac, Table(NO_TABLE), argv, 1, true, chk);
    StepParams(TableMac, Table(c1), argv, 2, true, chk);
    StepParams(TableMac, Table(c2), argv, 3, true, chk);
    StepParams(TableMac, Table(c3), argv, 4, true, chk);
    TablePortRead(c3, port, chk);
  }

  /** Action, type and VID of a command with VLAN. */
  lemma VlanHead(action: Action, argv: seq<string>, vlan: nat, chk: Checks)
    requires |argv| == 6 && argv[2] == "vlan" && argv[3] == Unsigned(vlan) && vlan < NUM_VLAN_VID
    requires (action == Add && argv[1] == "add") || (action == Del && argv[1] == "del")
    ensures Params(TableVlan, Table(NO_TABLE), argv, 1, true, chk)
            == Params(TableVlan, Table(TableSpec(action, Vlan, vlan, "", UNDEFINED_PORT)), argv, 4, true, chk)
  {
    ActionTexts();
    IntRead(vlan, ETH_VLAN_ID_MAX);
    var c1 := NO_TABLE.(action := action);
    var c2 := c1.(table := Vlan);
    StepParams(TableVlan, Table(NO_TABLE), argv, 1, true, chk);
    StepParams(TableVlan, Table(c1), argv, 2, true, chk);
    StepParams(TableVlan, Table(c2), argv, 3, true, chk);
  }

  /** Its address. */
  lemma VlanMac(c: TableSpec, argv: seq<string>, mac: string, chk: Checks)
    requires |argv| == 6 && argv[4] == mac && GoodMac(mac)
    ensures Params(TableVlan, Table(c), argv, 4, true, chk)
            == Params(TableVlan, Table(c.(mac := MacOf(mac))), argv, 5, true, chk)
  {
    TableMacRead(c, mac);
    VlanMacParam(c, argv[4], chk, c.(mac := MacOf(mac)));
    StepParams(TableVlan, Table(c), argv, 4, true, chk);
  }

  lemma VlanMacParam(c: TableSpec, arg: string, chk: Checks, r: TableSpec)
    requires TableMacAddress(c, arg) == Some(r)
    ensures Param(TableVlan, Table(c), 4, arg, true, chk) == Some(Table(r))
  {
    assert TableParam(c, true, 4, arg, chk) == Some(r);
  }

  /** Its port. */
  lemma VlanPort(c: TableSpec, argv: seq<string>, port: PortIndex, chk: Checks)
    requires |argv| == 6 && argv[5] == PortText(port) && GoodPort(port)
    requires c.table == Vlan && (c.action == Add || c.action == Del)
    ensures Params(TableVlan, Table(c), argv, 5, true, chk)
            == if (if c.action == Add then Unclassed(chk, PortOf(port)) else Classed(chk, PortOf(port), c.vid, c.mac))
               then Ok(Table(c.(port := PortOf(port))))
               else Err(BadValue(PortText(port), "port"))
  {
    TablePortRead(c, port, chk);
    LastParam(TableVlan, Table(c), argv, true, chk);
  }

  lemma VlanTrip(action: Action, word: string, vlan: nat, mac: string, port: PortIndex, chk: Checks)
    requires (action == Add && word == "add") || (action == Del && word == "del")
    requires GoodPort(port) && GoodMac(mac) && vlan < NUM_VLAN_VID
    ensures var r := DecodeWords(["classifier_table", word, "vlan", Unsigned(vlan), mac, PortText(port)], chk);
            if (if action == Add then Unclassed(chk, PortOf(port)) else Classed(chk, PortOf(port), vlan, MacOf(mac)))
            then r == Ok(Table(TableSpec(action, Vlan, vlan, MacOf(mac), PortOf(port))))
            else r.Err?
  {
    var argv := ["classifier_table", word, "vlan", Unsigned(vlan), mac, PortText(port)];
    VlanHead(action, argv, vlan, chk);
    VlanMac(TableSpec(action, Vlan, vlan, "", UNDEFINED_PORT), argv, mac, chk);
    VlanPort(TableSpec(action, Vlan, vlan, MacOf(mac), UNDEFINED_PORT), argv, port, chk);
  }

  lemma WordsTrip(r: Request, chk: Checks)
    requires WellFormed(r)
    ensures WordsOf(r) != []
    ensures var d := DecodeWords(WordsOf(r), chk);
            if Passes(r, chk) then d == Ok(Meaning(r)) else d.Err?
  {
    match r
    case StartComponent(_, _, _) => ComponentTrip(r, chk);
    case StopComponent(_) => ComponentTrip(r, chk);
    case PortAdd(port, d, name, op) =>
      var argv := WordsOf(r);
      var rest := argv[5..];
      assert argv == ["port", "add", PortText(port), DirectionText(d), name] + rest;
      PortTrip(Add, "add", port, d, name, rest, chk);
      TagTrip(PortSpec(Add, PortOf(port), Some(d), name, NO_TAG), argv, op, d, |rest| == 3, chk);
    case PortDel(port, d, name) =>
      assert WordsOf(r) == ["port", "del", PortText(port), DirectionText(d), name] + [];
      PortTrip(Del, "del", port, d, name, [], chk);
    case SetTable(mac, port) => TableTrip(Add, "add", mac, port, chk);
    case ClearTable(mac, port) => TableTrip(Del, "del", mac, port, chk);
    case SetTableVlan(mac, port, vlan) => VlanTrip(Add, "add", vlan, mac, port, chk);
    case ClearTableVlan(mac, port, vlan) => VlanTrip(Del, "del", vlan, mac, port, chk);
  }

  /** Decoding what spp-ctl prints for a well-formed command gives the command back exactly
      if the decoder's checks of the management data pass; otherwise it is refused. */
  lemma RoundTrip(r: Request, chk: Checks)
    requires WellFormed(r)
    ensures Decode(Build(r), chk) == Ok(Meaning(r)) <==> Passes(r, chk)
    ensures Decode(Build(r), chk).Err? <==> !Passes(r, chk)
  {
    BuildIsJoin(r);
    WordsAreWords(r);
    TokensOfJoin(WordsOf(r), ' ');
    WordsTrip(r, chk);
  }

  /** Management data for which the command passes. */
  function Passing(r: Request): Checks {
    var mac := if r.ClearTable? || r.ClearTableVlan? then MacOf(r.mac) else "";
    Checks(_ => !r.StartComponent?, (_, _) => false, _ => true,
           _ => if r.ClearTableVlan? then r.vlan else ETH_VLAN_ID_MAX,
           _ => if MacNumber(mac).Some? && mac != "" then MacNumber(mac).value else 0)
  }

  /** Well-formed commands that are printed alike mean the same. */
  lemma SameTextSameMeaning(r: Request, s: Request)
    requires WellFormed(r) && WellFormed(s) && Build(r) == Build(s)
    ensures Meaning(r) == Meaning(s)
  {
    var chk := Passing(r);
    if r.ClearTable? || r.ClearTableVlan? {
      MacRead(r.mac);
    }
    RoundTrip(r, chk);
    RoundTrip(s, chk);
  }

  /** The texts, as the guide to the commands gives them: components, */
  lemma ComponentTexts()
    ensures Build(StartComponent("fw1", 2, Forward)) == "component start fw1 2 forward"
    ensures Build(StartComponent("mg1", 3, Merge)) == "component start mg1 3 merge"
    ensures Build(StartComponent("cls1", 5, ClassifierMac)) == "component start cls1 5 classifier_mac"
    ensures Build(StopComponent("cls1")) == "component stop cls1"
  {
    SmallNumbersPrinted();
    assert "component start " + "fw1" + " " + "2" + " " + "forward" == "component start fw1 2 forward";
    assert "component start " + "mg1" + " " + "3" + " " + "merge" == "component start mg1 3 merge";
    assert "component start " + "cls1" + " " + "5" + " " + "classifier_mac" == "component start cls1 5 classifier_mac";
    assert "component stop " + "cls1" == "component stop cls1";
  }

  lemma PortTexts()
    ensures PortText(PortIndex(Phy, 0)) == "phy:0" && PortText(PortIndex(Ring, 0)) == "ring:0"
    ensures PortText(PortIndex(Vhost, 1)) == "vhost:1"
  {
    SmallNumbersPrinted();
    assert "phy" + ":" + "0" == "phy:0" && "ring" + ":" + "0" == "ring:0" && "vhost" + ":" + "1" == "vhost:1";
  }

  /** ports, */
  lemma PortAddTexts()
    ensures Build(PortAdd(PortIndex(Phy, 0), Rx, "cls1", NoOperation)) == "port add phy:0 rx cls1"
    ensures Build(PortDel(PortIndex(Vhost, 1), Tx, "mg1")) == "port del vhost:1 tx mg1"
  {
    PortTexts();
    assert "port add " + "phy:0" + " " + "rx" + " " + "cls1" == "port add phy:0 rx cls1";
    assert "port del " + "vhost:1" + " " + "tx" + " " + "mg1" == "port del vhost:1 tx mg1";
  }

  lemma TagTexts()
    ensures Build(PortAdd(PortIndex(Phy, 0), Rx, "fw2", DelTag)) == "port add phy:0 rx fw2 del_vlantag"
    ensures Build(PortAdd(PortIndex(Phy, 0), Tx, "fw2", AddTag(1, 3))) == "port add phy:0 tx fw2 add_vlantag 1 3"
  {
    SmallNumbersPrinted();
    PortTexts();
    assert "port add " + "phy:0" + " " + "rx" + " " + "fw2" == "port add phy:0 rx fw2";
    assert "port add phy:0 rx fw2" + " " + "del_vlantag" == "port add phy:0 rx fw2 del_vlantag";
    assert "port add " + "phy:0" + " " + "tx" + " " + "fw2" == "port add phy:0 tx fw2";
    assert "port add phy:0 tx fw2" + " " + "add_vlantag" + " " + "1" + " " + "3" == "port add phy:0 tx fw2 add_vlantag 1 3";
  }

  /** and classes. */
  lemma MacTexts()
    ensures Build(SetTable("default", PortIndex(Ring, 0))) == "classifier_table add mac default ring:0"
    ensures Build(ClearTable("default", PortIndex(Ring, 0))) == "classifier_table del mac default ring:0"
  {
    PortTexts();
    assert "default" + " " + "ring:0" == "default ring:0";
    assert "classifier_table add mac " + "default" + " " + "ring:0" == "classifier_table add mac default ring:0";
    assert "classifier_table del mac " + "default" + " " + "ring:0" == "classifier_table del mac default ring:0";
  }

  lemma VlanTexts()
    ensures Build(SetTableVlan("default", PortIndex(Ring, 0), 9)) == "classifier_table add vlan 9 default ring:0"
    ensures Build(ClearTableVlan("default", PortIndex(Ring, 0), 9)) == "classifier_table del vlan 9 default ring:0"
  {
    SmallNumbersPrinted();
    PortTexts();
    assert "classifier_table add vlan " + "9" + " " == "classifier_table add vlan 9 ";
    assert "classifier_table add vlan 9 " + "default" + " " + "ring:0" == "classifier_table add vlan 9 default ring:0";
    assert "classifier_table del vlan " + "9" + " " == "classifier_table del vlan 9 ";
    assert "classifier_table del vlan 9 " + "default" + " " + "ring:0" == "classifier_table del vlan 9 default ring:0";
  }

  lemma SmallNumbersPrinted()
    ensures Unsigned(0) == "0" && Unsigned(1) == "1" && Unsigned(2) == "2" && Unsigned(3) == "3"
    ensures Unsigned(5) == "5" && Unsigned(9) == "9"
  {
  }
}

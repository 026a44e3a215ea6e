/** The command strings spp-ctl sends, and their decoding by spp_vf. */
module CommandText {
  import opened SppTypes
  import opened Decimal
  import opened Text

  // ----- What spp-ctl prints -----

  datatype Operation = NoOperation | AddTag(vid: nat, pcp: nat) | DelTag

  datatype Request =
    | StartComponent(name: string, core: nat, typ: CompType)
    | StopComponent(name: string)
    | PortAdd(port: PortIndex, direction: RxTx, name: string, op: Operation)
    | PortDel(port: PortIndex, direction: RxTx, name: string)
    | SetTable(mac: string, port: PortIndex)
    | ClearTable(mac: string, port: PortIndex)
    | SetTableVlan(mac: string, port: PortIndex, vlan: nat)
    | ClearTableVlan(mac: string, port: PortIndex, vlan: nat)

  function KindText(k: PortType): string {
    match k case Phy => "phy" case Vhost => "vhost" case Ring => "ring"
  }

  /** Also what `spp_format_port_string` prints. */
  function PortText(p: PortIndex): string { KindText(p.kind) + ":" + Unsigned(p.no) }

  function DirectionText(d: RxTx): string { if d.Rx? then "rx" else "tx" }

  function TypeText(t: CompType): string {
    match t
    case ClassifierMac => "classifier_mac"
    case Merge => "merge"
    case Forward => "forward"
    case Mirror => "mirror"
    case Unuse => "unuse"
  }

  /** The format expressions of the builders. */
  function Build(r: Request): string {
    match r
    case StartComponent(name, core, typ) => "component start " + name + " " + Unsigned(core) + " " + TypeText(typ)
    case StopComponent(name) => "component stop " + name
    case PortAdd(port, direction, name, op) =>
      var command := "port add " + PortText(port) + " " + DirectionText(direction) + " " + name;
      (match op
       case NoOperation => command
       case DelTag => command + " " + "del_vlantag"
       case AddTag(vid, pcp) => command + " " + "add_vlantag" + " " + Unsigned(vid) + " " + Unsigned(pcp))
    case PortDel(port, direction, name) => "port del " + PortText(port) + " " + DirectionText(direction) + " " + name
    case SetTable(mac, port) => "classifier_table add mac " + mac + " " + PortText(port)
    case ClearTable(mac, port) => "classifier_table del mac " + mac + " " + PortText(port)
    case SetTableVlan(mac, port, vlan) => "classifier_table add vlan " + Unsigned(vlan) + " " + mac + " " + PortText(port)
    case ClearTableVlan(mac, port, vlan) => "classifier_table del vlan " + Unsigned(vlan) + " " + mac + " " + PortText(port)
  }

  // ----- What spp_vf decodes -----

  datatype Action = NoAction | Start | Stop | Add | Del
  datatype TableType = NoType | Mac | Vlan

  /** `kind` is None while undefined. */
  datatype Port = Port(kind: Option<PortType>, no: int)

  datatype Tagging = Tagging(ope: AbilityOpe, rxtx: Option<RxTx>, vid: int, pcp: int)

  datatype Kind = TableMac | TableVlan | ClientId | Status | Exit | ComponentKind | PortKind

  datatype ComponentSpec = ComponentSpec(action: Action, name: string, core: nat, typ: CompType)
  datatype PortSpec = PortSpec(action: Action, port: Port, rxtx: Option<RxTx>, name: string, tag: Tagging)
  datatype TableSpec = TableSpec(action: Action, table: TableType, vid: int, mac: string, port: Port)

  datatype Cmd = Simple(kind: Kind) | Component(component: ComponentSpec) | PortCmd(port: PortSpec) | Table(table: TableSpec)

  datatype Failure = BadFormat | BadValue(value: string, name: string)

  datatype Result = Ok(cmd: Cmd) | Err(failure: Failure)

  /** What the decoder asks the management data: whether a component has that name, whether a
      port is used in a direction, whether it was added, and its class. */
  datatype Checks = Checks(nameUsed: string -> bool, portUsed: (Port, RxTx) -> bool, portAdded: Port -> bool,
                           classVid: Port -> int, classMac: Port -> nat)

  const MAX_PARAMETERS: nat := 8
  const VALUE_BUFSZ: nat := 111
  const RTE_MAX_LCORE: nat := 128
  const ETH_VLAN_ID_MAX: int := 4095
  const VLAN_PCP_MAX: int := 7
  const DEFAULT_SPEC := "default"
  const DEFAULT_TEXT := "00:00:00:00:00:01"

  const UNDEFINED_PORT := Port(None, 0)
  const NO_TAG := Tagging(NoOpe, None, 0, 0)

  const NO_COMPONENT := ComponentSpec(NoAction, "", 0, Unuse)
  const NO_PORT := PortSpec(NoAction, UNDEFINED_PORT, None, "", NO_TAG)
  const NO_TABLE := TableSpec(NoAction, NoType, 0, "", UNDEFINED_PORT)

  /** The request before its parameters are decoded. */
  function Zero(kind: Kind): Cmd {
    match kind
    case TableMac => Table(NO_TABLE)
    case TableVlan => Table(NO_TABLE)
    case ComponentKind => Component(NO_COMPONENT)
    case PortKind => PortCmd(NO_PORT)
    case ClientId => Simple(kind)
    case Status => Simple(kind)
    case Exit => Simple(kind)
  }

  predicate Fits(kind: Kind, c: Cmd) {
    match kind
    case TableMac => c.Table?
    case TableVlan => c.Table?
    case ComponentKind => c.Component?
    case PortKind => c.PortCmd?
    case ClientId => c.Simple?
    case Status => c.Simple?
    case Exit => c.Simple?
  }

  function IntValue(arg: string, min: int, max: int): Option<int> {
    match IntOf(arg, 0)
    case Some(v) => if min <= v <= max then Some(v) else None
    case None => None
  }

  function StrValue(arg: string): Option<string> {
    if |arg| >= VALUE_BUFSZ then None else Some(arg)
  }

  function ActionOf(arg: string): Option<Action> {
    if arg == "start" then Some(Start)
    else if arg == "stop" then Some(Stop)
    else if arg == "add" then Some(Add)
    else if arg == "del" then Some(Del)
    else None
  }

  function NumberedPort(kind: PortType, no: string): Option<Port> {
    match IntOf(no, 0)
    case Some(v) => Some(Port(Some(kind), v))
    case None => None
  }

  /** `spp_convert_port_to_iface`. */
  function PortValue(arg: string): Option<Port> {
    if "phy:" <= arg then NumberedPort(Phy, arg[4..])
    else if "vhost:" <= arg then NumberedPort(Vhost, arg[6..])
    else if "ring:" <= arg then NumberedPort(Ring, arg[5..])
    else None
  }

  function ComponentType(arg: string): Option<CompType> {
    if arg == "classifier_mac" then Some(ClassifierMac)
    else if arg == "merge" then Some(Merge)
    else if arg == "forward" then Some(Forward)
    else None
  }

  function ComponentParam(c: ComponentSpec, pi: nat, arg: string, chk: Checks): Option<ComponentSpec> {
    if pi == 1 then
      match ActionOf(arg)
      case Some(a) => if a == Start || a == Stop then Some(c.(action := a)) else None
      case None => None
    else if pi == 2 then
      if c.action == Start && chk.nameUsed(arg) then None
      else if StrValue(arg).Some? then Some(c.(name := arg)) else None
    else if c.action != Start then Some(c)
    else if pi == 3 then
      match UintOf(arg)
      case Some(v) => if v < RTE_MAX_LCORE then Some(c.(core := v)) else None
      case None => None
    else
      match ComponentType(arg)
      case Some(t) => Some(c.(typ := t))
      case None => None
  }

  function PortParam(c: PortSpec, pi: nat, arg: string, override_: bool, chk: Checks): Option<PortSpec> {
    if pi == 1 then
      match ActionOf(arg)
      case Some(a) => if a == Add || a == Del then Some(c.(action := a)) else None
      case None => None
    else if pi == 2 then
      match PortValue(arg)
      case Some(p) =>
        if !override_ && c.action == Add && chk.portUsed(p, Rx) && chk.portUsed(p, Tx) then None else Some(c.(port := p))
      case None => None
    else if pi == 3 then
      if arg != "rx" && arg != "tx" then None
      else
        var d := if arg == "rx" then Rx else Tx;
        if !override_ && c.action == Add && chk.portUsed(c.port, d) then None else Some(c.(rxtx := Some(d)))
    else if pi == 4 then
      if chk.nameUsed(arg) && StrValue(arg).Some? then Some(c.(name := arg)) else None
    else if pi == 5 then
      if c.tag.ope != NoOpe then Some(c)
      else if arg == "add_vlantag" then Some(c.(tag := c.tag.(ope := AddVlanTag, rxtx := c.rxtx)))
      else if arg == "del_vlantag" then Some(c.(tag := c.tag.(ope := DelVlanTag, rxtx := c.rxtx)))
      else None
    else if c.tag.ope != AddVlanTag then Some(c)
    else if pi == 6 then
      match IntValue(arg, 0, ETH_VLAN_ID_MAX)
      case Some(v) => Some(c.(tag := c.tag.(vid := v, pcp := -1)))
      case None => None
    else
      match IntValue(arg, 0, VLAN_PCP_MAX)
      case Some(v) => Some(c.(tag := c.tag.(pcp := v)))
      case None => None
  }

  function TableAction(c: TableSpec, arg: string): Option<TableSpec> {
    match ActionOf(arg)
    case Some(a) => if a == Add || a == Del then Some(c.(action := a)) else None
    case None => None
  }

  function TableKind(c: TableSpec, arg: string): Option<TableSpec> {
    if arg == "mac" then Some(c.(table := Mac)) else if arg == "vlan" then Some(c.(table := Vlan)) else None
  }

  function TableMacAddress(c: TableSpec, arg: string): Option<TableSpec> {
    var text := if arg == DEFAULT_SPEC then DEFAULT_TEXT else arg;
    if MacNumber(text).Some? then Some(c.(mac := text)) else None
  }

  function TableVid(c: TableSpec, arg: string): Option<TableSpec> {
    match IntValue(arg, 0, ETH_VLAN_ID_MAX)
    case Some(v) => Some(c.(vid := v))
    case None => None
  }

  function TablePort(c: TableSpec, arg: string, chk: Checks): Option<TableSpec> {
    match PortValue(arg)
    case None => None
    case Some(p) =>
      if !chk.portAdded(p) then None
      else
        var vid := if c.table == Mac then ETH_VLAN_ID_MAX else c.vid;
        if c.action == Add && !(chk.classMac(p) == 0 && chk.classVid(p) == ETH_VLAN_ID_MAX) then None
        else if c.action == Del && !(MacNumber(c.mac) == Some(chk.classMac(p)) && chk.classVid(p) == vid) then None
        else Some(c.(vid := vid, port := p))
  }

  function TableParam(c: TableSpec, vlan: bool, pi: nat, arg: string, chk: Checks): Option<TableSpec> {
    if pi == 1 then TableAction(c, arg)
    else if pi == 2 then TableKind(c, arg)
    else if vlan && pi == 3 then TableVid(c, arg)
    else if pi == (if vlan then 4 else 3) then TableMacAddress(c, arg)
    else TablePort(c, arg, chk)
  }

  function OfTable(t: Option<TableSpec>): Option<Cmd> {
    if t.Some? then Some(Table(t.value)) else None
  }

  function OfPort(p: Option<PortSpec>): Option<Cmd> {
    if p.Some? then Some(PortCmd(p.value)) else None
  }

  function OfComponent(c: Option<ComponentSpec>): Option<Cmd> {
    if c.Some? then Some(Component(c.value)) else None
  }

  /** Decoding of parameter `pi`; None if it is refused. */
  function Param(kind: Kind, c: Cmd, pi: nat, arg: string, override_: bool, chk: Checks): (r: Option<Cmd>)
    requires Fits(kind, c)
    ensures r.Some? ==> Fits(kind, r.value)
  {
    match kind
    case TableMac => OfTable(TableParam(c.table, false, pi, arg, chk))
    case TableVlan => OfTable(TableParam(c.table, true, pi, arg, chk))
    case ComponentKind => OfComponent(ComponentParam(c.component, pi, arg, chk))
    case PortKind => OfPort(PortParam(c.port, pi, arg, override_, chk))
    case ClientId => Some(c)
    case Status => Some(c)
    case Exit => Some(c)
  }

  function ParamName(kind: Kind, pi: nat): string {
    if pi == 1 then "action"
    else if kind == ComponentKind then
      if pi == 2 then "component name" else if pi == 3 then "core" else "component type"
    else if kind == PortKind then
      if pi == 2 then "port" else if pi == 3 then "port rxtx" else if pi == 4 then "component name"
      else if pi == 5 then "port vlan operation" else if pi == 6 then "port vid" else "port pcp"
    else if pi == 2 then "type"
    else if kind == TableVlan then
      if pi == 3 then "vlan id" else if pi == 4 then "mac address" else "port"
    else if pi == 3 then "mac address" else "port"
  }

  /** The parameters from `pi` on, in order, until one is refused. */
  function Params(kind: Kind, c: Cmd, argv: seq<string>, pi: nat, override_: bool, chk: Checks): Result
    requires Fits(kind, c) && pi <= |argv|
    decreases |argv| - pi
  {
    if pi == |argv| then Ok(c)
    else
      match Param(kind, c, pi, argv[pi], override_, chk)
      case Some(d) => Params(kind, d, argv, pi + 1, override_, chk)
      case None => Err(BadValue(argv[pi], ParamName(kind, pi)))
  }

  datatype Choice = Chosen(kind: Kind, most: nat) | WrongCount | Unknown

  function OneOf(argc: nat, least: nat, most: nat, kind: Kind): Choice {
    if least <= argc <= most then Chosen(kind, most) else WrongCount
  }

  /** The command of that name that takes so many words. */
  function Choose(name: string, argc: nat): Choice {
    if name == "classifier_table" then
      if argc == 5 then Chosen(TableMac, 5) else OneOf(argc, 6, 6, TableVlan)
    else if name == "_get_client_id" then OneOf(argc, 1, 1, ClientId)
    else if name == "status" then OneOf(argc, 1, 1, Status)
    else if name == "exit" then OneOf(argc, 1, 1, Exit)
    else if name == "component" then OneOf(argc, 3, 5, ComponentKind)
    else if name == "port" then OneOf(argc, 5, 8, PortKind)
    else Unknown
  }

  /** What a request decodes to. */
  function DecodeWords(argv: seq<string>, chk: Checks): Result
    requires argv != []
  {
    match Choose(argv[0], |argv|)
    case Unknown => Err(BadValue(argv[0], "command"))
    case WrongCount => Err(BadFormat)
    case Chosen(kind, most) => Params(kind, Zero(kind), argv, 1, |argv| == most, chk)
  }

  function Decode(text: string, chk: Checks): Result {
    var argv := Tokens(text, ' ');
    if |argv| > MAX_PARAMETERS || argv == [] then Err(BadFormat) else DecodeWords(argv, chk)
  }

  datatype Entry = Entry(name: string, least: nat, most: nat, kind: Kind)

  const COMMANDS: seq<Entry> := [
    Entry("classifier_table", 5, 5, TableMac),
    Entry("classifier_table", 6, 6, TableVlan),
    Entry("_get_client_id", 1, 1, ClientId),
    Entry("status", 1, 1, Status),
    Entry("exit", 1, 1, Exit),
    Entry("component", 3, 5, ComponentKind),
    Entry("port", 5, 8, PortKind)
  ]

  /** Search of the command list from entry `i` on. */
  function Search(name: string, argc: nat, i: nat, wrong: bool): Choice
    requires i <= |COMMANDS|
    decreases |COMMANDS| - i
  {
    if i == |COMMANDS| then (if wrong then WrongCount else Unknown)
    else
      var e := COMMANDS[i];
      if e.name != name then Search(name, argc, i + 1, wrong)
      else if e.least <= argc <= e.most then Chosen(e.kind, e.most)
      else Search(name, argc, i + 1, true)
  }

  lemma SearchFrom5(name: string, argc: nat, wrong: bool)
    ensures Search(name, argc, 5, wrong) ==
      if name == "component" && 3 <= argc <= 5 then Chosen(ComponentKind, 5)
      else if name == "port" && 5 <= argc <= 8 then Chosen(PortKind, 8)
      else if wrong || name == "component" || name == "port" then WrongCount else Unknown
  {
    assert Search(name, argc, 7, true) == WrongCount && Search(name, argc, 7, wrong) == if wrong then WrongCount else Unknown;
    assert Search(name, argc, 6, wrong) == if name != "port" then Search(name, argc, 7, wrong)
                                           else if 5 <= argc <= 8 then Chosen(PortKind, 8) else WrongCount;
    assert Search(name, argc, 6, true) == if name == "port" && 5 <= argc <= 8 then Chosen(PortKind, 8) else WrongCount;
  }

  lemma SearchFrom2(name: string, argc: nat, wrong: bool)
    requires name == "classifier_table" || !wrong
    ensures Search(name, argc, 2, wrong) == if name == "classifier_table" then (if wrong then WrongCount else Unknown) else Choose(name, argc)
  {
    SearchFrom5(name, argc, wrong);
    SearchFrom5(name, argc, true);
    assert Search(name, argc, 4, true) == if name == "exit" && argc == 1 then Chosen(Exit, 1)
                                          else Search(name, argc, 5, true);
    assert Search(name, argc, 4, wrong) == if name != "exit" then Search(name, argc, 5, wrong)
                                           else if argc == 1 then Chosen(Exit, 1) else Search(name, argc, 5, true);
    assert Search(name, argc, 3, true) == if name == "status" && argc == 1 then Chosen(Status, 1)
                                          else Search(name, argc, 4, true);
    assert Search(name, argc, 3, wrong) == if name != "status" then Search(name, argc, 4, wrong)
                                           else if argc == 1 then Chosen(Status, 1) else Search(name, argc, 4, true);
  }

  /** The list gives each name and number of words the command it should have. */
  lemma SearchIsChoose(name: string, argc: nat)
    ensures Search(name, argc, 0, false) == Choose(name, argc)
  {
    SearchFrom2(name, argc, false);
    if name == "classifier_table" {
      SearchFrom2(name, argc, true);
      assert Search(name, argc, 1, true) == if argc == 6 then Chosen(TableVlan, 6) else Search(name, argc, 2, true);
    } else {
      assert Search(name, argc, 1, false) == Search(name, argc, 2, false);
    }
  }

  /** `decode_command_in_list`, the tokens in hand. */
  method DecodeList(argv: seq<string>, chk: Checks) returns (r: Result)
    requires argv != []
    ensures r == DecodeWords(argv, chk)
  {
    SearchIsChoose(argv[0], |argv|);
    var wrong := false;
    var i := 0;
    while i < |COMMANDS|
      invariant i <= |COMMANDS| && Search(argv[0], |argv|, i, wrong) == Choose(argv[0], |argv|)
    {
      var e := COMMANDS[i];
      if e.name == argv[0] {
        if e.least <= |argv| <= e.most {
          r := DecodeParams(e.kind, argv, |argv| == e.most, chk);
          return;
        }
        wrong := true;
      }
      i := i + 1;
    }
    return Err(if wrong then BadFormat else BadValue(argv[0], "command"));
  }

  /** The loop of the `decode_command_parameter` functions. */
  method DecodeParams(kind: Kind, argv: seq<string>, override_: bool, chk: Checks) returns (r: Result)
    requires argv != []
    ensures r == Params(kind, Zero(kind), argv, 1, override_, chk)
  {
    var c := Zero(kind);
    var pi := 1;
    while pi < |argv|
      invariant 1 <= pi <= |argv| && Fits(kind, c)
      invariant Params(kind, c, argv, pi, override_, chk) == Params(kind, Zero(kind), argv, 1, override_, chk)
    {
      var d := Param(kind, c, pi, argv[pi], override_, chk);
      if d.None? {
        return Err(BadValue(argv[pi], ParamName(kind, pi)));
      }
      c := d.value;
      pi := pi + 1;
    }
    return Ok(c);
  }

  method DecodeRequest(text: string, chk: Checks) returns (r: Result)
    ensures r == Decode(text, chk)
  {
    var ok, argv := DecodeParameterValue(text, MAX_PARAMETERS);
    if !ok || argv == [] {
      return Err(BadFormat);
    }
    r := DecodeList(argv, chk);
  }
}

/** When a tag that was accepted with a port is the tag the port's frames get, over the
    commands of management. */
module TagEffect {
  import opened SppTypes
  import opened Management
  import opened VlanTag
  import opened PortAbility

  /** The entry an accepted `port add` with a tag writes: the first tagging one of either
      direction if the component has the port already, else the first empty one. */
  function Place(m: Mng, p: PortIndex, rxtx: RxTx, name: string): Option<nat>
    requires GetComponentId(m.comps, name).Some?
  {
    var c := m.comps[GetComponentId(m.comps, name).value];
    FindOpe(AbilityOf(m, p), if p in Ports(c, rxtx) then AddVlanTag else NoOpe, 0)
  }

  lemma {:induction false} PublishedConcat(a: seq<Ability>, b: seq<Ability>, rxtx: RxTx)
    ensures Published(a + b, rxtx) == Published(a, rxtx) + Published(b, rxtx)
    decreases |b|
  {
    if b == [] {
      assert a + b == a;
    } else {
      var n := |b| - 1;
      PublishedConcat(a, b[..n], rxtx);
      var s := a + b;
      assert s[..|s| - 1] == a + b[..n] && s[|s| - 1] == b[n];
    }
  }

  /** Replacing one entry by one for the direction. */
  lemma PublishedReplaced(list: seq<Ability>, k: nat, e: Ability, rxtx: RxTx)
    requires k < |list| && Selected(e, rxtx)
    ensures Published(list[k := e], rxtx)
            == Published(list[..k], rxtx) + [Prepared(e)] + Published(list[k + 1..], rxtx)
  {
    assert list[k := e] == list[..k] + [e] + list[k + 1..];
    PublishedConcat(list[..k] + [e], list[k + 1..], rxtx);
    PublishedConcat(list[..k], [e], rxtx);
    assert [e][..0] == [];
    assert Published([e], rxtx) == Published([e][..0], rxtx) + [Prepared(e)];
  }

  /** Raw control information has sixteen bits everywhere. */
  ghost predicate AllSane(m: Mng) { forall p :: Sane(AbilityOf(m, p)) }

  /** The entries of the direction that stay before and behind the place of the tag let it
      through: the first of those before would write the same control information, and the
      last of those behind adds a tag. */
  predicate LetsThrough(list: seq<Ability>, k: nat, rxtx: RxTx, tci: nat)
    requires k < |list|
  {
    var before, behind := Published(list[..k], rxtx), Published(list[k + 1..], rxtx);
    && (before == [] || before[0].tci == tci)
    && (behind == [] || behind[|behind| - 1].ope == AddVlanTag)
  }

  lemma AddWrites(m: Mng, p: PortIndex, rxtx: RxTx, name: string, tag: Ability)
    requires Managed(m) && PortAdd(m, p, rxtx, name, tag).Some? && tag.ope == AddVlanTag
    ensures GetComponentId(m.comps, name).Some? && Place(m, p, rxtx, name).Some?
    ensures var k := Place(m, p, rxtx, name).value;
            k < |AbilityOf(m, p)| && AbilityOf(PortAdd(m, p, rxtx, name, tag).value, p) == AbilityOf(m, p)[k := tag]
  {
  }

  /** An accepted `port add` with a tag takes effect, every frame of the port in that direction
      carrying it, exactly if the entries the port already has for the direction let it
      through. */
  lemma TagTakesEffectIff(m: Mng, p: PortIndex, rxtx: RxTx, name: string, tag: Ability)
    requires Managed(m) && AllSane(m) && PortAdd(m, p, rxtx, name, tag).Some?
    requires tag.ope == AddVlanTag && tag.rxtx == rxtx && 0 <= tag.tci < 0x1_0000
    ensures GetComponentId(m.comps, name).Some? && Place(m, p, rxtx, name).Some?
    ensures var after := Published(AbilityOf(PortAdd(m, p, rxtx, name, tag).value, p), rxtx);
            Listed(after)
            && (ShowsTag(after, Tci(tag.vid, tag.pcp))
                <==> LetsThrough(AbilityOf(m, p), Place(m, p, rxtx, name).value, rxtx, Tci(tag.vid, tag.pcp)))
  {
    AddWrites(m, p, rxtx, name, tag);
    var list, k := AbilityOf(m, p), Place(m, p, rxtx, name).value;
    assert Sane(list);
    EffectIff(list, k, rxtx, tag);
  }

  lemma EffectIff(list: seq<Ability>, k: nat, rxtx: RxTx, tag: Ability)
    requires Sane(list) && k < |list| && Selected(tag, rxtx) && tag.ope == AddVlanTag && 0 <= tag.tci < 0x1_0000
    ensures var after := Published(list[k := tag], rxtx);
            Listed(after)
            && (ShowsTag(after, Tci(tag.vid, tag.pcp)) <==> LetsThrough(list, k, rxtx, Tci(tag.vid, tag.pcp)))
  {
    var after, tci := Published(list[k := tag], rxtx), Tci(tag.vid, tag.pcp);
    var before, behind := Published(list[..k], rxtx), Published(list[k + 1..], rxtx);
    PublishedReplaced(list, k, tag, rxtx);
    PublishedListed(list[k := tag], rxtx);
    assert after == before + [Prepared(tag)] + behind;
    ShowsTagIff(after, tci);
  }

  /** So it always takes effect on a port without abilities in that direction. */
  lemma FreshPortTakesEffect(m: Mng, p: PortIndex, rxtx: RxTx, name: string, tag: Ability)
    requires Managed(m) && AllSane(m) && PortAdd(m, p, rxtx, name, tag).Some?
    requires tag.ope == AddVlanTag && tag.rxtx == rxtx && 0 <= tag.tci < 0x1_0000
    requires forall x :: 0 <= x < |AbilityOf(m, p)| ==> !Selected(AbilityOf(m, p)[x], rxtx)
    ensures var after := Published(AbilityOf(PortAdd(m, p, rxtx, name, tag).value, p), rxtx);
            Listed(after) && ShowsTag(after, Tci(tag.vid, tag.pcp))
  {
    TagTakesEffectIff(m, p, rxtx, name, tag);
    var list, k := AbilityOf(m, p), Place(m, p, rxtx, name).value;
    NothingPublished(list[..k], rxtx);
    NothingPublished(list[k + 1..], rxtx);
  }

  lemma {:induction false} NothingPublished(list: seq<Ability>, rxtx: RxTx)
    requires forall x :: 0 <= x < |list| ==> !Selected(list[x], rxtx)
    ensures Published(list, rxtx) == []
  {
    if list != [] {
      NothingPublished(list[..|list| - 1], rxtx);
    }
  }

  // ----- Runs -----

  /** What the decoder produces: the raw control information is still 0. */
  predicate Raw(cmd: Command) { cmd.AddPort? ==> cmd.ability.tci == 0 }

  lemma ExecuteSane(m: Mng, cmd: Command)
    requires Managed(m) && AllSane(m) && Raw(cmd) && Execute(m, cmd).Some?
    ensures AllSane(Execute(m, cmd).value)
  {
    var r := Execute(m, cmd).value;
    forall p ensures Sane(AbilityOf(r, p)) {
      assert Sane(AbilityOf(m, p));
      if cmd.AddPort? || cmd.DelPort? {
        assert Sane(AbilityOf(m, cmd.port));
      }
    }
  }

  /** Over every run of commands the condition on raw control information holds, so that the
      theorem above says of every accepted tag whether it takes effect. */
  lemma {:induction false} RunSane(m: Mng, cmds: seq<Command>)
    requires Managed(m) && AllSane(m) && forall c :: c in cmds ==> Decodable(c) && Raw(c)
    ensures Managed(ExecuteAll(m, cmds)) && AllSane(ExecuteAll(m, cmds))
    decreases |cmds|
  {
    if cmds != [] {
      assert cmds[0] in cmds;
      var e := Execute(m, cmds[0]);
      if e.Some? {
        ExecuteManaged(m, cmds[0]);
        ExecuteSane(m, cmds[0]);
        assert forall p :: AbilityOf(Flushed(e.value), p) == AbilityOf(e.value, p);
        RunSane(Flushed(e.value), cmds[1..]);
      } else {
        RunSane(m, cmds[1..]);
      }
    }
  }

  /** Stopping a component leaves the abilities of its ports. */
  lemma StopKeepsAbilities(m: Mng, name: string, p: PortIndex)
    requires Managed(m)
    ensures AbilityOf(Stop(m, name), p) == AbilityOf(m, p)
  {
  }

  /** What the commands name: two components with type and lcore, a port and direction, and the
      two abilities it is added with. */
  datatype Story = Story(x: string, xtyp: CompType, xcore: nat, y: string, ytyp: CompType, ycore: nat,
                         p: PortIndex, d: RxTx, first: Ability, tag: Ability)

  /** Ordinary commands: a port is added with an ability, its component stopped, and the port
      added with a tag to another component. */
  function StaleRun(t: Story): seq<Command> {
    [StartComp(t.x, t.xcore, t.xtyp), AddPort(t.p, t.d, t.x, t.first), StopComp(t.x),
     StartComp(t.y, t.ycore, t.ytyp), AddPort(t.p, t.d, t.y, t.tag)]
  }

  predicate Typed(typ: CompType) { typ.Forward? || typ.Merge? || typ.ClassifierMac? }

  /** A new component of that name can be started on the lcore. */
  ghost predicate Room(m: Mng, name: string, lcore: nat) {
    && Shape(m) && FindFree(m.comps, 0).Some? && lcore < |m.comps| && m.usable[lcore] && m.maxPorts >= 1
    && name != "" && forall i :: 0 <= i < |m.comps| ==> m.comps[i].name != name
  }

  /** The component has that slot, is found there, and has no ports. */
  ghost predicate New(m: Mng, name: string, id: nat) {
    && Shape(m) && id < |m.comps| && GetComponentId(m.comps, name) == Some(id)
    && Typed(m.comps[id].typ) && m.comps[id].rx == m.comps[id].tx == [] && m.comps[id].lcore < |m.comps| && m.maxPorts >= 1
  }

  lemma StartNew(m: Mng, name: string, lcore: nat, typ: CompType)
    requires Room(m, name, lcore) && Typed(typ)
    ensures var r, id := Execute(m, StartComp(name, lcore, typ)), FindFree(m.comps, 0).value;
            && r.Some? && New(r.value, name, id) && r.value.comps == m.comps[id := Component(name, typ, lcore, id, [], [])]
            && r.value.abil == m.abil && r.value.usable == m.usable && r.value.maxPorts == m.maxPorts
  {
  }

  lemma AddNew(m: Mng, name: string, id: nat, p: PortIndex, d: RxTx, a: Ability)
    requires New(m, name, id) && a.ope != NoOpe && FindOpe(AbilityOf(m, p), NoOpe, 0).Some?
    ensures var r := Execute(m, AddPort(p, d, name, a));
            && r.Some? && r.value.comps == m.comps[id := WithPorts(m.comps[id], d, [p])]
            && r.value.usable == m.usable && r.value.maxPorts == m.maxPorts
            && AbilityOf(r.value, p) == AbilityOf(m, p)[FindOpe(AbilityOf(m, p), NoOpe, 0).value := a]
  {
    assert [] + [p] == [p];
  }

  lemma StopIt(m: Mng, name: string, id: nat, p: PortIndex)
    requires Shape(m) && id < |m.comps| && GetComponentId(m.comps, name) == Some(id) && m.comps[id].lcore < |m.comps|
    ensures var r := Execute(m, StopComp(name));
            && r.Some? && r.value.comps == m.comps[id := NO_COMPONENT] && AbilityOf(r.value, p) == AbilityOf(m, p)
            && r.value.usable == m.usable && r.value.maxPorts == m.maxPorts
  {
  }

  lemma Accepted(m: Mng, cmd: Command, rest: seq<Command>)
    requires Shape(m) && Execute(m, cmd).Some?
    ensures ExecuteAll(m, [cmd] + rest) == ExecuteAll(Flushed(Execute(m, cmd).value), rest)
  {
    assert ([cmd] + rest)[1..] == rest;
  }

  lemma Named(comps: seq<Component>, name: string, id: nat)
    requires id < |comps| && name != "" && comps[id].name == name
    requires forall i :: 0 <= i < |comps| && i != id ==> comps[i].name != name
    ensures GetComponentId(comps, name) == Some(id)
  {
  }

  lemma Starts(m: Mng, name: string, lcore: nat, typ: CompType, rest: seq<Command>) returns (r: Mng, id: nat)
    requires Room(m, name, lcore) && Typed(typ)
    ensures New(r, name, id) && id < |m.comps| && r.comps == m.comps[id := Component(name, typ, lcore, id, [], [])]
    ensures r.abil == m.abil && r.usable == m.usable && r.maxPorts == m.maxPorts
    ensures ExecuteAll(m, [StartComp(name, lcore, typ)] + rest) == ExecuteAll(r, rest)
  {
    id := FindFree(m.comps, 0).value;
    StartNew(m, name, lcore, typ);
    r := Flushed(Execute(m, StartComp(name, lcore, typ)).value);
    Accepted(m, StartComp(name, lcore, typ), rest);
  }

  lemma Adds(m: Mng, name: string, id: nat, p: PortIndex, d: RxTx, a: Ability, rest: seq<Command>) returns (r: Mng)
    requires New(m, name, id) && a.ope != NoOpe && FindOpe(AbilityOf(m, p), NoOpe, 0).Some?
    ensures Shape(r) && r.comps == m.comps[id := WithPorts(m.comps[id], d, [p])]
    ensures r.usable == m.usable && r.maxPorts == m.maxPorts
    ensures AbilityOf(r, p) == AbilityOf(m, p)[FindOpe(AbilityOf(m, p), NoOpe, 0).value := a]
    ensures ExecuteAll(m, [AddPort(p, d, name, a)] + rest) == ExecuteAll(r, rest)
  {
    AddNew(m, name, id, p, d, a);
    r := Flushed(Execute(m, AddPort(p, d, name, a)).value);
    Accepted(m, AddPort(p, d, name, a), rest);
  }

  lemma Stops(m: Mng, name: string, id: nat, p: PortIndex, rest: seq<Command>) returns (r: Mng)
    requires Shape(m) && id < |m.comps| && GetComponentId(m.comps, name) == Some(id) && m.comps[id].lcore < |m.comps|
    ensures Shape(r) && r.comps == m.comps[id := NO_COMPONENT] && AbilityOf(r, p) == AbilityOf(m, p)
    ensures r.usable == m.usable && r.maxPorts == m.maxPorts
    ensures ExecuteAll(m, [StopComp(name)] + rest) == ExecuteAll(r, rest)
  {
    StopIt(m, name, id, p);
    r := Flushed(Execute(m, StopComp(name)).value);
    Accepted(m, StopComp(name), rest);
  }

  /** A start and an add in a state with room. */
  lemma StartAdd(m: Mng, name: string, lcore: nat, typ: CompType, p: PortIndex, d: RxTx, a: Ability, rest: seq<Command>)
    returns (r: Mng, id: nat)
    requires Room(m, name, lcore) && Typed(typ) && a.ope != NoOpe && FindOpe(AbilityOf(m, p), NoOpe, 0).Some?
    ensures Shape(r) && id < |m.comps| && r.comps == m.comps[id := WithPorts(Component(name, typ, lcore, id, [], []), d, [p])]
    ensures r.usable == m.usable && r.maxPorts == m.maxPorts && GetComponentId(r.comps, name) == Some(id)
    ensures AbilityOf(r, p) == AbilityOf(m, p)[FindOpe(AbilityOf(m, p), NoOpe, 0).value := a]
    ensures ExecuteAll(m, [StartComp(name, lcore, typ)] + ([AddPort(p, d, name, a)] + rest)) == ExecuteAll(r, rest)
  {
    var q;
    q, id := Starts(m, name, lcore, typ, [AddPort(p, d, name, a)] + rest);
    r := Adds(q, name, id, p, d, a, rest);
    Named(r.comps, name, id);
  }

  /** The run leaves both entries on the port, the stale one first. */
  lemma StaleRunEnds(m: Mng, t: Story)
    requires Room(m, t.x, t.xcore) && Room(m, t.y, t.ycore) && t.x != t.y && Typed(t.xtyp) && Typed(t.ytyp)
    requires AbilityOf(m, t.p) == [NO_ABILITY, NO_ABILITY, NO_ABILITY, NO_ABILITY] && t.first.ope != NoOpe && t.tag.ope != NoOpe
    ensures AbilityOf(ExecuteAll(m, StaleRun(t)), t.p) == [t.first, t.tag, NO_ABILITY, NO_ABILITY]
  {
    FirstEmpty(AbilityOf(m, t.p), 0);
    var r, id := StartAdd(m, t.x, t.xcore, t.xtyp, t.p, t.d, t.first, StaleTail(t));
    StaleTailEnds(r, id, t);
    assert StaleRun(t) == [StartComp(t.x, t.xcore, t.xtyp)] + ([AddPort(t.p, t.d, t.x, t.first)] + StaleTail(t));
  }

  function StaleTail(t: Story): seq<Command> {
    [StopComp(t.x)] + SecondHalf(t)
  }

  /** The second half, from a state with the first component and its port. */
  lemma StaleTailEnds(m: Mng, id: nat, t: Story)
    requires Shape(m) && id < |m.comps| && GetComponentId(m.comps, t.x) == Some(id) && m.comps[id].lcore < |m.comps|
    requires t.ycore < |m.comps| && m.usable[t.ycore] && m.maxPorts >= 1 && t.y != "" && Typed(t.ytyp)
    requires forall i :: 0 <= i < |m.comps| && i != id ==> m.comps[i].name != t.y
    requires AbilityOf(m, t.p) == [t.first, NO_ABILITY, NO_ABILITY, NO_ABILITY] && t.first.ope != NoOpe && t.tag.ope != NoOpe
    ensures AbilityOf(ExecuteAll(m, StaleTail(t)), t.p) == [t.first, t.tag, NO_ABILITY, NO_ABILITY]
  {
    var q := Stops(m, t.x, id, t.p, SecondHalf(t));
    assert !Live(q.comps[id]);
    SecondEnds(q, t);
  }

  function SecondHalf(t: Story): seq<Command> {
    [StartComp(t.y, t.ycore, t.ytyp)] + ([AddPort(t.p, t.d, t.y, t.tag)] + [])
  }

  lemma SecondEnds(m: Mng, t: Story)
    requires Room(m, t.y, t.ycore) && Typed(t.ytyp)
    requires AbilityOf(m, t.p) == [t.first, NO_ABILITY, NO_ABILITY, NO_ABILITY] && t.first.ope != NoOpe && t.tag.ope != NoOpe
    ensures AbilityOf(ExecuteAll(m, SecondHalf(t)), t.p) == [t.first, t.tag, NO_ABILITY, NO_ABILITY]
  {
    FirstEmpty(AbilityOf(m, t.p), 1);
    var e, id := StartAdd(m, t.y, t.ycore, t.ytyp, t.p, t.d, t.tag, []);
  }

  lemma FirstEmpty(a: seq<Ability>, k: nat)
    requires |a| == ABILITY_MAX && k < 2 && a[k].ope == NoOpe && (k == 1 ==> a[0].ope != NoOpe)
    ensures FindOpe(a, NoOpe, 0) == Some(k)
  {
    assert FindOpe(a, NoOpe, 0) == if k == 0 then Some(0) else FindOpe(a, NoOpe, 1);
  }

  lemma TwoPublished(first: Ability, tag: Ability, d: RxTx)
    requires Selected(first, d) && Selected(tag, d)
    ensures Published([first, tag, NO_ABILITY, NO_ABILITY], d) == [Prepared(first), Prepared(tag)]
  {
    var list := [first, tag, NO_ABILITY, NO_ABILITY];
    PublishedReplaced([NO_ABILITY, tag, NO_ABILITY, NO_ABILITY], 0, first, d);
    PublishedReplaced([NO_ABILITY, NO_ABILITY, NO_ABILITY], 0, tag, d);
    NothingPublished([NO_ABILITY, NO_ABILITY], d);
    assert list == [NO_ABILITY, tag, NO_ABILITY, NO_ABILITY][0 := first];
    assert [NO_ABILITY, tag, NO_ABILITY, NO_ABILITY][1..] == [NO_ABILITY, NO_ABILITY, NO_ABILITY][0 := tag];
    assert [NO_ABILITY, NO_ABILITY, NO_ABILITY][1..] == [NO_ABILITY, NO_ABILITY];
  }

  /** In every process with room for the two components, on whatever lcores and of whatever
      types: after the run the second one's frames carry the tag of the first, or VID 0 if the
      first deleted tags, unless that is the new tag's own control information. */
  lemma StaleTagWins(m: Mng, t: Story)
    requires Room(m, t.x, t.xcore) && Room(m, t.y, t.ycore) && t.x != t.y && Typed(t.xtyp) && Typed(t.ytyp)
    requires AbilityOf(m, t.p) == [NO_ABILITY, NO_ABILITY, NO_ABILITY, NO_ABILITY]
    requires t.first.ope != NoOpe && t.first.rxtx == t.d && t.first.tci == 0
    requires t.tag.ope == AddVlanTag && t.tag.rxtx == t.d && t.tag.tci == 0
    ensures var after := Published(AbilityOf(ExecuteAll(m, StaleRun(t)), t.p), t.d);
            var stale := if t.first.ope == AddVlanTag then Tci(t.first.vid, t.first.pcp) else 0;
            && Listed(after) && ShowsTag(after, stale)
            && (ShowsTag(after, Tci(t.tag.vid, t.tag.pcp)) <==> stale == Tci(t.tag.vid, t.tag.pcp))
  {
    StaleRunEnds(m, t);
    TwoPublished(t.first, t.tag, t.d);
    var after := [Prepared(t.first), Prepared(t.tag)];
    ShowsTagIff(after, Tci(t.tag.vid, t.tag.pcp));
    ShowsTagIff(after, after[0].tci);
  }
}

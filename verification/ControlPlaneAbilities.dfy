/** The control plane and the ability switch as one system: every step of the manager and of
    the workers with the moves of the queue of port abilities that go with it.  What the
    switch assumes of the rest, that it is told of each port once, that components on lists
    are settled, and where workers are, is proved here of the control plane. */
module ControlPlaneAbilities {
  import opened SppTypes
  import opened Management
  import opened ControlPlane
  import H = Handover
  import C = ControlPlaneCurrent
  import T = ControlPlaneSettled
  import PortAbility
  import S = AbilitySwitch
  import I = AbilityIterations
  import A = AbilityHeld

  type List = seq<Ability>
  type World = S.World<Image, List>
  type Move = S.Move<Image, List>
  type Job = S.Job<Image, List>

  /** The registered interfaces, and the number of the ability areas of each in a direction. */
  datatype Env = Env(key: (PortIndex, RxTx) -> nat, ports: set<PortIndex>, cells: nat)

  ghost predicate EnvOk(env: Env) {
    I.Tells(env.key, env.ports) && forall p, d: RxTx :: p in env.ports ==> env.key(p, d) < env.cells
  }

  // ----- Jobs -----

  /** `spp_port_ability_update`: the published lists of the component's ports. */
  function ItemsOf(env: Env, m: Mng, id: nat): seq<S.Item<List>>
    requires id < |m.comps|
  {
    var c := m.comps[id];
    seq(|c.rx|, i requires 0 <= i < |c.rx| =>
      S.Item(env.key(c.rx[i], Rx), PortAbility.Published(AbilityOf(m, c.rx[i]), Rx)))
    + seq(|c.tx|, i requires 0 <= i < |c.tx| =>
      S.Item(env.key(c.tx[i], Tx), PortAbility.Published(AbilityOf(m, c.tx[i]), Tx)))
  }

  lemma ItemKeys(env: Env, m: Mng, id: nat)
    requires id < |m.comps|
    ensures S.Keys(ItemsOf(env, m, id)) == I.KeysOf(m.comps[id], env.key)
  {
  }

  /** The keys a worker uses that moves packets between these ports; none if a side is missing. */
  ghost function UsesOf(env: Env, rx: seq<PortIndex>, tx: seq<PortIndex>): set<nat> {
    if rx == [] || tx == [] then {}
    else (set i | 0 <= i < |rx| :: env.key(rx[i], Rx)) + (set i | 0 <= i < |tx| :: env.key(tx[i], Tx))
  }

  function Sending(a: Image): seq<PortIndex> { seq(|a.tx|, i requires 0 <= i < |a.tx| => a.tx[i].0) }

  ghost function ImageUses(env: Env, a: Image): set<nat> { UsesOf(env, a.rx, Sending(a)) }

  lemma SendingOf(m: Mng, id: nat)
    requires id < |m.comps|
    ensures Sending(ImageOf(m, id)) == m.comps[id].tx
  {
  }

  lemma UsesInKeys(env: Env, c: Component, k: nat)
    requires k in UsesOf(env, c.rx, c.tx)
    ensures k in I.KeysOf(c, env.key)
  {
    var ks, n := I.KeysOf(c, env.key), |c.rx|;
    if i :| 0 <= i < n && k == env.key(c.rx[i], Rx) {
      assert ks[i] == k;
    } else {
      var i :| 0 <= i < |c.tx| && k == env.key(c.tx[i], Tx);
      assert ks[n + i] == k;
    }
  }

  ghost function JobOf(env: Env, s: State, w: World, id: nat): Job
    requires s.Shape() && id < s.N() && |w.paths| == s.N()
  {
    S.Job(id, w.paths[id].Pending(), ItemsOf(env, s.m, id), ImageOf(s.m, id), ImageUses(env, ImageOf(s.m, id)))
  }

  // ----- The two views agree -----

  /** On the active list of an lcore that has a worker. */
  predicate Listed(s: State, id: nat)
    requires s.Shape() && id < s.N()
  {
    var l := s.home[id];
    l < s.N() && !s.wpc[l].Off? && id in s.List(l)
  }

  predicate Busy(pc: Wpc) { pc.TestComp? || pc.FlipComp? || pc.UseComp? }

  function TurnOf(s: State, id: nat, i: nat): S.Turn
    requires s.Shape() && id < s.N()
  {
    if !Listed(s, id) then S.Absent
    else
      var pc := s.wpc[s.home[id]];
      if pc.FlipComp? && pc.id == id then S.Flipping(i)
      else if pc.UseComp? && pc.id == id then S.Using
      else S.Top
  }

  ghost predicate TurnOk(s: State, w: World, id: nat)
    requires s.Shape() && id < s.N() && |w.turns| == |w.lcores| == s.N()
  {
    && w.turns[id] == TurnOf(s, id, if w.turns[id].Flipping? then w.turns[id].i else 0)
    && (Listed(s, id) ==> w.lcores[id] == s.home[id])
    && (Live(s.m.comps[id]) ==> w.lcores[id] == s.m.comps[id].lcore)
  }

  /** Equal but for a spare area. */
  ghost predicate Same(c: H.Cell<Image>, d: H.Cell<Image>) {
    && c.Valid() && d.Valid() && c.ref == d.ref && c.upd == d.upd && c.Active() == d.Active()
    && (c.Pending() ==> c.area == d.area)
  }

  ghost predicate MirrorOk(s: State, w: World, id: nat)
    requires s.Shape() && id < s.N() && |w.paths| == s.N()
  {
    && (Live(s.m.comps[id]) ==> Same(w.paths[id], s.CellOf(id, s.IsCls(id))))
    && (!Live(s.m.comps[id]) ==>
          forall l: nat :: l < s.N() && Busy(s.wpc[l]) && s.wpc[l].id == id ==> Same(w.paths[id], s.CellOf(id, s.wpc[l].cls)))
  }

  ghost predicate UsesOk(env: Env, s: State, w: World, id: nat)
    requires s.Shape() && id < s.N() && |w.uses| == s.N()
  {
    Live(s.m.comps[id]) && !C.ToDo(s, id) ==> w.uses[id] == UsesOf(env, s.m.comps[id].rx, s.m.comps[id].tx)
  }

  ghost predicate JobIs(env: Env, s: State, job: Job, id: nat)
    requires s.Shape() && id < s.N()
  {
    && job.who == id && job.items == ItemsOf(env, s.m, id) && job.path == ImageOf(s.m, id)
    && job.uses == ImageUses(env, ImageOf(s.m, id))
  }

  ghost predicate PhaseOk(env: Env, s: State, w: World)
    requires s.Shape() && |w.paths| == |w.uses| == s.N()
  {
    match s.mpc
    case FillComp(k) => k < s.N() && w.phase.Fill? && JobIs(env, s, w.phase.job, k)
    case PubComp(k) =>
      && k < s.N() && w.phase.Fill? && JobIs(env, s, w.phase.job, k) && w.phase.done == |w.phase.job.items|
      && s.CellOf(k, s.IsCls(k)).area[s.CellOf(k, s.IsCls(k)).upd] == ImageOf(s.m, k)
    case AwaitComp(k) =>
      && k < s.N() && w.phase.Wait? && JobIs(env, s, w.phase.job, k)
      && (!w.paths[k].Pending() ==> w.uses[k] == w.phase.job.uses)
    case EraseComp(k) =>
      && k < s.N() && w.phase.Ready?
      && (Live(s.m.comps[k]) ==> w.uses[k] == UsesOf(env, s.m.comps[k].rx, s.m.comps[k].tx))
    case _ => w.phase.Ready?
  }

  ghost predicate AgreeAt(env: Env, s: State, w: World, id: nat)
    requires s.Shape() && id < s.N() && |w.paths| == |w.turns| == |w.lcores| == |w.uses| == s.N()
  {
    TurnOk(s, w, id) && MirrorOk(s, w, id) && UsesOk(env, s, w, id)
  }

  ghost predicate Sized(env: Env, s: State, w: World) {
    s.Shape() && S.Formed(w) && |w.paths| == s.N() && |w.cells| == env.cells
  }

  ghost predicate Agree(env: Env, s: State, w: World) {
    && Sized(env, s, w) && PhaseOk(env, s, w)
    && forall id: nat :: id < s.N() ==> AgreeAt(env, s, w, id)
  }

  /** Every port of a component is a registered interface. */
  ghost predicate Known(env: Env, m: Mng) {
    forall id :: 0 <= id < |m.comps| ==> I.PortsIn(m.comps[id], env.ports)
  }

  // ----- Steps of the one system -----

  /** A step of the control plane, or a move of the switch that the control plane does not show:
      an ability is written or queued, a reference moved, an area fetched or let go. */
  datatype Act = Plane(step: ControlPlane.Step) | Inner(m: Move)

  ghost predicate IsInner(m: Move) { m.Scribble? || m.Queue? || m.FlipNext? || m.Fetch? || m.Release? }

  /** What of the switch goes before a step of the control plane: all abilities queued before
      the path is written, all references moved before that of the path, and nothing held when
      a component is left. */
  ghost predicate Gate(s: State, w: World, step: ControlPlane.Step)
    requires s.Shape() && S.Formed(w) && |w.paths| == s.N()
  {
    match step
    case Command(cmd) => true
    case Manage => s.mpc.FillComp? ==> w.phase.Fill? && w.phase.done == |w.phase.job.items|
    case Work(l) =>
      l < s.N() &&
      (match s.wpc[l]
       case FlipComp(_, id, _) => id < s.N() && w.turns[id] == S.Flipping(|w.queue|) && w.holds[id].Free?
       case UseComp(_, id, _) => id < s.N() && w.holds[id].Free?
       case _ => true)
  }

  /** The move of the switch that a step of the control plane is. */
  ghost function MoveOf(env: Env, s: State, w: World, step: ControlPlane.Step): Option<Move>
    requires s.Shape() && Enabled(s, step) && S.Formed(w) && |w.paths| == s.N()
  {
    match step
    case Command(cmd) => None
    case Manage =>
      (match s.mpc
       case Editing(cmd) => StartMove(env, s, w)
       case NextComp(k) => if k < s.N() && s.m.chgComp[k] then Some(S.Begin(JobOf(env, s, w, k))) else None
       case FillComp(k) => Some(S.ScribblePath(ImageOf(s.m, k)))
       case PubComp(k) => Some(S.Publish)
       case AwaitComp(k) => Some(S.Return)
       case _ => None)
    case Work(l) => WorkMove(env, s, w, l)
  }

  /** A component that a command makes live has the cell of its type. */
  ghost function StartMove(env: Env, s: State, w: World): Option<Move>
    requires s.Shape() && ManageEnabled(s) && s.mpc.Editing? && S.Formed(w) && |w.paths| == s.N()
  {
    var e := ManageStep(s);
    if e.m.comps == s.m.comps || !s.mpc.cmd.StartComp? || |e.m.comps| != s.N() then None
    else
      match FindFree(s.m.comps, 0)
      case None => None
      case Some(id) => Some(S.Relist(map[id := Taken(env, w, e.CellOf(id, e.IsCls(id)), S.Absent, s.mpc.cmd.lcore)]))
  }

  /** A component with that cell: it uses what the path in force there says. */
  ghost function Taken(env: Env, w: World, c: H.Cell<Image>, turn: S.Turn, lcore: nat): S.Slot<Image> {
    S.Slot(turn, lcore, c, if c.Valid() then ImageUses(env, c.Active()) else {})
  }

  ghost function WorkMove(env: Env, s: State, w: World, l: nat): Option<Move>
    requires s.Shape() && l < s.N() && !s.wpc[l].Off? && WorkEnabled(s, l) && S.Formed(w) && |w.paths| == s.N()
  {
    match s.wpc[l]
    case AtTop => None
    case FlipCore =>
      var e := WorkStep(s, l);
      Some(S.Relist(map id: nat | id < s.N() && Listed(e, id) != Listed(s, id) ::
        S.Slot(if Listed(e, id) then S.Top else S.Absent, s.home[id], w.paths[id], w.uses[id])))
    case Next(i) =>
      if i < |s.List(l)| && !Live(s.m.comps[s.List(l)[i]])
      then Some(S.Relist(map[s.List(l)[i] := Taken(env, w, s.path[s.List(l)[i]], S.Top, l)]))
      else None
    case TestComp(_, id, _) => Some(S.Test(id))
    case FlipComp(_, id, _) => Some(S.FlipPath(id))
    case UseComp(_, id, _) => Some(S.Finish(id))
  }

  ghost predicate ActEnabled(env: Env, s: State, w: World, act: Act)
    requires s.Shape() && S.Formed(w) && |w.paths| == s.N()
  {
    match act
    case Inner(m) => IsInner(m) && S.Enabled(w, m)
    case Plane(step) => Enabled(s, step) && Gate(s, w, step) && Registered(env, step)
  }

  /** Ports come from the registered interfaces. */
  ghost predicate Registered(env: Env, step: ControlPlane.Step) {
    step.Command? && step.cmd.AddPort? ==> step.cmd.port in env.ports
  }

  // ----- Moves the control plane does not show -----

  lemma InnerAgree(env: Env, s: State, w: World, m: Move)
    requires Agree(env, s, w) && IsInner(m) && S.Enabled(w, m)
    ensures Agree(env, s, S.Next(w, m))
  {
    var v := S.Next(w, m);
    forall id: nat | id < s.N() ensures AgreeAt(env, s, v, id) {
      assert AgreeAt(env, s, w, id);
    }
  }

  // ----- Workers -----

  /** Where the worker stands, its component is listed, its lcore's, and mirrored. */
  lemma Standing(env: Env, s: State, w: World, l: nat)
    requires Inv(s) && Agree(env, s, w) && l < s.N() && Busy(s.wpc[l])
    ensures var id, cls := s.wpc[l].id, s.wpc[l].cls;
            && id < s.N() && s.home[id] == l && Listed(s, id) && w.lcores[id] == l
            && Same(w.paths[id], s.CellOf(id, cls)) && (Live(s.m.comps[id]) ==> cls == s.IsCls(id))
  {
    assert AtOk(s, l);
    assert AgreeAt(env, s, w, s.wpc[l].id);
  }

  /** No other component of the lcore is being run. */
  lemma StandingAlone(env: Env, s: State, w: World, l: nat)
    requires Inv(s) && Agree(env, s, w) && l < s.N() && Busy(s.wpc[l])
    ensures s.wpc[l].id < s.N() && S.Alone(w, s.wpc[l].id)
  {
    Standing(env, s, w, l);
    forall u | 0 <= u < s.N() && u != s.wpc[l].id && w.lcores[u] == l ensures !S.Inside(w.turns[u]) {
      assert AgreeAt(env, s, w, u);
    }
  }

  /** A step that only moves the worker of `l`, and the turn of one component with it. */
  lemma WorkerMoves(env: Env, s: State, w: World, l: nat, pc: Wpc, v: World, c: nat)
    requires Agree(env, s, w) && l < s.N() && !s.wpc[l].Off? && !pc.Off? && c < s.N()
    requires Sized(env, s.(wpc := s.wpc[l := pc]), v)
    requires v.paths == w.paths && v.uses == w.uses && v.lcores == w.lcores && v.phase == w.phase
    requires Busy(s.wpc[l]) ==> s.wpc[l].id == c && s.home[c] == l
    requires Busy(pc) ==> pc.id == c && s.home[c] == l && Same(w.paths[c], s.CellOf(c, pc.cls)) && (Live(s.m.comps[c]) ==> pc.cls == s.IsCls(c))
    requires v.turns == w.turns[c := v.turns[c]]
    requires v.turns[c] == TurnOf(s.(wpc := s.wpc[l := pc]), c, if v.turns[c].Flipping? then v.turns[c].i else 0)
    ensures Agree(env, s.(wpc := s.wpc[l := pc]), v)
  {
    var e := s.(wpc := s.wpc[l := pc]);
    forall id: nat | id < s.N() ensures AgreeAt(env, e, v, id) {
      assert AgreeAt(env, s, w, id);
      if id != c {
        OtherTurn(s, l, pc, c, id);
      }
      WorkerMirror(s, w, l, pc, v, c, id);
    }
  }

  lemma OtherTurn(s: State, l: nat, pc: Wpc, c: nat, id: nat)
    requires s.Shape() && l < s.N() && !s.wpc[l].Off? && !pc.Off? && c < s.N() && id < s.N() && id != c
    requires (Busy(s.wpc[l]) ==> s.wpc[l].id == c) && (Busy(pc) ==> pc.id == c)
    ensures forall i :: TurnOf(s.(wpc := s.wpc[l := pc]), id, i) == TurnOf(s, id, i)
    ensures Listed(s.(wpc := s.wpc[l := pc]), id) == Listed(s, id)
  {
  }

  lemma WorkerMirror(s: State, w: World, l: nat, pc: Wpc, v: World, c: nat, id: nat)
    requires s.Shape() && l < s.N() && c < s.N() && id < s.N() && |w.paths| == s.N() && v.paths == w.paths && MirrorOk(s, w, id)
    requires Busy(pc) ==> pc.id == c && Same(w.paths[c], s.CellOf(c, pc.cls))
    ensures MirrorOk(s.(wpc := s.wpc[l := pc]), v, id)
  {
  }

  lemma TestAgree(env: Env, s: State, w: World, l: nat)
    requires Inv(s) && Agree(env, s, w) && l < s.N() && s.wpc[l].TestComp?
    ensures WorkEnabled(s, l) && S.Enabled(w, S.Test(s.wpc[l].id)) && Agree(env, WorkStep(s, l), S.Next(w, S.Test(s.wpc[l].id)))
  {
    Standing(env, s, w, l);
    StandingAlone(env, s, w, l);
    var id, pc := s.wpc[l].id, WorkStep(s, l).wpc[l];
    assert AgreeAt(env, s, w, id);
    WorkerMoves(env, s, w, l, pc, S.Next(w, S.Test(id)), id);
  }

  lemma UseAgree(env: Env, s: State, w: World, l: nat)
    requires Inv(s) && Agree(env, s, w) && l < s.N() && s.wpc[l].UseComp? && Gate(s, w, Work(l))
    ensures WorkEnabled(s, l) && S.Enabled(w, S.Finish(s.wpc[l].id)) && Agree(env, WorkStep(s, l), S.Next(w, S.Finish(s.wpc[l].id)))
  {
    Standing(env, s, w, l);
    var id := s.wpc[l].id;
    assert AgreeAt(env, s, w, id);
    WorkerMoves(env, s, w, l, Next(s.wpc[l].i + 1), S.Next(w, S.Finish(id)), id);
  }

  lemma TopAgree(env: Env, s: State, w: World, l: nat)
    requires Inv(s) && Agree(env, s, w) && l < s.N() && s.wpc[l].AtTop?
    ensures WorkEnabled(s, l) && Agree(env, WorkStep(s, l), w)
  {
    assert AgreeAt(env, s, w, l);
    WorkerMoves(env, s, w, l, WorkStep(s, l).wpc[l], w, l);
  }

  /** A worker flips the path of its component. */
  ghost predicate Flips(env: Env, s: State, w: World, l: nat, c: nat) {
    && Agree(env, s, w) && ManagerOk(s) && l < s.N() && c < s.N() && s.wpc[l].FlipComp? && s.wpc[l].id == c && s.home[c] == l && Listed(s, c)
    && Same(w.paths[c], s.CellOf(c, s.wpc[l].cls)) && s.CellOf(c, s.wpc[l].cls).Pending()
    && (Live(s.m.comps[c]) ==> s.wpc[l].cls == s.IsCls(c))
    && forall k: nat :: k < s.N() && k != l && Busy(s.wpc[k]) ==> s.wpc[k].id != c
  }

  lemma FlipAgree(env: Env, s: State, w: World, l: nat)
    requires Inv(s) && Agree(env, s, w) && l < s.N() && s.wpc[l].FlipComp? && Gate(s, w, Work(l))
    ensures WorkEnabled(s, l) && S.Enabled(w, S.FlipPath(s.wpc[l].id)) && Agree(env, WorkStep(s, l), S.Next(w, S.FlipPath(s.wpc[l].id)))
  {
    Standing(env, s, w, l);
    assert AtOk(s, l);
    var c := s.wpc[l].id;
    forall k: nat | k < s.N() && k != l && Busy(s.wpc[k]) ensures s.wpc[k].id != c {
      DifferentIds(s, l, k);
    }
    FlipsAgree(env, s, w, l, c);
    assert S.Next(w, S.FlipPath(c)) == S.PathFlipped(w, c);
  }

  lemma FlipsAgree(env: Env, s: State, w: World, l: nat, c: nat)
    requires Flips(env, s, w, l, c)
    ensures WorkEnabled(s, l) && Agree(env, WorkStep(s, l), S.PathFlipped(w, c))
  {
    WorkShape(s, l);
    forall id: nat | id < s.N() ensures AgreeAt(env, WorkStep(s, l), S.PathFlipped(w, c), id) {
      if id == c {
        FlipAgreeOwn(env, s, w, l, c);
      } else {
        FlipAgreeOther(env, s, w, l, c, id);
      }
    }
    FlipPhase(env, s, w, l, c);
  }

  lemma FlipPhase(env: Env, s: State, w: World, l: nat, c: nat)
    requires Flips(env, s, w, l, c) && WorkStep(s, l).Shape()
    ensures PhaseOk(env, WorkStep(s, l), S.PathFlipped(w, c))
  {
  }

  lemma FlipAgreeOwn(env: Env, s: State, w: World, l: nat, c: nat)
    requires Flips(env, s, w, l, c) && WorkStep(s, l).Shape()
    ensures AgreeAt(env, WorkStep(s, l), S.PathFlipped(w, c), c)
  {
    var e := WorkStep(s, l);
    assert AgreeAt(env, s, w, c);
    assert e.m == s.m && e.core == s.core && e.home == s.home && e.mpc == s.mpc;
    assert Listed(e, c);
  }

  lemma FlipAgreeOther(env: Env, s: State, w: World, l: nat, c: nat, id: nat)
    requires Flips(env, s, w, l, c) && WorkStep(s, l).Shape() && id < s.N() && id != c
    ensures AgreeAt(env, WorkStep(s, l), S.PathFlipped(w, c), id)
  {
    var e := WorkStep(s, l);
    assert AgreeAt(env, s, w, id);
    assert e.m == s.m && e.core == s.core && e.home == s.home && e.mpc == s.mpc;
    assert Listed(e, id) == Listed(s, id);
    assert e.path[id] == s.path[id] && e.tab[id] == s.tab[id];
  }

  /** A component that is listed and not live is one whose stop is being flushed. */
  lemma ListedNotLive(env: Env, s: State, w: World, l: nat, i: nat)
    requires Inv(s) && Agree(env, s, w) && l < s.N() && i < |s.List(l)| && s.List(l)[i] < s.N() && !Live(s.m.comps[s.List(l)[i]])
    ensures w.phase.Ready?
  {
    assert AtOk(s, l);
  }

  /** Nobody runs the component, which is not live. */
  ghost predicate Vacant(s: State, id: nat)
    requires s.Shape() && id < s.N()
  {
    !Live(s.m.comps[id]) && forall l: nat :: l < s.N() && Busy(s.wpc[l]) ==> s.wpc[l].id != id
  }

  lemma VacantAt(s: State, l: nat, i: nat)
    requires Inv(s) && l < s.N() && s.wpc[l] == Next(i) && i < |s.List(l)|
    requires s.List(l)[i] < s.N() && !Live(s.m.comps[s.List(l)[i]])
    ensures Vacant(s, s.List(l)[i])
  {
    assert AtOk(s, l);
    forall k: nat | k < s.N() && Busy(s.wpc[k]) ensures s.wpc[k].id != s.List(l)[i] {
      assert AtOk(s, k);
    }
  }

  /** What a change of one component does to the switch. */
  lemma OneSlot(w: World, id: nat, slot: S.Slot<Image>) returns (v: World)
    requires S.Formed(w) && w.phase.Ready? && id < |w.paths| && !S.Inside(w.turns[id]) && slot.path.Valid()
    requires slot.turn.Absent? || slot.turn.Top?
    ensures S.Enabled(w, S.Relist(map[id := slot])) && v == S.Next(w, S.Relist(map[id := slot])) && S.Formed(v)
    ensures v.paths == w.paths[id := slot.path] && v.turns == w.turns[id := slot.turn]
    ensures v.lcores == w.lcores[id := slot.lcore] && v.uses == w.uses[id := slot.uses]
    ensures v.phase == w.phase && v.cells == w.cells
  {
    v := S.Next(w, S.Relist(map[id := slot]));
  }

  /** A vacant component may be given any cell. */
  lemma ExchangeAgree(env: Env, s: State, w: World, id: nat, slot: S.Slot<Image>)
    requires Agree(env, s, w) && w.phase.Ready? && id < s.N() && Vacant(s, id) && slot.path.Valid()
    requires slot.turn == w.turns[id] == TurnOf(s, id, 0) && slot.lcore == (if Listed(s, id) then s.home[id] else slot.lcore)
    requires slot.turn.Absent? || slot.turn.Top?
    ensures var m: Move := S.Relist(map[id := slot]);
            S.Enabled(w, m) && Agree(env, s, S.Next(w, m)) && S.Next(w, m).paths[id] == slot.path
  {
    var v := OneSlot(w, id, slot);
    forall u: nat | u < s.N() ensures AgreeAt(env, s, v, u) {
      assert AgreeAt(env, s, w, u);
    }
  }

  lemma TakesVacant(env: Env, s: State, w: World, l: nat, i: nat) returns (v: World)
    requires Inv(s) && Agree(env, s, w) && l < s.N() && s.wpc[l] == Next(i) && i < |s.List(l)|
    requires s.List(l)[i] < s.N() && s.home[s.List(l)[i]] == l && !Live(s.m.comps[s.List(l)[i]])
    ensures WorkEnabled(s, l) && WorkMove(env, s, w, l).Some? && S.Enabled(w, WorkMove(env, s, w, l).value)
    ensures v == S.Next(w, WorkMove(env, s, w, l).value) && Agree(env, s, v) && v.paths[s.List(l)[i]] == s.path[s.List(l)[i]]
  {
    var id := s.List(l)[i];
    ListedNotLive(env, s, w, l, i);
    VacantAt(s, l, i);
    assert AgreeAt(env, s, w, id);
    ExchangeAgree(env, s, w, id, Taken(env, w, s.path[id], S.Top, l));
    v := S.Next(w, WorkMove(env, s, w, l).value);
  }

  lemma NextAgree(env: Env, s: State, w: World, l: nat)
    requires Inv(s) && Agree(env, s, w) && l < s.N() && s.wpc[l].Next?
    ensures WorkEnabled(s, l)
    ensures var m := WorkMove(env, s, w, l);
            (m.Some? ==> S.Enabled(w, m.value)) && Agree(env, WorkStep(s, l), if m.Some? then S.Next(w, m.value) else w)
  {
    assert AtOk(s, l);
    var i := s.wpc[l].i;
    if i < |s.List(l)| {
      var v := w;
      if !Live(s.m.comps[s.List(l)[i]]) {
        v := TakesVacant(env, s, w, l, i);
      }
      TakesUp(env, s, v, l, i);
    } else {
      assert AgreeAt(env, s, w, l);
      WorkerMoves(env, s, w, l, AtTop, w, l);
    }
  }

  lemma TakesUp(env: Env, s: State, w: World, l: nat, i: nat)
    requires Agree(env, s, w) && l < s.N() && s.wpc[l] == Next(i) && i < |s.List(l)|
    requires s.List(l)[i] < s.N() && s.home[s.List(l)[i]] == l
    requires !Live(s.m.comps[s.List(l)[i]]) ==> w.paths[s.List(l)[i]] == s.path[s.List(l)[i]]
    ensures WorkEnabled(s, l) && Agree(env, WorkStep(s, l), w)
  {
    var id := s.List(l)[i];
    assert AgreeAt(env, s, w, id);
    assert s.path[id].Valid();
    WorkerMoves(env, s, w, l, TestComp(i, id, s.IsCls(id)), w, id);
  }

  lemma FlipCoreAgree(env: Env, s: State, w: World, l: nat)
    requires Inv(s) && Agree(env, s, w) && l < s.N() && s.wpc[l].FlipCore?
    ensures WorkEnabled(s, l) && S.Enabled(w, WorkMove(env, s, w, l).value)
    ensures Agree(env, WorkStep(s, l), S.Next(w, WorkMove(env, s, w, l).value))
  {
    WorkShape(s, l);
    FlipCoreEnabled(env, s, w, l);
    var v := Relists(env, s, w, l);
    forall id: nat | id < s.N() ensures AgreeAt(env, WorkStep(s, l), v, id) {
      FlipCoreTurn(env, s, w, l, v, id);
      FlipCoreAgreeAt(env, s, w, l, v, id);
    }
    assert WorkStep(s, l).m == s.m && WorkStep(s, l).mpc == s.mpc;
  }

  lemma FlipCoreListed(s: State, l: nat, id: nat)
    requires Inv(s) && l < s.N() && s.wpc[l].FlipCore? && id < s.N()
    ensures WorkStep(s, l).Shape() && (s.home[id] != l ==> Listed(WorkStep(s, l), id) == Listed(s, id))
  {
  }

  lemma FlipCoreEnabled(env: Env, s: State, w: World, l: nat)
    requires Inv(s) && Agree(env, s, w) && l < s.N() && s.wpc[l].FlipCore?
    ensures S.Enabled(w, WorkMove(env, s, w, l).value)
  {
    assert AtOk(s, l);
    forall id: nat | id < s.N() && Listed(WorkStep(s, l), id) != Listed(s, id) ensures !S.Inside(w.turns[id]) {
      FlipCoreListed(s, l, id);
      assert AgreeAt(env, s, w, id);
    }
  }

  lemma FlipCoreAgreeAt(env: Env, s: State, w: World, l: nat, v: World, id: nat)
    requires Agree(env, s, w) && l < s.N() && s.wpc[l].FlipCore? && id < s.N() && WorkStep(s, l).Shape()
    requires |v.paths| == |v.uses| == s.N() && v.paths == w.paths && v.uses == w.uses
    ensures MirrorOk(WorkStep(s, l), v, id) && UsesOk(env, WorkStep(s, l), v, id)
  {
    assert AgreeAt(env, s, w, id);
    assert WorkStep(s, l).m == s.m && WorkStep(s, l).mpc == s.mpc;
  }

  /** What taking a new list does to the switch. */
  lemma Relists(env: Env, s: State, w: World, l: nat) returns (v: World)
    requires s.Shape() && S.Formed(w) && |w.paths| == s.N() && l < s.N() && s.wpc[l].FlipCore? && WorkStep(s, l).Shape()
    requires S.Enabled(w, WorkMove(env, s, w, l).value)
    ensures v == S.Next(w, WorkMove(env, s, w, l).value) && S.Formed(v) && v.paths == w.paths && v.uses == w.uses && v.phase == w.phase
    ensures |v.turns| == |v.lcores| == s.N()
    ensures forall id: nat :: id < s.N() ==>
              if Listed(WorkStep(s, l), id) != Listed(s, id)
              then v.turns[id] == (if Listed(WorkStep(s, l), id) then S.Top else S.Absent) && v.lcores[id] == s.home[id]
              else v.turns[id] == w.turns[id] && v.lcores[id] == w.lcores[id]
  {
    v := S.Next(w, WorkMove(env, s, w, l).value);
    assert v.paths == w.paths && v.uses == w.uses;
  }

  lemma FlipCoreTurn(env: Env, s: State, w: World, l: nat, v: World, id: nat)
    requires Inv(s) && Agree(env, s, w) && l < s.N() && s.wpc[l].FlipCore? && id < s.N() && WorkStep(s, l).Shape()
    requires |v.turns| == |v.lcores| == s.N()
    requires if Listed(WorkStep(s, l), id) != Listed(s, id)
             then v.turns[id] == (if Listed(WorkStep(s, l), id) then S.Top else S.Absent) && v.lcores[id] == s.home[id]
             else v.turns[id] == w.turns[id] && v.lcores[id] == w.lcores[id]
    ensures TurnOk(WorkStep(s, l), v, id)
  {
    FlipCoreListed(s, l, id);
    assert AgreeAt(env, s, w, id);
    assert AtOk(s, id);
  }

  // ----- The manager -----

  /** A step of the manager in which no component, list or worker changes. */
  lemma ManagerMoves(env: Env, s: State, w: World, e: State, v: World)
    requires Agree(env, s, w) && Sized(env, e, v) && PhaseOk(env, e, v)
    requires e.m.comps == s.m.comps && e.home == s.home && e.wpc == s.wpc
    requires forall l: nat :: l < s.N() ==> e.List(l) == s.List(l)
    requires v.turns == w.turns && v.lcores == w.lcores && v.uses == w.uses
    requires forall id: nat :: id < s.N() ==> MirrorOk(e, v, id)
    requires forall id: nat :: id < s.N() && Live(s.m.comps[id]) && !C.ToDo(e, id) && C.ToDo(s, id) ==> UsesOk(env, e, v, id)
    ensures Agree(env, e, v)
  {
    forall id: nat | id < s.N() ensures AgreeAt(env, e, v, id) {
      assert AgreeAt(env, s, w, id);
      assert Listed(e, id) == Listed(s, id);
    }
  }

  lemma MirrorKept(env: Env, s: State, w: World, e: State, v: World)
    requires Agree(env, s, w) && Sized(env, e, v) && e.m.comps == s.m.comps && e.wpc == s.wpc
    requires e.path == s.path && e.tab == s.tab && v.paths == w.paths
    ensures forall id: nat :: id < s.N() ==> MirrorOk(e, v, id)
  {
    forall id: nat | id < s.N() ensures MirrorOk(e, v, id) {
      assert AgreeAt(env, s, w, id);
    }
  }

  lemma CommandAgree(env: Env, s: State, w: World, cmd: Management.Command)
    requires Agree(env, s, w) && s.mpc.Ready?
    ensures Agree(env, s.(mpc := Editing(cmd)), w)
  {
    var e := s.(mpc := Editing(cmd));
    MirrorKept(env, s, w, e, w);
    ManagerMoves(env, s, w, e, w);
  }

  /** The manager's steps through the lists, and past components without a flag. */
  lemma ListsAgree(env: Env, s: State, w: World)
    requires Inv(s) && Agree(env, s, w) && ManageEnabled(s)
    requires s.mpc.PubCore? || s.mpc.AwaitCore? || s.mpc.CopyBack? || (s.mpc.NextComp? && (s.mpc.k < s.N() ==> !s.m.chgComp[s.mpc.k]))
    ensures Agree(env, ManageStep(s), w)
  {
    var e := ManageStep(s);
    ManageShape(s);
    forall l: nat | l < s.N() ensures e.List(l) == s.List(l) {
      assert AtOk(s, l);
    }
    MirrorKept(env, s, w, e, w);
    assert forall id: nat :: id < s.N() ==> C.ToDo(e, id) == C.ToDo(s, id);
    ManagerMoves(env, s, w, e, w);
  }

  // ----- A flush -----

  /** Every component on a list is live when components are dealt with, and its indices are
      apart unless it is the flagged one. */
  lemma ListedSettled(s: State, k: nat, id: nat)
    requires Inv(s) && T.Settled(s) && s.mpc == NextComp(k) && k < s.N() && s.m.chgComp[k] && id < s.N() && Listed(s, id)
    ensures Live(s.m.comps[id]) && (id != k ==> !C.ToDo(s, id))
    ensures !s.CellOf(id, s.IsCls(id)).Pending() || (id == k && C.NoPorts(s, k))
  {
    var l := s.home[id];
    assert AtOk(s, l);
    assert s.List(l) == s.m.pend[l];
    assert T.SettledAt(s, id);
  }

  lemma JobMeant(env: Env, s: State, w: World, k: nat)
    requires EnvOk(env) && Known(env, s.m) && Sized(env, s, w) && k < s.N()
    ensures S.Meant(w, JobOf(env, s, w, k))
  {
    var job := JobOf(env, s, w, k);
    var c := s.m.comps[k];
    assert I.PortsIn(c, env.ports);
    ItemKeys(env, s.m, k);
    SendingOf(s.m, k);
    forall x | x in job.uses ensures x in S.Keys(job.items) {
      UsesInKeys(env, c, x);
    }
  }

  lemma JobOnce(env: Env, s: State, w: World, k: nat)
    requires EnvOk(env) && Known(env, s.m) && Managed(s.m) && Sized(env, s, w) && k < s.N()
    ensures S.Once(JobOf(env, s, w, k).items)
  {
    assert I.PortsIn(s.m.comps[k], env.ports);
    I.ComponentQueuesOnce(s.m.comps[k], s.m.maxPorts, env.key, env.ports);
    ItemKeys(env, s.m, k);
  }

  lemma BeginEnabled(env: Env, s: State, w: World, k: nat)
    requires EnvOk(env) && Known(env, s.m) && Inv(s) && T.Settled(s) && Agree(env, s, w)
    requires s.mpc == NextComp(k) && k < s.N() && s.m.chgComp[k]
    ensures S.Enabled(w, S.Begin(JobOf(env, s, w, k)))
  {
    var job := JobOf(env, s, w, k);
    JobMeant(env, s, w, k);
    assert AgreeAt(env, s, w, k) && T.SettledAt(s, k);
    assert C.NoPorts(s, k) ==> job.items == [];
    if job.items != [] {
      forall v | 0 <= v < s.N() && !w.turns[v].Absent? ensures !w.paths[v].Pending() {
        assert AgreeAt(env, s, w, v);
        ListedSettled(s, k, v);
      }
    }
  }

  lemma BeginAgree(env: Env, s: State, w: World, k: nat)
    requires EnvOk(env) && Known(env, s.m) && Inv(s) && T.Settled(s) && Agree(env, s, w)
    requires s.mpc == NextComp(k) && k < s.N() && s.m.chgComp[k]
    ensures S.Enabled(w, S.Begin(JobOf(env, s, w, k))) && Agree(env, ManageStep(s), S.Next(w, S.Begin(JobOf(env, s, w, k))))
  {
    BeginEnabled(env, s, w, k);
    var e, v := ManageStep(s), S.Next(w, S.Begin(JobOf(env, s, w, k)));
    MirrorKept(env, s, w, e, v);
    ManagerMoves(env, s, w, e, v);
  }

  /** A step of the manager on the cell of component `k`, and nothing else. */
  ghost predicate OnCell(env: Env, s: State, w: World, e: State, v: World, k: nat) {
    && Agree(env, s, w) && Sized(env, e, v) && k < s.N() && Live(s.m.comps[k]) && e.m == s.m
    && C.ToDo(e, k) && PhaseOk(env, e, v) && e.core == s.core && e.home == s.home && e.wpc == s.wpc
    && v.turns == w.turns && v.lcores == w.lcores && v.uses == w.uses
    && (forall id: nat, cls :: id < s.N() && id != k ==> e.CellOf(id, cls) == s.CellOf(id, cls) && v.paths[id] == w.paths[id])
    && Same(v.paths[k], e.CellOf(k, e.IsCls(k)))
    && forall id: nat :: id < s.N() && id != k && C.ToDo(s, id) ==> C.ToDo(e, id)
  }

  lemma CellAgree(env: Env, s: State, w: World, e: State, v: World, k: nat)
    requires OnCell(env, s, w, e, v, k)
    ensures Agree(env, e, v)
  {
    forall id: nat | id < s.N() ensures AgreeAt(env, e, v, id) {
      assert AgreeAt(env, s, w, id);
      assert e.List(id) == s.List(id) && Listed(e, id) == Listed(s, id);
    }
  }

  lemma FillAgree(env: Env, s: State, w: World)
    requires Inv(s) && Agree(env, s, w) && s.mpc.FillComp? && Gate(s, w, Manage)
    ensures ManageEnabled(s) && S.Enabled(w, S.ScribblePath(ImageOf(s.m, s.mpc.k)))
    ensures Agree(env, ManageStep(s), S.Next(w, S.ScribblePath(ImageOf(s.m, s.mpc.k))))
  {
    var k, a := s.mpc.k, ImageOf(s.m, s.mpc.k);
    var v := S.Next(w, S.ScribblePath(a));
    FillOnCell(env, s, w, w.(paths := w.paths[k := w.paths[k].Write(a)]), k);
    assert v == w.(paths := w.paths[k := w.paths[k].Write(a)]);
    CellAgree(env, s, w, ManageStep(s), v, k);
  }

  lemma FillOnCell(env: Env, s: State, w: World, v: World, k: nat)
    requires Inv(s) && Agree(env, s, w) && s.mpc == FillComp(k) && k < s.N() && w.phase.Fill? && w.phase.done == |w.phase.job.items|
    requires v == w.(paths := w.paths[k := w.paths[k].Write(ImageOf(s.m, k))])
    ensures ManageEnabled(s) && OnCell(env, s, w, ManageStep(s), v, k)
  {
    assert AgreeAt(env, s, w, k);
    ManageShape(s);
  }

  lemma PublishAgree(env: Env, s: State, w: World)
    requires Inv(s) && Agree(env, s, w) && s.mpc.PubComp?
    ensures ManageEnabled(s) && S.Enabled(w, S.Publish) && Agree(env, ManageStep(s), S.Next(w, S.Publish))
  {
    var k, a := s.mpc.k, ImageOf(s.m, s.mpc.k);
    var v := w.(paths := w.paths[k := w.paths[k].Write(a).Publish()], phase := S.Wait(w.phase.job));
    PublishOnCell(env, s, w, v, k);
    assert v == S.Next(w, S.Publish);
    CellAgree(env, s, w, ManageStep(s), v, k);
  }

  lemma PublishOnCell(env: Env, s: State, w: World, v: World, k: nat)
    requires Inv(s) && Agree(env, s, w) && s.mpc == PubComp(k) && k < s.N()
    requires v == w.(paths := w.paths[k := w.paths[k].Write(ImageOf(s.m, k)).Publish()], phase := S.Wait(w.phase.job))
    ensures ManageEnabled(s) && OnCell(env, s, w, ManageStep(s), v, k)
  {
    assert AgreeAt(env, s, w, k);
    PublishedCell(s, k);
    WriteSame(w.paths[k], s.CellOf(k, s.IsCls(k)), ImageOf(s.m, k));
  }

  lemma PublishedCell(s: State, k: nat)
    requires Inv(s) && s.mpc == PubComp(k) && k < s.N()
    ensures ManageEnabled(s) && Live(s.m.comps[k])
    ensures var e := ManageStep(s);
            && e.Shape() && e.m == s.m && e.core == s.core && e.home == s.home && e.wpc == s.wpc && e.mpc == AwaitComp(k)
            && e.CellOf(k, e.IsCls(k)) == s.CellOf(k, s.IsCls(k)).Publish()
            && forall id: nat, cls :: id < s.N() && id != k ==> e.CellOf(id, cls) == s.CellOf(id, cls)
  {
    ManageShape(s);
  }

  lemma WriteSame(c: H.Cell<Image>, d: H.Cell<Image>, a: Image)
    requires Same(c, d) && d.area[d.upd] == a
    ensures Same(c.Write(a).Publish(), d.Publish()) && c.Write(a).Publish().Pending()
  {
    assert c.Write(a).area == d.area;
  }

  lemma AwaitAgree(env: Env, s: State, w: World)
    requires Inv(s) && Agree(env, s, w) && s.mpc.AwaitComp? && ManageEnabled(s)
    ensures S.Enabled(w, S.Return) && Agree(env, ManageStep(s), S.Next(w, S.Return))
  {
    var k := s.mpc.k;
    assert AgreeAt(env, s, w, k);
    var e, v := ManageStep(s), S.Next(w, S.Return);
    MirrorKept(env, s, w, e, v);
    SendingOf(s.m, k);
    ManagerMoves(env, s, w, e, v);
  }

  lemma EraseAgree(env: Env, s: State, w: World)
    requires Inv(s) && Agree(env, s, w) && s.mpc.EraseComp?
    ensures ManageEnabled(s) && Agree(env, ManageStep(s), w)
  {
    var k, e := s.mpc.k, ManageStep(s);
    ManageShape(s);
    forall id: nat | id < s.N() ensures AgreeAt(env, e, w, id) {
      assert AgreeAt(env, s, w, id);
      assert e.List(id) == s.List(id) && Listed(e, id) == Listed(s, id);
    }
  }

  // ----- Commands -----

  /** Before a command is executed, what is not live is on no list. */
  lemma IdleAbsent(env: Env, s: State, w: World, id: nat)
    requires Inv(s) && Agree(env, s, w) && s.mpc.Editing? && id < s.N() && !Live(s.m.comps[id])
    ensures !Listed(s, id) && w.turns[id].Absent?
  {
    assert AgreeAt(env, s, w, id);
    var l := s.home[id];
    if l < s.N() {
      assert AtOk(s, l);
      forall i | 0 <= i < |s.List(l)| ensures s.List(l)[i] != id {
        assert s.List(l)[i] == s.m.pend[l][i];
      }
    }
  }

  /** What a command does to a component that it does not start. */
  lemma EditAgreeAt(env: Env, s: State, w: World, v: World, id: nat)
    requires Accepted(s) && Agree(env, s, w) && id < s.N() && Sized(env, ManageStep(s), v)
    requires Live(s.m.comps[id]) || !Live(Execute(s.m, s.mpc.cmd).value.comps[id])
    requires v.turns[id] == w.turns[id] && v.lcores[id] == w.lcores[id] && v.paths[id] == w.paths[id] && v.uses[id] == w.uses[id]
    ensures AgreeAt(env, ManageStep(s), v, id)
  {
    EditTurn(env, s, w, v, id);
    EditMirror(env, s, w, v, id);
    EditUses(env, s, w, v, id);
  }

  lemma EditTurn(env: Env, s: State, w: World, v: World, id: nat)
    requires Accepted(s) && Agree(env, s, w) && id < s.N() && Sized(env, ManageStep(s), v)
    requires Live(s.m.comps[id]) || !Live(Execute(s.m, s.mpc.cmd).value.comps[id])
    requires v.turns[id] == w.turns[id] && v.lcores[id] == w.lcores[id]
    ensures TurnOk(ManageStep(s), v, id)
  {
    assert AgreeAt(env, s, w, id);
    EditTypes(s.m, s.mpc.cmd, id);
    EditListed(s, id);
  }

  lemma EditListed(s: State, id: nat)
    requires Accepted(s) && id < s.N() && (Live(s.m.comps[id]) || !Live(Execute(s.m, s.mpc.cmd).value.comps[id]))
    ensures ManageStep(s).Shape() && Listed(ManageStep(s), id) == Listed(s, id)
    ensures ManageStep(s).home[id] == s.home[id] && ManageStep(s).wpc == s.wpc
  {
    ManageShape(s);
    if s.home[id] < s.N() {
      EditCore(s, s.home[id]);
    }
  }

  lemma EditMirror(env: Env, s: State, w: World, v: World, id: nat)
    requires Accepted(s) && Agree(env, s, w) && id < s.N() && Sized(env, ManageStep(s), v) && v.paths[id] == w.paths[id]
    requires Live(s.m.comps[id]) || !Live(Execute(s.m, s.mpc.cmd).value.comps[id])
    ensures MirrorOk(ManageStep(s), v, id)
  {
    assert AgreeAt(env, s, w, id);
    EditTypes(s.m, s.mpc.cmd, id);
    var e := ManageStep(s);
    assert e.path == s.path && e.tab == s.tab && e.wpc == s.wpc;
    if !Live(e.m.comps[id]) {
      forall l: nat | l < s.N() && Busy(e.wpc[l]) && e.wpc[l].id == id ensures Same(v.paths[id], e.CellOf(id, e.wpc[l].cls)) {
        Standing(env, s, w, l);
      }
    }
  }

  lemma EditUses(env: Env, s: State, w: World, v: World, id: nat)
    requires Accepted(s) && Agree(env, s, w) && id < s.N() && Sized(env, ManageStep(s), v) && v.uses[id] == w.uses[id]
    requires Live(s.m.comps[id]) || !Live(Execute(s.m, s.mpc.cmd).value.comps[id])
    ensures UsesOk(env, ManageStep(s), v, id)
  {
    assert AgreeAt(env, s, w, id);
    var m' := Execute(s.m, s.mpc.cmd).value;
    if Live(m'.comps[id]) && !m'.chgComp[id] {
      UnflaggedPorts(s.m, s.mpc.cmd, id);
    }
  }

  lemma UnflaggedPorts(m: Mng, cmd: Management.Command, id: nat)
    requires Managed(m) && Execute(m, cmd).Some? && id < |m.comps|
    requires var m' := Execute(m, cmd).value; Live(m'.comps[id]) && !m'.chgComp[id]
    ensures Execute(m, cmd).value.comps[id] == m.comps[id]
  {
    if !cmd.AddClass? && !cmd.DelClass? {
      C.UnflaggedSame(m, cmd, id);
    }
  }

  /** The component a command starts. */
  lemma StartAgreeAt(env: Env, s: State, w: World, v: World, id: nat)
    requires Accepted(s) && Agree(env, s, w) && id < s.N() && Sized(env, ManageStep(s), v)
    requires !Live(s.m.comps[id]) && Live(Execute(s.m, s.mpc.cmd).value.comps[id])
    requires v.turns[id].Absent? && v.lcores[id] == Execute(s.m, s.mpc.cmd).value.comps[id].lcore
    requires v.paths[id] == ManageStep(s).CellOf(id, ManageStep(s).IsCls(id))
    ensures AgreeAt(env, ManageStep(s), v, id)
  {
    var e := ManageStep(s);
    IdleAbsent(env, s, w, id);
    var l := e.home[id];
    assert l == e.m.comps[id].lcore;
    EditCore(s, l);
    assert s.List(l) == s.m.pend[l];
    assert id !in s.m.pend[l];
    T.EditFlagsNew(s.m, s.mpc.cmd, id);
  }

  /** Which component a command starts, if any. */
  lemma StartsOne(m: Mng, cmd: Management.Command, id: nat)
    requires Managed(m) && Execute(m, cmd).Some? && id < |m.comps|
    ensures var r := Execute(m, cmd).value;
            !Live(m.comps[id]) && Live(r.comps[id]) ==>
              cmd.StartComp? && FindFree(m.comps, 0) == Some(id) && r.comps != m.comps && r.comps[id].lcore == cmd.lcore
  {
  }

  lemma AcceptedEdit(s: State)
    requires Inv(s) && s.mpc.Editing? && Execute(s.m, s.mpc.cmd).Some?
    ensures Accepted(s) && ManageEnabled(s) && Inv(ManageStep(s))
    ensures ManageStep(s).m == Execute(s.m, s.mpc.cmd).value && ManageStep(s).mpc == PubCore(0)
  {
    EditPending(s);
    ExecuteManaged(s.m, s.mpc.cmd);
    StepInv(s, Manage);
  }

  lemma NoneStarted(env: Env, s: State, w: World, id: nat)
    requires Accepted(s) && Agree(env, s, w) && ManageEnabled(s) && ManageStep(s).Shape() && id < s.N()
    requires ManageStep(s).m == Execute(s.m, s.mpc.cmd).value && StartMove(env, s, w).None?
    ensures Live(s.m.comps[id]) || !Live(ManageStep(s).m.comps[id])
  {
    StartsOne(s.m, s.mpc.cmd, id);
  }

  lemma OneStarted(env: Env, s: State, w: World, id: nat)
    requires Accepted(s) && Agree(env, s, w) && ManageEnabled(s) && ManageStep(s).Shape() && id < s.N()
    requires ManageStep(s).m == Execute(s.m, s.mpc.cmd).value && StartMove(env, s, w).Some?
    requires !Live(s.m.comps[id]) && Live(ManageStep(s).m.comps[id])
    ensures FindFree(s.m.comps, 0) == Some(id) && s.mpc.cmd.lcore == ManageStep(s).m.comps[id].lcore
  {
    StartsOne(s.m, s.mpc.cmd, id);
  }

  lemma SlotPoints(s: State, e: State, w: World, v: World, id: nat, lcore: nat)
    requires s.Shape() && e.Shape() && e.N() == s.N() && id < s.N() && !Live(s.m.comps[id]) && Live(e.m.comps[id])
    requires |w.paths| == |w.turns| == |w.lcores| == |w.uses| == s.N() == |v.uses|
    requires forall u: nat :: u < s.N() && !Live(s.m.comps[u]) && Live(e.m.comps[u]) ==> u == id && e.m.comps[u].lcore == lcore
    requires v.paths == w.paths[id := e.CellOf(id, e.IsCls(id))] && v.turns == w.turns[id := S.Absent] && v.lcores == w.lcores[id := lcore]
    requires forall u :: 0 <= u < s.N() && u != id ==> v.uses[u] == w.uses[u]
    ensures forall u :: 0 <= u < s.N() ==>
              if !Live(s.m.comps[u]) && Live(e.m.comps[u]) then
                v.paths[u] == e.CellOf(u, e.IsCls(u)) && v.turns[u].Absent? && v.lcores[u] == e.m.comps[u].lcore
              else v.turns[u] == w.turns[u] && v.lcores[u] == w.lcores[u] && v.paths[u] == w.paths[u] && v.uses[u] == w.uses[u]
  {
  }

  /** The switch after an accepted command: a component that is started has the cell of its
      type, any other is as it was. */
  lemma Started(env: Env, s: State, w: World) returns (v: World)
    requires Accepted(s) && Agree(env, s, w) && ManageEnabled(s) && ManageStep(s).Shape()
    requires ManageStep(s).m == Execute(s.m, s.mpc.cmd).value
    ensures var m := StartMove(env, s, w);
            (m.Some? ==> S.Enabled(w, m.value)) && v == (if m.Some? then S.Next(w, m.value) else w)
    ensures Sized(env, ManageStep(s), v) && v.phase == w.phase
    ensures forall id :: 0 <= id < s.N() ==>
              if !Live(s.m.comps[id]) && Live(ManageStep(s).m.comps[id]) then
                v.paths[id] == ManageStep(s).CellOf(id, ManageStep(s).IsCls(id)) && v.turns[id].Absent?
                && v.lcores[id] == ManageStep(s).m.comps[id].lcore
              else v.turns[id] == w.turns[id] && v.lcores[id] == w.lcores[id] && v.paths[id] == w.paths[id] && v.uses[id] == w.uses[id]
  {
    if StartMove(env, s, w).Some? {
      v := StartSlot(env, s, w);
      var id := FindFree(s.m.comps, 0).value;
      forall u: nat | u < s.N() && !Live(s.m.comps[u]) && Live(ManageStep(s).m.comps[u])
        ensures u == id && ManageStep(s).m.comps[u].lcore == s.mpc.cmd.lcore
      {
        OneStarted(env, s, w, u);
      }
      SlotPoints(s, ManageStep(s), w, v, id, s.mpc.cmd.lcore);
    } else {
      v := w;
      forall id: nat | id < s.N() ensures Live(s.m.comps[id]) || !Live(ManageStep(s).m.comps[id]) {
        NoneStarted(env, s, w, id);
      }
    }
  }

  lemma StartSlot(env: Env, s: State, w: World) returns (v: World)
    requires Accepted(s) && Agree(env, s, w) && ManageEnabled(s) && ManageStep(s).Shape()
    requires ManageStep(s).m == Execute(s.m, s.mpc.cmd).value && StartMove(env, s, w).Some?
    ensures S.Enabled(w, StartMove(env, s, w).value) && v == S.Next(w, StartMove(env, s, w).value) && S.Formed(v)
    ensures FindFree(s.m.comps, 0).Some? && v.phase == w.phase && v.cells == w.cells
    ensures var id, e := FindFree(s.m.comps, 0).value, ManageStep(s);
            && id < s.N() && !Live(s.m.comps[id]) && Live(e.m.comps[id])
            && v.paths == w.paths[id := e.CellOf(id, e.IsCls(id))] && v.turns == w.turns[id := S.Absent]
            && v.lcores == w.lcores[id := s.mpc.cmd.lcore] && |v.uses| == |w.uses|
            && forall u :: 0 <= u < s.N() && u != id ==> v.uses[u] == w.uses[u]
  {
    var id, e := FindFree(s.m.comps, 0).value, ManageStep(s);
    IdleAbsent(env, s, w, id);
    v := OneSlot(w, id, Taken(env, w, e.CellOf(id, e.IsCls(id)), S.Absent, s.mpc.cmd.lcore));
  }

  lemma EditAgree(env: Env, s: State, w: World)
    requires Inv(s) && Agree(env, s, w) && s.mpc.Editing?
    ensures ManageEnabled(s)
    ensures var m := StartMove(env, s, w);
            (m.Some? ==> S.Enabled(w, m.value)) && Agree(env, ManageStep(s), if m.Some? then S.Next(w, m.value) else w)
  {
    EditPending(s);
    if Execute(s.m, s.mpc.cmd).None? {
      var e := ManageStep(s);
      MirrorKept(env, s, w, e, w);
      ManagerMoves(env, s, w, e, w);
    } else {
      AcceptedEdit(s);
      AcceptedAgree(env, s, w);
    }
  }

  lemma AcceptedAgree(env: Env, s: State, w: World)
    requires Accepted(s) && Agree(env, s, w) && ManageEnabled(s) && Inv(ManageStep(s))
    requires ManageStep(s).m == Execute(s.m, s.mpc.cmd).value && ManageStep(s).mpc == PubCore(0)
    ensures var m := StartMove(env, s, w);
            (m.Some? ==> S.Enabled(w, m.value)) && Agree(env, ManageStep(s), if m.Some? then S.Next(w, m.value) else w)
  {
    var v := Started(env, s, w);
    var e := ManageStep(s);
    forall id: nat | id < s.N() ensures AgreeAt(env, e, v, id) {
      if !Live(s.m.comps[id]) && Live(e.m.comps[id]) {
        StartAgreeAt(env, s, w, v, id);
      } else {
        EditAgreeAt(env, s, w, v, id);
      }
    }
  }
}

/** Runs of the control plane together with the switch of abilities: each is a run of the
    control plane and a run of the switch in which all that the switch assumes holds. */
module ControlPlaneSwitches {
  import opened SppTypes
  import opened Management
  import opened ControlPlane
  import opened ControlPlaneAbilities
  import T = ControlPlaneSettled
  import PortAbility
  import S = AbilitySwitch
  import I = AbilityIterations
  import A = AbilityHeld

  datatype Joint = Joint(s: State, w: World)

  /** A pending `port add` is of a registered interface. */
  predicate NamesKnown(env: Env, s: State) {
    s.mpc.Editing? && s.mpc.cmd.AddPort? ==> s.mpc.cmd.port in env.ports
  }

  ghost predicate JointInv(env: Env, j: Joint) {
    && EnvOk(env) && Inv(j.s) && T.Settled(j.s) && Known(env, j.s.m) && NamesKnown(env, j.s)
    && Agree(env, j.s, j.w) && S.ContentInv(j.w) && A.Orderly(j.w)
  }

  ghost predicate Fits(j: Joint) { j.s.Shape() && S.Formed(j.w) && |j.w.paths| == j.s.N() }

  /** The move the switch makes in an act, if any. */
  ghost function Moved(env: Env, j: Joint, act: Act): Option<Move>
    requires Fits(j) && ActEnabled(env, j.s, j.w, act)
  {
    match act
    case Inner(m) => Some(m)
    case Plane(step) => MoveOf(env, j.s, j.w, step)
  }

  ghost function After1(env: Env, j: Joint, act: Act): Joint
    requires Fits(j) && ActEnabled(env, j.s, j.w, act)
  {
    var m := Moved(env, j, act);
    Joint(if act.Plane? then Apply(j.s, act.step) else j.s,
          if m.Some? && S.Enabled(j.w, m.value) then S.Next(j.w, m.value) else j.w)
  }

  // ----- Every act is a step of the one and a move of the other -----

  lemma WorkAct(env: Env, s: State, w: World, l: nat)
    requires JointInv(env, Joint(s, w)) && ActEnabled(env, s, w, Plane(Work(l)))
    ensures var m := WorkMove(env, s, w, l);
            (m.Some? ==> S.Enabled(w, m.value)) && Agree(env, WorkStep(s, l), if m.Some? then S.Next(w, m.value) else w)
  {
    match s.wpc[l]
    case AtTop => TopAgree(env, s, w, l);
    case FlipCore => FlipCoreAgree(env, s, w, l);
    case Next(_) => NextAgree(env, s, w, l);
    case TestComp(_, _, _) => TestAgree(env, s, w, l);
    case FlipComp(_, _, _) => FlipAgree(env, s, w, l);
    case UseComp(_, _, _) => UseAgree(env, s, w, l);
  }

  lemma ManageAct(env: Env, s: State, w: World)
    requires JointInv(env, Joint(s, w)) && ActEnabled(env, s, w, Plane(Manage))
    ensures var m := MoveOf(env, s, w, Manage);
            (m.Some? ==> S.Enabled(w, m.value)) && Agree(env, ManageStep(s), if m.Some? then S.Next(w, m.value) else w)
  {
    if s.mpc.Editing? {
      EditAgree(env, s, w);
    } else if s.mpc.NextComp? && s.mpc.k < s.N() && s.m.chgComp[s.mpc.k] {
      BeginAgree(env, s, w, s.mpc.k);
    } else if s.mpc.FillComp? {
      FillAgree(env, s, w);
    } else if s.mpc.PubComp? {
      PublishAgree(env, s, w);
    } else if s.mpc.AwaitComp? {
      AwaitAgree(env, s, w);
    } else if s.mpc.EraseComp? {
      EraseAgree(env, s, w);
    } else {
      ListsAgree(env, s, w);
    }
  }

  /** The moves that steps of the control plane call for are possible, and the two views agree
      again afterwards. */
  lemma ActAgrees(env: Env, j: Joint, act: Act)
    requires JointInv(env, j) && ActEnabled(env, j.s, j.w, act)
    ensures var m := Moved(env, j, act); m.Some? ==> S.Enabled(j.w, m.value)
    ensures Agree(env, After1(env, j, act).s, After1(env, j, act).w)
  {
    match act
    case Inner(m) => InnerAgree(env, j.s, j.w, m);
    case Plane(step) =>
      match step
      case Command(cmd) => CommandAgree(env, j.s, j.w, cmd);
      case Manage => ManageAct(env, j.s, j.w);
      case Work(l) => WorkAct(env, j.s, j.w, l);
  }

  /** Every job names each key once. */
  lemma ActOnce(env: Env, j: Joint, act: Act)
    requires JointInv(env, j) && ActEnabled(env, j.s, j.w, act)
    ensures var m := Moved(env, j, act); m.Some? && m.value.Begin? ==> S.Once(m.value.job.items)
  {
    if act == Plane(Manage) && j.s.mpc.NextComp? && j.s.mpc.k < j.s.N() && j.s.m.chgComp[j.s.mpc.k] {
      JobOnce(env, j.s, j.w, j.s.mpc.k);
    }
  }

  lemma EditKnown(env: Env, m: Mng, cmd: Management.Command)
    requires Managed(m) && Known(env, m) && Execute(m, cmd).Some? && (cmd.AddPort? ==> cmd.port in env.ports)
    ensures Known(env, Execute(m, cmd).value)
  {
    var r := Execute(m, cmd).value;
    forall id | 0 <= id < |r.comps| ensures I.PortsIn(r.comps[id], env.ports) {
      if cmd.DelPort? {
        assert I.PortsIn(m.comps[id], env.ports);
        DelKnown(env, m, cmd, id);
      } else {
        OtherKnown(env, m, cmd, id);
      }
    }
  }

  lemma OtherKnown(env: Env, m: Mng, cmd: Management.Command, id: nat)
    requires Shape(m) && Known(env, m) && Execute(m, cmd).Some? && (cmd.AddPort? ==> cmd.port in env.ports)
    requires !cmd.DelPort? && id < |m.comps|
    ensures I.PortsIn(Execute(m, cmd).value.comps[id], env.ports)
  {
    assert I.PortsIn(m.comps[id], env.ports);
  }

  lemma DelKnown(env: Env, m: Mng, cmd: Management.Command, id: nat)
    requires Managed(m) && Execute(m, cmd).Some? && cmd.DelPort? && id < |m.comps| && I.PortsIn(m.comps[id], env.ports)
    ensures I.PortsIn(Execute(m, cmd).value.comps[id], env.ports)
  {
    var c := m.comps[id];
    assert PortsOk(c, m.maxPorts);
    FewerIn(env, cmd.port, c.rx);
    FewerIn(env, cmd.port, c.tx);
  }

  lemma FewerIn(env: Env, p: PortIndex, ps: seq<PortIndex>)
    requires NoDups(ps) && forall i :: 0 <= i < |ps| ==> ps[i] in env.ports
    ensures forall i :: 0 <= i < |RemoveLast(p, ps)| ==> RemoveLast(p, ps)[i] in env.ports
  {
    RemoveLastFacts(p, ps);
    forall i | 0 <= i < |RemoveLast(p, ps)| ensures RemoveLast(p, ps)[i] in env.ports {
      assert RemoveLast(p, ps)[i] in ps;
    }
  }

  lemma StepKnown(env: Env, s: State, step: ControlPlane.Step)
    requires Inv(s) && Known(env, s.m) && NamesKnown(env, s) && Enabled(s, step) && Registered(env, step)
    ensures Known(env, Apply(s, step).m) && NamesKnown(env, Apply(s, step))
  {
    if step.Manage? && s.mpc.Editing? {
      EditPending(s);
      if Execute(s.m, s.mpc.cmd).Some? {
        EditKnown(env, s.m, s.mpc.cmd);
      }
    }
  }

  lemma ActInv(env: Env, j: Joint, act: Act)
    requires JointInv(env, j) && ActEnabled(env, j.s, j.w, act)
    ensures JointInv(env, After1(env, j, act))
  {
    ActAgrees(env, j, act);
    ActOnce(env, j, act);
    var m := Moved(env, j, act);
    if m.Some? {
      S.ContentStep(j.w, m.value);
      A.OrderlyStep(j.w, m.value);
    }
    if act.Plane? {
      StepInv(j.s, act.step);
      T.StepSettled(j.s, act.step);
      StepKnown(env, j.s, act.step);
    }
  }

  // ----- Runs -----

  ghost predicate JointRuns(env: Env, j: Joint, acts: seq<Act>)
    decreases |acts|
  {
    Fits(j) && (acts == [] || (ActEnabled(env, j.s, j.w, acts[0]) && JointRuns(env, After1(env, j, acts[0]), acts[1..])))
  }

  ghost function JointEnd(env: Env, j: Joint, acts: seq<Act>): (e: Joint)
    requires JointRuns(env, j, acts)
    ensures Fits(e)
    decreases |acts|
  {
    if acts == [] then j else JointEnd(env, After1(env, j, acts[0]), acts[1..])
  }

  lemma {:induction false} RunJoint(env: Env, j: Joint, acts: seq<Act>)
    requires JointInv(env, j) && JointRuns(env, j, acts)
    ensures JointInv(env, JointEnd(env, j, acts))
    decreases |acts|
  {
    if acts != [] {
      ActInv(env, j, acts[0]);
      RunJoint(env, After1(env, j, acts[0]), acts[1..]);
    }
  }

  /** A run of the one system, seen from the switch and from the control plane. */
  lemma {:induction false} RunProjects(env: Env, j: Joint, acts: seq<Act>) returns (moves: seq<Move>, steps: seq<ControlPlane.Step>)
    requires JointInv(env, j) && JointRuns(env, j, acts)
    ensures S.Runs(j.w, moves) && S.OnceEach(moves) && S.End(j.w, moves) == JointEnd(env, j, acts).w
    ensures Runs(j.s, steps) && After(j.s, steps) == JointEnd(env, j, acts).s
    decreases |acts|
  {
    if acts == [] {
      moves, steps := [], [];
    } else {
      ActInv(env, j, acts[0]);
      var n := After1(env, j, acts[0]);
      moves, steps := RunProjects(env, n, acts[1..]);
      moves := MovesBefore(env, j, acts[0], moves);
      steps := StepsBefore(env, j, acts[0], steps);
    }
  }

  lemma MovesBefore(env: Env, j: Joint, act: Act, rest: seq<Move>) returns (moves: seq<Move>)
    requires JointInv(env, j) && ActEnabled(env, j.s, j.w, act)
    requires S.Formed(After1(env, j, act).w) && S.Runs(After1(env, j, act).w, rest) && S.OnceEach(rest)
    ensures S.Runs(j.w, moves) && S.OnceEach(moves) && S.End(j.w, moves) == S.End(After1(env, j, act).w, rest)
  {
    ActAgrees(env, j, act);
    ActOnce(env, j, act);
    var m := Moved(env, j, act);
    if m.Some? {
      moves := [m.value] + rest;
      A.Cons(j.w, m.value, rest);
      A.OnceJoin([m.value], rest);
    } else {
      moves := rest;
    }
  }

  lemma StepsBefore(env: Env, j: Joint, act: Act, rest: seq<ControlPlane.Step>) returns (steps: seq<ControlPlane.Step>)
    requires JointInv(env, j) && ActEnabled(env, j.s, j.w, act)
    requires After1(env, j, act).s.Shape() && Runs(After1(env, j, act).s, rest)
    ensures Runs(j.s, steps) && After(j.s, steps) == After(After1(env, j, act).s, rest)
  {
    if act.Plane? {
      steps := [act.step] + rest;
      assert steps[1..] == rest;
    } else {
      steps := rest;
    }
  }

  // ----- From process start -----

  /** Process start: the control plane's, and the switch's with the same paths. */
  ghost predicate Fresh(env: Env, j: Joint) {
    && EnvOk(env)
    && (exists n: nat, workers: set<nat>, main: nat, maxPorts: nat, phys: set<PortIndex> ::
          j.s == Start0(n, workers, main, maxPorts, phys))
    && S.Initial(j.w) && |j.w.paths| == j.s.N() && |j.w.cells| == env.cells
  }

  lemma FreshInv(env: Env, j: Joint)
    requires Fresh(env, j)
    ensures JointInv(env, j)
  {
    var n: nat, workers: set<nat>, main: nat, maxPorts: nat, phys: set<PortIndex> :|
      j.s == Start0(n, workers, main, maxPorts, phys);
    StartInv(n, workers, main, maxPorts, phys);
    T.StartSettled(n, workers, main, maxPorts, phys);
    FreshAgree(env, j);
    FreshSwitch(j.w);
  }

  lemma FreshSwitch(w: World)
    requires S.Initial(w)
    ensures S.ContentInv(w) && A.Orderly(w)
  {
  }

  lemma FreshAgree(env: Env, j: Joint)
    requires Fresh(env, j) && j.s.Shape()
    ensures Agree(env, j.s, j.w) && Known(env, j.s.m)
  {
    forall id: nat | id < j.s.N() ensures AgreeAt(env, j.s, j.w, id) {
    }
    forall id: nat | id < j.s.N() ensures I.PortsIn(j.s.m.comps[id], env.ports) {
    }
  }

  /** From process start, in every run of commands, flushes and workers, with all moves of the
      queue in between: no ability area in force is written, only the awaited component's
      worker moves queued references, and when the wait for a component is over, the
      published list of each of its ports is in force. */
  lemma FlushSwitches(env: Env, j: Joint, acts: seq<Act>, k: nat)
    requires Fresh(env, j) && JointRuns(env, j, acts) && k < JointEnd(env, j, acts).s.N()
    ensures var e := JointEnd(env, j, acts);
            && (e.w.phase.Fill? && e.w.phase.done < |e.w.phase.job.items| ==>
                  var c := e.w.cells[e.w.phase.job.items[e.w.phase.done].key]; c.upd != c.ref)
            && (forall v: nat :: v < |e.w.turns| && e.w.turns[v].Flipping? && e.w.queue != [] ==> e.s.mpc == AwaitComp(v))
            && (e.s.mpc == AwaitComp(k) && !e.s.CellOf(k, e.s.IsCls(k)).Pending() ==> ListsInForce(env, e, k))
  {
    FreshInv(env, j);
    RunJoint(env, j, acts);
    var e := JointEnd(env, j, acts);
    if e.w.phase.Fill? && e.w.phase.done < |e.w.phase.job.items| {
      S.NotQueuedYet(e.w);
    }
    forall v: nat | v < |e.w.turns| && e.w.turns[v].Flipping? && e.w.queue != [] ensures e.s.mpc == AwaitComp(v) {
      S.OnlyAwaitedFlips(e.w, v);
    }
    if e.s.mpc == AwaitComp(k) && !e.s.CellOf(k, e.s.IsCls(k)).Pending() {
      AwaitedInForce(env, e, k);
    }
  }

  /** Every port of the component has its published abilities in force. */
  ghost predicate ListsInForce(env: Env, j: Joint, k: nat)
    requires Fits(j) && k < j.s.N()
  {
    forall p, d: RxTx :: p in Ports(j.s.m.comps[k], d) ==>
      && env.key(p, d) < |j.w.cells|
      && j.w.cells[env.key(p, d)].Active() == PortAbility.Published(AbilityOf(j.s.m, p), d)
  }

  lemma AwaitedInForce(env: Env, j: Joint, k: nat)
    requires JointInv(env, j) && k < j.s.N() && j.s.mpc == AwaitComp(k) && !j.s.CellOf(k, j.s.IsCls(k)).Pending()
    ensures ListsInForce(env, j, k)
  {
    var c, job := j.s.m.comps[k], j.w.phase.job;
    assert AgreeAt(env, j.s, j.w, k) && Live(c) && I.PortsIn(c, env.ports);
    if !job.first {
      S.Completed(j.w);
    }
    forall p, d: RxTx | p in Ports(c, d)
      ensures env.key(p, d) < |j.w.cells| && j.w.cells[env.key(p, d)].Active() == PortAbility.Published(AbilityOf(j.s.m, p), d)
    {
      var i := ItemOf(env, j.s.m, k, p, d);
      assert job.items[i].key == env.key(p, d);
    }
  }

  lemma ItemOf(env: Env, m: Mng, k: nat, p: PortIndex, d: RxTx) returns (i: nat)
    requires k < |m.comps| && p in Ports(m.comps[k], d)
    ensures i < |ItemsOf(env, m, k)|
    ensures ItemsOf(env, m, k)[i] == S.Item(env.key(p, d), PortAbility.Published(AbilityOf(m, p), d))
  {
    var c := m.comps[k];
    var x :| 0 <= x < |Ports(c, d)| && Ports(c, d)[x] == p;
    i := if d == Rx then x else |c.rx| + x;
  }

  // ----- Areas held across flushes -----

  /** The component has a port, in one direction, in common with a live component of another
      lcore that has ports on both sides. */
  ghost predicate SharesPort(m: Mng, k: nat)
    requires Shape(m) && k < |m.comps|
  {
    exists u: nat, p, d: RxTx :: SharesWith(m, k, u, p, d)
  }

  ghost predicate SharesWith(m: Mng, k: nat, u: nat, p: PortIndex, d: RxTx)
    requires Shape(m) && k < |m.comps|
  {
    && u < |m.comps| && u != k && Live(m.comps[u]) && m.comps[u].lcore != m.comps[k].lcore
    && m.comps[u].rx != [] && m.comps[u].tx != [] && p in Ports(m.comps[u], d) && p in Ports(m.comps[k], d)
  }

  /** The manager is about to deal with component `k`. */
  predicate Turns(s: State, k: nat)
    requires s.Shape()
  {
    s.mpc == NextComp(k) && k < s.N() && s.m.chgComp[k]
  }

  lemma UsesPort(env: Env, c: Component, k: nat) returns (p: PortIndex, d: RxTx)
    requires I.PortsIn(c, env.ports) && k in UsesOf(env, c.rx, c.tx)
    ensures c.rx != [] && c.tx != [] && p in Ports(c, d) && p in env.ports && k == env.key(p, d)
  {
    if i :| 0 <= i < |c.rx| && k == env.key(c.rx[i], Rx) {
      p, d := c.rx[i], Rx;
    } else {
      var i :| 0 <= i < |c.tx| && k == env.key(c.tx[i], Tx);
      p, d := c.tx[i], Tx;
    }
  }

  lemma PortUses(env: Env, c: Component, p: PortIndex, d: RxTx)
    requires c.rx != [] && c.tx != [] && p in Ports(c, d)
    ensures env.key(p, d) in UsesOf(env, c.rx, c.tx)
  {
    var i :| 0 <= i < |Ports(c, d)| && Ports(c, d)[i] == p;
  }

  /** Of a listed component, what its worker uses is what it is configured to. */
  lemma ListedUses(env: Env, j: Joint, k: nat, u: nat)
    requires JointInv(env, j) && Turns(j.s, k) && u < j.s.N() && u != k
    ensures !j.w.turns[u].Absent? <==> Live(j.s.m.comps[u])
    ensures Live(j.s.m.comps[u]) ==>
              && j.w.uses[u] == UsesOf(env, j.s.m.comps[u].rx, j.s.m.comps[u].tx)
              && j.w.lcores[u] == j.s.m.comps[u].lcore
  {
    assert AgreeAt(env, j.s, j.w, u);
    if Live(j.s.m.comps[u]) {
      LiveListed(j.s, k, u);
    }
    if Listed(j.s, u) {
      ListedSettled(j.s, k, u);
    }
  }

  lemma LiveListed(s: State, k: nat, u: nat)
    requires Inv(s) && Turns(s, k) && u < s.N() && Live(s.m.comps[u])
    ensures Listed(s, u)
  {
    var l := s.m.comps[u].lcore;
    assert AtOk(s, u) && AtOk(s, l);
    assert s.List(l) == s.m.pend[l] && u in s.m.pend[l];
  }

  /** When the manager turns to a component, the switch shares a key with another lcore exactly
      if the component has a port in common with one there. */
  lemma SharedIff(env: Env, j: Joint, k: nat)
    requires JointInv(env, j) && Turns(j.s, k)
    ensures A.Shared(j.w, JobOf(env, j.s, j.w, k)) <==> SharesPort(j.s.m, k)
  {
    var job := JobOf(env, j.s, j.w, k);
    if A.Shared(j.w, job) {
      var u: nat, x: nat :| A.SharedBy(j.w, job, u, x);
      SharedShares(env, j, k, u, x);
    }
    if SharesPort(j.s.m, k) {
      var u: nat, p, d: RxTx :| SharesWith(j.s.m, k, u, p, d);
      SharesShared(env, j, k, u, p, d);
    }
  }

  lemma OwnLcore(env: Env, j: Joint, k: nat)
    requires JointInv(env, j) && Turns(j.s, k)
    ensures Live(j.s.m.comps[k]) && j.w.lcores[k] == j.s.m.comps[k].lcore && !j.w.turns[k].Absent?
  {
    assert AgreeAt(env, j.s, j.w, k) && Live(j.s.m.comps[k]);
    LiveListed(j.s, k, k);
  }

  lemma SharedShares(env: Env, j: Joint, k: nat, u: nat, x: nat)
    requires JointInv(env, j) && Turns(j.s, k) && A.SharedBy(j.w, JobOf(env, j.s, j.w, k), u, x)
    ensures SharesPort(j.s.m, k)
  {
    var m := j.s.m;
    OwnLcore(env, j, k);
    ItemKeys(env, m, k);
    ListedUses(env, j, k, u);
    assert I.PortsIn(m.comps[u], env.ports) && I.PortsIn(m.comps[k], env.ports);
    var p, d := UsesPort(env, m.comps[u], x);
    I.KeyOfPort(m.comps[k], env.key, env.ports, p, d);
    assert SharesWith(m, k, u, p, d);
  }

  lemma SharesShared(env: Env, j: Joint, k: nat, u: nat, p: PortIndex, d: RxTx)
    requires JointInv(env, j) && Turns(j.s, k) && SharesWith(j.s.m, k, u, p, d)
    ensures A.Shared(j.w, JobOf(env, j.s, j.w, k))
  {
    var m := j.s.m;
    OwnLcore(env, j, k);
    ItemKeys(env, m, k);
    ListedUses(env, j, k, u);
    PortUses(env, m.comps[u], p, d);
    assert I.PortsIn(m.comps[k], env.ports);
    PortKnown(env, m.comps[k], p, d);
    I.KeyOfPort(m.comps[k], env.key, env.ports, p, d);
    assert A.SharedBy(j.w, JobOf(env, j.s, j.w, k), u, env.key(p, d));
  }

  lemma PortKnown(env: Env, c: Component, p: PortIndex, d: RxTx)
    requires I.PortsIn(c, env.ports) && p in Ports(c, d)
    ensures p in env.ports
  {
    var i :| 0 <= i < |Ports(c, d)| && Ports(c, d)[i] == p;
  }

  /** The manager never turns to a component that shares a port. */
  ghost predicate NeverShares(env: Env, j: Joint, acts: seq<Act>)
    requires JointRuns(env, j, acts)
    decreases |acts|
  {
    && (forall k: nat :: Turns(j.s, k) ==> !SharesPort(j.s.m, k))
    && (acts == [] || NeverShares(env, After1(env, j, acts[0]), acts[1..]))
  }

  ghost predicate JointHeld(env: Env, j: Joint) {
    JointInv(env, j) && A.HeldCurrent(j.w) && A.Unshared(j.w)
  }

  lemma ActHeld(env: Env, j: Joint, act: Act)
    requires JointHeld(env, j) && ActEnabled(env, j.s, j.w, act)
    requires forall k: nat :: Turns(j.s, k) ==> !SharesPort(j.s.m, k)
    ensures JointHeld(env, After1(env, j, act))
  {
    ActInv(env, j, act);
    ActAgrees(env, j, act);
    var m := Moved(env, j, act);
    if m.Some? {
      if m.value.Begin? {
        assert Turns(j.s, j.s.mpc.k);
        SharedIff(env, j, j.s.mpc.k);
      }
      A.HeldStep(j.w, m.value);
      A.UnsharedStep(j.w, m.value);
    }
  }

  lemma {:induction false} RunJointHeld(env: Env, j: Joint, acts: seq<Act>)
    requires JointHeld(env, j) && JointRuns(env, j, acts) && NeverShares(env, j, acts)
    ensures JointHeld(env, JointEnd(env, j, acts))
    decreases |acts|
  {
    if acts != [] {
      ActHeld(env, j, acts[0]);
      RunJointHeld(env, After1(env, j, acts[0]), acts[1..]);
    }
  }

  /** From process start, over every run whose flushes are of components that have no port in
      common with another lcore: the manager never writes an ability area that a worker holds. */
  lemma FlushesNeverHit(env: Env, j: Joint, acts: seq<Act>)
    requires Fresh(env, j) && JointRuns(env, j, acts) && NeverShares(env, j, acts)
    ensures A.HeldCurrent(JointEnd(env, j, acts).w) && !A.Hits(JointEnd(env, j, acts).w)
  {
    FreshInv(env, j);
    RunJointHeld(env, j, acts);
    A.CurrentNotHit(JointEnd(env, j, acts).w);
  }

  /** When the manager turns to a component with ports: repeated flushes of it can come to
      write an area a worker holds exactly if it has a port in common with another lcore. */
  lemma ComponentHitsIff(env: Env, j: Joint, k: nat)
    requires JointInv(env, j) && A.HeldCurrent(j.w) && Turns(j.s, k) && ItemsOf(env, j.s.m, k) != []
    ensures (exists moves :: A.HitRun(j.w, moves, JobOf(env, j.s, j.w, k))) <==> SharesPort(j.s.m, k)
  {
    BeginEnabled(env, j.s, j.w, k);
    JobOnce(env, j.s, j.w, k);
    OwnLcore(env, j, k);
    A.FlushesHitIff(j.w, JobOf(env, j.s, j.w, k));
    SharedIff(env, j, k);
  }

  /** While no port serves two components in one direction, none is shared. */
  lemma ExclusiveSharesNone(m: Mng, k: nat)
    requires Managed(m) && Exclusive(m) && k < |m.comps| && Live(m.comps[k])
    ensures !SharesPort(m, k)
  {
  }

  /** The port is in use, in that direction, by a component of another lcore than that of `k`,
      which has ports on both sides. */
  ghost predicate UsedAcross(m: Mng, k: nat, p: PortIndex, d: RxTx)
    requires Shape(m) && k < |m.comps|
  {
    exists u: nat :: UsesAcross(m, k, u, p, d)
  }

  ghost predicate UsesAcross(m: Mng, k: nat, u: nat, p: PortIndex, d: RxTx)
    requires Shape(m) && k < |m.comps|
  {
    && u < |m.comps| && u != k && Live(m.comps[u]) && m.comps[u].lcore != m.comps[k].lcore
    && m.comps[u].rx != [] && m.comps[u].tx != [] && p in Ports(m.comps[u], d)
  }

  /** An accepted `port add` makes its component share a port exactly if it did, or if the port
      is in use across lcores. */
  lemma AddSharesIff(m: Mng, p: PortIndex, d: RxTx, name: string, a: Ability)
    requires Managed(m) && PortAdd(m, p, d, name, a).Some?
    ensures GetComponentId(m.comps, name).Some?
    ensures var r, k := PortAdd(m, p, d, name, a).value, GetComponentId(m.comps, name).value;
            Shape(r) && k < |r.comps| && (SharesPort(r, k) <==> SharesPort(m, k) || UsedAcross(m, k, p, d))
  {
    AddedComps(m, p, d, name, a);
    GrownSharesIff(m, PortAdd(m, p, d, name, a).value, GetComponentId(m.comps, name).value, p, d);
  }

  /** Where the decoder makes its check, the port is not in use across lcores. */
  lemma CheckedAddSharesIff(m: Mng, p: PortIndex, d: RxTx, name: string, a: Ability)
    requires Managed(m) && AddAccepted(m, p, d, false) && PortAdd(m, p, d, name, a).Some?
    ensures GetComponentId(m.comps, name).Some?
    ensures var r, k := PortAdd(m, p, d, name, a).value, GetComponentId(m.comps, name).value;
            Shape(r) && k < |r.comps| && (SharesPort(r, k) <==> SharesPort(m, k))
  {
    AddSharesIff(m, p, d, name, a);
    forall u: nat ensures !UsesAcross(m, GetComponentId(m.comps, name).value, u, p, d) {
    }
  }

  lemma GrownSharesIff(m: Mng, r: Mng, k: nat, p: PortIndex, d: RxTx)
    requires Shape(m) && Shape(r) && k < |m.comps| && r.comps == m.comps[k := Grown(m.comps[k], p, d)]
    ensures SharesPort(r, k) <==> SharesPort(m, k) || UsedAcross(m, k, p, d)
  {
    GrownPorts(m.comps[k], p, d);
    forall u: nat, q, e: RxTx
      ensures SharesWith(r, k, u, q, e) <==> SharesWith(m, k, u, q, e) || (q == p && e == d && UsesAcross(m, k, u, p, d))
    {
    }
    if UsedAcross(m, k, p, d) {
      var u: nat :| UsesAcross(m, k, u, p, d);
      assert SharesWith(r, k, u, p, d);
    }
  }
}

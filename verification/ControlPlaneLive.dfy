/** Flushes end: how long the manager spins, and exactly when a command returns. */
module ControlPlaneLive {
  import opened SppTypes
  import opened Management
  import opened ControlPlane
  import opened ControlPlaneSafety

  // ----- Ranks: steps of one worker until it flips the cell waited for -----

  /** Steps of worker `w` to the end of its iteration and through the flip of its list. */
  function CoreRank(s: State, w: nat): int
    requires s.Shape() && w < s.N()
  {
    var n := |s.List(w)|;
    match s.wpc[w]
    case Off => 0
    case FlipCore => 1
    case AtTop => 2
    case Next(i) => 4 * (n - i) + 3
    case TestComp(i, _, _) => 4 * (n - i) + 2
    case FlipComp(i, _, _) => 4 * (n - i) + 1
    case UseComp(i, _, _) => 4 * (n - i)
  }

  /** Steps of worker `w` until it has tested and flipped entry `p` of its list: the rest
      of this iteration up to `p`, or the whole rest and the next iteration up to `p`. */
  function CompRank(s: State, w: nat, p: nat): int
    requires s.Shape() && w < s.N()
  {
    var n := |s.List(w)|;
    match s.wpc[w]
    case Off => 0
    case FlipCore => 0
    case AtTop => 4 * p + 4
    case Next(i) => if i <= p then 4 * (p - i) + 3 else 4 * (n - i) + 4 * p + 5
    case TestComp(i, _, _) => if i <= p then 4 * (p - i) + 2 else 4 * (n - i) + 4 * p + 4
    case FlipComp(i, _, _) => if i <= p then 4 * (p - i) + 1 else 4 * (n - i) + 4 * p + 3
    case UseComp(i, _, _) => if i < p then 4 * (p - i) else 4 * (n - i) + 4 * p + 2
  }

  /** The worker the manager spins for, and how far it is from the flip. */
  function Awaited(s: State): Option<nat>
    requires s.Shape()
  {
    match s.mpc
    case AwaitCore(k) => if k < s.N() && s.m.chgCore[k] && s.core[k].Pending() then Some(k) else None
    case AwaitComp(k) => if k < s.N() && s.CellOf(k, s.IsCls(k)).Pending() then Some(s.m.comps[k].lcore) else None
    case _ => None
  }

  function WaitRank(s: State): int
    requires s.Shape()
  {
    match Awaited(s)
    case None => 0
    case Some(w) =>
      if w >= s.N() then 0
      else if s.mpc.AwaitCore? then CoreRank(s, w)
      else match LastIndex(s.mpc.k, s.List(w)) case None => 0 case Some(p) => CompRank(s, w, p)
  }

  /** The wait is never longer than what is left of the worker's iteration, one index
      check, and (for a component) the next iteration up to that component. */
  lemma WaitRankBound(s: State)
    requires Inv(s) && Awaited(s).Some? && Awaited(s).value < s.N()
    ensures WaitRank(s) <= 8 * |s.List(Awaited(s).value)| + 5
  {
    var w := Awaited(s).value;
    assert AtOk(s, w);
  }

  /** A step of the awaited worker either flips the cell or comes closer to it. */
  lemma AwaitedStep(s: State, w: nat)
    requires Inv(s) && Awaited(s) == Some(w) && w < s.N() && !s.wpc[w].Off?
    ensures WorkEnabled(s, w) && WorkStep(s, w).Shape()
    ensures var s' := WorkStep(s, w);
            s'.mpc == s.mpc && s'.m == s.m && WaitRank(s) > 0
            && (Awaited(s') == None || (Awaited(s') == Some(w) && 0 <= WaitRank(s') < WaitRank(s)))
  {
    WorkInv(s, w);
    if s.mpc.AwaitCore? {
      AwaitedCoreStep(s, w);
    } else {
      AwaitedCompStep(s, w);
    }
  }

  lemma AwaitedCoreStep(s: State, w: nat)
    requires Inv(s) && s.mpc == AwaitCore(w) && Awaited(s) == Some(w) && w < s.N() && !s.wpc[w].Off?
    requires WorkEnabled(s, w) && Inv(WorkStep(s, w))
    ensures var s' := WorkStep(s, w);
            CoreRank(s, w) > 0 && (Awaited(s') == None || 0 <= CoreRank(s', w) < CoreRank(s, w))
  {
    assert AtOk(s, w) && AtOk(WorkStep(s, w), w);
  }

  lemma AwaitedCompStep(s: State, w: nat)
    requires Inv(s) && s.mpc.AwaitComp? && Awaited(s) == Some(w) && w < s.N() && !s.wpc[w].Off?
    requires WorkEnabled(s, w) && Inv(WorkStep(s, w))
    ensures var s' := WorkStep(s, w);
            WaitRank(s) > 0 && (Awaited(s') == None || 0 <= WaitRank(s') < WaitRank(s))
  {
    FlushWaitsForWorkers(s);
    var k := s.mpc.k;
    assert Live(s.m.comps[k]);
    var p := LastIndex(k, s.List(w)).value;
    SettledCore(s, w);
    assert AtOk(s, w);
    RankDrops(s, w, p);
    CompWait(s, w, p);
    var s' := WorkStep(s, w);
    if s'.CellOf(k, s.IsCls(k)).Pending() {
      CompWait(s', w, p);
    }
  }

  lemma CompWait(s: State, w: nat, p: nat)
    requires s.Shape() && s.mpc.AwaitComp? && s.mpc.k < s.N() && s.m.comps[s.mpc.k].lcore == w && w < s.N()
    requires s.CellOf(s.mpc.k, s.IsCls(s.mpc.k)).Pending() && LastIndex(s.mpc.k, s.List(w)) == Some(p)
    ensures Awaited(s) == Some(w) && WaitRank(s) == CompRank(s, w, p)
  {
  }

  /** Once the core lists are done no list is waiting to be flipped. */
  lemma SettledCore(s: State, w: nat)
    requires Inv(s) && s.mpc.AwaitComp? && w < s.N()
    ensures !s.core[w].Pending() && !s.wpc[w].FlipCore?
  {
    assert AtOk(s, w);
  }

  lemma RankDrops(s: State, w: nat, p: nat)
    requires Inv(s) && s.mpc.AwaitComp? && w < s.N() && !s.wpc[w].Off? && WorkEnabled(s, w)
    requires !s.core[w].Pending() && !s.wpc[w].FlipCore? && WorkerOk(s, w)
    requires p < |s.List(w)| && s.List(w)[p] == s.mpc.k && s.mpc.k < s.N() && Live(s.m.comps[s.mpc.k])
    requires s.CellOf(s.mpc.k, s.IsCls(s.mpc.k)).Pending()
    ensures var s' := WorkStep(s, w);
            s'.List(w) == s.List(w) && CompRank(s, w, p) > 0
            && (!s'.CellOf(s.mpc.k, s.IsCls(s.mpc.k)).Pending() || 0 <= CompRank(s', w, p) < CompRank(s, w, p))
  {
  }

  /** Steps of other workers do not touch the wait. */
  lemma OtherStep(s: State, w: nat, v: nat)
    requires Inv(s) && Awaited(s) == Some(w) && w < s.N()
    requires v < s.N() && v != w && !s.wpc[v].Off? && WorkEnabled(s, v)
    ensures WorkStep(s, v).Shape()
    ensures var s' := WorkStep(s, v); s'.mpc == s.mpc && Awaited(s') == Some(w) && WaitRank(s') == WaitRank(s)
  {
    if s.mpc.AwaitComp? {
      FlushWaitsForWorkers(s);
      OtherCompStep(s, w, v);
    }
  }

  lemma OtherCompStep(s: State, w: nat, v: nat)
    requires Inv(s) && s.mpc.AwaitComp? && Awaited(s) == Some(w) && w < s.N()
    requires v < s.N() && v != w && !s.wpc[v].Off? && WorkEnabled(s, v)
    ensures var s' := WorkStep(s, v);
            s'.m == s.m && s'.mpc == s.mpc && s'.List(w) == s.List(w) && s'.wpc[w] == s.wpc[w]
            && s'.CellOf(s.mpc.k, s.IsCls(s.mpc.k)) == s.CellOf(s.mpc.k, s.IsCls(s.mpc.k))
  {
    var k := s.mpc.k;
    assert AtOk(s, v) && AtOk(s, k) && Live(s.m.comps[k]);
    if s.wpc[v].FlipComp? {
      assert s.home[s.wpc[v].id] == v;
    }
  }

  predicate OnlyWork(steps: seq<Step>) {
    forall i :: 0 <= i < |steps| ==> steps[i].Work?
  }

  function StepsOf(w: nat, steps: seq<Step>): nat {
    if steps == [] then 0 else (if steps[0] == Work(w) then 1 else 0) + StepsOf(w, steps[1..])
  }

  /** While the manager spins, whatever the other workers do, the awaited worker takes at
      most `WaitRank` steps before the cell is flipped. */
  lemma {:induction false} WaitIsBounded(s: State, w: nat, steps: seq<Step>)
    requires Inv(s) && Awaited(s) == Some(w) && w < s.N() && !s.wpc[w].Off?
    requires Runs(s, steps) && OnlyWork(steps)
    requires Awaited(After(s, steps)).Some?
    ensures StepsOf(w, steps) < WaitRank(s)
    decreases |steps|
  {
    if steps == [] {
      AwaitedStep(s, w);
    } else {
      var s' := FirstSpin(s, w, steps);
      WaitIsBounded(s', w, steps[1..]);
    }
  }

  lemma FirstSpin(s: State, w: nat, steps: seq<Step>) returns (s': State)
    requires Inv(s) && Awaited(s) == Some(w) && w < s.N() && !s.wpc[w].Off?
    requires Runs(s, steps) && OnlyWork(steps) && steps != [] && Awaited(After(s, steps)).Some?
    ensures Inv(s') && w < s'.N() && !s'.wpc[w].Off? && OnlyWork(steps[1..])
    ensures Runs(s', steps[1..]) && After(s', steps[1..]) == After(s, steps)
    ensures Awaited(s') == Some(w) && WaitRank(s') <= WaitRank(s) - (if steps[0] == Work(w) then 1 else 0)
  {
    var v := FirstWorker(s, steps);
    s' := WorkStep(s, v);
    SpinStep(s, w, v);
    StillAwaited(s', steps[1..]);
  }

  lemma FirstWorker(s: State, steps: seq<Step>) returns (v: nat)
    requires Inv(s) && Runs(s, steps) && OnlyWork(steps) && steps != []
    ensures steps[0] == Work(v) && v < s.N() && !s.wpc[v].Off? && WorkEnabled(s, v) && Inv(WorkStep(s, v))
    ensures OnlyWork(steps[1..]) && Runs(WorkStep(s, v), steps[1..])
    ensures After(s, steps) == After(WorkStep(s, v), steps[1..])
  {
    StepInv(s, steps[0]);
    v := steps[0].w;
  }

  /** What any worker's step does to the wait for `w`. */
  lemma SpinStep(s: State, w: nat, v: nat)
    requires Inv(s) && Awaited(s) == Some(w) && w < s.N() && !s.wpc[w].Off?
    requires v < s.N() && !s.wpc[v].Off? && WorkEnabled(s, v)
    ensures WorkStep(s, v).Shape()
    ensures var s' := WorkStep(s, v);
            Awaited(s') == None || (Awaited(s') == Some(w) && WaitRank(s') <= WaitRank(s) - (if v == w then 1 else 0))
  {
    if v == w {
      AwaitedStep(s, w);
    } else {
      OtherStep(s, w, v);
    }
  }

  /** A flipped cell is not unflipped by any worker. */
  lemma {:induction false} StaysReleased(s: State, steps: seq<Step>)
    requires Inv(s) && Awaited(s) == None && Runs(s, steps) && OnlyWork(steps)
    ensures Awaited(After(s, steps)) == None
    decreases |steps|
  {
    if steps != [] {
      var v := FirstWorker(s, steps);
      ReleasedStep(s, v);
      StaysReleased(WorkStep(s, v), steps[1..]);
    }
  }

  lemma StillAwaited(s: State, steps: seq<Step>)
    requires Inv(s) && Runs(s, steps) && OnlyWork(steps) && Awaited(After(s, steps)).Some?
    ensures Awaited(s).Some?
  {
    if Awaited(s) == None {
      StaysReleased(s, steps);
      assert false;
    }
  }

  lemma ReleasedStep(s: State, v: nat)
    requires s.Shape() && Awaited(s) == None && v < s.N() && !s.wpc[v].Off? && WorkEnabled(s, v)
    requires WorkStep(s, v).Shape()
    ensures Awaited(WorkStep(s, v)) == None
  {
  }

  // ----- Exactly when a start command returns -----

  /** Every lcore with something on its pending list has a worker. */
  ghost predicate Staffed(s: State)
    requires s.Shape()
  {
    forall l: nat :: l < s.N() && s.m.chgCore[l] ==> !s.wpc[l].Off?
  }

  function Phase(pc: Mpc): nat {
    if pc.Ready? || pc.Editing? then 0
    else if pc.PubCore? then 3
    else if pc.AwaitCore? || pc.CopyBack? then 2
    else 1
  }

  function Slot(pc: Mpc): nat {
    if pc.Ready? || pc.Editing? then 0 else pc.k
  }

  function Sub(pc: Mpc): nat {
    match pc
    case NextComp(_) => 4 case FillComp(_) => 3 case PubComp(_) => 2 case AwaitComp(_) => 1
    case AwaitCore(_) => 1
    case _ => 0
  }

  lemma ManageProgress(s: State)
    requires Inv(s) && !s.mpc.Ready? && !s.mpc.Editing? && ManageEnabled(s) && ManageStep(s).Shape()
    ensures var s' := ManageStep(s);
            s'.mpc.Ready? ||
            (&& !s'.mpc.Editing? && Slot(s'.mpc) <= s.N() == s'.N()
             && s'.wpc == s.wpc && s'.m == s.m
             && (Phase(s'.mpc) < Phase(s.mpc)
                 || (Phase(s'.mpc) == Phase(s.mpc) && Slot(s'.mpc) > Slot(s.mpc))
                 || (Phase(s'.mpc) == Phase(s.mpc) && Slot(s'.mpc) == Slot(s.mpc) && Sub(s'.mpc) < Sub(s.mpc))))
  {
  }

  /** The manager is stuck only when it waits for a worker. */
  lemma BlockedAwaits(s: State)
    requires Inv(s) && !s.mpc.Ready? && !s.mpc.Editing? && !ManageEnabled(s)
    ensures Awaited(s).Some?
    ensures Staffed(s) ==> Awaited(s).value < s.N() && !s.wpc[Awaited(s).value].Off?
  {
    FlushWaitsForWorkers(s);
  }

  /** The flush has come closer to its end. */
  predicate Closer(s': State, s: State)
    requires s.Shape() && s'.Shape()
  {
    || Phase(s'.mpc) < Phase(s.mpc)
    || (Phase(s'.mpc) == Phase(s.mpc) && Slot(s'.mpc) > Slot(s.mpc))
    || (s'.mpc == s.mpc && WaitRank(s') < WaitRank(s))
    || (Phase(s'.mpc) == Phase(s.mpc) && Slot(s'.mpc) == Slot(s.mpc) && Sub(s'.mpc) < Sub(s.mpc))
  }

  /** In every state of a staffed flush some step brings it closer to its end. */
  lemma FlushStep(s: State) returns (step: Step)
    requires Inv(s) && !s.mpc.Ready? && !s.mpc.Editing? && Staffed(s)
    ensures Enabled(s, step) && !step.Command? && Inv(Apply(s, step))
    ensures var s' := Apply(s, step);
            s'.mpc.Ready? ||
            (!s'.mpc.Editing? && Staffed(s') && s'.N() == s.N() && Slot(s'.mpc) <= s.N()
             && (s'.mpc == s.mpc ==> WaitRank(s) > 0) && Closer(s', s))
  {
    if ManageEnabled(s) {
      step := Manage;
      StepInv(s, Manage);
      ManageProgress(s);
    } else {
      BlockedAwaits(s);
      var w := Awaited(s).value;
      step := Work(w);
      AwaitedStep(s, w);
      StepInv(s, Work(w));
    }
  }

  /** From any state of a flush the command can be completed, by the workers simply going
      on with their iterations. */
  lemma {:induction false} FlushCompletes(s: State) returns (steps: seq<Step>)
    requires Inv(s) && !s.mpc.Ready? && !s.mpc.Editing? && Staffed(s)
    ensures Runs(s, steps) && NoCommand(steps) && After(s, steps).mpc.Ready?
    decreases Phase(s.mpc), s.N() + 1 - Slot(s.mpc), Sub(s.mpc), WaitRank(s)
  {
    var step := FlushStep(s);
    var s' := Apply(s, step);
    if s'.mpc.Ready? {
      steps := [];
    } else {
      steps := FlushCompletes(s');
    }
    RunCons(s, step, steps);
    steps := [step] + steps;
  }

  /** An lcore without a worker has something to run: the flush never ends. */
  lemma {:induction false} UnstaffedHangs(s: State, l: nat, steps: seq<Step>)
    requires Inv(s) && !s.mpc.Ready? && !s.mpc.Editing?
    requires l < s.N() && s.wpc[l].Off? && s.m.pend[l] != []
    requires Runs(s, steps) && NoCommand(steps)
    ensures !After(s, steps).mpc.Ready?
    decreases |steps|
  {
    if steps != [] {
      assert AtOk(s, l);
      StepInv(s, steps[0]);
      assert NoCommand(steps[1..]);
      UnstaffedHangs(Apply(s, steps[0]), l, steps[1..]);
    }
  }

  /** An accepted `component start` ever returns exactly when the lcore has a worker.  The
      main lcore has none, yet its status lets the command through. */
  lemma StartReturnsIff(s: State, name: string, lcore: nat, typ: CompType)
    requires Inv(s) && s.mpc == Editing(StartComp(name, lcore, typ))
    requires Start(s.m, name, lcore, typ).Some?
    ensures (exists steps :: Runs(s, steps) && NoCommand(steps) && After(s, steps).mpc.Ready?)
            <==> !s.wpc[lcore].Off?
  {
    if s.wpc[lcore].Off? {
      forall steps | Runs(s, steps) && NoCommand(steps) ensures !After(s, steps).mpc.Ready? {
        UnstaffedStart(s, name, lcore, typ, steps);
      }
    } else {
      var steps := StaffedStart(s, name, lcore, typ);
    }
  }

  lemma StaffedStart(s: State, name: string, lcore: nat, typ: CompType) returns (steps: seq<Step>)
    requires Inv(s) && s.mpc == Editing(StartComp(name, lcore, typ))
    requires Start(s.m, name, lcore, typ).Some? && !s.wpc[lcore].Off?
    ensures Runs(s, steps) && NoCommand(steps) && After(s, steps).mpc.Ready?
  {
    EditPending(s);
    StepInv(s, Manage);
    var rest := FlushCompletes(Apply(s, Manage));
    RunCons(s, Manage, rest);
    steps := [Manage] + rest;
  }

  lemma {:induction false} UnstaffedStart(s: State, name: string, lcore: nat, typ: CompType, steps: seq<Step>)
    requires Inv(s) && s.mpc == Editing(StartComp(name, lcore, typ))
    requires Start(s.m, name, lcore, typ).Some? && s.wpc[lcore].Off?
    requires Runs(s, steps) && NoCommand(steps)
    ensures !After(s, steps).mpc.Ready?
    decreases |steps|
  {
    if steps != [] {
      StepInv(s, steps[0]);
      var s1 := Apply(s, steps[0]);
      assert NoCommand(steps[1..]);
      if steps[0].Manage? {
        EditPending(s);
        UnstaffedHangs(s1, lcore, steps[1..]);
      } else {
        UnstaffedStart(s1, name, lcore, typ, steps[1..]);
      }
    }
  }

  /** Which lcores can be named in a start and which run a worker does not change. */
  ghost predicate Lcores(s: State, workers: set<nat>, main: nat)
    requires s.Shape()
  {
    forall l: nat :: l < s.N() ==> (s.m.usable[l] <==> l in workers || l == main) && (s.wpc[l].Off? <==> l !in workers)
  }

  lemma LcoresStep(s: State, step: Step, workers: set<nat>, main: nat)
    requires s.Shape() && Lcores(s, workers, main) && Enabled(s, step) && Apply(s, step).Shape()
    ensures Lcores(Apply(s, step), workers, main)
  {
    if step.Manage? && s.mpc.Editing? && Execute(s.m.(pend := s.PendingLists()), s.mpc.cmd).Some? {
      SameUsable(s.m.(pend := s.PendingLists()), s.mpc.cmd);
    }
  }

  lemma SameUsable(m: Mng, cmd: Management.Command)
    requires Management.Shape(m) && Execute(m, cmd).Some?
    ensures Execute(m, cmd).value.usable == m.usable
  {
  }

  lemma {:induction false} LcoresRun(s: State, steps: seq<Step>, workers: set<nat>, main: nat)
    requires Inv(s) && Lcores(s, workers, main) && Runs(s, steps)
    ensures Inv(After(s, steps)) && Lcores(After(s, steps), workers, main)
    decreases |steps|
  {
    if steps != [] {
      StepInv(s, steps[0]);
      LcoresStep(s, steps[0], workers, main);
      LcoresRun(Apply(s, steps[0]), steps[1..], workers, main);
    }
  }

  /** After every run from process start, an accepted start can return exactly if it does not name
      the main lcore. */
  lemma StartHangsIffMain(n: nat, workers: set<nat>, main: nat, maxPorts: nat, phys: set<PortIndex>, run: seq<Step>,
                          name: string, lcore: nat, typ: CompType)
    requires main !in workers && Start0(n, workers, main, maxPorts, phys).Shape()
    requires Runs(Start0(n, workers, main, maxPorts, phys), run)
    requires var s := After(Start0(n, workers, main, maxPorts, phys), run);
             s.mpc == Editing(StartComp(name, lcore, typ)) && Start(s.m, name, lcore, typ).Some?
    ensures var s := After(Start0(n, workers, main, maxPorts, phys), run);
            (exists steps :: Runs(s, steps) && NoCommand(steps) && After(s, steps).mpc.Ready?) <==> lcore != main
  {
    StartInv(n, workers, main, maxPorts, phys);
    LcoresRun(Start0(n, workers, main, maxPorts, phys), run, workers, main);
    StartReturnsIff(After(Start0(n, workers, main, maxPorts, phys), run), name, lcore, typ);
  }
}

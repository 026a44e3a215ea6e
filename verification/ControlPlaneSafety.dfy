/** What the invariant of ControlPlane gives: no worker reads an area the manager is
    writing, no component is run by two workers, a stopped component is run by none once
    its command is done, and every worker moves packets by the configured image. */
module ControlPlaneSafety {
  import opened SppTypes
  import opened Management
  import opened ControlPlane
  import H = Handover

  // ----- Reading and writing areas -----

  predicate WritesCore(s: State, l: nat, u: nat)
    requires s.Shape() && l < s.N()
  {
    (s.mpc.Editing? || s.mpc == CopyBack(l)) && u == s.core[l].upd
  }

  /** From the test on to the end of the iteration the worker follows its list. */
  predicate ReadsCore(s: State, l: nat, u: nat)
    requires s.Shape() && l < s.N()
  {
    (s.wpc[l].Next? || s.wpc[l].TestComp? || s.wpc[l].FlipComp? || s.wpc[l].UseComp?) && u == s.core[l].ref
  }

  predicate WritesComp(s: State, id: nat, cls: bool, u: nat)
    requires s.Shape() && id < s.N()
  {
    ((s.mpc == FillComp(id) && cls == s.IsCls(id)) || (s.mpc == EraseComp(id) && cls))
    && u == s.CellOf(id, cls).upd
  }

  /** A classifier also reads the old table between test and flip, to empty its buffers. */
  predicate ReadsComp(s: State, w: nat, id: nat, cls: bool, u: nat)
    requires s.Shape() && w < s.N() && id < s.N()
  {
    && (s.wpc[w].UseComp? || (s.wpc[w].FlipComp? && cls))
    && s.wpc[w].id == id && s.wpc[w].cls == cls
    && u == s.CellOf(id, cls).ref
  }

  lemma CoreRaceFree(s: State, l: nat, u: nat)
    requires Inv(s) && l < s.N()
    ensures !(WritesCore(s, l, u) && ReadsCore(s, l, u))
  {
    assert AtOk(s, l);
  }

  lemma PathRaceFree(s: State, w: nat, id: nat, u: nat)
    requires Inv(s) && w < s.N() && id < s.N()
    ensures !(WritesComp(s, id, false, u) && ReadsComp(s, w, id, false, u))
  {
    assert AtOk(s, id);
  }

  /** From the start of the process, in every interleaving of commands, manager and workers:
      no core list, no copy-back and no path is written where a worker reads. */
  lemma RunRaceFree(n: nat, workers: set<nat>, main: nat, maxPorts: nat, phys: set<PortIndex>, steps: seq<Step>,
                    w: nat, id: nat, u: nat)
    requires Start0(n, workers, main, maxPorts, phys).Shape() && w < n && id < n
    requires Runs(Start0(n, workers, main, maxPorts, phys), steps)
    ensures var e := After(Start0(n, workers, main, maxPorts, phys), steps);
            && e.N() == n
            && !(WritesCore(e, w, u) && ReadsCore(e, w, u))
            && !(WritesComp(e, id, false, u) && ReadsComp(e, w, id, false, u))
  {
    StartInv(n, workers, main, maxPorts, phys);
    RunInv(Start0(n, workers, main, maxPorts, phys), steps);
    SameSize(Start0(n, workers, main, maxPorts, phys), steps);
    var e := After(Start0(n, workers, main, maxPorts, phys), steps);
    CoreRaceFree(e, w, u);
    PathRaceFree(e, w, id, u);
  }

  lemma {:induction false} SameSize(s: State, steps: seq<Step>)
    requires Inv(s) && Runs(s, steps)
    ensures After(s, steps).N() == s.N()
    decreases |steps|
  {
    if steps != [] {
      StepInv(s, steps[0]);
      SameSize(Apply(s, steps[0]), steps[1..]);
    }
  }

  /** A classifier table can be read while it is written only during its first handover,
      with the indices still equal. */
  lemma TableRaceOnlyFirst(s: State, w: nat, id: nat, u: nat)
    requires Inv(s) && w < s.N() && id < s.N()
    requires WritesComp(s, id, true, u) && ReadsComp(s, w, id, true, u)
    ensures s.mpc == FillComp(id) && s.tab[id].Pending() && s.tab[id].area == [BLANK, BLANK]
  {
    assert AtOk(s, id) && AtOk(s, w);
  }

  /** The table has been flipped at least once; it stays so. */
  predicate TableSettled(s: State, id: nat)
    requires s.Shape() && id < s.N()
  {
    !s.tab[id].Pending() || Handing(s, id)
  }

  lemma TableSettledManage(s: State, id: nat)
    requires Inv(s) && ManageEnabled(s) && id < s.N() && TableSettled(s, id)
    ensures ManageStep(s).Shape() && TableSettled(ManageStep(s), id)
  {
    StepInv(s, Manage);
    assert AtOk(s, id);
  }

  lemma TableSettledWork(s: State, w: nat, id: nat)
    requires Inv(s) && Enabled(s, Work(w)) && id < s.N() && TableSettled(s, id)
    ensures WorkStep(s, w).Shape() && TableSettled(WorkStep(s, w), id)
  {
    StepInv(s, Work(w));
    assert AtOk(s, id) && AtOk(s, w);
  }

  lemma TableSettledStep(s: State, step: Step, id: nat)
    requires Inv(s) && Enabled(s, step) && id < s.N() && TableSettled(s, id)
    ensures Apply(s, step).Shape() && TableSettled(Apply(s, step), id)
  {
    if step.Work? {
      TableSettledWork(s, step.w, id);
    } else if step.Manage? {
      TableSettledManage(s, id);
    } else {
      StepInv(s, step);
    }
  }

  /** From then on, over every run, it is never read while it is written. */
  lemma {:induction false} TableRaceFree(s: State, steps: seq<Step>, w: nat, id: nat, u: nat)
    requires Inv(s) && Runs(s, steps) && id < s.N() && w < s.N() && TableSettled(s, id)
    ensures var e := After(s, steps);
            e.N() == s.N() && !(WritesComp(e, id, true, u) && ReadsComp(e, w, id, true, u))
    decreases |steps|
  {
    if steps == [] {
      if WritesComp(s, id, true, u) && ReadsComp(s, w, id, true, u) {
        TableRaceOnlyFirst(s, w, id, u);
        assert false;
      }
    } else {
      StepInv(s, steps[0]);
      TableSettledStep(s, steps[0], id);
      TableRaceFree(Apply(s, steps[0]), steps[1..], w, id, u);
    }
  }

  /** The first handover of a table really can meet its worker: right after the core list
      has been flipped, manager and worker reach the new classifier together. */
  lemma FirstTableRace()
    ensures var s := Start0(2, {1}, 0, 1, {});
            s.Shape() && Runs(s, RaceRun()) && var e := After(s, RaceRun());
            e.N() == 2 && WritesComp(e, 0, true, e.tab[0].upd) && ReadsComp(e, 1, 0, true, e.tab[0].upd)
  {
    RaceRun4();
    RaceRun3();
    RaceRun2();
    RaceRun1();
  }

  /** Lcore 0 is the main lcore, lcore 1 has a worker; classifier 0 is started on lcore 1. */
  function RaceRun(): seq<Step> {
    [Command(StartComp("c", 1, ClassifierMac)), Manage] + RaceTail1()
  }
  function RaceTail1(): seq<Step> { [Manage, Manage, Manage] + RaceTail2() }
  function RaceTail2(): seq<Step> { [Work(1), Work(1), Manage, Manage, Manage] + RaceTail3() }
  function RaceTail3(): seq<Step> { [Manage, Manage, Work(1), Work(1)] }

  function RaceState(c: H.Cell<seq<nat>>, w: Wpc, mpc: Mpc): State {
    State(
      Init(2, [true, true], 1, {}).(
        comps := [Component("c", ClassifierMac, 1, 0, [], []), NO_COMPONENT.(id := 1)],
        pend := [[], [0]], chgComp := [true, false], chgCore := [false, true]),
      [H.Cell(0, 1, [[], []]), c],
      [H.Cell(0, 1, [BLANK, BLANK]), H.Cell(0, 1, [BLANK, BLANK])],
      [H.Cell(0, 0, [BLANK, BLANK]), H.Cell(0, 0, [BLANK, BLANK])],
      [Off, w], mpc, [1, 0])
  }

  ghost predicate RacesBy(s: State, steps: seq<Step>) {
    && s.Shape() && Runs(s, steps)
    && After(s, steps) == RaceState(H.Cell(1, 0, [[0], [0]]), FlipComp(0, 0, true), FillComp(0))
  }

  lemma RaceCons(s: State, step: Step, t: State, steps: seq<Step>)
    requires s.Shape() && Enabled(s, step) && Apply(s, step) == t && RacesBy(t, steps)
    ensures RacesBy(s, [step] + steps)
  {
    RunCons(s, step, steps);
  }

  lemma RaceRun4()
    ensures RacesBy(RaceState(H.Cell(1, 0, [[0], [0]]), Next(0), AwaitCore(2)), RaceTail3())
  {
    var c := H.Cell(1, 0, [[0], [0]]);
    var e := RaceState(c, FlipComp(0, 0, true), FillComp(0));
    assert RacesBy(e, []);
    RaceCons(RaceState(c, TestComp(0, 0, true), FillComp(0)), Work(1), e, []);
    RaceCons(RaceState(c, Next(0), FillComp(0)), Work(1), RaceState(c, TestComp(0, 0, true), FillComp(0)), [Work(1)] + []);
    RaceCons(RaceState(c, Next(0), NextComp(0)), Manage, RaceState(c, Next(0), FillComp(0)), [Work(1)] + ([Work(1)] + []));
    RaceCons(RaceState(c, Next(0), AwaitCore(2)), Manage, RaceState(c, Next(0), NextComp(0)), [Manage] + ([Work(1)] + ([Work(1)] + [])));
    assert [Manage] + ([Manage] + ([Work(1)] + ([Work(1)] + []))) == RaceTail3();
  }

  lemma RaceRun3()
    requires RacesBy(RaceState(H.Cell(1, 0, [[0], [0]]), Next(0), AwaitCore(2)), RaceTail3())
    ensures RacesBy(RaceState(H.Cell(0, 0, [[], [0]]), AtTop, AwaitCore(0)), RaceTail2())
  {
    RaceRun3a();
    var c := H.Cell(0, 0, [[], [0]]);
    var t := [Manage, Manage, Manage] + RaceTail3();
    RaceCons(RaceState(c, AtTop, AwaitCore(0)), Work(1), RaceState(c, FlipCore, AwaitCore(0)), [Work(1)] + t);
    assert [Work(1)] + ([Work(1)] + t) == RaceTail2();
  }

  lemma RaceRun3a()
    requires RacesBy(RaceState(H.Cell(1, 0, [[0], [0]]), Next(0), AwaitCore(2)), RaceTail3())
    ensures RacesBy(RaceState(H.Cell(0, 0, [[], [0]]), FlipCore, AwaitCore(0)),
                    [Work(1)] + ([Manage, Manage, Manage] + RaceTail3()))
  {
    RaceRun3b();
    var c, d := H.Cell(0, 0, [[], [0]]), H.Cell(1, 0, [[], [0]]);
    var t := [Manage, Manage, Manage] + RaceTail3();
    RaceCons(RaceState(c, FlipCore, AwaitCore(0)), Work(1), RaceState(d, Next(0), AwaitCore(0)), t);
  }

  lemma RaceRun3b()
    requires RacesBy(RaceState(H.Cell(1, 0, [[0], [0]]), Next(0), AwaitCore(2)), RaceTail3())
    ensures RacesBy(RaceState(H.Cell(1, 0, [[], [0]]), Next(0), AwaitCore(0)), [Manage, Manage, Manage] + RaceTail3())
  {
    var d := H.Cell(1, 0, [[], [0]]);
    var t := RaceTail3();
    RaceRun3c();
    RaceCons(RaceState(d, Next(0), AwaitCore(0)), Manage, RaceState(d, Next(0), AwaitCore(1)), [Manage] + ([Manage] + t));
    assert [Manage] + ([Manage] + ([Manage] + t)) == [Manage, Manage, Manage] + t;
  }

  lemma RaceRun3c()
    requires RacesBy(RaceState(H.Cell(1, 0, [[0], [0]]), Next(0), AwaitCore(2)), RaceTail3())
    ensures RacesBy(RaceState(H.Cell(1, 0, [[], [0]]), Next(0), AwaitCore(1)), [Manage] + ([Manage] + RaceTail3()))
  {
    var d := H.Cell(1, 0, [[], [0]]);
    var t := RaceTail3();
    RaceCopyBack();
    RaceCons(RaceState(d, Next(0), CopyBack(1)), Manage, RaceState(H.Cell(1, 0, [[0], [0]]), Next(0), AwaitCore(2)), t);
    RaceCons(RaceState(d, Next(0), AwaitCore(1)), Manage, RaceState(d, Next(0), CopyBack(1)), [Manage] + t);
  }

  lemma RaceCopyBack()
    ensures var s := RaceState(H.Cell(1, 0, [[], [0]]), Next(0), CopyBack(1));
            s.Shape() && ManageStep(s) == RaceState(H.Cell(1, 0, [[0], [0]]), Next(0), AwaitCore(2))
  {
    var back := ManageStep(RaceState(H.Cell(1, 0, [[], [0]]), Next(0), CopyBack(1)));
    assert back.core[1].area == [[0], [0]];
    assert back.core == RaceState(H.Cell(1, 0, [[0], [0]]), Next(0), AwaitCore(2)).core;
  }

  lemma RaceRun2()
    requires RacesBy(RaceState(H.Cell(0, 0, [[], [0]]), AtTop, AwaitCore(0)), RaceTail2())
    ensures RacesBy(RaceState(H.Cell(0, 1, [[], [0]]), AtTop, PubCore(0)), RaceTail1())
  {
    var b, c := H.Cell(0, 1, [[], [0]]), H.Cell(0, 0, [[], [0]]);
    var t := RaceTail2();
    RaceRun2b();
    RaceCons(RaceState(b, AtTop, PubCore(0)), Manage, RaceState(b, AtTop, PubCore(1)), [Manage] + ([Manage] + t));
    assert [Manage] + ([Manage] + ([Manage] + t)) == RaceTail1();
  }

  lemma RaceRun2b()
    requires RacesBy(RaceState(H.Cell(0, 0, [[], [0]]), AtTop, AwaitCore(0)), RaceTail2())
    ensures RacesBy(RaceState(H.Cell(0, 1, [[], [0]]), AtTop, PubCore(1)), [Manage] + ([Manage] + RaceTail2()))
  {
    var b, c := H.Cell(0, 1, [[], [0]]), H.Cell(0, 0, [[], [0]]);
    var t := RaceTail2();
    RaceRun2c();
    RacePublish();
    RaceCons(RaceState(b, AtTop, PubCore(1)), Manage, RaceState(c, AtTop, PubCore(2)), [Manage] + t);
  }

  lemma RacePublish()
    ensures var s := RaceState(H.Cell(0, 1, [[], [0]]), AtTop, PubCore(1));
            s.Shape() && ManageStep(s) == RaceState(H.Cell(0, 0, [[], [0]]), AtTop, PubCore(2))
  {
    var s := RaceState(H.Cell(0, 1, [[], [0]]), AtTop, PubCore(1));
    assert ManageStep(s).core == RaceState(H.Cell(0, 0, [[], [0]]), AtTop, PubCore(2)).core;
  }

  lemma RaceRun2c()
    requires RacesBy(RaceState(H.Cell(0, 0, [[], [0]]), AtTop, AwaitCore(0)), RaceTail2())
    ensures RacesBy(RaceState(H.Cell(0, 0, [[], [0]]), AtTop, PubCore(2)), [Manage] + RaceTail2())
  {
    var c := H.Cell(0, 0, [[], [0]]);
    RaceCons(RaceState(c, AtTop, PubCore(2)), Manage, RaceState(c, AtTop, AwaitCore(0)), RaceTail2());
  }

  lemma RaceRun1()
    requires RacesBy(RaceState(H.Cell(0, 1, [[], [0]]), AtTop, PubCore(0)), RaceTail1())
    ensures RacesBy(Start0(2, {1}, 0, 1, {}), RaceRun())
  {
    RaceRun1a();
    RaceRunIs();
  }

  lemma RaceRunIs()
    ensures RaceRun() == [Command(StartComp("c", 1, ClassifierMac))] + ([Manage] + RaceTail1())
  {
  }

  lemma RaceRun1a()
    requires RacesBy(RaceState(H.Cell(0, 1, [[], [0]]), AtTop, PubCore(0)), RaceTail1())
    ensures RacesBy(Start0(2, {1}, 0, 1, {}),
                    [Command(StartComp("c", 1, ClassifierMac))] + ([Manage] + RaceTail1()))
  {
    var s0 := Start0(2, {1}, 0, 1, {});
    var cmd := StartComp("c", 1, ClassifierMac);
    RaceRun1b();
    RaceCons(s0, Command(cmd), s0.(mpc := Editing(cmd)), [Manage] + RaceTail1());
  }

  lemma RaceRun1b()
    requires RacesBy(RaceState(H.Cell(0, 1, [[], [0]]), AtTop, PubCore(0)), RaceTail1())
    ensures RacesBy(Start0(2, {1}, 0, 1, {}).(mpc := Editing(StartComp("c", 1, ClassifierMac))), [Manage] + RaceTail1())
  {
    var s1 := Start0(2, {1}, 0, 1, {}).(mpc := Editing(StartComp("c", 1, ClassifierMac)));
    RaceEdit();
    RaceCons(s1, Manage, RaceState(H.Cell(0, 1, [[], [0]]), AtTop, PubCore(0)), RaceTail1());
  }

  lemma RaceEdit()
    ensures var s1 := Start0(2, {1}, 0, 1, {}).(mpc := Editing(StartComp("c", 1, ClassifierMac)));
            s1.Shape() && ManageStep(s1) == RaceState(H.Cell(0, 1, [[], [0]]), AtTop, PubCore(0))
  {
    var s1 := Start0(2, {1}, 0, 1, {}).(mpc := Editing(StartComp("c", 1, ClassifierMac)));
    assert s1.PendingLists() == [[], []];
    var m := s1.m.(pend := s1.PendingLists());
    assert m == s1.m;
    assert FindName(m.comps, "c", 0) == FindName(m.comps, "c", 1) == None;
    assert FindFree(m.comps, 0) == Some(0);
    var m' := Start(m, "c", 1, ClassifierMac).value;
    var r := RaceState(H.Cell(0, 1, [[], [0]]), AtTop, PubCore(0));
    assert m.pend[1] + [0] == [0];
    assert m'.comps == r.m.comps && m'.pend == r.m.pend && m'.usable == r.m.usable;
    assert m'.chgCore == r.m.chgCore && m'.chgComp == r.m.chgComp;
    var e := ManageStep(s1);
    assert e.core[0] == r.core[0] && e.core[1].area == r.core[1].area;
    assert e.core == r.core && e.path == r.path && e.tab == r.tab && e.wpc == r.wpc && e.home == r.home;
  }

  lemma RunCons(s: State, step: Step, steps: seq<Step>)
    requires s.Shape() && Enabled(s, step)
    requires Apply(s, step).Shape() && Runs(Apply(s, step), steps)
    ensures Runs(s, [step] + steps) && After(s, [step] + steps) == After(Apply(s, step), steps)
  {
    assert ([step] + steps)[1..] == steps;
  }

  // ----- Who runs what -----

  /** The worker of `w` is busy with component `id`. */
  predicate Running(s: State, w: nat, id: nat)
    requires s.Shape() && w < s.N()
  {
    (s.wpc[w].TestComp? || s.wpc[w].FlipComp? || s.wpc[w].UseComp?) && s.wpc[w].id == id
  }

  /** At every moment of every run, at most one worker runs a component. */
  lemma AtMostOneWorker(s: State, w: nat, v: nat, id: nat)
    requires Inv(s) && w < s.N() && v < s.N() && Running(s, w, id) && Running(s, v, id)
    ensures w == v
  {
    if w != v {
      DifferentIds(s, w, v);
    }
  }

  /** Between commands, whatever runs is live and runs on its own lcore. */
  lemma OnlyLiveRun(s: State, w: nat, id: nat)
    requires Inv(s) && s.mpc.Ready? && w < s.N() && Running(s, w, id)
    ensures id < s.N() && Live(s.m.comps[id]) && s.m.comps[id].lcore == w
  {
    assert AtOk(s, w);
    assert s.m.pend[w][s.wpc[w].i] == id;
  }

  predicate NoCommand(steps: seq<Step>) {
    forall i :: 0 <= i < |steps| ==> !steps[i].Command?
  }

  /** A flush leaves the components as the edit left them. */
  lemma {:induction false} FlushKeepsComps(s: State, steps: seq<Step>)
    requires Inv(s) && !s.mpc.Ready? && !s.mpc.Editing? && Runs(s, steps) && NoCommand(steps)
    ensures After(s, steps).m.comps == s.m.comps
    decreases |steps|
  {
    if steps != [] {
      StepInv(s, steps[0]);
      var s' := Apply(s, steps[0]);
      assert s'.m.comps == s.m.comps;
      assert NoCommand(steps[1..]);
      if s'.mpc.Ready? {
        ReadyKeepsComps(s', steps[1..]);
      } else {
        FlushKeepsComps(s', steps[1..]);
      }
    }
  }

  lemma {:induction false} ReadyKeepsComps(s: State, steps: seq<Step>)
    requires Inv(s) && s.mpc.Ready? && Runs(s, steps) && NoCommand(steps)
    ensures After(s, steps).m.comps == s.m.comps && After(s, steps).mpc.Ready?
    decreases |steps|
  {
    if steps != [] {
      StepInv(s, steps[0]);
      assert NoCommand(steps[1..]);
      ReadyKeepsComps(Apply(s, steps[0]), steps[1..]);
    }
  }

  /** When a stop command is done, no worker runs the component it stopped. */
  lemma StoppedIsNotRun(s: State, name: string, steps: seq<Step>, w: nat)
    requires Inv(s) && s.mpc == Editing(StopComp(name)) && GetComponentId(s.m.comps, name).Some?
    requires Runs(s, [Manage] + steps) && NoCommand(steps) && After(s, [Manage] + steps).mpc.Ready?
    requires w < s.N()
    ensures var id := GetComponentId(s.m.comps, name).value;
            var e := After(s, [Manage] + steps);
            e.N() == s.N() && !Live(e.m.comps[id]) && !Running(e, w, id)
  {
    var id := GetComponentId(s.m.comps, name).value;
    EditPending(s);
    FoundIsLive(s.m, name);
    StepInv(s, Manage);
    assert ([Manage] + steps)[1..] == steps;
    var s1 := Apply(s, Manage);
    FlushKeepsComps(s1, steps);
    RunInv(s, [Manage] + steps);
    var e := After(s, [Manage] + steps);
    if Running(e, w, id) {
      OnlyLiveRun(e, w, id);
      assert false;
    }
  }

  /** A flush spins only on a list whose lcore has a worker, the main lcore aside, and
      only on a component that is on the active list of a worker. */
  lemma FlushWaitsForWorkers(s: State)
    requires Inv(s)
    ensures s.mpc.AwaitComp? ==>
              var k := s.mpc.k; var l := s.m.comps[k].lcore;
              k < s.N() && l < s.N() && !s.wpc[l].Off? && k in s.List(l)
    ensures s.mpc.AwaitCore? && s.mpc.k < s.N() && s.m.chgCore[s.mpc.k] && s.wpc[s.mpc.k].Off? ==>
              s.core[s.mpc.k].Pending()
  {
    if s.mpc.AwaitComp? {
      var l := s.m.comps[s.mpc.k].lcore;
      assert Live(s.m.comps[s.mpc.k]);
      assert AtOk(s, l);
    }
    if s.mpc.AwaitCore? && s.mpc.k < s.N() {
      assert AtOk(s, s.mpc.k);
    }
  }
}

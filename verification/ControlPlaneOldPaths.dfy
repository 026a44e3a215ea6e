/** What a worker runs for a component that has no path of its own: a stopped classifier, whose
    zeroed type sends the worker to the forwarder's branch, and a forwarder just started, before
    its first flush.  In both cases it is the path an earlier component of that number left. */
module ControlPlaneOldPaths {
  import opened SppTypes
  import opened Management
  import opened ControlPlane
  import opened ControlPlaneSafety
  import H = Handover

  /** The worker of lcore `w` moves packets for component `id` along path `a`. */
  ghost predicate MovesAlong(s: State, w: nat, id: nat, a: Image)
    requires s.Shape()
  {
    && w < s.N() && id < s.N() && s.wpc[w].UseComp? && s.wpc[w].id == id && !s.wpc[w].cls
    && s.path[id].Active() == a && Carries(a)
  }

  // ----- Paths nobody touches -----

  /** The component is a live forwarder or merger. */
  predicate OnPath(s: State, id: nat)
    requires s.Shape() && id < s.N()
  {
    Live(s.m.comps[id]) && !s.IsCls(id)
  }

  lemma StepKeepsPath(s: State, step: Step, id: nat)
    requires Inv(s) && Enabled(s, step) && id < s.N() && !OnPath(s, id)
    ensures Apply(s, step).Shape() && Apply(s, step).N() == s.N() && Apply(s, step).path[id] == s.path[id]
  {
    ApplyShape(s, step);
    assert AtOk(s, id);
    if step.Work? {
      assert AtOk(s, step.w);
    }
  }

  /** While the number belongs to no forwarder or merger, its path stays what it was. */
  ghost predicate OffPath(s: State, steps: seq<Step>, id: nat)
    requires s.Shape() && Runs(s, steps) && id < s.N()
    decreases |steps|
  {
    steps == [] ||
    (!OnPath(s, id)
     && (ApplyShape(s, steps[0]); SameCount(s, steps[0]); OffPath(Apply(s, steps[0]), steps[1..], id)))
  }

  lemma SameCount(s: State, step: Step)
    requires s.Shape() && Enabled(s, step)
    ensures Apply(s, step).N() == s.N()
  {
  }

  lemma {:induction false} RunKeepsPath(s: State, steps: seq<Step>, id: nat)
    requires Inv(s) && id < s.N() && Runs(s, steps) && OffPath(s, steps, id)
    ensures After(s, steps).N() == s.N() && After(s, steps).path[id] == s.path[id]
    decreases |steps|
  {
    if steps != [] {
      StepInv(s, steps[0]);
      StepKeepsPath(s, steps[0], id);
      RunKeepsPath(Apply(s, steps[0]), steps[1..], id);
    }
  }

  // ----- Driving a worker -----

  /** Steps of worker `w` to entry `i` of its list, by way of the top of its loop if it is past it. */
  function Distance(s: State, w: nat, i: nat): int
    requires s.Shape() && w < s.N()
  {
    var n := |s.List(w)|;
    match s.wpc[w]
    case Off => 0
    case FlipCore => 0
    case AtTop => 4 * i + 1
    case Next(j) => if j <= i then 4 * (i - j) else 4 * (n - j) + 4 * i + 2
    case TestComp(j, _, _) => if j < i then 4 * (i - j) - 1 else 4 * (n - j) + 4 * i + 1
    case FlipComp(j, _, _) => if j < i then 4 * (i - j) - 2 else 4 * (n - j) + 4 * i
    case UseComp(j, _, _) => if j < i then 4 * (i - j) - 3 else 4 * (n - j) + 4 * i - 1
  }

  lemma DriveStep(s: State, w: nat, i: nat)
    requires Inv(s) && w < s.N() && !s.wpc[w].Off? && !s.core[w].Pending() && i <= |s.List(w)| && s.wpc[w] != Next(i)
    ensures WorkEnabled(s, w)
    ensures var e := WorkStep(s, w);
            && Inv(e) && e.N() == s.N() && e.m == s.m && e.mpc == s.mpc && e.core == s.core && !e.wpc[w].Off?
            && (forall id :: 0 <= id < s.N() && !s.path[id].Pending() ==> e.path[id] == s.path[id])
            && 0 <= Distance(e, w, i) < Distance(s, w, i)
  {
    assert AtOk(s, w);
    WorkInv(s, w);
    assert AtOk(WorkStep(s, w), w);
  }

  /** The worker alone comes to entry `i` of its list. */
  lemma {:induction false} Drive(s: State, w: nat, i: nat) returns (steps: seq<Step>)
    requires Inv(s) && w < s.N() && !s.wpc[w].Off? && !s.core[w].Pending() && i <= |s.List(w)| && Distance(s, w, i) >= 0
    ensures Runs(s, steps) && NoCommand(steps)
    ensures var e := After(s, steps);
            && Inv(e) && e.N() == s.N() && e.m == s.m && e.mpc == s.mpc && e.core == s.core && e.wpc[w] == Next(i)
            && forall id :: 0 <= id < s.N() && !s.path[id].Pending() ==> e.path[id] == s.path[id]
    decreases Distance(s, w, i)
  {
    if s.wpc[w] == Next(i) {
      steps := [];
    } else {
      DriveStep(s, w, i);
      var rest := Drive(WorkStep(s, w), w, i);
      RunCons(s, Work(w), rest);
      steps := [Work(w)] + rest;
    }
  }

  lemma DistanceKnown(s: State, w: nat, i: nat)
    requires Inv(s) && w < s.N() && i <= |s.List(w)|
    ensures Distance(s, w, i) >= 0
  {
    assert AtOk(s, w);
  }

  lemma RunsOn(s: State, a: seq<Step>, b: seq<Step>)
    requires s.Shape() && Runs(s, a) && Runs(After(s, a), b)
    ensures Runs(s, a + b) && After(s, a + b) == After(After(s, a), b)
    decreases |a|
  {
    if a == [] {
      assert a + b == b;
    } else {
      ApplyShape(s, a[0]);
      RunsOn(Apply(s, a[0]), a[1..], b);
      FirstOff(a, b);
      RunCons(s, a[0], a[1..] + b);
    }
  }

  lemma FirstOff<T>(a: seq<T>, b: seq<T>)
    requires a != []
    ensures a + b == [a[0]] + (a[1..] + b)
  {
  }

  lemma NoCommands(a: seq<Step>, b: seq<Step>)
    requires NoCommand(a) && NoCommand(b)
    ensures NoCommand(a + b)
  {
  }

  /** A worker about to take up an entry of a component that is not a classifier runs its path. */
  lemma TakesUp(s: State, w: nat, i: nat, id: nat) returns (steps: seq<Step>)
    requires Inv(s) && w < s.N() && s.wpc[w] == Next(i) && i < |s.List(w)| && s.List(w)[i] == id
    requires id < s.N() && !s.IsCls(id) && !s.path[id].Pending()
    ensures Runs(s, steps) && NoCommand(steps)
    ensures var e := After(s, steps);
            e.N() == s.N() && e.path == s.path && e.wpc == s.wpc[w := UseComp(i, id, false)]
  {
    var t, u := WorkStep(s, w), WorkStep(WorkStep(s, w), w);
    OneStep(s, Work(w));
    OneStep(t, Work(w));
    RunCons(s, Work(w), [Work(w)]);
    steps := [Work(w)] + [Work(w)];
    assert u.wpc == s.wpc[w := UseComp(i, id, false)];
  }

  /** From where its list is settled, the worker comes to run the component's path. */
  lemma DriveAndUse(s: State, w: nat, i: nat, id: nat) returns (steps: seq<Step>)
    requires Inv(s) && w < s.N() && !s.wpc[w].Off? && !s.core[w].Pending() && i < |s.List(w)| && s.List(w)[i] == id
    requires id < s.N() && !s.IsCls(id) && !s.path[id].Pending()
    ensures Runs(s, steps) && NoCommand(steps)
    ensures var e := After(s, steps);
            e.N() == s.N() && e.wpc[w] == UseComp(i, id, false) && e.path[id] == s.path[id]
  {
    DistanceKnown(s, w, i);
    var a := Drive(s, w, i);
    var b := TakesUp(After(s, a), w, i, id);
    RunsOn(s, a, b);
    NoCommands(a, b);
    steps := a + b;
  }

  // ----- A stopped classifier -----

  lemma {:induction false} StoppedOffPath(s: State, steps: seq<Step>, id: nat)
    requires Inv(s) && !s.mpc.Editing? && id < s.N() && !Live(s.m.comps[id]) && Runs(s, steps) && NoCommand(steps)
    ensures OffPath(s, steps, id)
    decreases |steps|
  {
    if steps != [] {
      StepInv(s, steps[0]);
      SameCount(s, steps[0]);
      var e := Apply(s, steps[0]);
      assert e.m.comps == s.m.comps && !e.mpc.Editing?;
      assert NoCommand(steps[1..]);
      StoppedOffPath(e, steps[1..], id);
    }
  }

  /** What the edit of a stop leaves: the type is gone, the entry still on the list. */
  lemma StopEdit(s: State, name: string) returns (i: nat)
    requires Inv(s) && s.mpc == Editing(StopComp(name)) && GetComponentId(s.m.comps, name).Some?
    ensures var id, l := GetComponentId(s.m.comps, name).value, s.m.comps[GetComponentId(s.m.comps, name).value].lcore;
            var e := ManageStep(s);
            && Inv(e) && e.N() == s.N() && id < s.N() && l < s.N() && !Live(e.m.comps[id]) && !e.IsCls(id) && !e.mpc.Editing?
            && e.path == s.path && e.wpc == s.wpc && !e.core[l].Pending() && !e.path[id].Pending()
            && i < |e.List(l)| && e.List(l)[i] == id
  {
    EditPending(s);
    StepInv(s, Manage);
    i := ListedAt(s.m, name);
    NoPathPending(s, GetComponentId(s.m.comps, name).value);
  }

  lemma NoPathPending(s: State, id: nat)
    requires Inv(s) && s.mpc.Editing? && id < s.N()
    ensures !s.path[id].Pending()
  {
    assert AtOk(s, id);
  }

  lemma ListedAt(m: Mng, name: string) returns (i: nat)
    requires Managed(m) && GetComponentId(m.comps, name).Some?
    ensures var id := GetComponentId(m.comps, name).value;
            && Live(m.comps[id]) && m.comps[id].lcore < |m.pend|
            && i < |m.pend[m.comps[id].lcore]| && m.pend[m.comps[id].lcore][i] == id
  {
    FoundIsLive(m, name);
    var id := GetComponentId(m.comps, name).value;
    var l := m.comps[id].lcore;
    assert id in m.pend[l];
    i :| 0 <= i < |m.pend[l]| && m.pend[l][i] == id;
  }

  /** While the stop of a classifier is being flushed, its worker can come to move packets for
      it exactly if the path that an earlier forwarder or merger of its number left behind
      carries any; and it is that path. */
  lemma StoppedRunsOldPathIff(s: State, name: string)
    requires Inv(s) && s.mpc == Editing(StopComp(name)) && GetComponentId(s.m.comps, name).Some?
    requires s.m.comps[GetComponentId(s.m.comps, name).value].typ.ClassifierMac?
    requires !s.wpc[s.m.comps[GetComponentId(s.m.comps, name).value].lcore].Off?
    ensures var id := GetComponentId(s.m.comps, name).value;
            && (forall steps, w: nat, a :: UsesRun(s, steps, w, id, a) ==> a == s.path[id].Active())
            && ((exists steps, w: nat, a :: UsesRun(s, steps, w, id, a)) <==> Carries(s.path[id].Active()))
  {
    var id := GetComponentId(s.m.comps, name).value;
    var l := s.m.comps[id].lcore;
    var i := StopEdit(s, name);
    var e := ManageStep(s);
    forall steps, w: nat, a | UsesRun(s, steps, w, id, a) ensures a == s.path[id].Active() {
      assert ([Manage] + steps)[1..] == steps;
      StoppedOffPath(e, steps, id);
      RunKeepsPath(e, steps, id);
    }
    if Carries(s.path[id].Active()) {
      var steps := DriveAndUse(e, l, i, id);
      RunCons(s, Manage, steps);
      assert UsesRun(s, steps, l, id, s.path[id].Active());
    }
  }

  /** A flush, as far as a moment at which a worker moves packets for the component. */
  ghost predicate UsesRun(s: State, steps: seq<Step>, w: nat, id: nat, a: Image)
    requires s.Shape()
  {
    Runs(s, [Manage] + steps) && NoCommand(steps) && MovesAlong(After(s, [Manage] + steps), w, id, a)
  }

  // ----- A forwarder just started -----

  /** The new component has no ports; its path is the old one or its own, which has none. */
  ghost predicate FreshPath(s: State, id: nat, before: Image)
    requires s.Shape() && id < s.N()
  {
    var c := s.path[id];
    && !s.mpc.Editing? && OnPath(s, id) && s.m.comps[id].rx == [] && s.m.comps[id].tx == []
    && (c.Active() == before || c.Active().rx == [])
    && (s.mpc == PubComp(id) ==> c.area[c.upd].rx == [])
    && (c.Pending() ==> c.area[1 - c.ref].rx == [])
  }

  lemma FreshStep(s: State, step: Step, id: nat, before: Image)
    requires Inv(s) && id < s.N() && FreshPath(s, id, before) && Enabled(s, step) && !step.Command?
    ensures var e := Apply(s, step); e.Shape() && e.N() == s.N() && FreshPath(e, id, before)
  {
    ApplyShape(s, step);
    assert AtOk(s, id);
    if step.Work? {
      assert AtOk(s, step.w);
      FreshWork(s, step.w, id, before);
    } else {
      FreshManage(s, id, before);
    }
  }

  lemma FreshWork(s: State, w: nat, id: nat, before: Image)
    requires s.Shape() && id < s.N() && FreshPath(s, id, before) && w < s.N() && !s.wpc[w].Off? && WorkEnabled(s, w)
    requires WorkerOk(s, w) && WorkStep(s, w).Shape()
    ensures FreshPath(WorkStep(s, w), id, before)
  {
    assert WorkStep(s, w).m == s.m && WorkStep(s, w).mpc == s.mpc;
  }

  lemma FreshManage(s: State, id: nat, before: Image)
    requires s.Shape() && id < s.N() && FreshPath(s, id, before) && ManageEnabled(s) && ManageStep(s).Shape()
    requires s.path[id].Pending() ==> s.mpc == AwaitComp(id)
    ensures ManageStep(s).N() == s.N() && FreshPath(ManageStep(s), id, before)
  {
    if s.mpc.FillComp? || s.mpc.PubComp? || s.mpc.EraseComp? {
      assert ManageStep(s).m == s.m;
      if s.mpc.k != id {
        assert ManageStep(s).path[id] == s.path[id];
      }
    }
  }

  lemma {:induction false} RunFresh(s: State, steps: seq<Step>, id: nat, before: Image)
    requires Inv(s) && id < s.N() && FreshPath(s, id, before) && Runs(s, steps) && NoCommand(steps)
    ensures After(s, steps).N() == s.N() && FreshPath(After(s, steps), id, before)
    decreases |steps|
  {
    if steps != [] {
      StepInv(s, steps[0]);
      FreshStep(s, steps[0], id, before);
      assert NoCommand(steps[1..]);
      RunFresh(Apply(s, steps[0]), steps[1..], id, before);
    }
  }

  lemma StartEdit(s: State, name: string, l: nat, typ: CompType) returns (id: nat)
    requires Inv(s) && s.mpc == Editing(StartComp(name, l, typ)) && Start(s.m, name, l, typ).Some?
    requires typ.Forward? || typ.Merge?
    ensures var e := ManageStep(s);
            && Inv(e) && e.N() == s.N() && id < s.N() && l < s.N() && FindFree(s.m.comps, 0) == Some(id)
            && FreshPath(e, id, s.path[id].Active()) && e.path == s.path && e.wpc == s.wpc && e.mpc == PubCore(0)
            && !e.path[id].Pending() && e.m.chgCore[l] && !e.core[l].Pending() && e.m.pend[l] != [] && e.m.pend[l][|e.m.pend[l]| - 1] == id
  {
    EditPending(s);
    StepInv(s, Manage);
    id := FindFree(s.m.comps, 0).value;
    NoPathPending(s, id);
  }

  /** The manager publishes the lists up to that of lcore `l`. */
  lemma {:induction false} PublishLists(s: State, l: nat) returns (steps: seq<Step>)
    requires Inv(s) && s.mpc.PubCore? && s.mpc.k <= l < s.N() && s.m.chgCore[l]
    ensures Runs(s, steps) && NoCommand(steps)
    ensures var e := After(s, steps);
            && Inv(e) && e.N() == s.N() && e.m == s.m && e.path == s.path && e.wpc == s.wpc && e.mpc == PubCore(l + 1)
            && e.core[l].Pending()
    decreases l - s.mpc.k
  {
    StepInv(s, Manage);
    var m := ManageStep(s);
    if s.mpc.k == l {
      steps := [];
    } else {
      steps := PublishLists(m, l);
    }
    RunCons(s, Manage, steps);
    steps := [Manage] + steps;
  }

  /** The worker at the top of its loop takes the new list. */
  lemma TakesList(s: State, l: nat) returns (steps: seq<Step>)
    requires Inv(s) && l < s.N() && s.mpc == PubCore(l + 1) && s.m.chgCore[l] && s.wpc[l] == AtTop && s.core[l].Pending()
    ensures Runs(s, steps) && NoCommand(steps)
    ensures var e := After(s, steps);
            && Inv(e) && e.N() == s.N() && e.m == s.m && e.path == s.path && !e.core[l].Pending() && !e.wpc[l].Off?
            && e.List(l) == s.m.pend[l]
  {
    OneStep(s, Work(l));
    TakesFlip(WorkStep(s, l), l);
    RunCons(s, Work(l), [Work(l)]);
    steps := [Work(l)] + [Work(l)];
  }

  lemma OneStep(s: State, step: Step)
    requires Inv(s) && Enabled(s, step)
    ensures Inv(Apply(s, step)) && Runs(s, [step]) && After(s, [step]) == Apply(s, step)
  {
    StepInv(s, step);
    assert [step][1..] == [];
    assert Runs(Apply(s, step), []);
  }

  lemma TakesFlip(s: State, l: nat)
    requires Inv(s) && l < s.N() && s.mpc == PubCore(l + 1) && s.m.chgCore[l] && s.wpc[l] == FlipCore
    ensures Runs(s, [Work(l)])
    ensures var e := After(s, [Work(l)]);
            && Inv(e) && e.N() == s.N() && e.m == s.m && e.path == s.path && !e.core[l].Pending() && !e.wpc[l].Off?
            && e.List(l) == s.m.pend[l]
  {
    assert AtOk(s, l);
    OneStep(s, Work(l));
  }

  /** Once on its worker's list, a new forwarder or merger can come to move packets before its
      first flush exactly if the path an earlier one of its number left behind carries any;
      and it is that path, as its own has no ports. */
  lemma StartedRunsOldPathIff(s: State, name: string, l: nat, typ: CompType)
    requires Inv(s) && s.mpc == Editing(StartComp(name, l, typ)) && Start(s.m, name, l, typ).Some?
    requires (typ.Forward? || typ.Merge?) && !s.wpc[l].Off?
    ensures FindFree(s.m.comps, 0).Some?
    ensures var id := FindFree(s.m.comps, 0).value;
            && (forall steps, w: nat, a :: UsesRun(s, steps, w, id, a) ==> a == s.path[id].Active())
            && ((exists steps, w: nat, a :: UsesRun(s, steps, w, id, a)) <==> Carries(s.path[id].Active()))
  {
    var id := StartEdit(s, name, l, typ);
    forall steps, w: nat, a | UsesRun(s, steps, w, id, a) ensures a == s.path[id].Active() {
      StartedUsesOld(s, id, steps, w, a);
    }
    if Carries(s.path[id].Active()) {
      var steps := StartedUses(ManageStep(s), l, id);
      RunCons(s, Manage, steps);
      assert UsesRun(s, steps, l, id, s.path[id].Active());
    }
  }

  lemma StartedUsesOld(s: State, id: nat, steps: seq<Step>, w: nat, a: Image)
    requires Inv(s) && s.mpc.Editing? && id < s.N() && UsesRun(s, steps, w, id, a)
    requires Inv(ManageStep(s)) && ManageStep(s).N() == s.N() && FreshPath(ManageStep(s), id, s.path[id].Active())
    ensures a == s.path[id].Active()
  {
    assert ([Manage] + steps)[1..] == steps;
    RunFresh(ManageStep(s), steps, id, s.path[id].Active());
  }

  lemma StartedUses(s: State, l: nat, id: nat) returns (steps: seq<Step>)
    requires Inv(s) && s.mpc == PubCore(0) && l < s.N() && id < s.N() && !s.wpc[l].Off? && s.m.chgCore[l] && !s.core[l].Pending()
    requires OnPath(s, id) && !s.path[id].Pending() && s.m.pend[l] != [] && s.m.pend[l][|s.m.pend[l]| - 1] == id
    ensures Runs(s, steps) && NoCommand(steps)
    ensures var e := After(s, steps);
            e.N() == s.N() && e.wpc[l].UseComp? && e.wpc[l].id == id && !e.wpc[l].cls && e.path[id] == s.path[id]
  {
    var a := ToTop(s, l);
    var b := PublishLists(After(s, a), l);
    RunsOn(s, a, b);
    NoCommands(a, b);
    var c := TakesList(After(s, a + b), l);
    RunsOn(s, a + b, c);
    NoCommands(a + b, c);
    var t := After(s, (a + b) + c);
    var d := DriveAndUse(t, l, |s.m.pend[l]| - 1, id);
    RunsOn(s, (a + b) + c, d);
    NoCommands((a + b) + c, d);
    steps := ((a + b) + c) + d;
  }

  lemma ToTop(s: State, w: nat) returns (steps: seq<Step>)
    requires Inv(s) && w < s.N() && !s.wpc[w].Off? && !s.core[w].Pending()
    ensures Runs(s, steps) && NoCommand(steps)
    ensures var e := After(s, steps);
            && Inv(e) && e.N() == s.N() && e.m == s.m && e.mpc == s.mpc && e.wpc[w] == AtTop
            && forall id :: 0 <= id < s.N() && !s.path[id].Pending() ==> e.path[id] == s.path[id]
  {
    var n := |s.List(w)|;
    DistanceKnown(s, w, n);
    var a := Drive(s, w, n);
    var m := After(s, a);
    OneStep(m, Work(w));
    var b := [Work(w)];
    RunsOn(s, a, b);
    NoCommands(a, b);
    steps := a + b;
  }
}

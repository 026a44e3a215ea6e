/** The queue of switched abilities belongs to no worker in particular: whoever finds the
    indices of its component equal moves the references of all queued ports.  In the control
    plane that is only the worker the manager waits for, because every flush hands over at
    most one component and leaves no other with equal indices. */
module ControlPlaneSettled {
  import opened SppTypes
  import opened Management
  import opened ControlPlane
  import opened ControlPlaneCurrent
  import H = Handover

  /** A live component's indices are apart unless its own flush is under way, and while they
      are equal before its publication it has no ports. */
  predicate SettledAt(s: State, id: nat)
    requires s.Shape() && id < s.N()
  {
    Live(s.m.comps[id]) && s.CellOf(id, s.IsCls(id)).Pending() ==>
      ToDo(s, id) && (s.mpc == AwaitComp(id) || NoPorts(s, id))
  }

  predicate OneFlag(m: Mng) {
    forall i, j :: 0 <= i < j < |m.chgComp| ==> !m.chgComp[i] || !m.chgComp[j]
  }

  predicate Settled(s: State)
    requires s.Shape()
  {
    OneFlag(s.m) && forall id: nat :: id < s.N() ==> SettledAt(s, id)
  }

  lemma EditOneFlag(m: Mng, cmd: Management.Command)
    requires Shape(m) && Execute(m, cmd).Some? && forall i :: 0 <= i < |m.chgComp| ==> !m.chgComp[i]
    ensures OneFlag(Execute(m, cmd).value)
  {
  }

  /** What a command makes live it flags and gives no ports. */
  lemma EditFlagsNew(m: Mng, cmd: Management.Command, id: nat)
    requires Managed(m) && Execute(m, cmd).Some? && id < |m.comps| && !Live(m.comps[id])
    ensures var m' := Execute(m, cmd).value;
            Live(m'.comps[id]) ==> m'.chgComp[id] && m'.comps[id].rx == [] && m'.comps[id].tx == []
  {
    StartedHasNoPorts(m, cmd, id);
  }

  lemma EditSettledAt(s: State, id: nat)
    requires Inv(s) && s.mpc.Editing? && id < s.N() && ManageStep(s).Shape() && SettledAt(s, id)
    requires s.m.(pend := s.PendingLists()) == s.m && Execute(s.m, s.mpc.cmd).Some?
    ensures SettledAt(ManageStep(s), id)
  {
    if Live(s.m.comps[id]) {
      EditTypes(s.m, s.mpc.cmd, id);
    } else {
      EditFlagsNew(s.m, s.mpc.cmd, id);
    }
  }

  lemma WorkSettledAt(s: State, w: nat, id: nat)
    requires s.Shape() && w < s.N() && id < s.N() && !s.wpc[w].Off? && WorkEnabled(s, w)
    requires SettledAt(s, id) && WorkStep(s, w).Shape()
    ensures SettledAt(WorkStep(s, w), id)
  {
    assert WorkStep(s, w).m == s.m && WorkStep(s, w).mpc == s.mpc;
  }

  lemma ManageSettledAt(s: State, id: nat)
    requires s.Shape() && ManagerOk(s) && !s.mpc.Editing? && ManageEnabled(s) && ManageStep(s).Shape()
    requires id < s.N() && SettledAt(s, id)
    ensures SettledAt(ManageStep(s), id)
  {
    if s.mpc.FillComp? || s.mpc.PubComp? || s.mpc.EraseComp? {
      WriteSettledAt(s, id);
    }
  }

  lemma WriteSettledAt(s: State, id: nat)
    requires s.Shape() && ManagerOk(s) && ManageEnabled(s) && ManageStep(s).Shape()
    requires s.mpc.FillComp? || s.mpc.PubComp? || s.mpc.EraseComp?
    requires id < s.N() && SettledAt(s, id)
    ensures SettledAt(ManageStep(s), id)
  {
    assert ManageStep(s).m == s.m;
    if id != s.mpc.k {
      assert ManageStep(s).CellOf(id, s.IsCls(id)) == s.CellOf(id, s.IsCls(id));
    }
  }

  lemma StepSettled(s: State, step: Step)
    requires Inv(s) && Settled(s) && Enabled(s, step) && Apply(s, step).Shape()
    ensures Settled(Apply(s, step))
  {
    if step == Manage && s.mpc.Editing? {
      EditSettled(s);
    } else {
      forall id: nat | id < s.N() ensures SettledAt(Apply(s, step), id) {
        if step.Work? {
          WorkSettledAt(s, step.w, id);
        } else if step.Manage? {
          ManageSettledAt(s, id);
        } else {
          assert SettledAt(s, id);
        }
      }
    }
  }

  lemma EditSettled(s: State)
    requires Inv(s) && Settled(s) && s.mpc.Editing? && ManageStep(s).Shape()
    ensures Settled(ManageStep(s))
  {
    EditPending(s);
    if Execute(s.m, s.mpc.cmd).Some? {
      EditOneFlag(s.m, s.mpc.cmd);
      forall id: nat | id < s.N() ensures SettledAt(ManageStep(s), id) {
        EditSettledAt(s, id);
      }
    } else {
      forall id: nat | id < s.N() ensures SettledAt(ManageStep(s), id) {
        assert SettledAt(s, id);
      }
    }
  }

  lemma StartSettled(n: nat, workers: set<nat>, main: nat, maxPorts: nat, phys: set<PortIndex>)
    ensures Start0(n, workers, main, maxPorts, phys).Shape() && Settled(Start0(n, workers, main, maxPorts, phys))
  {
    StartInv(n, workers, main, maxPorts, phys);
  }

  lemma {:induction false} RunSettled(s: State, steps: seq<Step>)
    requires Inv(s) && Settled(s) && Runs(s, steps)
    ensures Inv(After(s, steps)) && Settled(After(s, steps))
    decreases |steps|
  {
    if steps != [] {
      StepInv(s, steps[0]);
      StepSettled(s, steps[0]);
      RunSettled(Apply(s, steps[0]), steps[1..]);
    }
  }

  // ----- Whom the manager deals with -----

  /** The component being filled, published or awaited. */
  predicate DealsWith(s: State, id: nat) {
    s.mpc == FillComp(id) || s.mpc == PubComp(id) || s.mpc == AwaitComp(id)
  }

  /** Components on a worker's list are live by then. */
  lemma ListedIsLive(s: State, k: nat, l: nat, i: nat)
    requires Inv(s) && k < s.N() && DealsWith(s, k) && l < s.N() && i < |s.List(l)|
    ensures s.List(l)[i] < s.N() && Live(s.m.comps[s.List(l)[i]])
  {
    assert AtOk(s, l);
    assert s.List(l) == s.m.pend[l];
  }

  /** From process start, in every interleaving of commands, manager and workers, while the
      manager fills, publishes or awaits component `k`: every other component on a worker's
      list has its indices apart, and so has `k`, if it has ports, until it is published. */
  lemma OthersSettled(n: nat, workers: set<nat>, main: nat, maxPorts: nat, phys: set<PortIndex>, steps: seq<Step>,
                      k: nat, l: nat, i: nat)
    requires Start0(n, workers, main, maxPorts, phys).Shape()
    requires Runs(Start0(n, workers, main, maxPorts, phys), steps)
    requires var e := After(Start0(n, workers, main, maxPorts, phys), steps);
             k < e.N() && DealsWith(e, k) && l < e.N() && i < |e.List(l)|
    ensures var e := After(Start0(n, workers, main, maxPorts, phys), steps);
            var id := e.List(l)[i];
            && id < e.N() && Live(e.m.comps[id])
            && (id != k ==> !e.CellOf(id, e.IsCls(id)).Pending())
            && (id == k && e.mpc != AwaitComp(k) && !NoPorts(e, k) ==> !e.CellOf(k, e.IsCls(k)).Pending())
  {
    StartInv(n, workers, main, maxPorts, phys);
    StartSettled(n, workers, main, maxPorts, phys);
    RunSettled(Start0(n, workers, main, maxPorts, phys), steps);
    var e := After(Start0(n, workers, main, maxPorts, phys), steps);
    ListedIsLive(e, k, l, i);
    var id := e.List(l)[i];
    assert SettledAt(e, id);
    assert e.m.chgComp[k];
  }

  /** So the only worker about to move references while a component with ports is dealt with
      is the one that runs this component, once it is published. */
  lemma OnlyAwaitedWorkerFlips(n: nat, workers: set<nat>, main: nat, maxPorts: nat, phys: set<PortIndex>,
                               steps: seq<Step>, k: nat, w: nat)
    requires Start0(n, workers, main, maxPorts, phys).Shape()
    requires Runs(Start0(n, workers, main, maxPorts, phys), steps)
    requires var e := After(Start0(n, workers, main, maxPorts, phys), steps);
             k < e.N() && DealsWith(e, k) && !NoPorts(e, k) && w < e.N() && e.wpc[w].FlipComp?
    ensures var e := After(Start0(n, workers, main, maxPorts, phys), steps);
            e.mpc == AwaitComp(k) && e.wpc[w].id == k && e.home[k] == w
  {
    StartInv(n, workers, main, maxPorts, phys);
    RunInv(Start0(n, workers, main, maxPorts, phys), steps);
    var e := After(Start0(n, workers, main, maxPorts, phys), steps);
    assert AtOk(e, w);
    OthersSettled(n, workers, main, maxPorts, phys, steps, k, w, e.wpc[w].i);
  }
}

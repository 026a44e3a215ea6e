/** Workers move packets by the configuration: between commands the image a worker uses
    for a live component is the image of its current configuration, except that a class
    command flags only the first component that sends to the port, and leaves any other
    with the old class. */
module ControlPlaneCurrent {
  import opened SppTypes
  import opened Management
  import opened ControlPlane
  import opened ControlPlaneSafety
  import Forwarder
  import CE = CommandEffects
  import H = Handover

  /** Component `id` sends to the port, and is not the first that does. */
  ghost predicate SecondUser(m: Mng, p: PortIndex, id: nat)
    requires Shape(m) && id < |m.comps|
  {
    Live(m.comps[id]) && p in m.comps[id].tx && UsedBy(m.comps, p, Tx, 0) != Some(id)
  }

  /** The class a class command gives its port. */
  function ClassGiven(cmd: Management.Command): ClassId
    requires cmd.AddClass? || cmd.DelClass?
  {
    if cmd.AddClass? then ClassId(cmd.vid, cmd.mac) else NO_CLASS
  }

  /** The command changes the class of a port that component `id` sends to, without being the
      first that does. */
  ghost predicate Passes(m: Mng, cmd: Management.Command, id: nat)
    requires Shape(m) && id < |m.comps|
  {
    && (cmd.AddClass? || cmd.DelClass?) && Execute(m, cmd).Some?
    && SecondUser(m, cmd.port, id) && ClassGiven(cmd) != ClassOf(m, cmd.port)
  }

  /** The flush of the current command has not yet dealt with component `id`. */
  predicate ToDo(s: State, id: nat)
    requires s.Shape() && id < s.N()
  {
    s.m.chgComp[id] && (match s.mpc
                        case Ready => false
                        case Editing(_) => false
                        case NextComp(k) => k <= id
                        case FillComp(k) => k <= id
                        case PubComp(k) => k <= id
                        case AwaitComp(k) => k <= id
                        case EraseComp(k) => k <= id
                        case _ => true)
  }

  predicate NoPorts(s: State, id: nat)
    requires s.Shape() && id < s.N()
  {
    s.m.comps[id].rx == [] && s.m.comps[id].tx == []
  }

  /** The image is that of the configuration; a classifier without ports may also still
      have the blank table, when its first update was lost to the initial indices. */
  ghost predicate Good(s: State, id: nat, a: Image)
    requires s.Shape() && id < s.N()
  {
    a == ImageOf(s.m, id) || (s.IsCls(id) && NoPorts(s, id) && a == BLANK)
  }

  ghost predicate CurrentAt(s: State, id: nat)
    requires s.Shape() && id < s.N()
  {
    var c := s.CellOf(id, s.IsCls(id));
    Live(s.m.comps[id]) ==>
      && (!ToDo(s, id) ==> !c.Pending() && Good(s, id, c.Active()))
      && (c.Pending() && s.mpc != AwaitComp(id) ==>
            NoPorts(s, id) && c.area[1 - c.upd] == BLANK)
      && (s.mpc == PubComp(id) ==> c.area[c.upd] == ImageOf(s.m, id))
      && (s.mpc == AwaitComp(id) ==> Good(s, id, if c.Pending() then c.area[1 - c.ref] else c.Active()))
      && (s.mpc == EraseComp(id) ==> !c.Pending() && Good(s, id, c.Active()))
  }

  ghost predicate Current(s: State, id: nat)
    requires s.Shape() && id < s.N()
  {
    CurrentAt(s, id) && (s.mpc.Editing? ==> !Passes(s.m, s.mpc.cmd, id))
  }

  /** Steps of a run whose class commands do not pass by component `id`. */
  ghost predicate Tame(s: State, step: Step, id: nat)
    requires s.Shape() && id < s.N()
  {
    step.Command? ==> !Passes(s.m, step.cmd, id)
  }

  lemma StartCurrent(n: nat, workers: set<nat>, main: nat, maxPorts: nat, phys: set<PortIndex>, id: nat)
    requires id < n
    ensures Start0(n, workers, main, maxPorts, phys).Shape() && Current(Start0(n, workers, main, maxPorts, phys), id)
  {
    StartInv(n, workers, main, maxPorts, phys);
  }

  // ----- Worker steps -----

  lemma WorkCurrent(s: State, w: nat, id: nat)
    requires Inv(s) && id < s.N() && Current(s, id) && w < s.N() && !s.wpc[w].Off? && WorkEnabled(s, w)
    requires WorkStep(s, w).Shape()
    ensures Current(WorkStep(s, w), id)
  {
    assert AtOk(s, w) && AtOk(s, id);
    WorkCurrentAt(s, w, id);
  }

  lemma WorkCurrentAt(s: State, w: nat, id: nat)
    requires s.Shape() && w < s.N() && id < s.N() && !s.wpc[w].Off? && WorkEnabled(s, w)
    requires WorkerOk(s, w) && CompOk(s, id) && CurrentAt(s, id) && WorkStep(s, w).Shape()
    ensures CurrentAt(WorkStep(s, w), id)
  {
    var s' := WorkStep(s, w);
    assert s'.m == s.m && s'.mpc == s.mpc;
    if s.wpc[w].FlipComp? && s.wpc[w].id == id {
      FlipCurrentAt(s, w, id);
    } else {
      assert s'.CellOf(id, s.IsCls(id)) == s.CellOf(id, s.IsCls(id));
    }
  }

  lemma FlipCurrentAt(s: State, w: nat, id: nat)
    requires s.Shape() && w < s.N() && id < s.N() && s.wpc[w].FlipComp? && s.wpc[w].id == id
    requires WorkerOk(s, w) && CompOk(s, id) && CurrentAt(s, id) && WorkStep(s, w).Shape()
    ensures CurrentAt(WorkStep(s, w), id)
  {
    assert ImageOf(WorkStep(s, w).m, id) == ImageOf(s.m, id);
  }

  // ----- Manager steps -----

  /** The image of a component that the command does not flag stays what it was. */
  lemma EditImage(m: Mng, cmd: Management.Command, id: nat)
    requires Managed(m) && Execute(m, cmd).Some? && id < |m.comps| && !Passes(m, cmd, id)
    requires var m' := Execute(m, cmd).value; Live(m'.comps[id]) && !m'.chgComp[id]
    ensures var m' := Execute(m, cmd).value; m'.comps[id] == m.comps[id] && ImageOf(m', id) == ImageOf(m, id)
  {
    if cmd.AddClass? || cmd.DelClass? {
      ClassImageIff(m, cmd.port, ClassGiven(cmd), id);
    } else {
      UnflaggedSame(m, cmd, id);
      SameImage(m, Execute(m, cmd).value, id);
    }
  }

  lemma UnflaggedSame(m: Mng, cmd: Management.Command, id: nat)
    requires Managed(m) && Execute(m, cmd).Some? && id < |m.comps| && !cmd.AddClass? && !cmd.DelClass?
    requires var m' := Execute(m, cmd).value; Live(m'.comps[id]) && !m'.chgComp[id]
    ensures var m' := Execute(m, cmd).value; m'.comps[id] == m.comps[id] && m'.cls == m.cls
  {
  }

  lemma SameImage(m: Mng, m': Mng, id: nat)
    requires id < |m.comps| && id < |m'.comps| && m'.comps[id] == m.comps[id] && m'.cls == m.cls
    ensures ImageOf(m', id) == ImageOf(m, id)
  {
    assert forall p :: ClassOf(m', p) == ClassOf(m, p);
    assert WithClass(m', m.comps[id].tx) == WithClass(m, m.comps[id].tx);
  }

  /** A class command leaves a component without a flag and with another image exactly if it
      changes the class and the component sends to the port without being the first to. */
  lemma ClassImageIff(m: Mng, p: PortIndex, c: ClassId, id: nat)
    requires Shape(m) && id < |m.comps| && Live(m.comps[id]) && !m.chgComp[id]
    ensures var m' := FlagUser(m.(cls := m.cls[p := c]), p);
            !m'.chgComp[id] && ImageOf(m', id) != ImageOf(m, id) <==> SecondUser(m, p, id) && c != ClassOf(m, p)
  {
    var m' := FlagUser(m.(cls := m.cls[p := c]), p);
    var tx := m.comps[id].tx;
    if p in tx {
      var i :| 0 <= i < |tx| && tx[i] == p;
      assert ImageOf(m', id).tx[i] == (p, c) && ImageOf(m, id).tx[i] == (p, ClassOf(m, p));
      UserSends(m, p, id);
      if c == ClassOf(m, p) {
        assert ImageOf(m', id).tx == ImageOf(m, id).tx;
      }
    } else {
      assert ImageOf(m', id).tx == ImageOf(m, id).tx;
    }
  }

  /** Who sends to a port makes it used. */
  lemma {:induction false} UserFrom(comps: seq<Component>, p: PortIndex, from: nat, id: nat)
    requires from <= id < |comps| && Live(comps[id]) && p in comps[id].tx
    ensures UsedBy(comps, p, Tx, from).Some?
    decreases |comps| - from
  {
    if from < id {
      UserFrom(comps, p, from + 1, id);
    }
  }

  lemma UserSends(m: Mng, p: PortIndex, id: nat)
    requires id < |m.comps| && Live(m.comps[id]) && p in m.comps[id].tx
    ensures UsedBy(m.comps, p, Tx, 0).Some?
  {
    UserFrom(m.comps, p, 0, id);
  }

  lemma EditCurrent(s: State, id: nat)
    requires Inv(s) && id < s.N() && Current(s, id) && s.mpc.Editing? && ManageStep(s).Shape()
    ensures Current(ManageStep(s), id)
  {
    EditPending(s);
    assert AtOk(s, id);
    if Execute(s.m, s.mpc.cmd).Some? {
      EditCurrentAt(s, id);
    }
  }

  lemma EditCurrentAt(s: State, id: nat)
    requires s.Shape() && id < s.N()
    requires Inv(s) && s.mpc.Editing? && !Passes(s.m, s.mpc.cmd, id) && ManageStep(s).Shape()
    requires s.m.(pend := s.PendingLists()) == s.m && Execute(s.m, s.mpc.cmd).Some?
    requires CompOk(s, id) && CurrentAt(s, id)
    ensures CurrentAt(ManageStep(s), id)
  {
    var m' := Execute(s.m, s.mpc.cmd).value;
    if Live(m'.comps[id]) {
      if !m'.chgComp[id] {
        EditImage(s.m, s.mpc.cmd, id);
      } else {
        StartedHasNoPorts(s.m, s.mpc.cmd, id);
      }
    }
  }

  /** A component is live after a command because it was before, with the same type, or
      because it was started and has no ports. */
  lemma StartedHasNoPorts(m: Mng, cmd: Management.Command, id: nat)
    requires Managed(m) && Execute(m, cmd).Some? && id < |m.comps|
    ensures var c, c' := m.comps[id], Execute(m, cmd).value.comps[id];
            Live(c') ==> (Live(c) && c'.typ == c.typ) || (!Live(c) && c'.rx == [] && c'.tx == [])
  {
    EditTypes(m, cmd, id);
  }

  lemma ManageCurrent(s: State, id: nat)
    requires Inv(s) && id < s.N() && Current(s, id) && ManageEnabled(s) && ManageStep(s).Shape()
    ensures Current(ManageStep(s), id)
  {
    if s.mpc.Editing? {
      EditCurrent(s, id);
    } else {
      assert AtOk(s, id);
      if s.mpc == NextComp(s.N()) {
        FlushedCurrentAt(s, id);
      } else {
        ManageCurrentAt(s, id);
      }
    }
  }

  lemma FlushedCurrentAt(s: State, id: nat)
    requires Inv(s) && s.mpc == NextComp(s.N()) && id < s.N() && CurrentAt(s, id)
    ensures CurrentAt(ManageStep(s), id)
  {
    assert ImageOf(ManageStep(s).m, id) == ImageOf(s.m, id);
  }

  lemma ManageCurrentAt(s: State, id: nat)
    requires Inv(s) && !s.mpc.Editing? && ManageEnabled(s) && ManageStep(s).Shape()
    requires s.mpc != NextComp(s.N()) && id < s.N() && CompOk(s, id) && CurrentAt(s, id)
    ensures CurrentAt(ManageStep(s), id)
  {
    if s.mpc.FillComp? {
      FillCurrentAt(s, id);
    } else if s.mpc.PubComp? {
      PublishCurrentAt(s, id);
    } else if s.mpc.EraseComp? {
      EraseCurrentAt(s, id);
    } else {
      MoveCurrentAt(s, id);
    }
  }

  lemma FillCurrentAt(s: State, id: nat)
    requires Inv(s) && s.mpc.FillComp? && ManageEnabled(s) && ManageStep(s).Shape()
    requires id < s.N() && CompOk(s, id) && CurrentAt(s, id)
    ensures CurrentAt(ManageStep(s), id)
  {
    assert ManageStep(s).m == s.m;
    if id != s.mpc.k {
      assert ManageStep(s).CellOf(id, s.IsCls(id)) == s.CellOf(id, s.IsCls(id));
    }
  }

  lemma PublishCurrentAt(s: State, id: nat)
    requires Inv(s) && s.mpc.PubComp? && ManageEnabled(s) && ManageStep(s).Shape()
    requires id < s.N() && CompOk(s, id) && CurrentAt(s, id)
    ensures CurrentAt(ManageStep(s), id)
  {
    assert ManageStep(s).m == s.m;
    if id != s.mpc.k {
      assert ManageStep(s).CellOf(id, s.IsCls(id)) == s.CellOf(id, s.IsCls(id));
    }
  }

  lemma EraseCurrentAt(s: State, id: nat)
    requires Inv(s) && s.mpc.EraseComp? && ManageEnabled(s) && ManageStep(s).Shape()
    requires id < s.N() && CompOk(s, id) && CurrentAt(s, id)
    ensures CurrentAt(ManageStep(s), id)
  {
    assert ManageStep(s).m == s.m;
    if id != s.mpc.k {
      assert ManageStep(s).CellOf(id, s.IsCls(id)) == s.CellOf(id, s.IsCls(id));
    }
  }

  lemma MoveCurrentAt(s: State, id: nat)
    requires Inv(s) && !s.mpc.Editing? && !s.mpc.FillComp? && !s.mpc.PubComp? && !s.mpc.EraseComp?
    requires ManageEnabled(s) && ManageStep(s).Shape()
    requires s.mpc != NextComp(s.N()) && id < s.N() && CompOk(s, id) && CurrentAt(s, id)
    ensures CurrentAt(ManageStep(s), id)
  {
    assert ManageStep(s).m == s.m && ManageStep(s).path == s.path && ManageStep(s).tab == s.tab;
  }

  lemma StepCurrent(s: State, step: Step, id: nat)
    requires Inv(s) && id < s.N() && Current(s, id) && Enabled(s, step) && Tame(s, step, id) && Apply(s, step).Shape()
    ensures Current(Apply(s, step), id)
  {
    match step
    case Command(cmd) =>
    case Manage => ManageCurrent(s, id);
    case Work(w) => WorkCurrent(s, w, id);
  }

  ghost predicate TameRun(s: State, steps: seq<Step>, id: nat)
    requires s.Shape() && id < s.N() && Runs(s, steps)
    decreases |steps|
  {
    steps != [] ==>
      Tame(s, steps[0], id)
      && (ApplyShape(s, steps[0]); SameN(s, steps[0]); TameRun(Apply(s, steps[0]), steps[1..], id))
  }

  lemma SameN(s: State, step: Step)
    requires s.Shape() && Enabled(s, step)
    ensures Apply(s, step).N() == s.N()
  {
  }

  lemma {:induction false} RunCurrent(s: State, steps: seq<Step>, id: nat)
    requires Inv(s) && id < s.N() && Current(s, id) && Runs(s, steps) && TameRun(s, steps, id)
    ensures Inv(After(s, steps)) && After(s, steps).N() == s.N() && Current(After(s, steps), id)
    decreases |steps|
  {
    if steps != [] {
      StepInv(s, steps[0]);
      StepCurrent(s, steps[0], id);
      SameN(s, steps[0]);
      RunCurrent(Apply(s, steps[0]), steps[1..], id);
    }
  }

  /** The image tells of the component what its worker has to know: its receive ports, its
      transmit ports each with its class, in order, and its name and type.  A classifier
      without ports may have the blank table, which names nothing. */
  ghost predicate Tells(m: Mng, id: nat, a: Image)
    requires id < |m.comps|
  {
    var c := m.comps[id];
    && a.rx == c.rx && |a.tx| == |c.tx|
    && (forall i :: 0 <= i < |c.tx| ==> a.tx[i].0 == c.tx[i] && a.tx[i].1 == ClassOf(m, c.tx[i]))
    && (!(c.typ.ClassifierMac? && c.rx == [] && c.tx == []) ==> a.name == c.name && a.typ == c.typ)
  }

  /** The worker that serves the component uses an image that tells of its configuration. */
  ghost predicate Served(s: State, id: nat)
    requires s.Shape() && id < s.N()
  {
    Tells(s.m, id, s.CellOf(id, s.IsCls(id)).Active())
  }

  lemma CurrentServed(s: State, id: nat)
    requires Inv(s) && id < s.N() && CurrentAt(s, id) && s.mpc.Ready? && Live(s.m.comps[id])
    ensures Served(s, id)
  {
  }

  /** Along a path that tells of a forwarder or merger packets are moved exactly if it has one
      transmit port and, a forwarder, one receive port, a merger, any. */
  lemma CarriesIff(m: Mng, id: nat, a: Image)
    requires Managed(m) && id < |m.comps| && Live(m.comps[id]) && !m.comps[id].typ.ClassifierMac? && Tells(m, id, a)
    ensures var c := m.comps[id];
            Carries(a) <==> (c.typ.Forward? && |c.rx| == 1 && |c.tx| == 1) || (c.typ.Merge? && |c.rx| >= 1 && |c.tx| == 1)
  {
    assert PortsOk(m.comps[id], m.maxPorts);
  }

  /** Between commands, in every run whose class commands do not pass by a live component, the
      worker uses its configuration: a table with its receive port and its transmit ports with
      their classes, or a path with its name, type and ports, along which packets are moved
      exactly as its type and the numbers of its ports say. */
  lemma ServesConfiguration(n: nat, workers: set<nat>, main: nat, maxPorts: nat, phys: set<PortIndex>, steps: seq<Step>,
                            id: nat)
    requires Start0(n, workers, main, maxPorts, phys).Shape() && id < n
    requires Runs(Start0(n, workers, main, maxPorts, phys), steps)
    requires TameRun(Start0(n, workers, main, maxPorts, phys), steps, id)
    requires var e := After(Start0(n, workers, main, maxPorts, phys), steps);
             e.mpc.Ready? && e.N() == n && Live(e.m.comps[id])
    ensures var e := After(Start0(n, workers, main, maxPorts, phys), steps);
            var c := e.m.comps[id];
            if c.typ.ClassifierMac? then Tells(e.m, id, e.tab[id].Active())
            else
              && Tells(e.m, id, e.path[id].Active())
              && (Carries(e.path[id].Active()) <==>
                    (c.typ.Forward? && |c.rx| == 1 && |c.tx| == 1) || (c.typ.Merge? && |c.rx| >= 1 && |c.tx| == 1))
  {
    StartInv(n, workers, main, maxPorts, phys);
    StartCurrent(n, workers, main, maxPorts, phys, id);
    RunCurrent(Start0(n, workers, main, maxPorts, phys), steps, id);
    var e := After(Start0(n, workers, main, maxPorts, phys), steps);
    CurrentServed(e, id);
    if !e.IsCls(id) {
      CarriesIff(e.m, id, e.path[id].Active());
    }
  }

  /** The path object that the update of a forwarder or merger fills is the path of the image: the
      same ports in the same slots, and packets are moved along both or neither. */
  lemma PathIsImage(f: Forwarder.ForwardPath, m: Mng, id: nat, a: Image)
    requires id < |m.comps| && f.Mirrors(m.comps[id]) && !m.comps[id].typ.ClassifierMac? && Tells(m, id, a)
    ensures f.name == a.name && f.typ == a.typ && f.numRx == |a.rx| <= f.rx.Length && f.numTx == |a.tx|
    ensures forall i :: 0 <= i < |a.rx| ==> f.rx[i] == Some(a.rx[i])
    ensures |a.tx| == 1 ==> forall i :: 0 <= i < |a.rx| ==> f.tx[i] == Some(a.tx[0].0)
    ensures f.Practical() <==> Carries(a)
  {
  }

  // ----- What a class command passes by -----

  /** Component `id` is not part of the flush under way and its worker uses image `a`. */
  ghost predicate Keeps(s: State, id: nat, a: Image)
    requires s.Shape() && id < s.N()
  {
    && !s.mpc.Editing? && !s.m.chgComp[id] && Live(s.m.comps[id])
    && !s.CellOf(id, s.IsCls(id)).Pending() && s.CellOf(id, s.IsCls(id)).Active() == a
  }

  lemma KeepsStep(s: State, step: Step, id: nat, a: Image)
    requires Inv(s) && (step.Work? ==> step.w < s.N() && WorkerOk(s, step.w)) && id < s.N() && Keeps(s, id, a) && Enabled(s, step) && !step.Command?
    ensures var e := Apply(s, step);
            e.Shape() && e.N() == s.N() && e.m.comps == s.m.comps && e.m.cls == s.m.cls && Keeps(e, id, a)
  {
    if step.Work? {
      KeepsWork(s, step.w, id, a);
    } else {
      KeepsManage(s, id, a);
    }
  }

  lemma KeepsWork(s: State, w: nat, id: nat, a: Image)
    requires s.Shape() && id < s.N() && Keeps(s, id, a) && w < s.N() && !s.wpc[w].Off? && WorkEnabled(s, w) && WorkerOk(s, w)
    ensures var e := WorkStep(s, w); e.Shape() && e.m == s.m && Keeps(e, id, a)
  {
    WorkShape(s, w);
  }

  lemma KeepsManage(s: State, id: nat, a: Image)
    requires s.Shape() && ManagerOk(s) && id < s.N() && Keeps(s, id, a) && ManageEnabled(s)
    ensures var e := ManageStep(s);
            e.Shape() && e.N() == s.N() && e.m.comps == s.m.comps && e.m.cls == s.m.cls && Keeps(e, id, a)
  {
    ManageShape(s);
    if s.mpc.FillComp? || s.mpc.PubComp? || s.mpc.EraseComp? {
      assert ManageStep(s).CellOf(id, s.IsCls(id)) == s.CellOf(id, s.IsCls(id));
    }
  }

  lemma {:induction false} KeepsRun(s: State, steps: seq<Step>, id: nat, a: Image)
    requires Inv(s) && id < s.N() && Keeps(s, id, a) && Runs(s, steps) && NoCommand(steps)
    ensures var e := After(s, steps);
            Inv(e) && e.N() == s.N() && e.m.comps == s.m.comps && e.m.cls == s.m.cls && Keeps(e, id, a)
    decreases |steps|
  {
    if steps != [] {
      StepInv(s, steps[0]);
      assert steps[0].Work? && steps[0].w < s.N() ==> AtOk(s, steps[0].w);
      KeepsStep(s, steps[0], id, a);
      assert NoCommand(steps[1..]);
      KeepsRun(Apply(s, steps[0]), steps[1..], id, a);
    }
  }

  lemma {:induction false} NoCommandTame(s: State, steps: seq<Step>, id: nat)
    requires s.Shape() && id < s.N() && Runs(s, steps) && NoCommand(steps)
    ensures TameRun(s, steps, id)
    decreases |steps|
  {
    if steps != [] {
      ApplyShape(s, steps[0]);
      SameN(s, steps[0]);
      assert NoCommand(steps[1..]);
      NoCommandTame(Apply(s, steps[0]), steps[1..], id);
    }
  }

  lemma PassedKeeps(s: State, id: nat)
    requires Inv(s) && s.mpc.Editing? && id < s.N() && CurrentAt(s, id) && Passes(s.m, s.mpc.cmd, id)
    ensures var e := ManageStep(s);
            && e.Shape() && e.N() == s.N() && e.m.comps == s.m.comps && ClassOf(e.m, s.mpc.cmd.port) == ClassGiven(s.mpc.cmd)
            && Keeps(e, id, ImageOf(s.m, id))
  {
    EditPending(s);
    ManageShape(s);
    ClassEdits(s.m, s.mpc.cmd, id);
    assert s.m.comps[id].tx != [];
  }

  lemma ClassEdits(m: Mng, cmd: Management.Command, id: nat)
    requires Shape(m) && id < |m.comps| && Passes(m, cmd, id) && !m.chgComp[id]
    ensures var r := Execute(m, cmd).value;
            r.comps == m.comps && !r.chgComp[id] && ClassOf(r, cmd.port) == ClassGiven(cmd)
  {
    ClassImageIff(m, cmd.port, ClassGiven(cmd), id);
  }

  /** When a class command is done, the worker of a component that was served before uses the
      configuration exactly if the command did not pass by it. */
  lemma ClassServedIff(s: State, steps: seq<Step>, id: nat)
    requires Inv(s) && s.mpc.Editing? && (s.mpc.cmd.AddClass? || s.mpc.cmd.DelClass?)
    requires id < s.N() && CurrentAt(s, id) && Live(s.m.comps[id])
    requires Runs(s, [Manage] + steps) && NoCommand(steps) && After(s, [Manage] + steps).mpc.Ready?
    ensures var e := After(s, [Manage] + steps);
            e.N() == s.N() && (Served(e, id) <==> !Passes(s.m, s.mpc.cmd, id))
  {
    if Passes(s.m, s.mpc.cmd, id) {
      PassedNotServed(s, steps, id);
    } else {
      OtherServed(s, steps, id);
    }
  }

  lemma PassedNotServed(s: State, steps: seq<Step>, id: nat)
    requires Inv(s) && s.mpc.Editing? && id < s.N() && CurrentAt(s, id) && Passes(s.m, s.mpc.cmd, id)
    requires Runs(s, [Manage] + steps) && NoCommand(steps)
    ensures var e := After(s, [Manage] + steps); e.N() == s.N() && !Served(e, id)
  {
    StepInv(s, Manage);
    assert ([Manage] + steps)[1..] == steps;
    PassedKeeps(s, id);
    KeepsRun(Apply(s, Manage), steps, id, ImageOf(s.m, id));
    OldClass(s.m, After(s, [Manage] + steps).m, s.mpc.cmd, id);
  }

  lemma OldClass(m: Mng, e: Mng, cmd: Management.Command, id: nat)
    requires Shape(m) && id < |m.comps| && Passes(m, cmd, id) && ClassOf(e, cmd.port) == ClassGiven(cmd)
    requires id < |e.comps| && e.comps[id] == m.comps[id]
    ensures !Tells(e, id, ImageOf(m, id))
  {
    var tx, p := m.comps[id].tx, cmd.port;
    var i :| 0 <= i < |tx| && tx[i] == p;
    assert ImageOf(m, id).tx[i].1 == ClassOf(m, p);
  }

  lemma OtherServed(s: State, steps: seq<Step>, id: nat)
    requires Inv(s) && s.mpc.Editing? && (s.mpc.cmd.AddClass? || s.mpc.cmd.DelClass?)
    requires id < s.N() && CurrentAt(s, id) && Live(s.m.comps[id]) && !Passes(s.m, s.mpc.cmd, id)
    requires Runs(s, [Manage] + steps) && NoCommand(steps) && After(s, [Manage] + steps).mpc.Ready?
    ensures var e := After(s, [Manage] + steps); e.N() == s.N() && Served(e, id)
  {
    EditPending(s);
    DoneServed(s, steps, id);
  }

  /** When a command that does not pass by a component is done, the components are what it made of
      them, and the component is served. */
  lemma DoneServed(s: State, steps: seq<Step>, id: nat)
    requires Inv(s) && s.mpc.Editing? && id < s.N() && CurrentAt(s, id) && !Passes(s.m, s.mpc.cmd, id)
    requires Runs(s, [Manage] + steps) && NoCommand(steps) && After(s, [Manage] + steps).mpc.Ready?
    ensures var e, r := After(s, [Manage] + steps), Execute(s.m, s.mpc.cmd);
            && e.N() == s.N() && e.m.comps == (if r.Some? then r.value else s.m).comps
            && (Live(e.m.comps[id]) ==> Served(e, id))
  {
    EditPending(s);
    StepInv(s, Manage);
    assert ([Manage] + steps)[1..] == steps;
    EditCurrent(s, id);
    SameN(s, Manage);
    var e1 := Apply(s, Manage);
    NoCommandTame(e1, steps, id);
    RunCurrent(e1, steps, id);
    if e1.mpc.Ready? {
      ReadyKeepsComps(e1, steps);
    } else {
      FlushKeepsComps(e1, steps);
    }
    var e := After(s, [Manage] + steps);
    if Live(e.m.comps[id]) {
      CurrentServed(e, id);
    }
  }

  /** When a `port del` is done, the component's worker no longer has the port on that side. */
  lemma DeletedIsUnused(s: State, steps: seq<Step>, p: PortIndex, d: RxTx, name: string, id: nat)
    requires Inv(s) && s.mpc == Editing(DelPort(p, d, name)) && CE.Named(s.m, id, name) && CurrentAt(s, id)
    requires Runs(s, [Manage] + steps) && NoCommand(steps) && After(s, [Manage] + steps).mpc.Ready?
    ensures var e := After(s, [Manage] + steps);
            && e.N() == s.N() && CE.Rewired(s.m, e.m, id, d)
            && var a := e.CellOf(id, e.IsCls(id)).Active();
            && a.rx == e.m.comps[id].rx && |a.tx| == |e.m.comps[id].tx|
            && (if d.Rx? then p !in a.rx else forall i :: 0 <= i < |a.tx| ==> a.tx[i].0 != p)
  {
    CE.DelEffect(s.m, p, d, name);
    DoneServed(s, steps, id);
    var e := After(s, [Manage] + steps);
    assert Served(e, id);
  }

  /** When an accepted `port add` is done, it has. */
  lemma AddedIsUsed(s: State, steps: seq<Step>, p: PortIndex, d: RxTx, name: string, ability: Ability, id: nat)
    requires Inv(s) && s.mpc == Editing(AddPort(p, d, name, ability)) && CE.Named(s.m, id, name) && CurrentAt(s, id)
    requires Execute(s.m, s.mpc.cmd).Some?
    requires Runs(s, [Manage] + steps) && NoCommand(steps) && After(s, [Manage] + steps).mpc.Ready?
    ensures var e := After(s, [Manage] + steps);
            && e.N() == s.N() && CE.Rewired(s.m, e.m, id, d)
            && var a := e.CellOf(id, e.IsCls(id)).Active();
            && a.rx == e.m.comps[id].rx && |a.tx| == |e.m.comps[id].tx|
            && (if d.Rx? then p in a.rx else exists i :: 0 <= i < |a.tx| && a.tx[i].0 == p)
  {
    CE.AddEffect(s.m, p, d, name, id, ability);
    DoneServed(s, steps, id);
    var e := After(s, [Manage] + steps);
    assert Served(e, id);
    if d.Tx? {
      var i :| 0 <= i < |e.m.comps[id].tx| && e.m.comps[id].tx[i] == p;
      assert e.CellOf(id, e.IsCls(id)).Active().tx[i].0 == p;
    }
  }
}

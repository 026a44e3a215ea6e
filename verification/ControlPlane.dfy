/** The whole spp_vf process as a transition system: the manager thread executing
    commands and flushing them, one worker per lcore running the components on its list,
    and all the two-area cells between them.  Every interleaving of their steps is a run.

    The manager edits the pending list of an lcore (the update area of its cell), then
    flushes: it publishes every changed core list, waits for each worker to flip and
    copies the list back, then hands every changed component its new image and waits for
    the worker that runs it.  Images are forwarder paths or classifier tables. */
module ControlPlane {
  import opened SppTypes
  import opened Management
  import H = Handover

  /** What a worker needs to know of a component: forwarder path or classifier table. */
  datatype Image = Image(name: string, typ: CompType, rx: seq<PortIndex>, tx: seq<(PortIndex, ClassId)>)

  const BLANK := Image("", Unuse, [], [])

  function WithClass(m: Mng, ps: seq<PortIndex>): seq<(PortIndex, ClassId)> {
    seq(|ps|, i requires 0 <= i < |ps| => (ps[i], ClassOf(m, ps[i])))
  }

  function ImageOf(m: Mng, id: nat): Image
    requires id < |m.comps|
  {
    var c := m.comps[id];
    Image(c.name, c.typ, c.rx, WithClass(m, c.tx))
  }

  /** The conditions under which `spp_forward` moves packets along a path. */
  predicate Carries(a: Image) {
    |a.tx| == 1 && (if a.typ.Merge? then |a.rx| >= 1 else |a.rx| == 1)
  }

  datatype Wpc =
    | Off                                        // no worker on this lcore
    | AtTop                                      // about to compare the core indices
    | FlipCore                                   // about to write ref_index of the core
    | Next(i: nat)                               // about to take up entry i of the list
    | TestComp(i: nat, id: nat, cls: bool)       // about to compare the component indices
    | FlipComp(i: nat, id: nat, cls: bool)       // about to write ref_index of the component
    | UseComp(i: nat, id: nat, cls: bool)        // moving packets

  datatype Mpc =
    | Ready
    | Editing(cmd: Command)
    | PubCore(k: nat) | AwaitCore(k: nat) | CopyBack(k: nat)
    | NextComp(k: nat) | FillComp(k: nat) | PubComp(k: nat) | AwaitComp(k: nat) | EraseComp(k: nat)

  /** `m.pend` repeats the pending lists held in the update areas of `core`.  `home` is a
      history variable: the lcore every id was last started on. */
  datatype State = State(
    m: Mng, core: seq<H.Cell<seq<nat>>>, path: seq<H.Cell<Image>>, tab: seq<H.Cell<Image>>,
    wpc: seq<Wpc>, mpc: Mpc, home: seq<nat>)
  {
    function N(): nat { |m.comps| }

    predicate Shape() {
      && Management.Shape(m)
      && |core| == |path| == |tab| == |wpc| == |home| == |m.comps|
      && (forall l :: 0 <= l < |core| ==> core[l].Valid())
      && (forall l :: 0 <= l < |path| ==> path[l].Valid())
      && (forall l :: 0 <= l < |tab| ==> tab[l].Valid())
    }

    /** The list the worker of lcore `l` iterates over. */
    function List(l: nat): seq<nat>
      requires Shape() && l < N()
    {
      core[l].Active()
    }

    predicate IsCls(id: nat) requires id < N() { m.comps[id].typ.ClassifierMac? }

    function CellOf(id: nat, cls: bool): H.Cell<Image>
      requires Shape() && id < N()
    {
      if cls then tab[id] else path[id]
    }

    function WithCell(id: nat, cls: bool, c: H.Cell<Image>): State
      requires Shape() && id < N()
    {
      if cls then this.(tab := tab[id := c]) else this.(path := path[id := c])
    }

    function PendingLists(): seq<seq<nat>> requires Shape() {
      seq(N(), l requires 0 <= l < N() => core[l].area[core[l].upd])
    }

    function WithPendingLists(p: seq<seq<nat>>): State
      requires Shape() && |p| == N()
    {
      this.(core := seq(N(), l requires 0 <= l < N() => core[l].Write(p[l])))
    }
  }

  /** Lcores in `workers` run a worker; `main` runs the manager and counts as usable. */
  function Start0(n: nat, workers: set<nat>, main: nat, maxPorts: nat, phys: set<PortIndex>): State {
    State(
      Init(n, seq(n, l => l in workers || l == main), maxPorts, phys),
      seq(n, _ => H.Cell(0, 1, [[], []])),
      seq(n, _ => H.Cell(0, 1, [BLANK, BLANK])),
      seq(n, _ => H.Cell(0, 0, [BLANK, BLANK])),
      seq(n, l => if l in workers then AtTop else Off),
      Ready,
      seq(n, _ => 0))
  }

  // ----- Steps -----

  /** A manager step or a step of the worker on lcore `w`. */
  datatype Step = Command(cmd: Management.Command) | Manage | Work(w: nat)

  predicate Enabled(s: State, step: Step)
    requires s.Shape()
  {
    match step
    case Command(cmd) => s.mpc.Ready? && Decodable(cmd)
    case Manage => ManageEnabled(s)
    case Work(w) => w < s.N() && !s.wpc[w].Off? && WorkEnabled(s, w)
  }

  /** The manager is blocked only while it spins on an unflipped cell. */
  predicate ManageEnabled(s: State)
    requires s.Shape()
  {
    match s.mpc
    case Ready => false
    case Editing(_) => true
    case PubCore(k) => k <= s.N()
    case AwaitCore(k) => k <= s.N() && (k < s.N() && s.m.chgCore[k] ==> !s.core[k].Pending())
    case CopyBack(k) => k < s.N()
    case NextComp(k) => k <= s.N()
    case FillComp(k) => k < s.N()
    case PubComp(k) => k < s.N()
    case AwaitComp(k) => k < s.N() && !s.CellOf(k, s.IsCls(k)).Pending()
    case EraseComp(k) => k < s.N()
  }

  /** Indices the worker reads from shared memory are in range. */
  predicate WorkEnabled(s: State, w: nat)
    requires s.Shape() && w < s.N()
  {
    match s.wpc[w]
    case Next(i) => i < |s.List(w)| ==> s.List(w)[i] < s.N()
    case TestComp(_, id, _) => id < s.N()
    case FlipComp(_, id, _) => id < s.N()
    case _ => true
  }

  function Apply(s: State, step: Step): State
    requires s.Shape() && Enabled(s, step)
  {
    match step
    case Command(cmd) => s.(mpc := Editing(cmd))
    case Manage => ManageStep(s)
    case Work(w) => WorkStep(s, w)
  }

  function ManageStep(s: State): State
    requires s.Shape() && ManageEnabled(s)
  {
    match s.mpc
    case Editing(cmd) =>
      (match Execute(s.m.(pend := s.PendingLists()), cmd)
       case None => s.(mpc := Ready)
       case Some(m') =>
         s.WithPendingLists(m'.pend).(m := m', home := NewHome(s, m'), mpc := PubCore(0)))
    case PubCore(k) =>
      if k == s.N() then s.(mpc := AwaitCore(0))
      else if !s.m.chgCore[k] then s.(mpc := PubCore(k + 1))
      else s.(core := s.core[k := s.core[k].Publish()], mpc := PubCore(k + 1))
    case AwaitCore(k) =>
      if k == s.N() then s.(mpc := NextComp(0))
      else if !s.m.chgCore[k] then s.(mpc := AwaitCore(k + 1))
      else s.(mpc := CopyBack(k))
    case CopyBack(k) =>
      s.(core := s.core[k := s.core[k].Write(s.List(k))], mpc := AwaitCore(k + 1))
    case NextComp(k) =>
      if k == s.N() then s.(m := Flushed(s.m), mpc := Ready)
      else if !s.m.chgComp[k] then s.(mpc := NextComp(k + 1))
      else s.(mpc := FillComp(k))
    case FillComp(k) =>
      s.WithCell(k, s.IsCls(k), s.CellOf(k, s.IsCls(k)).Write(ImageOf(s.m, k))).(mpc := PubComp(k))
    case PubComp(k) =>
      s.WithCell(k, s.IsCls(k), s.CellOf(k, s.IsCls(k)).Publish()).(mpc := AwaitComp(k))
    case AwaitComp(k) =>
      s.(mpc := if s.IsCls(k) then EraseComp(k) else NextComp(k + 1))
    case EraseComp(k) =>
      s.(tab := s.tab[k := s.tab[k].Write(BLANK)], mpc := NextComp(k + 1))
  }

  function NewHome(s: State, m': Mng): seq<nat>
    requires s.Shape() && |m'.comps| == s.N()
  {
    seq(s.N(), i requires 0 <= i < s.N() =>
      if Live(m'.comps[i]) && !Live(s.m.comps[i]) then m'.comps[i].lcore else s.home[i])
  }

  function WorkStep(s: State, w: nat): State
    requires s.Shape() && w < s.N() && !s.wpc[w].Off? && WorkEnabled(s, w)
  {
    match s.wpc[w]
    case AtTop => s.(wpc := s.wpc[w := if s.core[w].Pending() then FlipCore else Next(0)])
    case FlipCore => s.(core := s.core[w := s.core[w].Flip()], wpc := s.wpc[w := Next(0)])
    case Next(i) =>
      s.(wpc := s.wpc[w := if i >= |s.List(w)| then AtTop
                           else var id := s.List(w)[i]; TestComp(i, id, s.IsCls(id))])
    case TestComp(i, id, cls) =>
      s.(wpc := s.wpc[w := if s.CellOf(id, cls).Pending() then FlipComp(i, id, cls) else UseComp(i, id, cls)])
    case FlipComp(i, id, cls) =>
      s.WithCell(id, cls, s.CellOf(id, cls).Flip()).(wpc := s.wpc[w := UseComp(i, id, cls)])
    case UseComp(i, id, cls) => s.(wpc := s.wpc[w := Next(i + 1)])
  }

  lemma ApplyShape(s: State, step: Step)
    requires s.Shape() && Enabled(s, step)
    ensures Apply(s, step).Shape()
  {
    if step.Work? {
      WorkShape(s, step.w);
    } else if step.Manage? {
      ManageShape(s);
    }
  }

  lemma WorkShape(s: State, w: nat)
    requires s.Shape() && w < s.N() && !s.wpc[w].Off? && WorkEnabled(s, w)
    ensures WorkStep(s, w).Shape()
  {
  }

  lemma ManageShape(s: State)
    requires s.Shape() && ManageEnabled(s)
    ensures ManageStep(s).Shape()
  {
  }

  ghost predicate Runs(s: State, steps: seq<Step>)
    requires s.Shape()
    decreases |steps|
  {
    steps == [] || (Enabled(s, steps[0]) && (ApplyShape(s, steps[0]); Runs(Apply(s, steps[0]), steps[1..])))
  }

  ghost function After(s: State, steps: seq<Step>): (e: State)
    requires s.Shape() && Runs(s, steps)
    ensures e.Shape()
    decreases |steps|
  {
    if steps == [] then s else (ApplyShape(s, steps[0]); After(Apply(s, steps[0]), steps[1..]))
  }

  // ----- Where the manager is in its flush -----

  /** The list of `l` has been published and not copied back yet. */
  predicate Published(s: State, l: nat)
    requires s.Shape() && l < s.N()
  {
    s.m.chgCore[l] && (match s.mpc
                       case PubCore(k) => l < k
                       case AwaitCore(k) => k <= l
                       case CopyBack(k) => k <= l
                       case _ => false)
  }

  /** The worker of `l` may still be using the list from before the edit. */
  predicate Dirty(s: State, l: nat)
    requires s.Shape() && l < s.N()
  {
    s.m.chgCore[l] && (match s.mpc
                       case PubCore(k) => true
                       case AwaitCore(k) => k <= l
                       case CopyBack(k) => k <= l
                       case _ => false)
  }

  /** The manager is handing component `id` its classifier table. */
  predicate Handing(s: State, id: nat)
    requires s.Shape() && id < s.N()
  {
    s.IsCls(id) && (s.mpc == PubComp(id) || s.mpc == AwaitComp(id))
  }

  // ----- The invariant -----

  ghost predicate CoreOk(s: State, l: nat)
    requires s.Shape() && l < s.N()
  {
    var c := s.core[l];
    && (if Published(s, l) then c.area[1 - c.upd] == s.m.pend[l]
        else !c.Pending() && c.area[c.upd] == s.m.pend[l])
    && (!Dirty(s, l) ==> s.List(l) == s.m.pend[l])
    && (s.wpc[l].Off? && Published(s, l) ==> c.Pending())
    && (s.wpc[l].Off? && s.m.pend[l] != [] ==> Dirty(s, l))
  }

  /** Every id on an active list belongs there. */
  ghost predicate ListOk(s: State, l: nat)
    requires s.Shape() && l < s.N()
  {
    forall k :: 0 <= k < |s.List(l)| ==> s.List(l)[k] < s.N() && s.home[s.List(l)[k]] == l
  }

  /** The worker stands at entry `i` of its list, which is `id`, and treats it as its type says. */
  ghost predicate At(s: State, w: nat, i: nat, id: nat, cls: bool)
    requires s.Shape() && w < s.N()
  {
    i < |s.List(w)| && s.List(w)[i] == id && id < s.N() && (Live(s.m.comps[id]) ==> cls == s.IsCls(id))
  }

  ghost predicate WorkerOk(s: State, w: nat)
    requires s.Shape() && w < s.N()
  {
    match s.wpc[w]
    case Off => true
    case AtTop => true
    case FlipCore => s.core[w].Pending()
    case Next(i) => i <= |s.List(w)|
    case TestComp(i, id, cls) => At(s, w, i, id, cls)
    case FlipComp(i, id, cls) => At(s, w, i, id, cls) && s.CellOf(id, cls).Pending()
    case UseComp(i, id, cls) => At(s, w, i, id, cls)
  }

  ghost predicate CompOk(s: State, id: nat)
    requires s.Shape() && id < s.N()
  {
    && (s.path[id].Pending() ==> s.mpc == AwaitComp(id) && !s.IsCls(id))
    && (s.tab[id].Pending() ==> Handing(s, id) || s.tab[id].area == [BLANK, BLANK])
    && (!Handing(s, id) && s.mpc != EraseComp(id) ==> s.tab[id].area[s.tab[id].upd] == BLANK)
    && (Live(s.m.comps[id]) ==> s.home[id] == s.m.comps[id].lcore)
  }

  ghost predicate ManagerOk(s: State)
    requires s.Shape()
  {
    match s.mpc
    case Ready => NoFlags(s)
    case Editing(cmd) => NoFlags(s) && Decodable(cmd)
    case PubCore(k) => k <= s.N()
    case AwaitCore(k) => k <= s.N()
    case CopyBack(k) => k < s.N() && s.m.chgCore[k] && !s.core[k].Pending()
    case NextComp(k) => k <= s.N()
    case FillComp(k) => k < s.N() && s.m.chgComp[k]
    case PubComp(k) => k < s.N() && s.m.chgComp[k]
    case AwaitComp(k) => k < s.N() && s.m.chgComp[k]
    case EraseComp(k) => k < s.N() && s.m.chgComp[k] && s.IsCls(k) && !s.tab[k].Pending()
  }

  ghost predicate NoFlags(s: State)
    requires s.Shape()
  {
    forall l :: 0 <= l < s.N() ==> !s.m.chgCore[l] && !s.m.chgComp[l]
  }

  /** What holds of lcore, list, worker and component number `l`. */
  ghost predicate AtOk(s: State, l: nat)
    requires s.Shape() && l < s.N()
  {
    CoreOk(s, l) && ListOk(s, l) && WorkerOk(s, l) && CompOk(s, l)
  }

  ghost predicate Inv(s: State) {
    && s.Shape()
    && Managed(s.m)
    && ManagerOk(s)
    && (forall l: nat :: l < s.N() ==> AtOk(s, l))
  }

  lemma StartInv(n: nat, workers: set<nat>, main: nat, maxPorts: nat, phys: set<PortIndex>)
    ensures Inv(Start0(n, workers, main, maxPorts, phys))
  {
    InitManaged(n, seq(n, l => l in workers || l == main), maxPorts, phys);
    var s := Start0(n, workers, main, maxPorts, phys);
    forall l: nat | l < n ensures AtOk(s, l) {
    }
  }

  // ----- Worker steps keep the invariant -----

  /** A step that only moves the worker. */
  lemma MoveInv(s: State, w: nat, pc: Wpc)
    requires Inv(s) && w < s.N() && !s.wpc[w].Off? && !pc.Off?
    requires WorkerOk(s.(wpc := s.wpc[w := pc]), w)
    ensures Inv(s.(wpc := s.wpc[w := pc]))
  {
    var s' := s.(wpc := s.wpc[w := pc]);
    forall l: nat | l < s.N() ensures AtOk(s', l) {
      assert AtOk(s, l);
      assert s'.List(l) == s.List(l);
    }
  }

  lemma FlipCoreInv(s: State, w: nat)
    requires Inv(s) && w < s.N() && s.wpc[w].FlipCore?
    ensures Inv(WorkStep(s, w))
  {
    var s' := WorkStep(s, w);
    forall l: nat | l < s.N() ensures AtOk(s', l) {
      assert AtOk(s, l);
      if l == w {
        NewListOk(s, w);
      } else {
        FlipCoreOther(s, w, l);
      }
    }
  }

  lemma FlipCoreOther(s: State, w: nat, l: nat)
    requires Inv(s) && w < s.N() && s.wpc[w].FlipCore? && l < s.N() && l != w
    ensures AtOk(WorkStep(s, w), l)
  {
    assert AtOk(s, l);
    assert WorkStep(s, w).List(l) == s.List(l);
  }

  /** The list a worker flips to holds live ids of its own lcore. */
  lemma NewListOk(s: State, w: nat)
    requires Inv(s) && w < s.N() && s.wpc[w].FlipCore?
    ensures var s' := WorkStep(s, w); CoreOk(s', w) && ListOk(s', w)
  {
    var s' := WorkStep(s, w);
    assert AtOk(s, w);
    assert s'.List(w) == s.m.pend[w];
    forall k | 0 <= k < |s'.List(w)| ensures s'.List(w)[k] < s.N() && s'.home[s'.List(w)[k]] == w {
      var id := s.m.pend[w][k];
      assert AtOk(s, id);
    }
  }

  /** Two workers never stand at the same component. */
  lemma DifferentIds(s: State, w: nat, v: nat)
    requires Inv(s) && w < s.N() && v < s.N() && w != v
    requires s.wpc[w].TestComp? || s.wpc[w].FlipComp? || s.wpc[w].UseComp?
    requires s.wpc[v].TestComp? || s.wpc[v].FlipComp? || s.wpc[v].UseComp?
    ensures s.wpc[w].id != s.wpc[v].id
  {
    assert AtOk(s, w) && AtOk(s, v);
    assert s.home[s.List(w)[s.wpc[w].i]] == w && s.home[s.List(v)[s.wpc[v].i]] == v;
  }

  lemma FlipCompInv(s: State, w: nat)
    requires Inv(s) && w < s.N() && s.wpc[w].FlipComp? && WorkEnabled(s, w)
    ensures Inv(WorkStep(s, w))
  {
    FlippedManager(s, w);
    forall l: nat | l < s.N() ensures AtOk(WorkStep(s, w), l) {
      FlippedCore(s, w, l);
      FlippedComp(s, w, l);
      FlippedWorker(s, w, l);
    }
  }

  lemma FlippedManager(s: State, w: nat)
    requires Inv(s) && w < s.N() && s.wpc[w].FlipComp? && WorkEnabled(s, w)
    ensures var s' := WorkStep(s, w); s'.Shape() && Managed(s'.m) && ManagerOk(s')
  {
    assert AtOk(s, w);
  }

  lemma FlipCompLists(s: State, w: nat)
    requires Inv(s) && w < s.N() && s.wpc[w].FlipComp? && WorkEnabled(s, w)
    ensures var s' := WorkStep(s, w);
            && s'.Shape() && s'.m == s.m && s'.core == s.core && s'.home == s.home && s'.mpc == s.mpc
            && (forall l: nat :: l < s.N() ==> s'.List(l) == s.List(l) && (s'.wpc[l].Off? == s.wpc[l].Off?))
  {
  }

  lemma FlippedCore(s: State, w: nat, l: nat)
    requires Inv(s) && w < s.N() && l < s.N() && s.wpc[w].FlipComp? && WorkEnabled(s, w)
    ensures CoreOk(WorkStep(s, w), l) && ListOk(WorkStep(s, w), l)
  {
    assert AtOk(s, l);
    FlipCompLists(s, w);
    ListsKept(s, WorkStep(s, w), l);
  }

  lemma ListsKept(s: State, s': State, l: nat)
    requires s.Shape() && s'.Shape() && s'.m == s.m && s'.core == s.core && s'.home == s.home && s'.mpc == s.mpc
    requires l < s.N() && (s'.wpc[l].Off? == s.wpc[l].Off?) && CoreOk(s, l) && ListOk(s, l)
    ensures CoreOk(s', l) && ListOk(s', l)
  {
    assert s'.List(l) == s.List(l);
  }

  lemma FlippedComp(s: State, w: nat, l: nat)
    requires Inv(s) && w < s.N() && l < s.N() && s.wpc[w].FlipComp? && WorkEnabled(s, w)
    ensures CompOk(WorkStep(s, w), l)
  {
    assert AtOk(s, w) && AtOk(s, l);
  }

  lemma FlippedWorker(s: State, w: nat, l: nat)
    requires Inv(s) && w < s.N() && l < s.N() && s.wpc[w].FlipComp? && WorkEnabled(s, w)
    ensures WorkerOk(WorkStep(s, w), l)
  {
    assert AtOk(s, w);
    assert WorkStep(s, w).List(l) == s.List(l);
    if l != w {
      FlippedOther(s, w, l);
    }
  }

  lemma FlippedOther(s: State, w: nat, l: nat)
    requires Inv(s) && w < s.N() && l < s.N() && l != w && s.wpc[w].FlipComp? && WorkEnabled(s, w)
    ensures WorkerOk(WorkStep(s, w), l)
  {
    assert AtOk(s, l);
    FlipCompLists(s, w);
    if s.wpc[l].FlipComp? {
      DifferentIds(s, w, l);
      OtherCellKept(s, w, s.wpc[l].id, s.wpc[l].cls);
    }
  }

  lemma OtherCellKept(s: State, w: nat, id: nat, cls: bool)
    requires s.Shape() && w < s.N() && s.wpc[w].FlipComp? && WorkEnabled(s, w) && id < s.N() && id != s.wpc[w].id
    ensures WorkStep(s, w).Shape() && WorkStep(s, w).CellOf(id, cls) == s.CellOf(id, cls)
  {
  }

  lemma WorkInv(s: State, w: nat)
    requires Inv(s) && w < s.N() && !s.wpc[w].Off?
    ensures WorkEnabled(s, w) && Inv(WorkStep(s, w))
  {
    assert AtOk(s, w);
    if s.wpc[w].FlipCore? {
      FlipCoreInv(s, w);
    } else if s.wpc[w].FlipComp? {
      FlipCompInv(s, w);
    } else {
      MoveInv(s, w, WorkStep(s, w).wpc[w]);
    }
  }

  // ----- Manager steps keep the invariant -----

  /** A step that only moves the manager. */
  lemma ManagerMoveInv(s: State, pc: Mpc)
    requires Inv(s) && ManagerOk(s.(mpc := pc))
    requires forall l: nat :: l < s.N() ==> Published(s.(mpc := pc), l) == Published(s, l)
    requires forall l: nat :: l < s.N() ==> Dirty(s.(mpc := pc), l) == Dirty(s, l)
    requires forall id: nat :: id < s.N() && CompOk(s, id) ==> CompOk(s.(mpc := pc), id)
    ensures Inv(s.(mpc := pc))
  {
    var s' := s.(mpc := pc);
    forall l: nat | l < s.N() ensures AtOk(s', l) {
      assert AtOk(s, l);
      assert s'.List(l) == s.List(l);
    }
  }

  /** Publishing a list, or copying it back, changes the spare side of one core cell. */
  ghost predicate SpareSide(s: State) {
    && Inv(s)
    && ((s.mpc.PubCore? && s.mpc.k < s.N() && s.m.chgCore[s.mpc.k]) || s.mpc.CopyBack?)
  }

  lemma SpareSideStep(s: State, l: nat)
    requires SpareSide(s) && l < s.N()
    ensures ManageEnabled(s) && ManageStep(s).Shape() && ManageStep(s).List(l) == s.List(l)
    ensures s.core[l].Pending() ==> ManageStep(s).core[l].Pending()
  {
    assert AtOk(s, l);
  }

  lemma SpareSideCore(s: State, l: nat)
    requires SpareSide(s) && l < s.N()
    ensures ManageEnabled(s) && ManageStep(s).Shape() && CoreOk(ManageStep(s), l)
  {
    SpareSideStep(s, l);
    if l == s.mpc.k {
      OwnSpareSide(s);
    } else {
      assert AtOk(s, l);
      assert ManageStep(s).core[l] == s.core[l];
    }
  }

  lemma OwnSpareSide(s: State)
    requires SpareSide(s) && ManageEnabled(s) && ManageStep(s).Shape()
    ensures CoreOk(ManageStep(s), s.mpc.k)
  {
    assert AtOk(s, s.mpc.k);
  }

  lemma SpareSideRest(s: State, l: nat)
    requires SpareSide(s) && l < s.N()
    ensures ManageEnabled(s) && ManageStep(s).Shape()
    ensures ListOk(ManageStep(s), l) && WorkerOk(ManageStep(s), l) && CompOk(ManageStep(s), l)
  {
    SpareSideStep(s, l);
    assert AtOk(s, l);
  }

  lemma SpareSideInv(s: State)
    requires SpareSide(s)
    ensures ManageEnabled(s) && Inv(ManageStep(s))
  {
    forall l: nat | l < s.N() ensures AtOk(ManageStep(s), l) {
      SpareSideCore(s, l);
      SpareSideRest(s, l);
    }
  }

  lemma FlushDoneInv(s: State)
    requires Inv(s) && s.mpc == NextComp(s.N())
    ensures Inv(ManageStep(s))
  {
    var s' := ManageStep(s);
    forall l: nat | l < s.N() ensures AtOk(s', l) {
      assert AtOk(s, l);
      assert s'.List(l) == s.List(l);
    }
  }

  /** The manager's steps on component cells leave lists and workers' positions alone. */
  ghost predicate SameLists(s: State, s': State) {
    && s.Shape() && s'.Shape() && s'.m == s.m && s'.core == s.core && s'.wpc == s.wpc && s'.home == s.home
    && forall l: nat :: l < s.N() ==> Published(s', l) == Published(s, l) && Dirty(s', l) == Dirty(s, l)
  }

  lemma SameCore(s: State, s': State, l: nat)
    requires SameLists(s, s') && l < s.N() && CoreOk(s, l) && ListOk(s, l)
    ensures CoreOk(s', l) && ListOk(s', l)
  {
    assert s'.List(l) == s.List(l);
  }

  lemma SameWorker(s: State, s': State, l: nat)
    requires SameLists(s, s') && l < s.N() && WorkerOk(s, l)
    requires s.wpc[l].FlipComp? ==>
               var id, cls := s.wpc[l].id, s.wpc[l].cls;
               id < s.N() && (s.CellOf(id, cls).Pending() ==> s'.CellOf(id, cls).Pending())
    ensures WorkerOk(s', l)
  {
    assert s'.List(l) == s.List(l);
  }

  /** The cell the manager has rewritten. */
  lemma CellStep(s: State)
    requires Inv(s) && (s.mpc.FillComp? || s.mpc.PubComp? || s.mpc.EraseComp?)
    ensures ManageEnabled(s) && SameLists(s, ManageStep(s))
    ensures forall id: nat, cls :: id < s.N() && s.CellOf(id, cls).Pending() ==> ManageStep(s).CellOf(id, cls).Pending()
  {
    ManageShape(s);
  }

  lemma FillCompOk(s: State, l: nat)
    requires Inv(s) && s.mpc.FillComp? && l < s.N()
    ensures ManageEnabled(s) && ManageStep(s).Shape() && CompOk(ManageStep(s), l)
  {
    assert AtOk(s, l);
  }

  lemma PublishCompOk(s: State, l: nat)
    requires Inv(s) && s.mpc.PubComp? && l < s.N()
    ensures ManageEnabled(s) && ManageStep(s).Shape() && CompOk(ManageStep(s), l)
  {
    assert AtOk(s, l);
  }

  lemma EraseCompOk(s: State, l: nat)
    requires Inv(s) && s.mpc.EraseComp? && l < s.N()
    ensures ManageEnabled(s) && ManageStep(s).Shape() && CompOk(ManageStep(s), l)
  {
    assert AtOk(s, l);
  }

  lemma CellAt(s: State, l: nat)
    requires Inv(s) && (s.mpc.FillComp? || s.mpc.PubComp? || s.mpc.EraseComp?) && l < s.N()
    ensures ManageEnabled(s) && ManageStep(s).Shape() && AtOk(ManageStep(s), l)
  {
    CellStep(s);
    assert AtOk(s, l);
    SameCore(s, ManageStep(s), l);
    SameWorker(s, ManageStep(s), l);
    if s.mpc.FillComp? {
      FillCompOk(s, l);
    } else if s.mpc.PubComp? {
      PublishCompOk(s, l);
    } else {
      EraseCompOk(s, l);
    }
  }

  /** A step that rewrites or publishes one component cell. */
  lemma CellInv(s: State)
    requires Inv(s) && (s.mpc.FillComp? || s.mpc.PubComp? || s.mpc.EraseComp?)
    ensures ManageEnabled(s) && Inv(ManageStep(s))
  {
    CellStep(s);
    forall l: nat | l < s.N() ensures AtOk(ManageStep(s), l) {
      CellAt(s, l);
    }
  }

  /** The edit works on the lists the invariant says it does. */
  lemma EditPending(s: State)
    requires Inv(s) && s.mpc.Editing?
    ensures s.m.(pend := s.PendingLists()) == s.m
    ensures forall l: nat :: l < s.N() ==> s.List(l) == s.m.pend[l] && !s.core[l].Pending()
  {
    forall l: nat | l < s.N()
      ensures s.PendingLists()[l] == s.m.pend[l] && s.List(l) == s.m.pend[l] && !s.core[l].Pending()
    {
      assert AtOk(s, l);
    }
    assert s.PendingLists() == s.m.pend;
  }

  /** An accepted command flags the core whose list it edits. */
  lemma EditLists(m: Mng, cmd: Management.Command, l: nat)
    requires Managed(m) && Execute(m, cmd).Some? && l < |m.comps|
    ensures var m' := Execute(m, cmd).value;
            !m'.chgCore[l] ==> m'.pend[l] == m.pend[l]
  {
  }

  /** It leaves type and lcore of a component that stays live alone. */
  lemma EditTypes(m: Mng, cmd: Management.Command, id: nat)
    requires Managed(m) && Execute(m, cmd).Some? && id < |m.comps|
    ensures var m' := Execute(m, cmd).value;
            Live(m.comps[id]) && Live(m'.comps[id]) ==>
              m'.comps[id].typ == m.comps[id].typ && m'.comps[id].lcore == m.comps[id].lcore
  {
  }

  lemma EditInv(s: State)
    requires Inv(s) && s.mpc.Editing?
    ensures Inv(ManageStep(s))
  {
    EditPending(s);
    var cmd := s.mpc.cmd;
    match Execute(s.m, cmd)
    case None => ManagerMoveInv(s, Ready);
    case Some(m') =>
      ExecuteManaged(s.m, cmd);
      forall l: nat | l < s.N() ensures AtOk(ManageStep(s), l) {
        EditAt(s, l);
      }
  }

  /** The edit has been accepted. */
  ghost predicate Accepted(s: State) {
    && Inv(s) && s.mpc.Editing? && Execute(s.m, s.mpc.cmd).Some?
    && s.m.(pend := s.PendingLists()) == s.m
    && Managed(Execute(s.m, s.mpc.cmd).value)
    && forall l: nat :: l < s.N() ==> s.List(l) == s.m.pend[l] && !s.core[l].Pending()
  }

  lemma EditAt(s: State, l: nat)
    requires Accepted(s) && l < s.N()
    ensures AtOk(ManageStep(s), l)
  {
    assert AtOk(s, l);
    EditCore(s, l);
    EditList(s, l);
    EditWorker(s, l);
    EditComp(s, l);
  }

  lemma EditCore(s: State, l: nat)
    requires Accepted(s) && l < s.N()
    ensures CoreOk(ManageStep(s), l) && ManageStep(s).List(l) == s.List(l)
  {
    assert AtOk(s, l);
    EditLists(s.m, s.mpc.cmd, l);
  }

  lemma EditList(s: State, l: nat)
    requires Accepted(s) && l < s.N()
    ensures ListOk(ManageStep(s), l)
  {
    EditCore(s, l);
    assert AtOk(s, l);
    forall k | 0 <= k < |s.List(l)| ensures Live(s.m.comps[s.List(l)[k]]) {
      assert s.m.pend[l][k] < s.N();
    }
  }

  lemma EditWorker(s: State, l: nat)
    requires Accepted(s) && l < s.N()
    ensures WorkerOk(ManageStep(s), l)
  {
    EditCore(s, l);
    assert AtOk(s, l);
    var pc := s.wpc[l];
    if pc.TestComp? || pc.FlipComp? || pc.UseComp? {
      EditTypes(s.m, s.mpc.cmd, pc.id);
      assert Live(s.m.comps[s.m.pend[l][pc.i]]);
    }
  }

  lemma EditComp(s: State, l: nat)
    requires Accepted(s) && l < s.N()
    ensures CompOk(ManageStep(s), l)
  {
    assert AtOk(s, l);
    EditTypes(s.m, s.mpc.cmd, l);
  }

  lemma ManageCoreInv(s: State)
    requires Inv(s) && ManageEnabled(s)
    requires s.mpc.Editing? || s.mpc.PubCore? || s.mpc.AwaitCore? || s.mpc.CopyBack?
    ensures Inv(ManageStep(s))
  {
    if s.mpc.Editing? {
      EditInv(s);
    } else if SpareSide(s) {
      SpareSideInv(s);
    } else {
      ManagerMoveInv(s, ManageStep(s).mpc);
    }
  }

  lemma ManageCompInv(s: State)
    requires Inv(s) && ManageEnabled(s)
    requires !s.mpc.Editing? && !s.mpc.PubCore? && !s.mpc.AwaitCore? && !s.mpc.CopyBack?
    ensures Inv(ManageStep(s))
  {
    if s.mpc.NextComp? {
      if s.mpc.k == s.N() {
        FlushDoneInv(s);
      } else {
        ManagerMoveInv(s, ManageStep(s).mpc);
      }
    } else if s.mpc.AwaitComp? {
      assert AtOk(s, s.mpc.k);
      ManagerMoveInv(s, ManageStep(s).mpc);
    } else {
      CellInv(s);
    }
  }

  lemma ManageInv(s: State)
    requires Inv(s) && ManageEnabled(s)
    ensures Inv(ManageStep(s))
  {
    if s.mpc.Editing? || s.mpc.PubCore? || s.mpc.AwaitCore? || s.mpc.CopyBack? {
      ManageCoreInv(s);
    } else {
      ManageCompInv(s);
    }
  }

  lemma StepInv(s: State, step: Step)
    requires Inv(s) && Enabled(s, step)
    ensures Inv(Apply(s, step))
  {
    match step
    case Command(cmd) => ManagerMoveInv(s, Editing(cmd));
    case Manage => ManageInv(s);
    case Work(w) => WorkInv(s, w);
  }

  /** Every state of every run. */
  lemma {:induction false} RunInv(s: State, steps: seq<Step>)
    requires Inv(s) && Runs(s, steps)
    ensures Inv(After(s, steps))
    decreases |steps|
  {
    if steps != [] {
      StepInv(s, steps[0]);
      RunInv(Apply(s, steps[0]), steps[1..]);
    }
  }
}

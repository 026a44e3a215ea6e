/** The two-area handover between the manager thread and one worker.

    A cell has two areas and two indices.  The worker reads the area at `ref`.
    The manager fills the area at `upd`, publishes it with `upd := ref`, and spins
    until the worker has moved `ref` to the other area at the start of one of its
    iterations.  Core lists, forwarder paths and classifier tables are all handed
    over this way; they differ in what happens around the flip (see `Kind`).

    The two threads interleave freely.  A run is a sequence of steps; every theorem
    below is about all runs. */
module Handover {

  datatype Cell<+A> = Cell(ref: nat, upd: nat, area: seq<A>) {
    predicate Valid() { ref < 2 && upd < 2 && |area| == 2 }

    /** The manager has published and the worker has not flipped yet, or, for a
        classifier that has never run, the indices still have their initial values. */
    predicate Pending() { ref == upd }

    function Active(): A requires Valid() { area[ref] }

    function Write(a: A): Cell<A> requires Valid() { this.(area := area[upd := a]) }

    function Publish(): Cell<A> { this.(upd := ref) }

    function Flip(): Cell<A> { this.(ref := (upd + 1) % 2) }
  }

  /** What differs between the users of a cell.
      - `Forwarder`: nothing happens around the flip.
      - `Classifier`: the worker empties the transmit buffers of the old area before it
        flips, and the manager erases the old area after the flip.
      - `CoreList`: the manager copies the new area over the old one after the flip. */
  datatype Kind<+A> = Forwarder | Classifier(blank: A) | CoreList

  datatype Manager<+A> =
    | Idle
    | Filling(snap: A)    // the update area is being written
    | Filled(snap: A)     // the update area holds the snapshot, not published
    | Waiting(snap: A)    // published, spinning on ref == upd
    | Restoring(snap: A)  // erasing or copying back the old area

  datatype Worker =
    | Top                 // about to test the indices
    | Flipping            // has seen ref == upd, has not written ref yet
    | Using(area: nat)    // runs one iteration on that area

  datatype State<+A> = State(cell: Cell<A>, mgr: Manager<A>, wrk: Worker)

  datatype Step<+A> =
    | Begin(snap: A) | Scribble(junk: A) | Fill | Publish | Return | Restore
    | Test | Flip | Done

  predicate Restores<A>(k: Kind<A>) { !k.Forwarder? }

  predicate Enabled<A>(k: Kind<A>, s: State<A>, step: Step<A>) {
    match step
    case Begin(_) => s.mgr.Idle?
    case Scribble(_) => s.mgr.Filling? || s.mgr.Restoring?
    case Fill => s.mgr.Filling?
    case Publish => s.mgr.Filled?
    case Return => s.mgr.Waiting? && !s.cell.Pending()
    case Restore => s.mgr.Restoring?
    case Test => s.wrk.Top?
    case Flip => s.wrk.Flipping?
    case Done => s.wrk.Using?
  }

  function Apply<A>(k: Kind<A>, s: State<A>, step: Step<A>): State<A>
    requires s.cell.Valid() && Enabled(k, s, step)
  {
    match step
    case Begin(snap) => s.(mgr := Filling(snap))
    case Scribble(junk) => s.(cell := s.cell.Write(junk))
    case Fill => s.(cell := s.cell.Write(s.mgr.snap), mgr := Filled(s.mgr.snap))
    case Publish => s.(cell := s.cell.Publish(), mgr := Waiting(s.mgr.snap))
    case Return => s.(mgr := if Restores(k) then Restoring(s.mgr.snap) else Idle)
    case Restore =>
      s.(cell := s.cell.Write(if k.Classifier? then k.blank else s.cell.Active()), mgr := Idle)
    case Test => s.(wrk := if s.cell.Pending() then Flipping else Using(s.cell.ref))
    case Flip => var c := s.cell.Flip(); s.(cell := c, wrk := Using(c.ref))
    case Done => s.(wrk := Top)
  }

  /** Every step of the sequence is enabled when its turn comes. */
  predicate Runs<A>(k: Kind<A>, s: State<A>, steps: seq<Step<A>>)
    requires s.cell.Valid()
    decreases |steps|
  {
    steps == [] || (Enabled(k, s, steps[0]) && Runs(k, Apply(k, s, steps[0]), steps[1..]))
  }

  function After<A>(k: Kind<A>, s: State<A>, steps: seq<Step<A>>): (e: State<A>)
    requires s.cell.Valid() && Runs(k, s, steps)
    ensures e.cell.Valid()
    decreases |steps|
  {
    if steps == [] then s else After(k, Apply(k, s, steps[0]), steps[1..])
  }

  predicate WritesArea<A>(s: State<A>, i: nat) {
    (s.mgr.Filling? || s.mgr.Restoring?) && i == s.cell.upd
  }

  /** A draining worker also reads the old area between its test and its flip. */
  predicate ReadsArea<A>(k: Kind<A>, s: State<A>, i: nat) {
    || (s.wrk.Using? && i == s.wrk.area)
    || (k.Classifier? && s.wrk.Flipping? && i == s.cell.ref)
  }

  predicate Conflict<A>(k: Kind<A>, s: State<A>) {
    WritesArea(s, s.cell.upd) && ReadsArea(k, s, s.cell.upd)
  }

  // ----- The invariant -----

  /** The worker is between two tests, on the area it would read. */
  predicate OnActive<A>(s: State<A>) {
    s.wrk.Top? || s.wrk == Using(s.cell.ref)
  }

  /** `live` is the snapshot of the last completed update. */
  ghost predicate Inv<A>(k: Kind<A>, s: State<A>, live: A) {
    && s.cell.Valid()
    && match s.mgr
       case Idle => !s.cell.Pending() && OnActive(s) && s.cell.Active() == live
       case Filling(_) => !s.cell.Pending() && OnActive(s) && s.cell.Active() == live
       case Filled(snap) =>
         && !s.cell.Pending() && OnActive(s) && s.cell.Active() == live
         && s.cell.area[s.cell.upd] == snap
       case Waiting(snap) =>
         if s.cell.Pending()
         then (OnActive(s) || s.wrk.Flipping?) && s.cell.Active() == live && s.cell.area[1 - s.cell.ref] == snap
         else OnActive(s) && s.cell.Active() == snap
       case Restoring(snap) =>
         !s.cell.Pending() && OnActive(s) && s.cell.Active() == snap && Restores(k)
  }

  /** The snapshot counted as live once `step` has been taken. */
  function LiveAfter<A>(k: Kind<A>, s: State<A>, live: A, step: Step<A>): A
    requires Enabled(k, s, step)
  {
    if (step.Return? && !Restores(k)) || step.Restore? then s.mgr.snap else live
  }

  lemma InvStep<A>(k: Kind<A>, s: State<A>, live: A, step: Step<A>)
    requires Inv(k, s, live) && Enabled(k, s, step)
    ensures Inv(k, Apply(k, s, step), LiveAfter(k, s, live, step))
  {
  }

  /** The last snapshot whose update has returned, following the run. */
  function Delivered<A>(k: Kind<A>, s: State<A>, live: A, steps: seq<Step<A>>): A
    requires s.cell.Valid() && Runs(k, s, steps)
    decreases |steps|
  {
    if steps == [] then live
    else Delivered(k, Apply(k, s, steps[0]), LiveAfter(k, s, live, steps[0]), steps[1..])
  }

  lemma {:induction false} InvRun<A>(k: Kind<A>, s: State<A>, live: A, steps: seq<Step<A>>)
    requires Inv(k, s, live) && Runs(k, s, steps)
    ensures Inv(k, After(k, s, steps), Delivered(k, s, live, steps))
    decreases |steps|
  {
    if steps != [] {
      InvStep(k, s, live, steps[0]);
      InvRun(k, Apply(k, s, steps[0]), LiveAfter(k, s, live, steps[0]), steps[1..]);
    }
  }

  // ----- What an update promises -----

  /** From a settled cell, no run ever has the worker on the area being written, and
      whenever the manager is not in the middle of a publication the worker uses exactly
      the snapshot of the last update that returned. */
  lemma {:induction false} SafeAndCurrent<A>(k: Kind<A>, s: State<A>, steps: seq<Step<A>>)
    requires s.cell.Valid() && s.mgr.Idle? && !s.cell.Pending() && OnActive(s)
    requires Runs(k, s, steps)
    ensures var e := After(k, s, steps);
            && !Conflict(k, e)
            && (e.mgr.Idle? || e.mgr.Filling? || e.mgr.Filled? ==>
                  e.cell.Active() == Delivered(k, s, s.cell.Active(), steps))
            && (e.wrk.Using? ==> e.wrk.area == e.cell.ref)
  {
    InvRun(k, s, s.cell.Active(), steps);
  }

  /** An update of `snap` entered in `s`: whatever the interleaving, when the call has
      returned the worker's area holds `snap`. */
  ghost predicate UpdateDelivers<A(!new)>(k: Kind<A>, s: State<A>, snap: A)
    requires s.cell.Valid() && s.mgr.Idle?
  {
    forall steps: seq<Step<A>> ::
      Runs(k, s, [Begin(snap)] + steps) && OneUpdate(steps)
      && After(k, s, [Begin(snap)] + steps).mgr.Idle?
      ==> After(k, s, [Begin(snap)] + steps).cell.Active() == snap
  }

  predicate OneUpdate<A>(steps: seq<Step<A>>) {
    forall i :: 0 <= i < |steps| ==> !steps[i].Begin?
  }

  /** While no further update begins, the snapshot on its way stays the same and is the
      live one as soon as the manager is idle again. */
  lemma {:induction false} CarriesSnapshot<A>(k: Kind<A>, s: State<A>, live: A, snap: A, steps: seq<Step<A>>)
    requires Inv(k, s, live) && Runs(k, s, steps) && OneUpdate(steps)
    requires if s.mgr.Idle? then live == snap else s.mgr.snap == snap
    ensures After(k, s, steps).mgr.Idle? ==> Delivered(k, s, live, steps) == snap
    decreases |steps|
  {
    if steps != [] {
      InvStep(k, s, live, steps[0]);
      assert OneUpdate(steps[1..]);
      CarriesSnapshot(k, Apply(k, s, steps[0]), LiveAfter(k, s, live, steps[0]), snap, steps[1..]);
    }
  }

  /** The run on which an update entered with `ref == upd` is lost: the worker makes its
      first flip only after the publication and lands on the area that was not filled. */
  function LosingRun<A>(k: Kind<A>): seq<Step<A>> {
    [Fill, Publish, Test, Flip, Return] + (if Restores(k) then [Restore] else [])
  }

  lemma LosingRunLoses<A>(k: Kind<A>, s: State<A>, snap: A)
    requires s.cell.Valid() && s.mgr.Idle? && s.wrk.Top? && s.cell.Pending()
    ensures Runs(k, s, [Begin(snap)] + LosingRun(k)) && OneUpdate(LosingRun(k))
    ensures var e := After(k, s, [Begin(snap)] + LosingRun(k));
            e.mgr.Idle? && e.cell.Active() == s.cell.area[1 - s.cell.ref]
  {
    var s1 := Apply(k, s, Begin(snap));
    var s2 := Apply(k, s1, Fill);
    var s3 := Apply(k, s2, Publish);
    var tail: seq<Step<A>> := if Restores(k) then [Restore] else [];
    LosingTail(k, s3);
    RunCons(k, s2, Publish, [Test] + ([Flip] + ([Return] + tail)));
    RunCons(k, s1, Fill, [Publish] + ([Test] + ([Flip] + ([Return] + tail))));
    var rest := [Fill] + ([Publish] + ([Test] + ([Flip] + ([Return] + tail))));
    RunCons(k, s, Begin(snap), rest);
    assert rest == LosingRun(k);
  }

  /** Once published, with the worker about to test. */
  lemma LosingTail<A>(k: Kind<A>, s: State<A>)
    requires s.cell.Valid() && s.mgr.Waiting? && s.wrk.Top? && s.cell.Pending()
    ensures var steps: seq<Step<A>> := [Test] + ([Flip] + ([Return] + (if Restores(k) then [Restore] else [])));
            && Runs(k, s, steps) && After(k, s, steps).mgr.Idle?
            && After(k, s, steps).cell.Active() == s.cell.area[1 - s.cell.ref]
  {
    var s4 := Apply(k, s, Test);
    var s5 := Apply(k, s4, Flip);
    var s6 := Apply(k, s5, Return);
    var tail: seq<Step<A>> := if Restores(k) then [Restore] else [];
    assert Runs(k, s6, tail);
    RunCons(k, s5, Return, tail);
    RunCons(k, s4, Flip, [Return] + tail);
    RunCons(k, s, Test, [Flip] + ([Return] + tail));
  }

  lemma RunCons<A>(k: Kind<A>, s: State<A>, step: Step<A>, steps: seq<Step<A>>)
    requires s.cell.Valid() && Enabled(k, s, step) && Runs(k, Apply(k, s, step), steps)
    ensures Runs(k, s, [step] + steps)
    ensures After(k, s, [step] + steps) == After(k, Apply(k, s, step), steps)
  {
    assert ([step] + steps)[1..] == steps;
  }

  /** Exactly when an update delivers its snapshot on every interleaving: the indices
      differ on entry.  (A snapshot equal to what the other area already holds cannot be
      told apart from a lost one.) */
  lemma UpdateDeliversIff<A(!new)>(k: Kind<A>, s: State<A>, snap: A)
    requires s.cell.Valid() && s.mgr.Idle? && s.wrk.Top?
    requires snap != s.cell.area[1 - s.cell.ref]
    ensures UpdateDelivers(k, s, snap) <==> s.cell.ref != s.cell.upd
  {
    if s.cell.Pending() {
      LosingRunLoses(k, s, snap);
      assert !UpdateDelivers(k, s, snap);
    } else {
      forall steps: seq<Step<A>> | Runs(k, s, [Begin(snap)] + steps) && OneUpdate(steps)
        && After(k, s, [Begin(snap)] + steps).mgr.Idle?
        ensures After(k, s, [Begin(snap)] + steps).cell.Active() == snap
      {
        var s1 := Apply(k, s, Begin(snap));
        assert ([Begin(snap)] + steps)[1..] == steps;
        InvRun(k, s1, s.cell.Active(), steps);
        CarriesSnapshot(k, s1, s.cell.Active(), snap, steps);
      }
    }
  }

  /** Exactly when no interleaving of an idle manager and a classifier worker can meet on
      one area: the indices differ on entry. */
  lemma ClassifierSafeIff<A(!new)>(blank: A, s: State<A>)
    requires s.cell.Valid() && s.mgr.Idle? && s.wrk.Top?
    ensures (forall steps: seq<Step<A>> :: Runs(Classifier(blank), s, steps) ==>
               !Conflict(Classifier(blank), After(Classifier(blank), s, steps)))
            <==> s.cell.ref != s.cell.upd
  {
    var k := Classifier(blank);
    if s.cell.Pending() {
      var s1 := Apply(k, s, Test);
      RunCons(k, s1, Begin(blank), []);
      RunCons(k, s, Test, [Begin(blank)] + []);
      var steps := [Test] + ([Begin(blank)] + []);
      assert Runs(k, s, steps) && Conflict(k, After(k, s, steps));
    } else {
      forall steps: seq<Step<A>> | Runs(k, s, steps)
        ensures !Conflict(k, After(k, s, steps))
      {
        SafeAndCurrent(k, s, steps);
      }
    }
  }

  // ----- The wait ends -----

  /** Worker steps left until the flip: finish the current iteration, test, flip. */
  function WaitRank<A>(s: State<A>): nat {
    if !s.cell.Pending() then 0
    else match s.wrk case Using(_) => 3 case Top => 2 case Flipping => 1
  }

  /** While the manager spins, only the worker moves; each of its steps brings the flip
      closer, some step is always possible, and once the flip is done the manager can
      leave the loop.  So the wait is over after at most three worker steps. */
  lemma {:induction false} WaitBound<A>(k: Kind<A>, s: State<A>, live: A, steps: seq<Step<A>>)
    requires Inv(k, s, live) && s.mgr.Waiting? && Runs(k, s, steps)
    requires Return !in steps
    ensures var e := After(k, s, steps);
            && e.mgr == s.mgr
            && (e.cell.Pending() ==>
                  && |steps| + WaitRank(e) == WaitRank(s) <= 3
                  && (Enabled(k, e, Test) || Enabled(k, e, Flip) || Enabled(k, e, Done)))
            && (!e.cell.Pending() ==> Enabled(k, e, Return))
    decreases |steps|
  {
    if steps != [] {
      var s1 := Apply(k, s, steps[0]);
      assert steps[0] in steps;
      InvStep(k, s, live, steps[0]);
      WaitBound(k, s1, LiveAfter(k, s, live, steps[0]), steps[1..]);
      if !s.cell.Pending() {
        StaysFlipped(k, s, live, steps);
      }
    }
  }

  lemma {:induction false} StaysFlipped<A>(k: Kind<A>, s: State<A>, live: A, steps: seq<Step<A>>)
    requires Inv(k, s, live) && s.mgr.Waiting? && !s.cell.Pending() && Runs(k, s, steps)
    requires Return !in steps
    ensures !After(k, s, steps).cell.Pending()
    decreases |steps|
  {
    if steps != [] {
      assert steps[0] in steps;
      InvStep(k, s, live, steps[0]);
      StaysFlipped(k, Apply(k, s, steps[0]), LiveAfter(k, s, live, steps[0]), steps[1..]);
    }
  }
}

/** Whole runs of a live classifier component: the worker classifies bursts and switches
    tables, the manager fills, publishes and erases tables, interleaved in any way. */
module ClassifierRun {
  import opened SppTypes
  import Management
  import opened Classifier
  import opened Buffers

  /** Where the manager is in an update: before it, table written, waiting for the worker, returned from the wait. */
  datatype Pc = Idle | Filled | Waits | Erasing

  datatype World = World(areas: seq<Area>, h: Hist, ref: nat, upd: nat, pc: Pc)

  datatype Step =
    | Fill(table: seq<Management.ClassId>, hasRx: bool, ports: seq<nat>)
    | Publish
    | Return
    | Erase
    | Switch
    | Pass(drain: bool, burst: seq<Packet>)

  const BLANK := Area([], false, [], [])

  /** Start of `spp_classifier_mac_do`: without receive port, transmit port or entry nothing is classified. */
  predicate Practical(a: Area) {
    a.hasRx && |a.ports| >= 1 && exists i :: 0 <= i < |a.table| && a.table[i].mac != 0
  }

  /** It is what the worker tests of a table built for it: a receive port, a transmit port, and the
      flag that some address is entered. */
  lemma PracticalIff(info: ComponentInfo, a: Area)
    requires info.Built(info.rxPort, a.table) && |a.ports| == |a.table| && a.hasRx == info.rxPort.Some?
    ensures Practical(a) <==> info.rxPort.Some? && info.nTx >= 1 && info.macAddrEntry
  {
  }

  ghost predicate Sound(w: World) {
    && |w.areas| == 2 && w.ref < 2 && w.upd < 2
    && forall i :: 0 <= i < 2 ==> Shape(w.areas[i])
  }

  /** The indices start equal, and are so until the worker's first look at them.  A component
      that is filled before that has no ports yet. */
  ghost predicate Enabled(w: World, t: Step)
    requires Sound(w)
  {
    match t
    case Fill(table, _, ports) => w.pc == Idle && |table| == |ports| && NoDups(ports) && (w.ref == w.upd ==> ports == [])
    case Publish => w.pc == Filled
    case Return => w.pc == Waits && w.ref != w.upd
    case Erase => w.pc == Erasing
    case Switch => w.ref == w.upd
    case Pass(_, burst) => Practical(w.areas[w.ref]) && |burst| <= MAX_PKT_BURST
  }

  function Drained(s: Side, drain: bool, nic: Nic): (r: Side)
    requires |s.a.ports| == |s.a.bufs|
    ensures r.a == s.a.(bufs := r.a.bufs) && |r.a.bufs| == |s.a.bufs|
  {
    if drain then Flush(s, |s.a.bufs|, nic) else s
  }

  ghost function Next(w: World, t: Step, nic: Nic): (r: World)
    requires Sound(w) && Enabled(w, t)
    ensures Sound(r)
  {
    var s := Side(w.areas[w.ref], w.h);
    match t
    case Fill(table, hasRx, ports) =>
      w.(areas := w.areas[w.upd := Area(table, hasRx, ports, seq(|ports|, _ => []))], pc := Filled)
    case Publish => w.(upd := w.ref, pc := Waits)
    case Return => w.(pc := Erasing)
    case Erase => w.(areas := w.areas[w.upd := BLANK], pc := Idle)
    case Switch =>
      var r := Flush(s, |s.a.bufs|, nic);
      w.(areas := w.areas[w.ref := r.a], h := r.h, ref := (w.upd + 1) % 2)
    case Pass(drain, burst) =>
      var r := Classify(Drained(s, drain, nic), burst, nic);
      w.(areas := w.areas[w.ref := r.a], h := r.h)
  }

  ghost predicate Emptied(a: Area) {
    forall i :: 0 <= i < |a.bufs| ==> a.bufs[i] == []
  }

  /** Packets wait only in the area the worker uses; the manager touches only the other one,
      or, before the first switch, one without ports. */
  ghost predicate Inv(w: World) {
    && Sound(w)
    && Conserved(Side(w.areas[w.ref], w.h), multiset{})
    && Emptied(w.areas[1 - w.ref])
    && (w.pc == Erasing ==> w.ref != w.upd)
    && (w.pc != Waits && w.ref == w.upd ==> w.areas[w.ref].ports == [])
    && (w.pc == Idle ==> w.areas[w.upd] == BLANK)
  }

  /** Moving to an area with empty buffers from one with empty buffers. */
  lemma HandOver(s: Side, a: Area)
    requires Conserved(s, multiset{}) && Emptied(s.a) && Shape(a) && Emptied(a)
    ensures Conserved(Side(a, s.h), multiset{})
  {
    HeldNothing(s.a.bufs);
    HeldNothing(a.bufs);
    forall d: nat ensures Fifo(Side(a, s.h), d) {
      assert Fifo(s, d);
    }
  }

  /** Switching tables: the old buffers are emptied before the flip, so nothing is lost. */
  lemma SwitchConserves(w: World, nic: Nic)
    requires Inv(w) && Enabled(w, Switch)
    ensures Inv(Next(w, Switch, nic)) && Emptied(Next(w, Switch, nic).areas[w.ref])
  {
    var s := Side(w.areas[w.ref], w.h);
    var r := Flush(s, |s.a.bufs|, nic);
    FlushConserves(s, |s.a.bufs|, nic);
    HandOver(r, w.areas[1 - w.ref]);
    assert s.a.ports == [] ==> r == s;
  }

  lemma DrainConserves(s: Side, drain: bool, nic: Nic)
    requires Conserved(s, multiset{})
    ensures Conserved(Drained(s, drain, nic), multiset{})
  {
    FlushConserves(s, |s.a.bufs|, nic);
  }

  /** The worker replaced its own area by another conserving one. */
  lemma OwnArea(w: World, r: Side)
    requires Inv(w) && Conserved(r, multiset{}) && (w.pc != Waits ==> w.ref != w.upd)
    ensures Inv(w.(areas := w.areas[w.ref := r.a], h := r.h))
  {
    var e := w.(areas := w.areas[w.ref := r.a], h := r.h);
    assert Side(e.areas[e.ref], e.h) == r;
    assert e.areas[1 - e.ref] == w.areas[1 - w.ref];
  }

  lemma PassConserves(w: World, drain: bool, burst: seq<Packet>, nic: Nic)
    requires Inv(w) && Enabled(w, Pass(drain, burst))
    ensures Inv(Next(w, Pass(drain, burst), nic))
  {
    var s := Side(w.areas[w.ref], w.h);
    DrainConserves(s, drain, nic);
    ClassifyConserves(Drained(s, drain, nic), burst, nic);
    OwnArea(w, Classify(Drained(s, drain, nic), burst, nic));
  }

  lemma FillConserves(w: World, t: Step, nic: Nic)
    requires Inv(w) && t.Fill? && Enabled(w, t)
    ensures Inv(Next(w, t, nic))
  {
    var a := Next(w, t, nic).areas[w.upd];
    assert Emptied(a);
    if w.ref == w.upd {
      HandOver(Side(w.areas[w.ref], w.h), a);
    }
  }

  lemma StepConserves(w: World, t: Step, nic: Nic)
    requires Inv(w) && Enabled(w, t)
    ensures Inv(Next(w, t, nic))
  {
    if t.Fill? {
      FillConserves(w, t, nic);
    } else if t == Switch {
      SwitchConserves(w, nic);
    } else if t.Pass? {
      PassConserves(w, t.drain, t.burst, nic);
    }
  }

  /** When the manager erases the old table, no packet waits in its buffers. */
  lemma EraseLosesNothing(w: World)
    requires Inv(w) && Enabled(w, Erase)
    ensures forall i :: 0 <= i < |w.areas[w.upd].bufs| ==> w.areas[w.upd].bufs[i] == []
  {
    assert Emptied(w.areas[1 - w.ref]);
  }

  // ----- Runs -----

  ghost predicate Run(w: World, steps: seq<Step>, nic: Nic)
    requires Sound(w)
    decreases |steps|
  {
    steps == [] || (Enabled(w, steps[0]) && Run(Next(w, steps[0], nic), steps[1..], nic))
  }

  ghost function After(w: World, steps: seq<Step>, nic: Nic): (r: World)
    requires Sound(w) && Run(w, steps, nic)
    ensures Sound(r)
    decreases |steps|
  {
    if steps == [] then w else After(Next(w, steps[0], nic), steps[1..], nic)
  }

  function RoutedStep(w: World, t: Step, d: nat): seq<Packet>
    requires w.ref < |w.areas|
  {
    if t.Pass? then Routed(w.areas[w.ref], t.burst, d) else []
  }

  function UnroutableStep(w: World, t: Step): seq<Packet>
    requires w.ref < |w.areas|
  {
    if t.Pass? then Unroutable(w.areas[w.ref].table, t.burst) else []
  }

  /** The packets received during a run that the table in force routed to port `d`. */
  ghost function RoutedRun(w: World, steps: seq<Step>, nic: Nic, d: nat): seq<Packet>
    requires Sound(w) && Run(w, steps, nic)
    decreases |steps|
  {
    if steps == [] then []
    else RoutedStep(w, steps[0], d) + RoutedRun(Next(w, steps[0], nic), steps[1..], nic, d)
  }

  /** The packets received during a run for which the table in force had no destination. */
  ghost function UnroutableRun(w: World, steps: seq<Step>, nic: Nic): seq<Packet>
    requires Sound(w) && Run(w, steps, nic)
    decreases |steps|
  {
    if steps == [] then []
    else UnroutableStep(w, steps[0]) + UnroutableRun(Next(w, steps[0], nic), steps[1..], nic)
  }

  lemma {:induction false} FlushPushes(s: Side, k: nat, nic: Nic)
    requires |s.a.ports| == |s.a.bufs| && k <= |s.a.bufs|
    ensures Flush(s, k, nic).h.pushed == s.h.pushed && Flush(s, k, nic).h.dropped == s.h.dropped
  {
    if k > 0 {
      FlushPushes(s, k - 1, nic);
      WaitingPushes(Flush(s, k - 1, nic), k - 1, nic);
    }
  }

  lemma WaitingPushes(s: Side, i: nat, nic: Nic)
    requires |s.a.ports| == |s.a.bufs| && i < |s.a.bufs|
    ensures var r := TransmitWaiting(s, i, nic); r.h.pushed == s.h.pushed && r.h.dropped == s.h.dropped
  {
  }

  lemma StepRoutes(w: World, t: Step, nic: Nic, d: nat)
    requires Sound(w) && Enabled(w, t)
    ensures At(Next(w, t, nic).h.pushed, d) == At(w.h.pushed, d) + RoutedStep(w, t, d)
    ensures Next(w, t, nic).h.dropped == w.h.dropped + UnroutableStep(w, t)
  {
    var s := Side(w.areas[w.ref], w.h);
    if t == Switch {
      FlushPushes(s, |s.a.bufs|, nic);
    } else if t.Pass? {
      FlushPushes(s, |s.a.bufs|, nic);
      var m := Drained(s, t.drain, nic);
      ClassifyRoutes(m, t.burst, nic, d);
      ClassifyDrops(m, t.burst, nic);
      RoutedArea(m.a, s.a, t.burst, d);
    }
  }

  lemma {:induction false} RoutedArea(a: Area, b: Area, burst: seq<Packet>, d: nat)
    requires a.table == b.table && a.ports == b.ports
    ensures Routed(a, burst, d) == Routed(b, burst, d)
    decreases |burst|
  {
    if burst != [] {
      RoutedArea(a, b, burst[..|burst| - 1], d);
    }
  }

  lemma {:induction false} RunRoutes(w: World, steps: seq<Step>, nic: Nic, d: nat)
    requires Sound(w) && Run(w, steps, nic)
    ensures At(After(w, steps, nic).h.pushed, d) == At(w.h.pushed, d) + RoutedRun(w, steps, nic, d)
    decreases |steps|
  {
    if steps != [] {
      StepRoutes(w, steps[0], nic, d);
      var n := Next(w, steps[0], nic);
      RunRoutes(n, steps[1..], nic, d);
      Associates(At(w.h.pushed, d), RoutedStep(w, steps[0], d), RoutedRun(n, steps[1..], nic, d));
    }
  }

  lemma {:induction false} RunDrops(w: World, steps: seq<Step>, nic: Nic)
    requires Sound(w) && Run(w, steps, nic)
    ensures After(w, steps, nic).h.dropped == w.h.dropped + UnroutableRun(w, steps, nic)
    decreases |steps|
  {
    if steps != [] {
      StepRoutes(w, steps[0], nic, 0);
      var n := Next(w, steps[0], nic);
      RunDrops(n, steps[1..], nic);
      Associates(w.h.dropped, UnroutableStep(w, steps[0]), UnroutableRun(n, steps[1..], nic));
    }
  }

  lemma {:induction false} RunInv(w: World, steps: seq<Step>, nic: Nic)
    requires Inv(w) && Run(w, steps, nic)
    ensures Inv(After(w, steps, nic))
    decreases |steps|
  {
    if steps != [] {
      StepConserves(w, steps[0], nic);
      RunInv(Next(w, steps[0], nic), steps[1..], nic);
    }
  }

  /** A component whose first table is not yet filled: the indices are equal, as
      `spp_classifier_mac_init` leaves them, or the worker has already taken them apart. */
  ghost predicate Fresh(w: World) {
    && w.areas == [BLANK, BLANK] && w.ref < 2 && w.upd < 2 && w.pc == Idle
    && w.h == Hist(map[], map[], [], multiset{}, multiset{})
  }

  /** Whatever the interleaving, the sizes of the bursts and the answers of the devices: the
      packets routed to a port by the tables in force are, in that order and each once, sent
      or freed by the port or still waiting in its buffer, of less than a burst; the packets
      without destination are dropped; and the references obtained are the references given
      up plus those held. */
  lemma RunConserves(w: World, steps: seq<Step>, nic: Nic, d: nat)
    requires Fresh(w) && Run(w, steps, nic)
    ensures var e := After(w, steps, nic);
            var a := e.areas[e.ref];
            && RoutedRun(w, steps, nic, d) == Packets(At(e.h.out, d)) + Waiting(a, d)
            && |Waiting(a, d)| < MAX_PKT_BURST
            && Subsequence(Wire(At(e.h.out, d)), RoutedRun(w, steps, nic, d)[..|At(e.h.out, d)|])
            && e.h.dropped == UnroutableRun(w, steps, nic)
            && e.h.raised == e.h.settled + Held(a.bufs)
  {
    FreshInv(w);
    RunInv(w, steps, nic);
    RunRoutes(w, steps, nic, d);
    RunDrops(w, steps, nic);
    var e := After(w, steps, nic);
    PushedAccount(Side(e.areas[e.ref], e.h), d);
  }

  lemma FreshInv(w: World)
    requires Fresh(w)
    ensures Inv(w)
  {
    forall d: nat ensures Fifo(Side(w.areas[w.ref], w.h), d) {
    }
  }

  /** What conservation says of one device port. */
  lemma PushedAccount(s: Side, d: nat)
    requires Conserved(s, multiset{})
    ensures var pushed, out := At(s.h.pushed, d), At(s.h.out, d);
            && pushed == Packets(out) + Waiting(s.a, d) && |Waiting(s.a, d)| < MAX_PKT_BURST
            && |out| <= |pushed| && Subsequence(Wire(out), pushed[..|out|])
    ensures s.h.raised == s.h.settled + Held(s.a.bufs)
  {
    assert Fifo(s, d);
    WireInOrder(At(s.h.out, d));
  }
}

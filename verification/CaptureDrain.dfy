/** When packets can be left on the capture ring, and how a stopped capture drains. */
module CaptureDrain {
  import opened SppTypes
  import opened Capture

  /** The writer runs and is not between an empty dequeue and its leaving. */
  predicate Ready(th: Thread) {
    th.running && th.pc != Verdict && th.pc != Leave
  }

  /** The writer dequeues again before it goes idle. */
  predicate Attentive(th: Thread) {
    th.pc == Join || Ready(th)
  }

  ghost predicate AllReady(s: State) {
    forall t :: 0 < t < |s.threads| ==> Ready(s.threads[t])
  }

  ghost predicate SomeAttentive(s: State) {
    exists t :: 0 < t < |s.threads| && Attentive(s.threads[t])
  }

  /** The step puts at least one packet on the ring. */
  predicate Fills(s: State, step: Step)
    requires Shape(s) && Enabled(s, step)
  {
    step.Go? && step.t == 0 && s.threads[0].pc == Put && Accepted(s, step.burst) > 0
  }

  /** While packets wait, every writer runs and will dequeue again before it leaves. */
  ghost predicate Tidy(s: State) { s.ring != [] ==> AllReady(s) }

  /** While packets wait, some writer will dequeue again before it leaves. */
  ghost predicate Attended(s: State) { s.ring != [] ==> SomeAttentive(s) }

  // ----- Single steps -----

  /** A step touches one thread, and the ring only if it fills it or is a dequeue. */
  lemma WriterStep(s: State, t: nat, burst: seq<Packet>)
    requires Controlled(s) && 0 < t < |s.threads| && Enabled(s, Go(t, burst))
    ensures var r := Next(s, Go(t, burst));
            && |r.threads| == |s.threads|
            && (forall k :: 0 <= k < |s.threads| && k != t ==> r.threads[k] == s.threads[k])
            && (if s.threads[t].pc == Take && s.ring != []
                then |r.ring| < |s.ring| && Ready(r.threads[t])
                else r.ring == s.ring)
            && (Attentive(s.threads[t]) ==> Attentive(r.threads[t]) || (s.threads[t].pc == Called && !s.threads[t].running)
                                            || (s.threads[t].pc == Take && s.ring == []))
            && (Ready(s.threads[t]) ==> Ready(r.threads[t]) || (s.threads[t].pc == Take && s.ring == []))
  {
  }

  lemma OtherStep(s: State, step: Step)
    requires Controlled(s) && Enabled(s, step) && (step.Go? ==> step.t == 0)
    ensures var r := Next(s, step);
            && |r.threads| == |s.threads|
            && (forall k :: 0 < k < |s.threads| ==> Ready(r.threads[k]) == Ready(s.threads[k]))
            && (forall k :: 0 < k < |s.threads| ==> Attentive(r.threads[k]) == Attentive(s.threads[k]))
            && (if Fills(s, step) then r.ring != [] else r.ring == s.ring)
  {
  }

  /** A step leaves packets waiting that some writer may pass by, exactly if it puts packets
      on the ring while a writer is idle, or is between an empty dequeue and its test of the
      capture status, or has tested it before a restart. */
  lemma StepTidyIff(s: State, step: Step)
    requires Controlled(s) && Tidy(s) && Enabled(s, step)
    ensures Tidy(Next(s, step)) <==> !(Fills(s, step) && !AllReady(s))
  {
    if step.Go? && step.t > 0 {
      WriterStep(s, step.t, step.burst);
    } else {
      OtherStep(s, step);
    }
  }

  /** A step leaves packets waiting with no writer to dequeue them, exactly if it puts
      packets on the ring when no writer will dequeue before it goes idle. */
  lemma StepAttendedIff(s: State, step: Step)
    requires Controlled(s) && Attended(s) && Enabled(s, step)
    ensures Attended(Next(s, step)) <==> !(Fills(s, step) && !SomeAttentive(s))
  {
    var r := Next(s, step);
    if step.Go? && step.t > 0 {
      WriterStep(s, step.t, step.burst);
      if s.ring != [] {
        var w :| 0 < w < |s.threads| && Attentive(s.threads[w]);
        assert r.ring != [] ==> Attentive(r.threads[w]);
      }
    } else {
      OtherStep(s, step);
      if SomeAttentive(s) {
        var w :| 0 < w < |s.threads| && Attentive(s.threads[w]);
        assert Attentive(r.threads[w]);
      }
      if r.ring != [] && SomeAttentive(r) {
        var w :| 0 < w < |r.threads| && Attentive(r.threads[w]);
        assert Attentive(s.threads[w]);
      }
    }
  }

  // ----- Runs -----

  /** Packets are put on the ring only while every writer is ready. */
  ghost predicate FillsReady(s: State, steps: seq<Step>)
    requires Shape(s) && Run(s, steps)
    decreases |steps|
  {
    steps == [] || ((Fills(s, steps[0]) ==> AllReady(s))
                    && (NextShape(s, steps[0]); FillsReady(Next(s, steps[0]), steps[1..])))
  }

  /** Packets are put on the ring only while some writer is attentive. */
  ghost predicate FillsAttended(s: State, steps: seq<Step>)
    requires Shape(s) && Run(s, steps)
    decreases |steps|
  {
    steps == [] || ((Fills(s, steps[0]) ==> SomeAttentive(s))
                    && (NextShape(s, steps[0]); FillsAttended(Next(s, steps[0]), steps[1..])))
  }

  /** No packet is put on the ring. */
  ghost predicate NoFill(s: State, steps: seq<Step>)
    requires Shape(s) && Run(s, steps)
    decreases |steps|
  {
    steps == [] || (!Fills(s, steps[0]) && (NextShape(s, steps[0]); NoFill(Next(s, steps[0]), steps[1..])))
  }

  lemma {:induction false} RunTidy(s: State, steps: seq<Step>)
    requires Controlled(s) && Tidy(s) && Run(s, steps) && FillsReady(s, steps)
    ensures Tidy(After(s, steps))
    decreases |steps|
  {
    if steps != [] {
      StepTidyIff(s, steps[0]);
      StepControlled(s, steps[0]);
      RunTidy(Next(s, steps[0]), steps[1..]);
    }
  }

  lemma {:induction false} RunAttended(s: State, steps: seq<Step>)
    requires Controlled(s) && Attended(s) && Run(s, steps) && FillsAttended(s, steps)
    ensures Attended(After(s, steps))
    decreases |steps|
  {
    if steps != [] {
      StepAttendedIff(s, steps[0]);
      StepControlled(s, steps[0]);
      RunAttended(Next(s, steps[0]), steps[1..]);
    }
  }

  lemma {:induction false} NoFillReady(s: State, steps: seq<Step>)
    requires Shape(s) && Run(s, steps) && NoFill(s, steps)
    ensures FillsReady(s, steps) && FillsAttended(s, steps)
    decreases |steps|
  {
    if steps != [] {
      NextShape(s, steps[0]);
      NoFillReady(Next(s, steps[0]), steps[1..]);
    }
  }

  /** In a run that puts packets on the ring only while every writer is ready, no writer is
      idle or has ended while packets wait. */
  lemma RunSafe(n: nat, steps: seq<Step>)
    requires n > 0 && Run(Init(n), steps) && FillsReady(Init(n), steps)
    ensures var e := After(Init(n), steps);
            e.ring != [] ==> forall t :: 0 < t < n ==> e.threads[t].running && !e.threads[t].exited
  {
    InitOk(n);
    RunOk(Init(n), steps);
    RunTidy(Init(n), steps);
  }

  ghost predicate AllIdle(s: State) {
    forall t :: 0 <= t < |s.threads| ==> !s.threads[t].running && s.threads[t].pc != Join
  }

  /** In a run that puts packets on the ring only while some writer is attentive, everything
      put on the ring is written once every thread is idle. */
  lemma IdleIsWritten(n: nat, steps: seq<Step>)
    requires n > 0 && Run(Init(n), steps) && FillsAttended(Init(n), steps) && AllIdle(After(Init(n), steps))
    ensures var e := After(Init(n), steps);
            e.ring == [] && multiset(e.received) == Written(e.out) + multiset(e.dropped)
  {
    InitOk(n);
    RunAttended(Init(n), steps);
    RunConserves(n, steps);
  }

  /** At the barrier every thread is counted, so no writer is idle; a writer may still be
      between an empty dequeue and its leaving. */
  lemma BarrierMeansRunning(s: State, step: Step)
    requires Controlled(s) && Enabled(s, step) && s.threads[0].pc == Barrier && Next(s, step).threads[0].pc == Put
    ensures forall t :: 0 <= t < |s.threads| ==> s.threads[t].running
  {
    RunningAll(s.threads);
  }

  // ----- Losing runs -----

  lemma Unfold(s: State, step: Step, steps: seq<Step>)
    requires Shape(s) && Enabled(s, step)
    requires Shape(Next(s, step)) && Run(Next(s, step), steps)
    ensures Run(s, [step] + steps) && After(s, [step] + steps) == After(Next(s, step), steps)
    ensures NoFill(s, [step] + steps) <==> !Fills(s, step) && NoFill(Next(s, step), steps)
  {
    assert ([step] + steps)[1..] == steps;
  }

  lemma {:induction false} Concat(s: State, a: seq<Step>, b: seq<Step>)
    requires Shape(s) && Run(s, a) && Run(After(s, a), b)
    ensures Run(s, a + b) && After(s, a + b) == After(After(s, a), b)
    decreases |a|
  {
    if a == [] {
      assert a + b == b;
    } else {
      NextShape(s, a[0]);
      var n := Next(s, a[0]);
      Concat(n, a[1..], b);
      assert (a + b)[1..] == a[1..] + b && (a + b)[0] == a[0];
    }
  }

  lemma {:induction false} ConcatNoFill(s: State, a: seq<Step>, b: seq<Step>)
    requires Shape(s) && Run(s, a) && Run(After(s, a), b) && NoFill(s, a) && NoFill(After(s, a), b)
    ensures Run(s, a + b) && NoFill(s, a + b)
    decreases |a|
  {
    Concat(s, a, b);
    if a == [] {
      assert a + b == b;
    } else {
      NextShape(s, a[0]);
      var n := Next(s, a[0]);
      ConcatNoFill(n, a[1..], b);
      assert (a + b)[1..] == a[1..] + b && (a + b)[0] == a[0];
    }
  }

  /** A writer that has dequeued nothing leaves once capture is off, or if it saw it off. */
  lemma LeaveNow(s: State, t: nat) returns (steps: seq<Step>)
    requires Shape(s) && 0 < t < |s.threads|
    requires (s.threads[t].pc == Verdict && !s.capturing) || s.threads[t].pc == Leave
    ensures Run(s, steps) && NoFill(s, steps)
    ensures var e := After(s, steps);
            && e.ring == s.ring && e.capturing == s.capturing
            && e.threads == s.threads[t := s.threads[t].(running := false, pc := Outside)]
  {
    var go := Go(t, []);
    steps := [];
    var r := s;
    if s.threads[t].pc == Verdict {
      r := Next(s, go);
    }
    var e := Next(r, go);
    assert e.threads == s.threads[t := s.threads[t].(running := false, pc := Outside)];
    assert Run(e, []);
    Unfold(r, go, []);
    steps := [go] + [];
    if s.threads[t].pc == Verdict {
      Unfold(s, go, steps);
      steps := [go] + steps;
    }
  }

  /** With capture off and no writer attentive, the writers below `k` can all go idle over
      whatever waits in the ring. */
  lemma {:induction false} AllLeave(s: State, k: nat) returns (steps: seq<Step>)
    requires Controlled(s) && !s.capturing && 0 < k <= |s.threads| && !SomeAttentive(s)
    ensures Run(s, steps) && NoFill(s, steps)
    ensures var e := After(s, steps);
            && e.ring == s.ring && !e.capturing && e.threads[0] == s.threads[0]
            && (forall t :: 0 < t < k ==> !e.threads[t].running && e.threads[t].pc != Join)
            && forall t :: k <= t < |s.threads| ==> e.threads[t] == s.threads[t]
    decreases k
  {
    if k == 1 {
      steps := [];
    } else {
      steps := AllLeave(s, k - 1);
      var m := After(s, steps);
      var t := k - 1;
      assert m.threads[t] == s.threads[t];
      assert !Attentive(s.threads[t]) && WriterOk(s.threads[t]);
      if s.threads[t].running {
        var more := LeaveNow(m, t);
        Concat(s, steps, more);
        ConcatNoFill(s, steps, more);
        steps := steps + more;
      }
    }
  }

  /** A stop command takes the receiver from the top of its loop to idle. */
  lemma ReceiverStops(s: State) returns (steps: seq<Step>)
    requires Controlled(s) && s.threads[0].running && s.threads[0].pc == Outside
    ensures Run(s, steps) && NoFill(s, steps)
    ensures var e := After(s, steps);
            && e.ring == s.ring && !e.capturing && |e.threads| == |s.threads| && !e.threads[0].running && e.threads[0].pc == Outside
            && forall t :: 0 < t < |s.threads| ==> e.threads[t] == s.threads[t]
  {
    var go := Go(0, []);
    var s1 := Next(s, Command(false));
    var s2 := Next(s1, Check(0));
    var s3 := Next(s2, go);
    var s4 := Next(s3, go);
    var s5 := Next(s4, go);
    assert Run(s5, []);
    Unfold(s4, go, []);
    Unfold(s3, go, [go] + []);
    Unfold(s2, go, [go] + ([go] + []));
    steps := [go] + ([go] + ([go] + []));
    Unfold(s1, Check(0), steps);
    steps := [Check(0)] + steps;
    Unfold(s, Command(false), steps);
    steps := [Command(false)] + steps;
  }

  /** After packets are put on the ring, a run without further ones can end with all threads
      idle over them exactly if no writer was attentive. */
  lemma PutStrandsIff(s: State, burst: seq<Packet>)
    requires Controlled(s) && Enabled(s, Go(0, burst)) && Fills(s, Go(0, burst))
    ensures var p := Next(s, Go(0, burst));
            Shape(p)
            && ((exists steps :: StrandRun(p, steps)) <==> !SomeAttentive(s))
  {
    var p := Next(s, Go(0, burst));
    StepControlled(s, Go(0, burst));
    OtherStep(s, Go(0, burst));
    if SomeAttentive(s) {
      var w :| 0 < w < |s.threads| && Attentive(s.threads[w]);
      assert Attentive(p.threads[w]);
      forall steps ensures !StrandRun(p, steps) {
        if Run(p, steps) && NoFill(p, steps) {
          NoFillReady(p, steps);
          RunAttended(p, steps);
        }
      }
    } else {
      var stop := ReceiverStops(p);
      var m := After(p, stop);
      RunControlled(p, stop);
      assert forall t :: 0 < t < |m.threads| ==> Attentive(m.threads[t]) == Attentive(s.threads[t]);
      var leave := AllLeave(m, |m.threads|);
      Concat(p, stop, leave);
      ConcatNoFill(p, stop, leave);
      assert StrandRun(p, stop + leave);
    }
  }

  /** A run without further fills that finds writer `t` idle while packets wait. */
  ghost predicate IdleRun(s: State, steps: seq<Step>, t: nat)
    requires Shape(s)
  {
    && 0 < t < |s.threads| && Run(s, steps) && NoFill(s, steps)
    && !After(s, steps).threads[t].running && After(s, steps).ring != []
  }

  /** A run without further fills that finds every thread idle while packets wait. */
  ghost predicate StrandRun(s: State, steps: seq<Step>)
    requires Shape(s)
  {
    Run(s, steps) && NoFill(s, steps) && AllIdle(After(s, steps)) && After(s, steps).ring != []
  }

  /** After packets are put on the ring, a run without further ones can find a writer idle
      while packets wait exactly if some writer was not ready. */
  lemma PutIdlesIff(s: State, burst: seq<Packet>)
    requires Controlled(s) && Enabled(s, Go(0, burst)) && Fills(s, Go(0, burst))
    ensures var p := Next(s, Go(0, burst));
            Shape(p)
            && ((exists steps, t: nat :: IdleRun(p, steps, t)) <==> !AllReady(s))
  {
    var p := Next(s, Go(0, burst));
    StepControlled(s, Go(0, burst));
    OtherStep(s, Go(0, burst));
    if AllReady(s) {
      forall steps, t: nat ensures !IdleRun(p, steps, t) {
        if Run(p, steps) && NoFill(p, steps) {
          NoFillReady(p, steps);
          RunTidy(p, steps);
        }
      }
    } else {
      var t: nat :| 0 < t < |s.threads| && !Ready(s.threads[t]);
      var steps := Idles(p, t);
      assert IdleRun(p, steps, t);
    }
  }

  /** A writer that is not ready can be idle while packets wait. */
  lemma Idles(p: State, t: nat) returns (steps: seq<Step>)
    requires Controlled(p) && p.threads[0].running && p.threads[0].pc == Outside && p.ring != []
    requires 0 < t < |p.threads| && !Ready(p.threads[t])
    ensures IdleRun(p, steps, t)
  {
    steps := [];
    if p.threads[t].running {
      var m := p;
      if p.threads[t].pc == Verdict {
        steps := ReceiverStops(p);
        m := After(p, steps);
      }
      var leave := LeaveNow(m, t);
      Concat(p, steps, leave);
      ConcatNoFill(p, steps, leave);
      steps := steps + leave;
    }
  }


  lemma {:induction false} RunControlled(s: State, steps: seq<Step>)
    requires Controlled(s) && Run(s, steps)
    ensures Controlled(After(s, steps))
    decreases |steps|
  {
    if steps != [] {
      NextShape(s, steps[0]);
      StepControlled(s, steps[0]);
      RunControlled(Next(s, steps[0]), steps[1..]);
    }
  }

  // ----- From process start -----

  function StageThread(t: nat, k: nat): Thread {
    if t == 0 then Thread(true, false, false, Barrier)
    else if t < k then Thread(true, false, false, Verdict)
    else Thread(false, false, false, Outside)
  }

  /** The receiver at the barrier, the writers below `k` past an empty dequeue, the others not started. */
  function Stage(n: nat, k: nat): State
    requires n > 0
  {
    State(true, true, k, seq(n, t requires 0 <= t < n => StageThread(t, k)), [], [], [], [], [], seq(n, _ => []))
  }

  lemma FirstStage(n: nat) returns (steps: seq<Step>)
    requires n > 0
    ensures Run(Init(n), steps) && After(Init(n), steps) == Stage(n, 1)
  {
    var go := Go(0, []);
    var s0 := Init(n);
    var s1 := Next(s0, Command(true));
    var s2 := Next(s1, Check(0));
    var s3 := Next(s2, go);
    var s4 := Next(s3, go);
    var s5 := Next(s4, go);
    assert s5.threads == Stage(n, 1).threads;
    assert s5 == Stage(n, 1) && Run(s5, []);
    Unfold(s4, go, []);
    Unfold(s3, go, [go] + []);
    Unfold(s2, go, [go] + ([go] + []));
    steps := [go] + ([go] + ([go] + []));
    Unfold(s1, Check(0), steps);
    steps := [Check(0)] + steps;
    Unfold(s0, Command(true), steps);
    steps := [Command(true)] + steps;
  }

  lemma NextStage(n: nat, k: nat) returns (steps: seq<Step>)
    requires 0 < k < n
    ensures Run(Stage(n, k), steps) && After(Stage(n, k), steps) == Stage(n, k + 1)
  {
    var go := Go(k, []);
    var s0 := Stage(n, k);
    var s1 := Next(s0, Check(k));
    var s2 := Next(s1, go);
    var s3 := Next(s2, go);
    var s4 := Next(s3, go);
    assert s4.threads == Stage(n, k + 1).threads;
    assert s4 == Stage(n, k + 1) && Run(s4, []);
    Unfold(s3, go, []);
    Unfold(s2, go, [go] + []);
    Unfold(s1, go, [go] + ([go] + []));
    steps := [go] + ([go] + ([go] + []));
    Unfold(s0, Check(k), steps);
    steps := [Check(k)] + steps;
  }

  lemma {:induction false} LastStage(n: nat, k: nat) returns (steps: seq<Step>)
    requires 0 < k <= n
    ensures Run(Init(n), steps) && After(Init(n), steps) == Stage(n, k)
    decreases k
  {
    if k == 1 {
      steps := FirstStage(n);
    } else {
      var before := LastStage(n, k - 1);
      var more := NextStage(n, k - 1);
      Concat(Init(n), before, more);
      steps := before + more;
    }
  }

  /** However many writers there are, from process start a run can end with every thread idle,
      the start-up count 0, and a packet left on the ring: all writers dequeue nothing, the
      receiver passes the barrier and puts the packet, and a stop is seen by all. */
  lemma StrandingRun(n: nat, p: Packet) returns (steps: seq<Step>)
    requires n > 0
    ensures Run(Init(n), steps)
    ensures var e := After(Init(n), steps); AllIdle(e) && e.ring != [] && e.startUp == 0
  {
    var before := LastStage(n, n);
    var s := Stage(n, n);
    InitOk(n);
    RunControlled(Init(n), before);
    var go := Go(0, []);
    var put := Go(0, [p]);
    var b := Next(s, go);
    assert b.threads[0].pc == Put;
    StepControlled(s, go);
    PutStrandsIff(b, [p]);
    var e := Next(b, put);
    var tail :| StrandRun(e, tail);
    StepControlled(b, put);
    RunControlled(e, tail);
    RunningAll(After(e, tail).threads);
    Unfold(b, put, tail);
    Unfold(s, go, [put] + tail);
    Concat(Init(n), before, [go] + ([put] + tail));
    steps := before + ([go] + ([put] + tail));
  }

  // ----- Draining -----

  /** Steps a thread still takes before it is idle, if it finds the ring empty. */
  function Work(th: Thread): nat {
    if th.pc == Join || (th.running && th.pc == Called) then 4
    else if !th.running then 0
    else if th.pc == Outside then 5
    else if th.pc == Take then 3
    else if th.pc == Verdict then 2
    else 1
  }

  function WorkOf(threads: seq<Thread>): nat {
    if threads == [] then 0 else WorkOf(threads[..|threads| - 1]) + Work(threads[|threads| - 1])
  }

  lemma {:induction false} WorkUpdate(threads: seq<Thread>, t: nat, th: Thread)
    requires t < |threads|
    ensures WorkOf(threads[t := th]) == WorkOf(threads) - Work(threads[t]) + Work(th)
  {
    var n := |threads| - 1;
    if t == n {
      assert threads[t := th][..n] == threads[..n];
    } else {
      assert threads[t := th][..n] == threads[..n][t := th];
      WorkUpdate(threads[..n], t, th);
    }
  }

  /** Stopped: no start requested, capture off, the receiver idle or about to be counted out. */
  predicate Stopped(s: State)
    requires Shape(s)
  {
    var pc := s.threads[0].pc;
    !s.request && !s.capturing && (pc == Leave || (!s.threads[0].running && (pc == Outside || pc == Called)))
  }

  function DrainRank(s: State): nat { 4 * |s.ring| + WorkOf(s.threads) }

  predicate Busy(s: State, step: Step)
    requires Shape(s) && Enabled(s, step)
  {
    (step.Check? || step.Go?) && (s.threads[step.t].running || s.threads[step.t].pc == Join)
  }

  lemma DrainWriter(s: State, t: nat, burst: seq<Packet>)
    requires Controlled(s) && Stopped(s) && 0 < t < |s.threads| && Enabled(s, Go(t, burst))
    ensures var r := Next(s, Go(t, burst));
            && Stopped(r) && DrainRank(r) <= DrainRank(s)
            && (Busy(s, Go(t, burst)) ==> DrainRank(r) < DrainRank(s))
  {
    var r := Next(s, Go(t, burst));
    WorkUpdate(s.threads, t, r.threads[t]);
    assert r.threads == s.threads[t := r.threads[t]];
  }

  lemma DrainReceiver(s: State, burst: seq<Packet>)
    requires Controlled(s) && Stopped(s) && Enabled(s, Go(0, burst))
    ensures var r := Next(s, Go(0, burst));
            && Stopped(r) && DrainRank(r) <= DrainRank(s)
            && (Busy(s, Go(0, burst)) ==> DrainRank(r) < DrainRank(s))
  {
    var r := Next(s, Go(0, burst));
    WorkUpdate(s.threads, 0, r.threads[0]);
    assert r.threads == s.threads[0 := r.threads[0]];
  }

  lemma DrainStep(s: State, step: Step)
    requires Controlled(s) && Stopped(s) && Enabled(s, step) && step != Command(true)
    ensures var r := Next(s, step);
            && Shape(r) && Stopped(r) && DrainRank(r) <= DrainRank(s)
            && (Busy(s, step) ==> DrainRank(r) < DrainRank(s))
  {
    if step.Go? {
      if step.t == 0 {
        DrainReceiver(s, step.burst);
      } else {
        DrainWriter(s, step.t, step.burst);
      }
    } else if step.StopRequest? {
      WorkUpdate(s.threads, step.t, s.threads[step.t].(stop := true));
    } else if step.Check? {
      WorkUpdate(s.threads, step.t, Next(s, step).threads[step.t]);
    }
  }

  /** Steps of a run by threads that are not idle. */
  ghost function BusySteps(s: State, steps: seq<Step>): nat
    requires Shape(s) && Run(s, steps)
    decreases |steps|
  {
    if steps == [] then 0
    else
      NextShape(s, steps[0]);
      (if Busy(s, steps[0]) then 1 else 0) + BusySteps(Next(s, steps[0]), steps[1..])
  }

  /** Once stopped, and until a new start request, the threads that are not idle take at most
      `DrainRank` more steps, each of which is possible: then all are idle. */
  lemma {:induction false} DrainProgress(s: State, steps: seq<Step>)
    requires Controlled(s) && Stopped(s) && Run(s, steps) && Command(true) !in steps
    ensures Stopped(After(s, steps)) && BusySteps(s, steps) + DrainRank(After(s, steps)) <= DrainRank(s)
    decreases |steps|
  {
    if steps != [] {
      assert steps[0] in steps;
      DrainStep(s, steps[0]);
      StepControlled(s, steps[0]);
      DrainProgress(Next(s, steps[0]), steps[1..]);
    }
  }

  /** A thread that is not idle always has a step to take. */
  lemma BusyCanGo(s: State, t: nat)
    requires Controlled(s) && t < |s.threads| && (s.threads[t].running || s.threads[t].pc == Join)
    ensures (Enabled(s, Check(t)) && Busy(s, Check(t))) || (Enabled(s, Go(t, [])) && Busy(s, Go(t, [])))
  {
  }
}

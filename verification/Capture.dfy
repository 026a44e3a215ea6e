/** The capture pipeline: one receiver, writers 1, 2, ..., a shared ring between them, and
    start and stop requests that arrive at any time.

    Every access of a thread to shared data is one step: reading the request, announcing or
    retracting the capture status, joining or leaving the start-up count, testing the
    barrier, putting packets on the ring, taking packets off it, and testing the capture
    status after an empty dequeue.  A thread's own status is private to it and changes with
    the count. */
module Capture {
  import opened SppTypes

  type Packet = nat

  /** What the thread does next; `Outside`, its loop's check for a stop request. */
  datatype Pc = Outside | Called | Announce | Join | Barrier | Put | Retract | Leave | Take | Verdict

  datatype Thread = Thread(running: bool, stop: bool, exited: bool, pc: Pc)

  /** Thread 0 is the receiver.  The last five fields are history: packets received, put on
      the ring, and dropped, in order; the writer each dequeued packet went to; and what each
      writer wrote. */
  datatype State = State(
    request: bool, capturing: bool, startUp: int, threads: seq<Thread>, ring: seq<Packet>,
    received: seq<Packet>, queued: seq<Packet>, dropped: seq<Packet>, owner: seq<nat>, out: seq<seq<Packet>>)

  /** `Go(t, burst)`: the next access of thread `t`; the port offers `burst` if it is a `Put`. */
  datatype Step = Command(run: bool) | StopRequest(t: nat) | Check(t: nat) | Go(t: nat, burst: seq<Packet>)

  const MAX_PCAP_BURST: nat := 256
  /** A ring created for 16384 entries holds one less. */
  const RING_CAPACITY: nat := 16383

  predicate Shape(s: State) {
    |s.threads| > 0 && |s.out| == |s.threads|
  }

  function At(s: State, t: nat, pc: Pc): State
    requires t < |s.threads|
  {
    s.(threads := s.threads[t := s.threads[t].(pc := pc)])
  }

  function Joined(s: State, t: nat, pc: Pc): State
    requires t < |s.threads|
  {
    s.(threads := s.threads[t := s.threads[t].(running := true, pc := pc)], startUp := s.startUp + 1)
  }

  function Left(s: State, t: nat): State
    requires t < |s.threads|
  {
    s.(threads := s.threads[t := s.threads[t].(running := false, pc := Outside)],
       startUp := if s.startUp != 0 then s.startUp - 1 else 0)
  }

  /** How many packets of a burst the ring takes. */
  function Accepted(s: State, burst: seq<Packet>): (n: nat)
    ensures n <= |burst|
  {
    if |s.ring| <= RING_CAPACITY then Min(|burst|, RING_CAPACITY - |s.ring|) else 0
  }

  function Enqueue(s: State, burst: seq<Packet>): State {
    var n := Accepted(s, burst);
    s.(ring := s.ring + burst[..n], received := s.received + burst,
       queued := s.queued + burst[..n], dropped := s.dropped + burst[n..])
  }

  function Dequeue(s: State, t: nat): State
    requires Shape(s) && t < |s.threads|
  {
    var n := Min(|s.ring|, MAX_PCAP_BURST);
    s.(ring := s.ring[n..], owner := s.owner + seq(n, _ => t), out := s.out[t := s.out[t] + s.ring[..n]])
  }

  /** `pcap_proc_receive`, one access at a time. */
  function Receive(s: State, burst: seq<Packet>): State
    requires Shape(s)
  {
    var th := s.threads[0];
    match th.pc
    case Called =>
      At(s, 0, if !s.request then (if th.running then Retract else Outside) else if th.running then Barrier else Announce)
    case Announce => At(s, 0, Join).(capturing := true)
    case Join => Joined(s, 0, Barrier)
    case Barrier => At(s, 0, if |s.threads| > s.startUp then Outside else Put)
    case Put => At(Enqueue(s, burst), 0, Outside)
    case Retract => At(s, 0, Leave).(capturing := false)
    case Leave => Left(s, 0)
    case _ => s
  }

  /** `pcap_proc_write` of writer `t`, one access at a time. */
  function Write(s: State, t: nat): State
    requires Shape(s) && 0 < t < |s.threads|
  {
    var th := s.threads[t];
    match th.pc
    case Called => At(s, t, if th.running then Take else if s.capturing then Join else Outside)
    case Join => Joined(s, t, Take)
    case Take => if s.ring == [] then At(s, t, Verdict) else At(Dequeue(s, t), t, Outside)
    case Verdict => At(s, t, if s.capturing then Outside else Leave)
    case Leave => Left(s, t)
    case _ => s
  }

  predicate Enabled(s: State, step: Step) {
    match step
    case Command(_) => true
    case StopRequest(t) => t < |s.threads|
    case Check(t) => t < |s.threads| && !s.threads[t].exited && s.threads[t].pc == Outside
    case Go(t, burst) => t < |s.threads| && s.threads[t].pc != Outside && |burst| <= MAX_PCAP_BURST
  }

  function Next(s: State, step: Step): State
    requires Shape(s) && Enabled(s, step)
  {
    match step
    case Command(run) => s.(request := run)
    case StopRequest(t) => s.(threads := s.threads[t := s.threads[t].(stop := true)])
    case Check(t) =>
      var th := s.threads[t];
      if th.stop && !th.running then s.(threads := s.threads[t := th.(exited := true)])
      else At(s, t, Called).(request := s.request && !(th.stop && t == 0))
    case Go(t, burst) => if t == 0 then Receive(s, burst) else Write(s, t)
  }

  /** Packets are dropped only when the ring has been filled to the brim, and then the last ones
      of the burst; otherwise all are put on the ring, behind what was there. */
  lemma PutFills(s: State, burst: seq<Packet>)
    requires Shape(s) && s.threads[0].pc == Put && |s.ring| <= RING_CAPACITY && |burst| <= MAX_PCAP_BURST
    ensures var e := Next(s, Go(0, burst));
            && s.ring <= e.ring && s.dropped <= e.dropped && e.received == s.received + burst
            && e.ring[|s.ring|..] + e.dropped[|s.dropped|..] == burst
            && (e.dropped != s.dropped ==> |e.ring| == RING_CAPACITY)
  {
    var n := Accepted(s, burst);
    assert burst[..n] + burst[n..] == burst;
  }

  /** A writer takes what is on the ring, from its front, up to a burst, and goes on to test the
      capture status exactly if there is nothing. */
  lemma TakeEmpties(s: State, t: nat, burst: seq<Packet>)
    requires Shape(s) && 0 < t < |s.threads| && s.threads[t].pc == Take && |burst| <= MAX_PCAP_BURST
    ensures var e := Next(s, Go(t, burst));
            && (e.threads[t].pc == Verdict <==> s.ring == [])
            && |e.out| == |s.out| && s.out[t] <= e.out[t] && e.out[t][|s.out[t]|..] + e.ring == s.ring
            && (e.ring == [] || |e.out[t]| == |s.out[t]| + MAX_PCAP_BURST)
            && forall u :: 0 <= u < |s.out| && u != t ==> e.out[u] == s.out[u]
  {
    var n := Min(|s.ring|, MAX_PCAP_BURST);
    assert s.ring[..n] + s.ring[n..] == s.ring;
  }

  // ----- The invariant -----

  function Running(threads: seq<Thread>): nat {
    if threads == [] then 0
    else Running(threads[..|threads| - 1]) + (if threads[|threads| - 1].running then 1 else 0)
  }

  /** What the owners say writer `t` got. */
  function Share(q: seq<Packet>, owner: seq<nat>, t: nat): seq<Packet>
    requires |owner| <= |q|
    decreases |owner|
  {
    if owner == [] then []
    else
      var n := |owner| - 1;
      Share(q, owner[..n], t) + (if owner[n] == t then [q[n]] else [])
  }

  /** The receiver's place fits its status and the capture status it has announced. */
  predicate ReceiverOk(th: Thread, capturing: bool) {
    match th.pc
    case Outside => capturing == th.running
    case Called => capturing == th.running
    case Announce => !th.running && !capturing
    case Join => !th.running && capturing
    case Barrier => th.running && capturing
    case Put => th.running && capturing
    case Retract => th.running && capturing
    case Leave => th.running && !capturing
    case _ => false
  }

  predicate WriterOk(th: Thread) {
    match th.pc
    case Outside => true
    case Called => true
    case Join => !th.running
    case Take => th.running
    case Verdict => th.running
    case Leave => th.running
    case _ => false
  }

  /** The control half: the counter counts, every thread is where its status says, and only
      idle threads have ended. */
  ghost predicate Controlled(s: State) {
    && Shape(s)
    && s.startUp == Running(s.threads)
    && ReceiverOk(s.threads[0], s.capturing)
    && (forall t :: 0 < t < |s.threads| ==> WriterOk(s.threads[t]))
    && (forall t :: 0 <= t < |s.threads| && s.threads[t].exited ==> !s.threads[t].running && s.threads[t].pc == Outside)
  }

  /** The data half. */
  ghost predicate Accounted(s: State) {
    && Shape(s)
    && |s.owner| + |s.ring| == |s.queued|
    && s.ring == s.queued[|s.owner|..]
    && (forall i :: 0 <= i < |s.owner| ==> 0 < s.owner[i] < |s.threads|)
    && (forall t :: 0 <= t < |s.out| ==> s.out[t] == Share(s.queued, s.owner, t))
    && multiset(s.received) == multiset(s.queued) + multiset(s.dropped)
    && |s.ring| <= RING_CAPACITY
  }

  lemma {:induction false} RunningUpdate(threads: seq<Thread>, t: nat, th: Thread)
    requires t < |threads|
    ensures Running(threads[t := th])
            == Running(threads) - (if threads[t].running then 1 else 0) + (if th.running then 1 else 0)
  {
    var n := |threads| - 1;
    if t == n {
      assert threads[t := th][..n] == threads[..n];
    } else {
      assert threads[t := th][..n] == threads[..n][t := th];
      RunningUpdate(threads[..n], t, th);
    }
  }

  lemma {:induction false} RunningAll(threads: seq<Thread>)
    ensures Running(threads) <= |threads|
    ensures Running(threads) == |threads| <==> forall t :: 0 <= t < |threads| ==> threads[t].running
    ensures Running(threads) == 0 <==> forall t :: 0 <= t < |threads| ==> !threads[t].running
  {
    if threads != [] {
      var n := |threads| - 1;
      RunningAll(threads[..n]);
      assert forall t :: 0 <= t < n ==> threads[..n][t] == threads[t];
    }
  }

  lemma MoveControlled(s: State, t: nat, th: Thread)
    requires Shape(s) && t < |s.threads| && s.startUp == Running(s.threads) && th.running == s.threads[t].running
    ensures Running(s.threads[t := th]) == s.startUp
  {
    RunningUpdate(s.threads, t, th);
  }

  lemma JoinControlled(s: State, t: nat, pc: Pc)
    requires Shape(s) && t < |s.threads| && s.startUp == Running(s.threads) && !s.threads[t].running
    ensures Joined(s, t, pc).startUp == Running(Joined(s, t, pc).threads)
  {
    RunningUpdate(s.threads, t, s.threads[t].(running := true, pc := pc));
  }

  lemma LeaveControlled(s: State, t: nat)
    requires Shape(s) && t < |s.threads| && s.startUp == Running(s.threads) && s.threads[t].running
    ensures Left(s, t).startUp == Running(Left(s, t).threads)
  {
    RunningUpdate(s.threads, t, s.threads[t].(running := false, pc := Outside));
    RunningAll(s.threads);
  }

  lemma ReceiveControlled(s: State, burst: seq<Packet>)
    requires Controlled(s) && s.threads[0].pc != Outside
    ensures Controlled(Receive(s, burst))
  {
    var pc := s.threads[0].pc;
    if pc == Join {
      JoinControlled(s, 0, Barrier);
    } else if pc == Leave {
      LeaveControlled(s, 0);
    } else {
      MoveControlled(s, 0, Receive(s, burst).threads[0]);
    }
  }

  /** Only writer `t` moved. */
  lemma WriterMoved(s: State, r: State, t: nat, th: Thread)
    requires Controlled(s) && 0 < t < |s.threads| && WriterOk(th) && !th.exited
    requires Shape(r) && r.threads == s.threads[t := th] && r.capturing == s.capturing
    requires r.startUp == Running(r.threads)
    ensures Controlled(r)
  {
  }

  lemma WriteControlled(s: State, t: nat)
    requires Controlled(s) && 0 < t < |s.threads| && s.threads[t].pc != Outside
    ensures Controlled(Write(s, t))
  {
    var pc, r := s.threads[t].pc, Write(s, t);
    if pc == Join {
      JoinControlled(s, t, Take);
    } else if pc == Leave {
      LeaveControlled(s, t);
    } else {
      MoveControlled(s, t, r.threads[t]);
    }
    WriterMoved(s, r, t, r.threads[t]);
  }

  lemma CheckControlled(s: State, t: nat)
    requires Controlled(s) && Enabled(s, Check(t))
    ensures Controlled(Next(s, Check(t)))
  {
    MoveControlled(s, t, Next(s, Check(t)).threads[t]);
  }

  lemma StopControlled(s: State, t: nat)
    requires Controlled(s) && t < |s.threads|
    ensures Controlled(Next(s, StopRequest(t)))
  {
    MoveControlled(s, t, s.threads[t].(stop := true));
  }

  lemma StepControlled(s: State, step: Step)
    requires Controlled(s) && Enabled(s, step)
    ensures Controlled(Next(s, step))
  {
    match step
    case Command(_) =>
    case StopRequest(t) => StopControlled(s, t);
    case Check(t) => CheckControlled(s, t);
    case Go(t, burst) =>
      if t == 0 {
        ReceiveControlled(s, burst);
      } else {
        WriteControlled(s, t);
      }
  }

  lemma {:induction false} ShareExtend(q: seq<Packet>, more: seq<Packet>, owner: seq<nat>, t: nat)
    requires |owner| <= |q|
    ensures Share(q + more, owner, t) == Share(q, owner, t)
    decreases |owner|
  {
    if owner != [] {
      ShareExtend(q, more, owner[..|owner| - 1], t);
    }
  }

  /** Writer `w` takes the next `n` packets. */
  lemma {:induction false} ShareTake(q: seq<Packet>, owner: seq<nat>, w: nat, n: nat, t: nat)
    requires |owner| + n <= |q|
    ensures Share(q, owner + seq(n, _ => w), t)
            == Share(q, owner, t) + (if t == w then q[|owner|..|owner| + n] else [])
    decreases n
  {
    if n == 0 {
      assert owner + seq(n, _ => w) == owner;
    } else {
      var o := owner + seq(n, _ => w);
      assert o[..|o| - 1] == owner + seq(n - 1, _ => w);
      ShareTake(q, owner, w, n - 1, t);
      assert q[|owner|..|owner| + n] == q[|owner|..|owner| + n - 1] + [q[|owner| + n - 1]];
    }
  }

  lemma EnqueueAccounted(s: State, burst: seq<Packet>)
    requires Accounted(s)
    ensures Accounted(Enqueue(s, burst))
  {
    var n := Accepted(s, burst);
    forall t | 0 <= t < |s.out| ensures s.out[t] == Share(s.queued + burst[..n], s.owner, t) {
      ShareExtend(s.queued, burst[..n], s.owner, t);
    }
    assert burst == burst[..n] + burst[n..];
  }

  lemma DequeueAccounted(s: State, w: nat)
    requires Accounted(s) && 0 < w < |s.threads|
    ensures Accounted(Dequeue(s, w))
  {
    var n := Min(|s.ring|, MAX_PCAP_BURST);
    var r := Dequeue(s, w);
    forall t | 0 <= t < |s.out| ensures r.out[t] == Share(s.queued, r.owner, t) {
      ShareTake(s.queued, s.owner, w, n, t);
    }
  }

  /** The control half plays no part in the data half. */
  lemma SameData(s: State, r: State)
    requires Accounted(s) && Shape(r) && |r.threads| == |s.threads|
    requires r.ring == s.ring && r.received == s.received && r.queued == s.queued && r.dropped == s.dropped
    requires r.owner == s.owner && r.out == s.out
    ensures Accounted(r)
  {
  }

  lemma ReceiveAccounted(s: State, burst: seq<Packet>)
    requires Accounted(s)
    ensures Accounted(Receive(s, burst))
  {
    if s.threads[0].pc == Put {
      EnqueueAccounted(s, burst);
      SameData(Enqueue(s, burst), Receive(s, burst));
    } else {
      SameData(s, Receive(s, burst));
    }
  }

  lemma WriteKeepsData(s: State, t: nat)
    requires Shape(s) && 0 < t < |s.threads| && (s.threads[t].pc != Take || s.ring == [])
    ensures var r := Write(s, t);
            && Shape(r) && |r.threads| == |s.threads| && r.ring == s.ring && r.received == s.received
            && r.queued == s.queued && r.dropped == s.dropped && r.owner == s.owner && r.out == s.out
  {
  }

  lemma WriteAccounted(s: State, t: nat)
    requires Accounted(s) && 0 < t < |s.threads|
    ensures Accounted(Write(s, t))
  {
    if s.threads[t].pc == Take && s.ring != [] {
      var d := Dequeue(s, t);
      DequeueAccounted(s, t);
      assert Write(s, t) == At(d, t, Outside);
      SameData(d, At(d, t, Outside));
    } else {
      WriteKeepsData(s, t);
      SameData(s, Write(s, t));
    }
  }

  lemma StepAccounted(s: State, step: Step)
    requires Accounted(s) && Enabled(s, step)
    ensures Accounted(Next(s, step))
  {
    if step.Go? {
      if step.t == 0 {
        ReceiveAccounted(s, step.burst);
      } else {
        WriteAccounted(s, step.t);
      }
    } else {
      SameData(s, Next(s, step));
    }
  }

  // ----- Runs -----

  /** All threads idle, nothing received yet. */
  function Init(n: nat): State
    requires n > 0
  {
    State(false, false, 0, seq(n, _ => Thread(false, false, false, Outside)), [], [], [], [], [], seq(n, _ => []))
  }

  lemma InitOk(n: nat)
    requires n > 0
    ensures Controlled(Init(n)) && Accounted(Init(n))
  {
    RunningAll(Init(n).threads);
  }

  lemma NextShape(s: State, step: Step)
    requires Shape(s) && Enabled(s, step)
    ensures Shape(Next(s, step)) && |Next(s, step).threads| == |s.threads|
  {
  }

  ghost predicate Run(s: State, steps: seq<Step>)
    requires Shape(s)
    decreases |steps|
  {
    steps == [] || (Enabled(s, steps[0]) && (NextShape(s, steps[0]); Run(Next(s, steps[0]), steps[1..])))
  }

  ghost function After(s: State, steps: seq<Step>): (e: State)
    requires Shape(s) && Run(s, steps)
    ensures Shape(e) && |e.threads| == |s.threads|
    decreases |steps|
  {
    if steps == [] then s
    else
      NextShape(s, steps[0]);
      After(Next(s, steps[0]), steps[1..])
  }

  lemma {:induction false} RunOk(s: State, steps: seq<Step>)
    requires Controlled(s) && Accounted(s) && Run(s, steps)
    ensures Controlled(After(s, steps)) && Accounted(After(s, steps))
    decreases |steps|
  {
    if steps != [] {
      NextShape(s, steps[0]);
      StepControlled(s, steps[0]);
      StepAccounted(s, steps[0]);
      RunOk(Next(s, steps[0]), steps[1..]);
    }
  }

  /** In every interleaving, across any stops and starts: the start-up count is the number of
      running threads, and packets are put on the ring only by a running receiver. */
  lemma RunCounts(n: nat, steps: seq<Step>)
    requires n > 0 && Run(Init(n), steps)
    ensures var e := After(Init(n), steps);
            && |e.threads| == n && e.startUp == Running(e.threads)
            && (e.threads[0].pc == Put ==> e.threads[0].running && e.capturing)
            && forall t :: 0 <= t < n && e.threads[t].exited ==> !e.threads[t].running
  {
    InitOk(n);
    RunOk(Init(n), steps);
  }

  function Written(out: seq<seq<Packet>>): multiset<Packet> {
    if out == [] then multiset{} else Written(out[..|out| - 1]) + multiset(out[|out| - 1])
  }

  lemma {:induction false} WrittenUpdate(out: seq<seq<Packet>>, t: nat, p: Packet)
    requires t < |out|
    ensures Written(out[t := out[t] + [p]]) == Written(out) + multiset{p}
  {
    var n := |out| - 1;
    var up := out[t := out[t] + [p]];
    if t == n {
      assert up[..n] == out[..n];
      assert multiset(up[n]) == multiset(out[n]) + multiset{p};
    } else {
      assert up[..n] == out[..n][t := out[..n][t] + [p]];
      WrittenUpdate(out[..n], t, p);
      assert Written(up) == Written(up[..n]) + multiset(out[n]);
    }
  }

  function Shares(q: seq<Packet>, owner: seq<nat>, n: nat): seq<seq<Packet>>
    requires |owner| <= |q|
  {
    seq(n, t requires 0 <= t < n => Share(q, owner, t))
  }

  lemma {:induction false} NothingWritten(out: seq<seq<Packet>>)
    requires forall t :: 0 <= t < |out| ==> out[t] == []
    ensures Written(out) == multiset{}
  {
    if out != [] {
      NothingWritten(out[..|out| - 1]);
    }
  }

  lemma LastShare(q: seq<Packet>, owner: seq<nat>, n: nat)
    requires 0 < |owner| <= |q| && owner[|owner| - 1] < n
    ensures var k, w := |owner| - 1, owner[|owner| - 1];
            var before := Shares(q, owner[..k], n);
            Shares(q, owner, n) == before[w := before[w] + [q[k]]]
  {
    var k, w := |owner| - 1, owner[|owner| - 1];
    var before := Shares(q, owner[..k], n);
    forall t: nat | t < n ensures Share(q, owner, t) == before[w := before[w] + [q[k]]][t] {
    }
  }

  lemma PrefixPlus(q: seq<Packet>, k: nat)
    requires k < |q|
    ensures multiset(q[..k + 1]) == multiset(q[..k]) + multiset{q[k]}
  {
    assert q[..k + 1] == q[..k] + [q[k]];
  }

  /** The shares of the writers together are the dequeued packets. */
  lemma {:induction false} SharesPartition(q: seq<Packet>, owner: seq<nat>, n: nat)
    requires |owner| <= |q| && forall i :: 0 <= i < |owner| ==> owner[i] < n
    ensures Written(Shares(q, owner, n)) == multiset(q[..|owner|])
    decreases |owner|
  {
    if owner == [] {
      NothingWritten(Shares(q, owner, n));
    } else {
      var k := |owner| - 1;
      var before := Shares(q, owner[..k], n);
      SharesPartition(q, owner[..k], n);
      assert Written(before) == multiset(q[..k]);
      LastShare(q, owner, n);
      WrittenUpdate(before, owner[k], q[k]);
      assert Written(Shares(q, owner, n)) == multiset(q[..k]) + multiset{q[k]};
      PrefixPlus(q, k);
    }
  }

  lemma AccountedConserves(e: State)
    requires Accounted(e)
    ensures multiset(e.received) == Written(e.out) + multiset(e.ring) + multiset(e.dropped)
  {
    assert e.out == Shares(e.queued, e.owner, |e.out|);
    SharesPartition(e.queued, e.owner, |e.out|);
    var taken := e.queued[..|e.owner|];
    assert e.queued == taken + e.ring;
    assert multiset(e.queued) == multiset(taken) + multiset(e.ring);
  }

  /** Whatever the interleaving: what was received is what was written, waits in the ring or
      was dropped, counted with multiplicity; and each writer's output is, in the order of
      the ring, the packets it took. */
  lemma RunConserves(n: nat, steps: seq<Step>)
    requires n > 0 && Run(Init(n), steps)
    ensures var e := After(Init(n), steps);
            && multiset(e.received) == Written(e.out) + multiset(e.ring) + multiset(e.dropped)
            && |e.owner| <= |e.queued| && e.queued[|e.owner|..] == e.ring
            && |e.out| == n && forall t :: 0 <= t < n ==> e.out[t] == Share(e.queued, e.owner, t)
  {
    InitOk(n);
    RunOk(Init(n), steps);
    AccountedConserves(After(Init(n), steps));
  }
}

/** The receive and write procedures as they update the shared state in place: every access
    proved to be the step of `Capture` of that place, and a call that is not interrupted to
    be those steps one after the other. */
module CaptureThreads {
  import opened SppTypes
  import opened Capture

  /** At most `fuel` accesses of thread `t`, without interruption, up to the end of its call. */
  function Alone(s: State, t: nat, burst: seq<Packet>, fuel: nat): (r: State)
    requires Shape(s) && t < |s.threads| && |burst| <= MAX_PCAP_BURST
    ensures Shape(r) && |r.threads| == |s.threads|
    decreases fuel
  {
    if fuel == 0 || s.threads[t].pc == Outside then s
    else
      NextShape(s, Go(t, burst));
      Alone(Next(s, Go(t, burst)), t, burst, fuel - 1)
  }

  /** No call makes more accesses. */
  const CALL: nat := 5

  class Pipeline {
    var request: bool
    var capturing: bool
    var startUp: int
    var threads: seq<Thread>
    var ring: seq<Packet>
    var received: seq<Packet>
    var queued: seq<Packet>
    var dropped: seq<Packet>
    var owner: seq<nat>
    var out: seq<seq<Packet>>

    constructor (n: nat)
      requires n > 0
      ensures View() == Init(n)
    {
      request, capturing, startUp := false, false, 0;
      threads := seq(n, _ => Thread(false, false, false, Outside));
      ring, received, queued, dropped, owner := [], [], [], [], [];
      out := seq(n, _ => []);
    }

    function View(): State
      reads this
    {
      State(request, capturing, startUp, threads, ring, received, queued, dropped, owner, out)
    }

    method GoTo(t: nat, pc: Pc)
      requires t < |threads|
      modifies this`threads
      ensures View() == At(old(View()), t, pc)
    {
      threads := threads[t := threads[t].(pc := pc)];
    }

    /** Status RUNNING, one more in the start-up count. */
    method JoinAs(t: nat, pc: Pc)
      requires t < |threads|
      modifies this`threads, this`startUp
      ensures View() == Joined(old(View()), t, pc)
    {
      threads := threads[t := threads[t].(running := true, pc := pc)];
      startUp := startUp + 1;
    }

    /** Status IDLE, one less in the start-up count unless it is 0. */
    method LeaveNow(t: nat)
      requires t < |threads|
      modifies this`threads, this`startUp
      ensures View() == Left(old(View()), t)
    {
      threads := threads[t := threads[t].(running := false, pc := Outside)];
      if startUp != 0 {
        startUp := startUp - 1;
      }
    }

    /** `rte_ring_enqueue_burst`: as many as fit. */
    method RingEnqueue(bufs: seq<Packet>) returns (n: nat)
      requires |ring| <= RING_CAPACITY
      modifies this`ring, this`queued
      ensures n == Accepted(old(View()), bufs)
      ensures ring == old(ring) + bufs[..n] && queued == old(queued) + bufs[..n]
    {
      n := 0;
      while n < |bufs| && |ring| < RING_CAPACITY
        invariant n <= |bufs| && |ring| == |old(ring)| + n <= RING_CAPACITY
        invariant ring == old(ring) + bufs[..n] && queued == old(queued) + bufs[..n]
      {
        ring, queued := ring + [bufs[n]], queued + [bufs[n]];
        assert bufs[..n + 1] == bufs[..n] + [bufs[n]];
        n := n + 1;
      }
    }

    /** A received burst: put on the ring, and what does not fit freed. */
    method PutBurst(burst: seq<Packet>)
      requires |ring| <= RING_CAPACITY
      modifies this`ring, this`received, this`queued, this`dropped
      ensures View() == Enqueue(old(View()), burst)
    {
      var nbTx := RingEnqueue(burst);
      received := received + burst;
      var buf := nbTx;
      ghost var before := dropped;
      while buf < |burst|
        invariant nbTx <= buf <= |burst|
        invariant dropped == before + burst[nbTx..buf]
        modifies this`dropped
      {
        dropped := dropped + [burst[buf]];
        assert burst[nbTx..buf + 1] == burst[nbTx..buf] + [burst[buf]];
        buf := buf + 1;
      }
    }

    /** The packets a writer takes off the ring, written one by one. */
    method WriteBurst(t: nat)
      requires Shape(View()) && t < |threads|
      modifies this`ring, this`owner, this`out
      ensures View() == Dequeue(old(View()), t)
    {
      var n := Min(|ring|, MAX_PCAP_BURST);
      var bufs := ring[..n];
      ring := ring[n..];
      var buf := 0;
      assert out[t] + bufs[..0] == out[t];
      while buf < n
        invariant buf <= n && |out| == |old(out)|
        invariant out == old(out)[t := old(out)[t] + bufs[..buf]]
        invariant owner == old(owner) + seq(buf, _ => t)
        modifies this`owner, this`out
      {
        ghost var before := out;
        out := out[t := out[t] + [bufs[buf]]];
        owner := owner + [t];
        assert before[t] + [bufs[buf]] == old(out)[t] + bufs[..buf + 1];
        assert seq(buf + 1, _ => t) == seq(buf, _ => t) + [t];
        buf := buf + 1;
      }
      assert bufs[..n] == old(ring)[..n];
      assert View().owner == Dequeue(old(View()), t).owner;
    }

    /** The receiver's next access. */
    method ReceiveAccess(burst: seq<Packet>)
      requires Shape(View()) && |ring| <= RING_CAPACITY && threads[0].pc != Outside && |burst| <= MAX_PCAP_BURST
      modifies this
      ensures View() == Receive(old(View()), burst)
    {
      var pc, running := threads[0].pc, threads[0].running;
      if pc == Called {
        GoTo(0, if !request then (if running then Retract else Outside) else if running then Barrier else Announce);
      } else if pc == Announce {
        capturing := true;
        GoTo(0, Join);
      } else if pc == Join {
        JoinAs(0, Barrier);
      } else if pc == Barrier {
        GoTo(0, if |threads| > startUp then Outside else Put);
      } else if pc == Put {
        PutBurst(burst);
        GoTo(0, Outside);
      } else if pc == Retract {
        capturing := false;
        GoTo(0, Leave);
      } else if pc == Leave {
        LeaveNow(0);
      }
    }

    /** A writer's next access. */
    method WriteAccess(t: nat)
      requires Shape(View()) && 0 < t < |threads| && threads[t].pc != Outside
      modifies this
      ensures View() == Write(old(View()), t)
    {
      var pc, running := threads[t].pc, threads[t].running;
      if pc == Called {
        GoTo(t, if running then Take else if capturing then Join else Outside);
      } else if pc == Join {
        JoinAs(t, Take);
      } else if pc == Take {
        if ring == [] {
          GoTo(t, Verdict);
        } else {
          WriteBurst(t);
          GoTo(t, Outside);
        }
      } else if pc == Verdict {
        GoTo(t, if capturing then Outside else Leave);
      } else if pc == Leave {
        LeaveNow(t);
      }
    }

    /** The next access of any thread. */
    method Access(t: nat, burst: seq<Packet>)
      requires Controlled(View()) && t < |threads| && |ring| <= RING_CAPACITY && |burst| <= MAX_PCAP_BURST
      requires threads[t].pc != Outside
      modifies this
      ensures View() == Next(old(View()), Go(t, burst)) && Controlled(View())
      ensures |ring| <= RING_CAPACITY && |threads| == |old(threads)|
      ensures PathLength(t == 0, threads[t]) < PathLength(t == 0, old(threads[t]))
    {
      StepControlled(View(), Go(t, burst));
      AccessShortens(View(), t, burst);
      if t == 0 {
        ReceiveAccess(burst);
      } else {
        WriteAccess(t);
      }
    }

    /** A call of `pcap_proc_receive` (`t` 0) or `pcap_proc_write` that is not interrupted. */
    method Call(t: nat, burst: seq<Packet>)
      requires Controlled(View()) && t < |threads| && |ring| <= RING_CAPACITY && |burst| <= MAX_PCAP_BURST
      requires threads[t].pc == Called
      modifies this
      ensures View() == Alone(old(View()), t, burst, CALL) && Controlled(View()) && threads[t].pc == Outside
    {
      ghost var s := View();
      ghost var n := 0;
      while threads[t].pc != Outside
        invariant Controlled(View()) && t < |threads| && |ring| <= RING_CAPACITY && |threads| == |s.threads|
        invariant n + PathLength(t == 0, threads[t]) <= CALL
        invariant Alone(s, t, burst, CALL) == Alone(View(), t, burst, CALL - n)
        decreases PathLength(t == 0, threads[t])
      {
        Access(t, burst);
        n := n + 1;
      }
    }

    /** One turn of the loop of `slave_main` that is not interrupted. */
    method Turn(t: nat, burst: seq<Packet>) returns (ended: bool)
      requires Controlled(View()) && Enabled(View(), Check(t)) && |burst| <= MAX_PCAP_BURST && |ring| <= RING_CAPACITY
      modifies this
      ensures Shape(old(View())) && Enabled(old(View()), Check(t))
      ensures var s := Next(old(View()), Check(t));
              && ended == s.threads[t].exited
              && Shape(s) && View() == if ended then s else Alone(s, t, burst, CALL)
    {
      CheckControlled(View(), t);
      if threads[t].stop {
        if !threads[t].running {
          threads := threads[t := threads[t].(exited := true)];
          return true;
        }
        if t == 0 {
          request := false;
        }
      }
      GoTo(t, Called);
      Call(t, burst);
      return false;
    }
  }

  /** Accesses to the end of the call. */
  function PathLength(receiver: bool, th: Thread): nat {
    match th.pc
    case Outside => 0
    case Called => if th.running then 4 else 5
    case Announce => 4
    case Join => if receiver then 3 else 4
    case Barrier => 2
    case Put => 1
    case Retract => 2
    case Leave => 1
    case Take => 3
    case Verdict => 2
  }

  lemma AccessShortens(s: State, t: nat, burst: seq<Packet>)
    requires Controlled(s) && t < |s.threads| && s.threads[t].pc != Outside && |burst| <= MAX_PCAP_BURST
    ensures var r := Next(s, Go(t, burst));
            && Shape(r) && |r.threads| == |s.threads| && (|s.ring| <= RING_CAPACITY ==> |r.ring| <= RING_CAPACITY)
            && PathLength(t == 0, r.threads[t]) < PathLength(t == 0, s.threads[t])
  {
  }
}

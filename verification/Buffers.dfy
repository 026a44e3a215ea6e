/** The classifier's transmit buffers: pushing, transmitting and fanning out packets, with a
    ledger of what became of every packet reference. */
module Buffers {
  import opened SppTypes
  import opened Management
  import opened Classifier

  datatype Packet = Packet(id: nat, frame: Frame)

  /** What became of a reference handed to a port: sent, or freed because the port did not accept it. */
  datatype Outcome = Sent(p: Packet) | Freed(p: Packet)

  const MAX_PKT_BURST: nat := 32

  /** Ports by number of the device, and for each the packets waiting in its buffer. */
  datatype Area = Area(table: seq<ClassId>, hasRx: bool, ports: seq<nat>, bufs: seq<seq<Packet>>)

  /** History of a component.  By port: what was pushed and what came of it; and all references
      ever obtained (from reception or by raising a reference count) and ever given up. */
  datatype Hist = Hist(pushed: map<nat, seq<Packet>>, out: map<nat, seq<Outcome>>, dropped: seq<Packet>,
                       raised: multiset<Packet>, settled: multiset<Packet>)

  datatype Side = Side(a: Area, h: Hist)

  /** How many packets of a burst a port accepts, by port and by number of references it was
      handed before: every burst of a run may be answered differently. */
  type Nic = (nat, nat) -> nat

  function At<T>(m: map<nat, seq<T>>, d: nat): seq<T> { if d in m then m[d] else [] }

  function Packets(l: seq<Outcome>): seq<Packet> { seq(|l|, i requires 0 <= i < |l| => l[i].p) }

  /** Outcome of a burst of which `n` packets are accepted. */
  function Batch(b: seq<Packet>, n: nat): (l: seq<Outcome>)
    ensures Packets(l) == b
  {
    seq(|b|, i requires 0 <= i < |b| => if i < n then Sent(b[i]) else Freed(b[i]))
  }

  /** What the wire sees. */
  function Wire(l: seq<Outcome>): seq<Packet> {
    if l == [] then [] else (if l[0].Sent? then [l[0].p] else []) + Wire(l[1..])
  }

  /** Of a burst the wire sees exactly the packets the device accepts, the first ones. */
  lemma {:induction false} WireOfBatch(b: seq<Packet>, n: nat)
    ensures Wire(Batch(b, n)) == b[..Min(n, |b|)]
    decreases |b|
  {
    var l := Batch(b, n);
    if b != [] {
      assert l[1..] == Batch(b[1..], if n == 0 then 0 else n - 1);
      WireOfBatch(b[1..], if n == 0 then 0 else n - 1);
    }
  }

  predicate Subsequence<T(==)>(a: seq<T>, b: seq<T>) {
    if a == [] then true
    else b != [] && (if a[0] == b[0] then Subsequence(a[1..], b[1..]) else Subsequence(a, b[1..]))
  }

  lemma {:induction false} SkipOne<T>(a: seq<T>, b: seq<T>, x: T)
    requires Subsequence(a, b)
    ensures Subsequence(a, [x] + b)
    decreases |b|, 1
  {
    assert ([x] + b)[1..] == b;
    if a != [] && a[0] == x {
      DropHead(a, b);
    }
  }

  lemma {:induction false} DropHead<T>(a: seq<T>, b: seq<T>)
    requires a != [] && Subsequence(a, b)
    ensures Subsequence(a[1..], b)
    decreases |b|, 0
  {
    if a[0] == b[0] {
      SkipOne(a[1..], b[1..], b[0]);
      assert b == [b[0]] + b[1..];
    } else {
      DropHead(a, b[1..]);
      SkipOne(a[1..], b[1..], b[0]);
      assert b == [b[0]] + b[1..];
    }
  }

  /** A port sends in the order in which packets were handed to it. */
  lemma {:induction false} WireInOrder(l: seq<Outcome>)
    ensures Subsequence(Wire(l), Packets(l))
  {
    if l != [] {
      WireInOrder(l[1..]);
      assert Packets(l) == [l[0].p] + Packets(l[1..]);
      assert Packets(l)[1..] == Packets(l[1..]);
      if l[0].Sent? {
        assert Wire(l)[1..] == Wire(l[1..]);
      } else {
        SkipOne(Wire(l[1..]), Packets(l[1..]), l[0].p);
        assert Wire(l) == Wire(l[1..]);
      }
    }
  }

  // ----- The operations -----

  ghost predicate Shape(a: Area) {
    |a.bufs| == |a.ports| == |a.table| && NoDups(a.ports)
  }

  /** `transmit_packet` on buffer `i`. */
  function Transmit(s: Side, i: nat, nic: Nic): (r: Side)
    requires |s.a.ports| == |s.a.bufs| && i < |s.a.bufs|
    ensures r.a == s.a.(bufs := s.a.bufs[i := []])
  {
    var d, b := s.a.ports[i], s.a.bufs[i];
    var done := At(s.h.out, d);
    Side(s.a.(bufs := s.a.bufs[i := []]),
         s.h.(out := s.h.out[d := done + Batch(b, nic(d, |done|))], settled := s.h.settled + multiset(b)))
  }

  /** `push_packet` to buffer `i`. */
  function Push(s: Side, i: nat, p: Packet, nic: Nic): (r: Side)
    requires |s.a.ports| == |s.a.bufs| && i < |s.a.bufs|
    ensures r.a == s.a.(bufs := r.a.bufs) && |r.a.bufs| == |s.a.bufs|
  {
    var d, b := s.a.ports[i], s.a.bufs[i] + [p];
    var s1 := Side(s.a.(bufs := s.a.bufs[i := b]), s.h.(pushed := s.h.pushed[d := At(s.h.pushed, d) + [p]]));
    if |b| == MAX_PKT_BURST then Transmit(s1, i, nic) else s1
  }

  ghost predicate InRange(dests: seq<nat>, n: nat) { forall x :: 0 <= x < |dests| ==> dests[x] < n }

  /** Pushes one packet to several buffers, in order. */
  function PushAll(s: Side, dests: seq<nat>, p: Packet, nic: Nic): (r: Side)
    requires |s.a.ports| == |s.a.bufs| && InRange(dests, |s.a.bufs|)
    ensures r.a == s.a.(bufs := r.a.bufs) && |r.a.bufs| == |s.a.bufs|
    decreases |dests|
  {
    if dests == [] then s
    else
      var n := |dests| - 1;
      Push(PushAll(s, dests[..n], p, nic), dests[n], p, nic)
  }

  function Copies(p: Packet, n: nat): multiset<Packet> { multiset{}[p := n] }

  function Raise(s: Side, p: Packet, n: nat): Side {
    s.(h := s.h.(raised := s.h.raised + Copies(p, n)))
  }

  function Drop(s: Side, p: Packet): Side {
    s.(h := s.h.(dropped := s.h.dropped + [p], settled := s.h.settled + Copies(p, 1)))
  }

  /** What becomes of one received packet. */
  function Deliver(s: Side, p: Packet, nic: Nic): (r: Side)
    requires |s.a.ports| == |s.a.bufs| == |s.a.table|
    ensures r.a == s.a.(bufs := r.a.bufs) && |r.a.bufs| == |s.a.bufs|
  {
    var dests := Dests(s.a.table, p.frame);
    DestsOnce(s.a.table, p.frame);
    assert forall x :: 0 <= x < |dests| ==> dests[x] in dests;
    if dests == [] then Drop(Raise(s, p, 1), p) else PushAll(Raise(s, p, |dests|), dests, p, nic)
  }

  /** `classify_packet` on a burst. */
  function Classify(s: Side, burst: seq<Packet>, nic: Nic): (r: Side)
    requires |s.a.ports| == |s.a.bufs| == |s.a.table|
    ensures r.a == s.a.(bufs := r.a.bufs) && |r.a.bufs| == |s.a.bufs|
    decreases |burst|
  {
    if burst == [] then s
    else
      var n := |burst| - 1;
      Deliver(Classify(s, burst[..n], nic), burst[n], nic)
  }

  /** Transmits buffer `i` if anything waits in it. */
  function TransmitWaiting(s: Side, i: nat, nic: Nic): (r: Side)
    requires |s.a.ports| == |s.a.bufs| && i < |s.a.bufs|
    ensures r.a == s.a.(bufs := s.a.bufs[i := []])
  {
    if s.a.bufs[i] == [] then s else Transmit(s, i, nic)
  }

  /** `transmit_all_packet` on the first `k` buffers. */
  function Flush(s: Side, k: nat, nic: Nic): (r: Side)
    requires |s.a.ports| == |s.a.bufs| && k <= |s.a.bufs|
    ensures r.a == s.a.(bufs := r.a.bufs) && |r.a.bufs| == |s.a.bufs|
    ensures forall i :: 0 <= i < |s.a.bufs| ==> r.a.bufs[i] == if i < k then [] else s.a.bufs[i]
    decreases k
  {
    if k == 0 then s else TransmitWaiting(Flush(s, k - 1, nic), k - 1, nic)
  }

  // ----- Conservation -----

  /** Where port `d` is in the list, -1 if it is not. */
  function Slot(ports: seq<nat>, d: nat): (r: int)
    ensures -1 <= r < |ports|
    ensures r >= 0 ==> ports[r] == d
    ensures r < 0 ==> d !in ports
  {
    if ports == [] then -1
    else if ports[|ports| - 1] == d then |ports| - 1
    else Slot(ports[..|ports| - 1], d)
  }

  function Waiting(a: Area, d: nat): seq<Packet>
    requires |a.bufs| == |a.ports|
  {
    var i := Slot(a.ports, d);
    if i < 0 then [] else a.bufs[i]
  }

  /** The references held in buffers. */
  function Held(bufs: seq<seq<Packet>>): multiset<Packet> {
    if bufs == [] then multiset{} else Held(bufs[..|bufs| - 1]) + multiset(bufs[|bufs| - 1])
  }

  /** Port `d`: what was handed to it, in order, is what came out followed by what waits. */
  ghost predicate Fifo(s: Side, d: nat)
    requires |s.a.bufs| == |s.a.ports|
  {
    At(s.h.pushed, d) == Packets(At(s.h.out, d)) + Waiting(s.a, d)
  }

  ghost predicate Small(a: Area) {
    forall i :: 0 <= i < |a.bufs| ==> |a.bufs[i]| < MAX_PKT_BURST
  }

  /** Every reference is accounted for, except `pending` ones the caller is about to push. */
  ghost predicate Conserved(s: Side, pending: multiset<Packet>) {
    && Shape(s.a) && Small(s.a)
    && (forall d: nat :: Fifo(s, d))
    && s.h.raised == s.h.settled + Held(s.a.bufs) + pending
  }

  lemma Exchange<T>(a: multiset<T>, b: multiset<T>, c: multiset<T>, d: multiset<T>, e: multiset<T>)
    requires a + b == c + d
    ensures (a + e) + b == (c + e) + d
  {
    assert (a + e) + b == (a + b) + e;
  }

  lemma Cancel<T>(a: multiset<T>, b: multiset<T>, c: multiset<T>)
    requires a + c == b + c
    ensures a == b
  {
    assert a == (a + c) - c && b == (b + c) - c;
  }

  lemma {:induction false} HeldUpdate(bufs: seq<seq<Packet>>, i: nat, b: seq<Packet>)
    requires i < |bufs|
    ensures Held(bufs[i := b]) + multiset(bufs[i]) == Held(bufs) + multiset(b)
  {
    var n := |bufs| - 1;
    var up := bufs[i := b];
    if i == n {
      assert up[..n] == bufs[..n];
    } else {
      assert up[..n] == bufs[..n][i := b] && up[n] == bufs[n] && bufs[..n][i] == bufs[i];
      HeldUpdate(bufs[..n], i, b);
      Exchange(Held(up[..n]), multiset(bufs[i]), Held(bufs[..n]), multiset(b), multiset(bufs[n]));
    }
  }

  lemma {:induction false} HeldNothing(bufs: seq<seq<Packet>>)
    requires forall i :: 0 <= i < |bufs| ==> bufs[i] == []
    ensures Held(bufs) == multiset{}
  {
    if bufs != [] {
      HeldNothing(bufs[..|bufs| - 1]);
    }
  }

  /** In a list without duplicates a port is where it is. */
  lemma SlotAt(ports: seq<nat>, i: nat)
    requires NoDups(ports) && i < |ports|
    ensures Slot(ports, ports[i]) == i
  {
  }

  /** Transmitting loses nothing; the buffer may be one short of overflowing. */
  lemma TransmitFifo(s: Side, i: nat, nic: Nic, d: nat)
    requires Shape(s.a) && i < |s.a.bufs| && Fifo(s, d)
    ensures Fifo(Transmit(s, i, nic), d)
  {
    SlotAt(s.a.ports, i);
    if d == s.a.ports[i] {
      var done, b := At(s.h.out, d), s.a.bufs[i];
      var l := Batch(b, nic(d, |done|));
      assert Packets(done + l) == Packets(done) + Packets(l);
    }
  }

  lemma TransmitBalance(s: Side, i: nat, nic: Nic)
    requires |s.a.ports| == |s.a.bufs| && i < |s.a.bufs|
    ensures var r := Transmit(s, i, nic);
            && r.h.raised == s.h.raised
            && r.h.settled + Held(r.a.bufs) == s.h.settled + Held(s.a.bufs)
  {
    HeldUpdate(s.a.bufs, i, []);
    var none: seq<Packet> := [];
    var b, held := multiset(s.a.bufs[i]), Held(s.a.bufs[i := []]);
    assert multiset(none) == multiset{} && held + b == Held(s.a.bufs);
    assert (s.h.settled + b) + held == s.h.settled + (held + b);
  }

  /** The buffer before the test for fullness. */
  function Appended(s: Side, i: nat, p: Packet): Side
    requires |s.a.ports| == |s.a.bufs| && i < |s.a.bufs|
  {
    var d := s.a.ports[i];
    Side(s.a.(bufs := s.a.bufs[i := s.a.bufs[i] + [p]]), s.h.(pushed := s.h.pushed[d := At(s.h.pushed, d) + [p]]))
  }

  lemma AppendedFifo(s: Side, i: nat, p: Packet, d: nat)
    requires Shape(s.a) && i < |s.a.bufs| && Fifo(s, d)
    ensures Fifo(Appended(s, i, p), d)
  {
    SlotAt(s.a.ports, i);
  }

  lemma AppendedBalance(s: Side, i: nat, p: Packet)
    requires |s.a.ports| == |s.a.bufs| && i < |s.a.bufs|
    ensures Held(Appended(s, i, p).a.bufs) == Held(s.a.bufs) + Copies(p, 1)
  {
    var b, held := multiset(s.a.bufs[i]), Held(s.a.bufs);
    HeldUpdate(s.a.bufs, i, s.a.bufs[i] + [p]);
    assert multiset(s.a.bufs[i] + [p]) == b + Copies(p, 1);
    assert held + (b + Copies(p, 1)) == (held + Copies(p, 1)) + b;
    Cancel(Held(Appended(s, i, p).a.bufs), held + Copies(p, 1), b);
  }

  lemma PushFifo(s: Side, i: nat, p: Packet, nic: Nic, d: nat)
    requires Shape(s.a) && i < |s.a.bufs| && Fifo(s, d)
    ensures Fifo(Push(s, i, p, nic), d)
  {
    AppendedFifo(s, i, p, d);
    var s1 := Appended(s, i, p);
    if |s1.a.bufs[i]| == MAX_PKT_BURST {
      TransmitFifo(s1, i, nic, d);
    }
  }

  lemma PushBalance(s: Side, i: nat, p: Packet, nic: Nic)
    requires |s.a.ports| == |s.a.bufs| && i < |s.a.bufs|
    ensures var r := Push(s, i, p, nic);
            && r.h.raised == s.h.raised
            && r.h.settled + Held(r.a.bufs) == s.h.settled + Held(s.a.bufs) + Copies(p, 1)
  {
    AppendedBalance(s, i, p);
    var s1 := Appended(s, i, p);
    if |s1.a.bufs[i]| == MAX_PKT_BURST {
      TransmitBalance(s1, i, nic);
    }
  }

  /** A push uses up one of the pending references and leaves room in every buffer. */
  lemma PushConserves(s: Side, i: nat, p: Packet, nic: Nic, pending: multiset<Packet>)
    requires i < |s.a.bufs| && Conserved(s, pending + Copies(p, 1))
    ensures Conserved(Push(s, i, p, nic), pending)
  {
    forall d: nat ensures Fifo(Push(s, i, p, nic), d) {
      assert Fifo(s, d);
      PushFifo(s, i, p, nic, d);
    }
    PushBalance(s, i, p, nic);
  }

  lemma {:induction false} PushAllConserves(s: Side, dests: seq<nat>, p: Packet, nic: Nic, pending: multiset<Packet>)
    requires InRange(dests, |s.a.bufs|) && Conserved(s, pending + Copies(p, |dests|))
    ensures Conserved(PushAll(s, dests, p, nic), pending)
    decreases |dests|
  {
    if dests == [] {
      assert pending + Copies(p, 0) == pending;
    } else {
      var n := |dests| - 1;
      assert pending + Copies(p, |dests|) == pending + Copies(p, 1) + Copies(p, n);
      PushAllConserves(s, dests[..n], p, nic, pending + Copies(p, 1));
      PushConserves(PushAll(s, dests[..n], p, nic), dests[n], p, nic, pending);
    }
  }

  /** A received packet is dropped once or pushed once for every reference it was given. */
  lemma DeliverConserves(s: Side, p: Packet, nic: Nic)
    requires Conserved(s, multiset{})
    ensures Conserved(Deliver(s, p, nic), multiset{})
  {
    var dests := Dests(s.a.table, p.frame);
    DestsOnce(s.a.table, p.frame);
    assert forall x :: 0 <= x < |dests| ==> dests[x] in dests;
    if dests == [] {
      var r := Deliver(s, p, nic);
      forall d: nat ensures Fifo(r, d) {
        assert Fifo(s, d);
      }
    } else {
      var s1 := Raise(s, p, |dests|);
      forall d: nat ensures Fifo(s1, d) {
        assert Fifo(s, d);
      }
      PushAllConserves(s1, dests, p, nic, multiset{});
    }
  }

  lemma {:induction false} ClassifyConserves(s: Side, burst: seq<Packet>, nic: Nic)
    requires Conserved(s, multiset{})
    ensures Conserved(Classify(s, burst, nic), multiset{})
    decreases |burst|
  {
    if burst != [] {
      var n := |burst| - 1;
      ClassifyConserves(s, burst[..n], nic);
      DeliverConserves(Classify(s, burst[..n], nic), burst[n], nic);
    }
  }

  lemma TransmitConserves(s: Side, i: nat, nic: Nic)
    requires i < |s.a.bufs| && Conserved(s, multiset{})
    ensures Conserved(Transmit(s, i, nic), multiset{})
  {
    var r := Transmit(s, i, nic);
    forall d: nat ensures Fifo(r, d) {
      TransmitFifo(s, i, nic, d);
    }
    TransmitBalance(s, i, nic);
  }

  lemma WaitingConserves(s: Side, i: nat, nic: Nic)
    requires i < |s.a.bufs| && Conserved(s, multiset{})
    ensures Conserved(TransmitWaiting(s, i, nic), multiset{})
  {
    if s.a.bufs[i] != [] {
      TransmitConserves(s, i, nic);
    }
  }

  lemma {:induction false} FlushConserves(s: Side, k: nat, nic: Nic)
    requires k <= |s.a.bufs| && Conserved(s, multiset{})
    ensures Conserved(Flush(s, k, nic), multiset{})
    decreases k
  {
    if k > 0 {
      FlushConserves(s, k - 1, nic);
      FlushOne(s, k, nic, Flush(s, k - 1, nic));
    }
  }

  lemma FlushOne(s: Side, k: nat, nic: Nic, r: Side)
    requires 0 < k <= |s.a.bufs| == |s.a.ports| && r == Flush(s, k - 1, nic) && Conserved(r, multiset{})
    ensures Conserved(Flush(s, k, nic), multiset{})
  {
    WaitingConserves(r, k - 1, nic);
    assert Flush(s, k, nic) == TransmitWaiting(r, k - 1, nic);
  }

  // ----- What is pushed where -----

  /** The packets of a burst that the list of ports routes to port `d`, in order. */
  function Routed(a: Area, burst: seq<Packet>, d: nat): seq<Packet>
    decreases |burst|
  {
    if burst == [] then []
    else
      var n := |burst| - 1;
      Routed(a, burst[..n], d) + (if Hits(a.ports, Dests(a.table, burst[n].frame), d) then [burst[n]] else [])
  }

  lemma PushPushes(s: Side, i: nat, p: Packet, nic: Nic, d: nat)
    requires Shape(s.a) && i < |s.a.bufs|
    ensures At(Push(s, i, p, nic).h.pushed, d) == At(s.h.pushed, d) + (if i == Slot(s.a.ports, d) then [p] else [])
  {
    SlotAt(s.a.ports, i);
  }

  /** Port `d` is among the destinations. */
  predicate Hits(ports: seq<nat>, dests: seq<nat>, d: nat) {
    Slot(ports, d) >= 0 && Slot(ports, d) in dests
  }

  lemma {:induction false} PushAllPushes(s: Side, dests: seq<nat>, p: Packet, nic: Nic, d: nat)
    requires Shape(s.a) && InRange(dests, |s.a.bufs|) && NoDups(dests)
    ensures At(PushAll(s, dests, p, nic).h.pushed, d)
            == At(s.h.pushed, d) + (if Hits(s.a.ports, dests, d) then [p] else [])
    decreases |dests|
  {
    if dests != [] {
      var n := |dests| - 1;
      var m := PushAll(s, dests[..n], p, nic);
      PushAllPushes(s, dests[..n], p, nic, d);
      PushPushes(m, dests[n], p, nic, d);
      LastHit(s.a.ports, dests, d);
    }
  }

  lemma LastHit(ports: seq<nat>, dests: seq<nat>, d: nat)
    requires dests != [] && NoDups(dests)
    ensures var n := |dests| - 1;
            && Hits(ports, dests, d) == (Hits(ports, dests[..n], d) || dests[n] == Slot(ports, d))
            && !(Hits(ports, dests[..n], d) && dests[n] == Slot(ports, d))
  {
    var n := |dests| - 1;
    assert dests == dests[..n] + [dests[n]];
  }

  lemma DeliverPushes(s: Side, p: Packet, nic: Nic, d: nat)
    requires Shape(s.a)
    ensures At(Deliver(s, p, nic).h.pushed, d)
            == At(s.h.pushed, d) + (if Hits(s.a.ports, Dests(s.a.table, p.frame), d) then [p] else [])
  {
    var dests := Dests(s.a.table, p.frame);
    DestsOnce(s.a.table, p.frame);
    assert forall x :: 0 <= x < |dests| ==> dests[x] in dests;
    if dests != [] {
      PushAllPushes(Raise(s, p, |dests|), dests, p, nic, d);
    }
  }

  lemma Associates<T>(a: seq<T>, b: seq<T>, c: seq<T>)
    ensures (a + b) + c == a + (b + c)
  {
  }

  /** Classifying a burst hands every port exactly the packets routed to it, once and in order. */
  lemma {:induction false} ClassifyRoutes(s: Side, burst: seq<Packet>, nic: Nic, d: nat)
    requires Shape(s.a)
    ensures At(Classify(s, burst, nic).h.pushed, d) == At(s.h.pushed, d) + Routed(s.a, burst, d)
    decreases |burst|
  {
    if burst != [] {
      var n := |burst| - 1;
      ClassifyRoutes(s, burst[..n], nic, d);
      DeliverPushes(Classify(s, burst[..n], nic), burst[n], nic, d);
      Associates(At(s.h.pushed, d), Routed(s.a, burst[..n], d),
                 if Hits(s.a.ports, Dests(s.a.table, burst[n].frame), d) then [burst[n]] else []);
    }
  }

  /** One packet more, or none, where a burst of 32 does not wait. */
  function Bumped(w: nat, hit: bool): nat { if !hit then w else if w == 31 then 0 else w + 1 }

  lemma PushWaits(s: Side, i: nat, p: Packet, nic: Nic, d: nat)
    requires Shape(s.a) && Small(s.a) && i < |s.a.bufs|
    ensures Small(Push(s, i, p, nic).a)
    ensures |Waiting(Push(s, i, p, nic).a, d)| == Bumped(|Waiting(s.a, d)|, i == Slot(s.a.ports, d))
  {
    SlotAt(s.a.ports, i);
  }

  lemma {:induction false} PushAllWaits(s: Side, dests: seq<nat>, p: Packet, nic: Nic, d: nat, r: Side)
    requires Shape(s.a) && Small(s.a) && InRange(dests, |s.a.bufs|) && NoDups(dests)
    requires r == PushAll(s, dests, p, nic)
    ensures Small(r.a) && |Waiting(r.a, d)| == Bumped(|Waiting(s.a, d)|, Hits(s.a.ports, dests, d))
    decreases |dests|
  {
    if dests != [] {
      var n := |dests| - 1;
      var q := PushAll(s, dests[..n], p, nic);
      PushAllWaits(s, dests[..n], p, nic, d, q);
      PushWaits(q, dests[n], p, nic, d);
      LastHit(s.a.ports, dests, d);
    }
  }

  lemma DeliverWaits(s: Side, p: Packet, nic: Nic, d: nat)
    requires Shape(s.a) && Small(s.a)
    ensures Small(Deliver(s, p, nic).a)
    ensures |Waiting(Deliver(s, p, nic).a, d)| == Bumped(|Waiting(s.a, d)|, Hits(s.a.ports, Dests(s.a.table, p.frame), d))
  {
    var dests := Dests(s.a.table, p.frame);
    DestsOnce(s.a.table, p.frame);
    assert forall x :: 0 <= x < |dests| ==> dests[x] in dests;
    if dests != [] {
      PushAllWaits(Raise(s, p, |dests|), dests, p, nic, d, Deliver(s, p, nic));
    }
  }

  /** `k` packets more. */
  function Filled(w: nat, k: nat): nat { if k == 0 then w else Bumped(Filled(w, k - 1), true) }

  lemma {:induction false} FilledRest(w: nat, k: nat)
    requires w < 32
    ensures Filled(w, k) == (w + k) % 32
  {
    if k > 0 {
      FilledRest(w, k - 1);
      NextRest(w + (k - 1), Filled(w, k - 1));
      assert w + (k - 1) + 1 == w + k;
    }
  }

  lemma NextRest(n: nat, r: nat)
    requires r == n % 32
    ensures (n + 1) % 32 == if r == 31 then 0 else r + 1
  {
    var q := n / 32;
    assert n == 32 * q + r;
    assert r == 31 ==> n + 1 == 32 * (q + 1);
  }

  lemma {:induction false} ClassifyFills(s: Side, burst: seq<Packet>, nic: Nic, d: nat, r: Side)
    requires Shape(s.a) && Small(s.a) && r == Classify(s, burst, nic)
    ensures Small(r.a) && |Waiting(r.a, d)| == Filled(|Waiting(s.a, d)|, |Routed(s.a, burst, d)|)
    decreases |burst|
  {
    if burst != [] {
      var n := |burst| - 1;
      var q := Classify(s, burst[..n], nic);
      ClassifyFills(s, burst[..n], nic, d, q);
      DeliverWaits(q, burst[n], nic, d);
    }
  }

  /** Classifying transmits in bursts of 32 and not otherwise: what waits for a port afterwards is
      what waited and what was routed to it, less as many whole bursts as there are in that. */
  lemma ClassifyWaits(s: Side, burst: seq<Packet>, nic: Nic, d: nat)
    requires Shape(s.a) && Small(s.a)
    ensures Small(Classify(s, burst, nic).a)
    ensures |Waiting(Classify(s, burst, nic).a, d)| == (|Waiting(s.a, d)| + |Routed(s.a, burst, d)|) % 32
  {
    ClassifyFills(s, burst, nic, d, Classify(s, burst, nic));
    FilledRest(|Waiting(s.a, d)|, |Routed(s.a, burst, d)|);
  }

  /** The packets of a burst that have no destination, in order. */
  function Unroutable(table: seq<ClassId>, burst: seq<Packet>): seq<Packet>
    decreases |burst|
  {
    if burst == [] then []
    else
      var n := |burst| - 1;
      Unroutable(table, burst[..n]) + (if Dests(table, burst[n].frame) == [] then [burst[n]] else [])
  }

  lemma {:induction false} PushAllDrops(s: Side, dests: seq<nat>, p: Packet, nic: Nic)
    requires |s.a.ports| == |s.a.bufs| && InRange(dests, |s.a.bufs|)
    ensures PushAll(s, dests, p, nic).h.dropped == s.h.dropped
    decreases |dests|
  {
    if dests != [] {
      PushAllDrops(s, dests[..|dests| - 1], p, nic);
    }
  }

  lemma DeliverDrops(s: Side, p: Packet, nic: Nic)
    requires |s.a.ports| == |s.a.bufs| == |s.a.table|
    ensures Deliver(s, p, nic).h.dropped == s.h.dropped + (if Dests(s.a.table, p.frame) == [] then [p] else [])
  {
    var dests := Dests(s.a.table, p.frame);
    DestsOnce(s.a.table, p.frame);
    assert forall x :: 0 <= x < |dests| ==> dests[x] in dests;
    PushAllDrops(Raise(s, p, |dests|), dests, p, nic);
  }

  /** Classifying a burst drops exactly the packets without destination. */
  lemma {:induction false} ClassifyDrops(s: Side, burst: seq<Packet>, nic: Nic)
    requires |s.a.ports| == |s.a.bufs| == |s.a.table|
    ensures Classify(s, burst, nic).h.dropped == s.h.dropped + Unroutable(s.a.table, burst)
    decreases |burst|
  {
    if burst != [] {
      var n := |burst| - 1;
      ClassifyDrops(s, burst[..n], nic);
      DeliverDrops(Classify(s, burst[..n], nic), burst[n], nic);
    }
  }
}

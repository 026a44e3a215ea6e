/** The worker's loops over the classifier's transmit buffers, as they update them in place,
    each proved to compute the operation of `Buffers` of the same purpose. */
module ClassifierWorker {
  import opened SppTypes
  import opened Classifier
  import opened Buffers

  /** Fan-out of a packet that already has one reference. */
  function Multicast(s: Side, p: Packet, nic: Nic): Side
    requires |s.a.ports| == |s.a.bufs| == |s.a.table| && Dests(s.a.table, p.frame) != []
  {
    var dests := Dests(s.a.table, p.frame);
    DestsOnce(s.a.table, p.frame);
    assert forall x :: 0 <= x < |dests| ==> dests[x] in dests;
    PushAll(Raise(s, p, |dests| - 1), dests, p, nic)
  }

  lemma MulticastDelivers(s: Side, p: Packet, nic: Nic)
    requires |s.a.ports| == |s.a.bufs| == |s.a.table| && Dests(s.a.table, p.frame) != []
    ensures Multicast(Raise(s, p, 1), p, nic) == Deliver(s, p, nic)
  {
    var n := |Dests(s.a.table, p.frame)|;
    assert Copies(p, 1) + Copies(p, n - 1) == Copies(p, n);
    assert (s.h.raised + Copies(p, 1)) + Copies(p, n - 1) == s.h.raised + (Copies(p, 1) + Copies(p, n - 1));
    assert Raise(Raise(s, p, 1), p, n - 1) == Raise(s, p, n);
  }

  lemma UnicastDelivers(s: Side, p: Packet, i: nat, nic: Nic)
    requires |s.a.ports| == |s.a.bufs| == |s.a.table| && Dests(s.a.table, p.frame) == [i] && i < |s.a.bufs|
    ensures Push(Raise(s, p, 1), i, p, nic) == Deliver(s, p, nic)
  {
    var t := Raise(s, p, 1);
    assert PushAll(t, [i], p, nic) == Push(PushAll(t, [i][..0], p, nic), i, p, nic);
  }

  /** The ledger after the accepted part of a burst and then its freed rest. */
  lemma Rejoin(h: Hist, d: nat, l: seq<Outcome>, b: seq<Packet>, n: nat)
    requires n <= |b| == |l|
    ensures h.out[d := At(h.out, d) + l[..n]][d := At(h.out, d) + l[..n] + l[n..]] == h.out[d := At(h.out, d) + l]
    ensures h.settled + multiset(b[..n]) + multiset(b[n..]) == h.settled + multiset(b)
  {
    assert l == l[..n] + l[n..] && b == b[..n] + b[n..];
    assert At(h.out, d) + l[..n] + l[n..] == At(h.out, d) + (l[..n] + l[n..]);
    assert h.settled + multiset(b[..n]) + multiset(b[n..]) == h.settled + (multiset(b[..n]) + multiset(b[n..]));
  }

  class TxSide {
    const info: ComponentInfo
    var a: Area
    var h: Hist

    constructor (info: ComponentInfo, a: Area, h: Hist)
      ensures this.info == info && View() == Side(a, h)
    {
      this.info, this.a, this.h := info, a, h;
    }

    function View(): Side
      reads this
    {
      Side(a, h)
    }

    /** The table was built from the area's list of ports. */
    ghost predicate Tabled()
      reads this, info, info.macCls
    {
      |a.ports| == |a.bufs| == |a.table| && info.Built(info.rxPort, a.table)
    }

    /** Frees the packets of a burst from the `n`-th on. */
    method FreeRest(d: nat, b: seq<Packet>, n: nat)
      requires n <= |b|
      modifies this
      ensures a == old(a)
      ensures h == old(h).(out := old(h).out[d := At(old(h).out, d) + Batch(b, n)[n..]],
                           settled := old(h).settled + multiset(b[n..]))
    {
      var l, freed := [], [];
      var k := n;
      while k < |b|
        invariant n <= k <= |b| && l == Batch(b, n)[n..k] && freed == b[n..k]
      {
        l, freed := l + [Freed(b[k])], freed + [b[k]];
        k := k + 1;
      }
      assert Batch(b, n)[n..|b|] == Batch(b, n)[n..] && b[n..|b|] == b[n..];
      h := h.(out := h.out[d := At(h.out, d) + l], settled := h.settled + multiset(freed));
    }

    method TransmitPacket(i: nat, nic: Nic)
      requires |a.ports| == |a.bufs| && i < |a.bufs|
      modifies this
      ensures View() == Transmit(old(View()), i, nic)
    {
      var d, b := a.ports[i], a.bufs[i];
      var done := At(h.out, d);
      var n := Min(nic(d, |done|), |b|);
      assert Batch(b, nic(d, |done|)) == Batch(b, n) == Batch(b, n)[..n] + Batch(b, n)[n..];
      assert b == b[..n] + b[n..];
      h := h.(out := h.out[d := done + Batch(b, n)[..n]], settled := h.settled + multiset(b[..n]));
      FreeRest(d, b, n);
      Rejoin(old(h), d, Batch(b, n), b, n);
      a := a.(bufs := a.bufs[i := []]);
    }

    method PushPacket(i: nat, p: Packet, nic: Nic)
      requires |a.ports| == |a.bufs| && i < |a.bufs|
      modifies this
      ensures View() == Push(old(View()), i, p, nic)
    {
      var d := a.ports[i];
      a := a.(bufs := a.bufs[i := a.bufs[i] + [p]]);
      h := h.(pushed := h.pushed[d := At(h.pushed, d) + [p]]);
      if |a.bufs[i]| == MAX_PKT_BURST {
        TransmitPacket(i, nic);
      }
    }

    method TransmitAll(nic: Nic)
      requires |a.ports| == |a.bufs|
      modifies this
      ensures View() == Flush(old(View()), |old(a).bufs|, nic)
    {
      var i := 0;
      while i < |a.bufs|
        invariant i <= |a.bufs| == |old(a).bufs| == |a.ports|
        invariant View() == Flush(old(View()), i, nic)
      {
        if |a.bufs[i]| != 0 {
          TransmitPacket(i, nic);
        }
        i := i + 1;
      }
    }

    /** The loop over the ports of a VID. */
    method PushActive(active: seq<nat>, p: Packet, nic: Nic)
      requires |a.ports| == |a.bufs| && InRange(active, |a.bufs|)
      modifies this
      ensures View() == PushAll(old(View()), active, p, nic)
    {
      ghost var s := View();
      var i := 0;
      while i < |active|
        invariant i <= |active|
        invariant |a.ports| == |a.bufs| == |s.a.bufs|
        invariant View() == PushAll(s, active[..i], p, nic)
      {
        assert active[..i + 1][..i] == active[..i];
        PushPacket(active[i], p, nic);
        i := i + 1;
      }
      assert active[..|active|] == active;
    }

    lemma MulticastParts(p: Packet)
      requires Tabled() && info.Select(p.frame) == MULTICAST
      ensures var vid, general := GetVid(p.frame), info.GeneralDefault();
              && info.macCls[vid].Some? && info.macCls[vid].value.active != []
              && Dests(a.table, p.frame) == info.macCls[vid].value.active
                                            + (if general >= 0 && vid != UNTAGGED_VID then [general] else [])
      ensures InRange(Dests(a.table, p.frame), |a.bufs|)
      ensures InRange(info.macCls[GetVid(p.frame)].value.active, |a.bufs|)
    {
      info.DestinationsExact(info.rxPort, a.table, p.frame);
      info.FanoutExact(info.rxPort, a.table, p.frame);
      DestsOnce(a.table, p.frame);
      var dests, active := Dests(a.table, p.frame), info.macCls[GetVid(p.frame)].value.active;
      assert forall x :: 0 <= x < |dests| ==> dests[x] in dests;
      assert forall x :: 0 <= x < |active| ==> active[x] == dests[x];
    }

    /** The two steps of the fan-out: the ports of the VID, then the general default. */
    method PushFan(p: Packet, nic: Nic)
      requires Tabled() && info.Select(p.frame) == MULTICAST
      modifies this
      ensures InRange(Dests(old(a).table, p.frame), |old(a).bufs|) && |old(a).ports| == |old(a).bufs|
      ensures View() == PushAll(old(View()), Dests(old(a).table, p.frame), p, nic)
    {
      MulticastParts(p);
      var vid, general := GetVid(p.frame), info.GeneralDefault();
      var active := info.macCls[vid].value.active;
      ghost var dests := Dests(a.table, p.frame);
      PushActive(active, p, nic);
      if general >= 0 && vid != UNTAGGED_VID {
        assert dests[..|dests| - 1] == active && dests[|dests| - 1] == general;
        PushPacket(general, p, nic);
      } else {
        assert dests == active;
      }
    }

    /** How many references the fan-out needs. */
    method References(p: Packet) returns (n: nat)
      requires Tabled() && info.Select(p.frame) == MULTICAST
      ensures n == |Dests(a.table, p.frame)| > 0
    {
      MulticastParts(p);
      var vid, general := GetVid(p.frame), info.GeneralDefault();
      n := |info.macCls[vid].value.active|;
      if general >= 0 && vid != UNTAGGED_VID {
        n := n + 1;
      }
    }

    /** `handle_l2multicast_packet` for a packet the selection called multicast.  The count is
        raised by one less than the number of pushes made afterwards. */
    method HandleMulticast(p: Packet, nic: Nic)
      requires Tabled() && info.Select(p.frame) == MULTICAST
      modifies this
      ensures |old(a).ports| == |old(a).bufs| == |old(a).table| && Dests(old(a).table, p.frame) != []
      ensures View() == Multicast(old(View()), p, nic)
    {
      var n := References(p);
      h := h.(raised := h.raised + Copies(p, n - 1));
      PushFan(p, nic);
    }

    /** One packet of `classify_packet`. */
    method ClassifyOne(p: Packet, nic: Nic)
      requires Tabled()
      modifies this
      ensures Tabled() && View() == Deliver(old(View()), p, nic)
    {
      info.DestinationsExact(info.rxPort, a.table, p.frame);
      DestsOnce(a.table, p.frame);
      var index := info.Select(p.frame);
      h := h.(raised := h.raised + Copies(p, 1));
      if index >= 0 {
        assert index in Dests(a.table, p.frame);
        UnicastDelivers(old(View()), p, index, nic);
        PushPacket(index, p, nic);
      } else if index == -1 {
        h := h.(dropped := h.dropped + [p], settled := h.settled + Copies(p, 1));
      } else if index == -2 {
        HandleMulticast(p, nic);
        MulticastDelivers(old(View()), p, nic);
      }
    }

    method ClassifyPacket(burst: seq<Packet>, nic: Nic)
      requires Tabled()
      modifies this
      ensures Tabled() && View() == Classify(old(View()), burst, nic)
    {
      var i := 0;
      while i < |burst|
        invariant i <= |burst| && Tabled()
        invariant |old(a).ports| == |old(a).bufs| == |old(a).table|
        invariant View() == Classify(old(View()), burst[..i], nic)
      {
        assert burst[..i + 1][..i] == burst[..i];
        ClassifyOne(burst[i], nic);
        i := i + 1;
      }
      assert burst[..|burst|] == burst;
    }
  }
}

/** Abilities on whole bursts: every operation works on the packets the ones before have left,
    stops at the first packet it fails on, and the rest of the burst is freed. */
module AbilityBurst {
  import opened SppTypes
  import opened VlanTag
  import opened PortAbility

  /** A frame with the octets of headroom in front of it. */
  datatype Pkt = Pkt(frame: seq<Byte>, room: nat)

  /** One operation on one packet; it fails only for want of headroom. */
  function Operation(ope: AbilityOpe, data: Ability, p: Pkt): Option<Pkt>
    requires Whole(p.frame) && 0 <= data.tci < 0x1_0000
  {
    match ope
    case NoOpe => Some(p)
    case AddVlanTag =>
      if Tagged(p.frame) then Some(p.(frame := Added(p.frame, BigEndian(data.tci))))
      else if p.room >= VLAN_HEADER then Some(Pkt(Added(p.frame, BigEndian(data.tci)), p.room - VLAN_HEADER))
      else None
    case DelVlanTag =>
      Some(Pkt(Deleted(p.frame), p.room + (if Tagged(p.frame) then VLAN_HEADER else 0)))
  }

  /** It is what the operation in place does to the buffer of the packet: the same frame, the same
      headroom, and the same failure, by which nothing changes. */
  method OnBuffer(ope: AbilityOpe, data: Ability, b: Mbuf, fcs: seq<Byte>) returns (ok: bool)
    requires b.Valid() && Whole(b.Frame()) && 0 <= data.tci < 0x1_0000 && |fcs| == 4
    modifies b, b.buf
    ensures b.Valid() && ok == Operation(ope, data, old(Pkt(b.Frame(), b.off))).Some?
    ensures Pkt(b.Frame(), b.off)
            == if ok then Operation(ope, data, old(Pkt(b.Frame(), b.off))).value else old(Pkt(b.Frame(), b.off))
  {
    match ope {
      case NoOpe => return true;
      case AddVlanTag =>
        ok := b.AddVlanTag(BigEndian(data.tci), fcs);
      case DelVlanTag =>
        b.DelVlanTag(fcs);
        return true;
    }
  }

  /** Long enough for `n` more operations. */
  predicate LongFor(p: Pkt, n: nat) { |p.frame| >= ETHER_HEADER + VLAN_HEADER * n }

  lemma OperationLong(ope: AbilityOpe, data: Ability, p: Pkt, n: nat)
    requires n > 0 && LongFor(p, n) && 0 <= data.tci < 0x1_0000
    ensures Whole(p.frame)
    ensures Operation(ope, data, p).Some? ==> LongFor(Operation(ope, data, p).value, n - 1)
  {
    if Whole(p.frame) {
      DeleteAfterAdd(p.frame, BigEndian(data.tci));
    }
  }

  ghost predicate AllLong(pkts: seq<Pkt>, n: nat) { forall i :: 0 <= i < |pkts| ==> LongFor(pkts[i], n) }

  /** A packet through the entries from `cnt` on, up to the first empty one. */
  function Through(info: seq<Ability>, data: Ability, cnt: nat, p: Pkt): (r: Option<Pkt>)
    requires cnt <= |info| && LongFor(p, |info| - cnt) && 0 <= data.tci < 0x1_0000
    decreases |info| - cnt
  {
    if cnt == |info| || info[cnt].ope == NoOpe then Some(p)
    else
      OperationLong(info[cnt].ope, data, p, |info| - cnt);
      match Operation(info[cnt].ope, data, p)
      case None => None
      case Some(q) => Through(info, data, cnt + 1, q)
  }

  /** Its frame is what the operations make of the frame. */
  lemma {:induction false} ThroughFrame(info: seq<Ability>, data: Ability, cnt: nat, p: Pkt)
    requires cnt <= |info| && LongFor(p, |info| - cnt) && 0 <= data.tci < 0x1_0000
    ensures Through(info, data, cnt, p).Some? ==>
              OperateFrom(info, data, cnt, p.frame) == Done(Through(info, data, cnt, p).value.frame)
    decreases |info| - cnt
  {
    if cnt < |info| && info[cnt].ope != NoOpe {
      OperationLong(info[cnt].ope, data, p, |info| - cnt);
      match Operation(info[cnt].ope, data, p)
      case None =>
      case Some(q) => ThroughFrame(info, data, cnt + 1, q);
    }
  }

  // ----- One operation on a burst -----

  /** How many of the first `nb` packets the operation works on before one fails. */
  function Passing(ope: AbilityOpe, data: Ability, pkts: seq<Pkt>, nb: nat): (n: nat)
    requires nb <= |pkts| && AllLong(pkts, 1) && 0 <= data.tci < 0x1_0000
    ensures n <= nb
    ensures forall i :: 0 <= i < n ==> Operation(ope, data, pkts[i]).Some?
    ensures n < nb ==> Operation(ope, data, pkts[n]).None?
  {
    if nb == 0 then 0
    else
      var n := Passing(ope, data, pkts, nb - 1);
      if n == nb - 1 && Operation(ope, data, pkts[n]).Some? then nb else n
  }

  function Worked(ope: AbilityOpe, data: Ability, pkts: seq<Pkt>, nb: nat): (r: seq<Pkt>)
    requires nb <= |pkts| && AllLong(pkts, 1) && 0 <= data.tci < 0x1_0000
    ensures |r| == |pkts|
  {
    var n := Passing(ope, data, pkts, nb);
    seq(|pkts|, i requires 0 <= i < |pkts| => if i < n then Operation(ope, data, pkts[i]).value else pkts[i])
  }

  lemma PassingIs(ope: AbilityOpe, data: Ability, pkts: seq<Pkt>, nb: nat, n: nat)
    requires nb <= |pkts| && AllLong(pkts, 1) && 0 <= data.tci < 0x1_0000 && n <= nb
    requires forall i :: 0 <= i < n ==> Operation(ope, data, pkts[i]).Some?
    requires n < nb ==> Operation(ope, data, pkts[n]).None?
    ensures Passing(ope, data, pkts, nb) == n
  {
  }

  /** `add_vlantag_all_packets` and `del_vlantag_all_packets`. */
  method AllPackets(ope: AbilityOpe, data: Ability, pkts: array<Pkt>, nb: nat) returns (cnt: nat)
    requires nb <= pkts.Length && AllLong(pkts[..], 1) && 0 <= data.tci < 0x1_0000
    modifies pkts
    ensures cnt == Passing(ope, data, old(pkts[..]), nb) && pkts[..] == Worked(ope, data, old(pkts[..]), nb)
  {
    ghost var before := pkts[..];
    cnt := 0;
    while cnt < nb
      invariant cnt <= nb
      invariant forall i :: 0 <= i < cnt ==> Operation(ope, data, before[i]) == Some(pkts[i])
      invariant forall i :: cnt <= i < pkts.Length ==> pkts[i] == before[i]
    {
      var q := Operation(ope, data, pkts[cnt]);
      if q.None? {
        break;
      }
      pkts[cnt] := q.value;
      cnt := cnt + 1;
    }
    PassingIs(ope, data, before, nb, cnt);
  }

  // ----- All operations on a burst -----

  lemma WorkedLong(ope: AbilityOpe, data: Ability, pkts: seq<Pkt>, nb: nat, n: nat)
    requires n > 0 && nb <= |pkts| && AllLong(pkts, n) && 0 <= data.tci < 0x1_0000
    ensures AllLong(pkts, 1) && AllLong(Worked(ope, data, pkts, nb), n - 1)
  {
    var w := Worked(ope, data, pkts, nb);
    forall i | 0 <= i < |w| ensures LongFor(w[i], n - 1) {
      OperationLong(ope, data, pkts[i], n);
    }
  }

  /** The packets after the entries from `cnt` on, and how many are left of the first `ok`. */
  function BurstFrom(info: seq<Ability>, data: Ability, cnt: nat, pkts: seq<Pkt>, ok: nat): (r: (seq<Pkt>, nat))
    requires cnt <= |info| && ok <= |pkts| && AllLong(pkts, |info| - cnt) && 0 <= data.tci < 0x1_0000
    ensures |r.0| == |pkts| && r.1 <= ok
    decreases |info| - cnt
  {
    if cnt == |info| || info[cnt].ope == NoOpe then (pkts, ok)
    else
      WorkedLong(info[cnt].ope, data, pkts, ok, |info| - cnt);
      BurstFrom(info, data, cnt + 1, Worked(info[cnt].ope, data, pkts, ok), Passing(info[cnt].ope, data, pkts, ok))
  }

  /** What is left of a burst is the longest run of packets from its front that pass all
      operations, each as it would be by itself. */
  lemma {:induction false} BurstIsPrefix(info: seq<Ability>, data: Ability, cnt: nat, pkts: seq<Pkt>, ok: nat)
    requires cnt <= |info| && ok <= |pkts| && AllLong(pkts, |info| - cnt) && 0 <= data.tci < 0x1_0000
    ensures var r := BurstFrom(info, data, cnt, pkts, ok);
            && (forall i :: 0 <= i < r.1 ==> Through(info, data, cnt, pkts[i]) == Some(r.0[i]))
            && (r.1 < ok ==> Through(info, data, cnt, pkts[r.1]).None?)
    decreases |info| - cnt
  {
    if cnt < |info| && info[cnt].ope != NoOpe {
      var w, n := Worked(info[cnt].ope, data, pkts, ok), Passing(info[cnt].ope, data, pkts, ok);
      WorkedLong(info[cnt].ope, data, pkts, ok, |info| - cnt);
      BurstIsPrefix(info, data, cnt + 1, w, n);
      forall i | 0 <= i < |pkts| && i <= n && i < ok
        ensures i < n ==> Through(info, data, cnt, pkts[i]) == Through(info, data, cnt + 1, w[i])
        ensures i == n ==> Through(info, data, cnt, pkts[i]).None?
      {
        OneThrough(info, data, cnt, pkts[i]);
      }
    }
  }

  lemma OneThrough(info: seq<Ability>, data: Ability, cnt: nat, p: Pkt)
    requires cnt < |info| && info[cnt].ope != NoOpe && LongFor(p, |info| - cnt) && 0 <= data.tci < 0x1_0000
    ensures var q := Operation(info[cnt].ope, data, p);
            Through(info, data, cnt, p)
            == if q.Some? && LongFor(q.value, |info| - (cnt + 1)) then Through(info, data, cnt + 1, q.value) else None
  {
    OperationLong(info[cnt].ope, data, p, |info| - cnt);
  }

  /** `port_ability_each_operation`: how many packets are left; the others are freed. */
  method EachOperation(info: seq<Ability>, pkts: array<Pkt>) returns (okPkts: nat, freed: seq<nat>)
    requires |info| == ABILITY_MAX && 0 <= info[0].tci < 0x1_0000 && AllLong(pkts[..], ABILITY_MAX)
    modifies pkts
    ensures okPkts <= pkts.Length && (pkts[..], okPkts) == BurstFrom(info, info[0], 0, old(pkts[..]), pkts.Length)
    ensures freed == seq(pkts.Length - okPkts, i => okPkts + i)
  {
    ghost var before := pkts[..];
    okPkts, freed := pkts.Length, [];
    var cnt := 0;
    while cnt < ABILITY_MAX && info[cnt].ope != NoOpe
      invariant 0 <= cnt <= ABILITY_MAX && okPkts <= pkts.Length && AllLong(pkts[..], ABILITY_MAX - cnt)
      invariant BurstFrom(info, info[0], cnt, pkts[..], okPkts) == BurstFrom(info, info[0], 0, before, pkts.Length)
    {
      WorkedLong(info[cnt].ope, info[0], pkts[..], okPkts, ABILITY_MAX - cnt);
      okPkts := AllPackets(info[cnt].ope, info[0], pkts, okPkts);
      cnt := cnt + 1;
    }
    for buf := okPkts to pkts.Length
      invariant freed == seq(buf - okPkts, i => okPkts + i)
    {
      freed := freed + [buf];
    }
  }

  // ----- Transmitting -----

  /** What becomes of packet `i` of a burst that a forwarder transmits, of which the operations
      leave `ok` and the device takes `sent`: sent, and freed by the operations and by the
      forwarder, which frees what was not sent. */
  function Ends(i: nat, ok: nat, sent: nat): nat {
    (if i < sent then 1 else 0) + (if i < ok then 0 else 1) + (if i < sent then 0 else 1)
  }

  /** Every packet of a transmitted burst is sent or freed exactly once, if and only if every
      packet passes all operations. */
  lemma TransmittedOnceIff(info: seq<Ability>, data: Ability, pkts: seq<Pkt>, ok: nat, sent: nat)
    requires AllLong(pkts, |info|) && 0 <= data.tci < 0x1_0000
    requires ok == BurstFrom(info, data, 0, pkts, |pkts|).1 && sent <= ok
    ensures (forall i: nat :: i < |pkts| ==> Ends(i, ok, sent) == 1) <==> AllThrough(info, data, pkts)
  {
    AllPassIff(info, data, pkts, ok);
    EndOnceIff(|pkts|, ok, sent);
  }

  /** Every packet passes all operations. */
  ghost predicate AllThrough(info: seq<Ability>, data: Ability, pkts: seq<Pkt>)
    requires AllLong(pkts, |info|) && 0 <= data.tci < 0x1_0000
  {
    forall i :: 0 <= i < |pkts| ==> Through(info, data, 0, pkts[i]).Some?
  }

  lemma AllPassIff(info: seq<Ability>, data: Ability, pkts: seq<Pkt>, ok: nat)
    requires AllLong(pkts, |info|) && 0 <= data.tci < 0x1_0000 && ok == BurstFrom(info, data, 0, pkts, |pkts|).1
    ensures ok == |pkts| <==> AllThrough(info, data, pkts)
  {
    BurstIsPrefix(info, data, 0, pkts, |pkts|);
  }

  lemma EndOnceIff(n: nat, ok: nat, sent: nat)
    requires sent <= ok <= n
    ensures (forall i: nat :: i < n ==> Ends(i, ok, sent) == 1) <==> ok == n
  {
    assert ok < n ==> Ends(ok, ok, sent) == 2;
  }
}

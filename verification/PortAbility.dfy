/** The abilities of a port: the list published for one direction, and what the data path
    does to a frame with it. */
module PortAbility {
  import opened SppTypes
  import opened VlanTag

  /** An entry in use for that direction.  An empty entry belongs to no direction. */
  predicate Selected(a: Ability, rxtx: RxTx) {
    a.ope != NoOpe && a.rxtx == rxtx
  }

  /** The entry with its tag control information computed. */
  function Prepared(a: Ability): Ability {
    if a.ope == AddVlanTag then a.(tci := Tci(a.vid, a.pcp)) else a
  }

  function Published(list: seq<Ability>, rxtx: RxTx): (r: seq<Ability>)
    ensures |r| <= |list|
  {
    if list == [] then []
    else
      var n := |list| - 1;
      Published(list[..n], rxtx) + (if Selected(list[n], rxtx) then [Prepared(list[n])] else [])
  }

  function Count(list: seq<Ability>, rxtx: RxTx): nat {
    if list == [] then 0 else Count(list[..|list| - 1], rxtx) + (if Selected(list[|list| - 1], rxtx) then 1 else 0)
  }

  lemma {:induction false} PublishedSize(list: seq<Ability>, rxtx: RxTx)
    ensures |Published(list, rxtx)| == Count(list, rxtx)
    ensures forall x :: 0 <= x < |Published(list, rxtx)| ==> Published(list, rxtx)[x].ope != NoOpe
  {
    if list != [] {
      PublishedSize(list[..|list| - 1], rxtx);
    }
  }

  lemma {:induction false} PublishedAt(list: seq<Ability>, rxtx: RxTx, i: nat)
    requires i < |list| && Selected(list[i], rxtx)
    ensures Count(list[..i], rxtx) < |Published(list, rxtx)|
    ensures Published(list, rxtx)[Count(list[..i], rxtx)] == Prepared(list[i])
    decreases |list|
  {
    var n := |list| - 1;
    if i == n {
      PublishedSize(list[..n], rxtx);
    } else {
      assert list[..n][..i] == list[..i];
      PublishedAt(list[..n], rxtx, i);
    }
  }

  lemma {:induction false} PublishedFrom(list: seq<Ability>, rxtx: RxTx, x: nat) returns (i: nat)
    requires x < |Published(list, rxtx)|
    ensures i < |list| && Selected(list[i], rxtx) && Published(list, rxtx)[x] == Prepared(list[i])
  {
    var n := |list| - 1;
    if x < |Published(list[..n], rxtx)| {
      i := PublishedFrom(list[..n], rxtx, x);
    } else {
      i := n;
    }
  }

  /** The published list has the entries of the direction that have an operation, and no
      others, without gaps, each at the place given by the number of such entries before it;
      an entry that adds a tag has its control information computed from VID and priority,
      and nothing else of an entry is changed. */
  lemma PublishedExact(list: seq<Ability>, rxtx: RxTx)
    ensures |Published(list, rxtx)| == Count(list, rxtx)
    ensures forall i :: 0 <= i < |list| && list[i].ope != NoOpe && list[i].rxtx == rxtx ==>
              && Count(list[..i], rxtx) < |Published(list, rxtx)|
              && Shown(Published(list, rxtx)[Count(list[..i], rxtx)], list[i])
    ensures forall x :: 0 <= x < |Published(list, rxtx)| ==>
              && Published(list, rxtx)[x].rxtx == rxtx && Published(list, rxtx)[x].ope != NoOpe
              && exists i :: 0 <= i < |list| && Shown(Published(list, rxtx)[x], list[i])
  {
    PublishedSize(list, rxtx);
    forall i | 0 <= i < |list| && list[i].ope != NoOpe && list[i].rxtx == rxtx
      ensures Count(list[..i], rxtx) < |Published(list, rxtx)|
      ensures Shown(Published(list, rxtx)[Count(list[..i], rxtx)], list[i])
    {
      PublishedAt(list, rxtx, i);
    }
    forall x | 0 <= x < |Published(list, rxtx)|
      ensures Published(list, rxtx)[x].rxtx == rxtx && Published(list, rxtx)[x].ope != NoOpe
      ensures exists i :: 0 <= i < |list| && Shown(Published(list, rxtx)[x], list[i])
    {
      var i := PublishedFrom(list, rxtx, x);
      assert Shown(Published(list, rxtx)[x], list[i]);
    }
  }

  /** A published entry, and the configured one it comes from. */
  ghost predicate Shown(e: Ability, a: Ability) {
    && e.ope == a.ope && e.rxtx == a.rxtx && e.vid == a.vid && e.pcp == a.pcp
    && e.tci == if a.ope == AddVlanTag then Tci(a.vid, a.pcp) else a.tci
  }

  /** The list as it stands in an area: unused places are empty. */
  function Padded(list: seq<Ability>): seq<Ability>
    requires |list| <= ABILITY_MAX
  {
    list + seq(ABILITY_MAX - |list|, _ => NO_ABILITY)
  }

  /** One port and direction: two areas of abilities. */
  class AbilityInfo {
    const area0: array<Ability>
    const area1: array<Ability>
    var refIndex: nat
    var updIndex: nat

    ghost predicate Valid()
      reads this
    {
      area0.Length == area1.Length == ABILITY_MAX && area0 != area1 && refIndex < 2 && updIndex < 2
    }

    function Area(i: nat): array<Ability> { if i == 0 then area0 else area1 }

    constructor ()
      ensures Valid() && fresh(area0) && fresh(area1) && refIndex == 0 && updIndex == 1
      ensures area0[..] == area1[..] == Padded([])
    {
      area0 := new Ability[ABILITY_MAX](_ => NO_ABILITY);
      area1 := new Ability[ABILITY_MAX](_ => NO_ABILITY);
      refIndex, updIndex := 0, 1;
    }

    /** The in-place filter of `port_ability_set_ability`, into the update area, which is then
        released.  The other area keeps its contents. */
    method SetAbility(input: seq<Ability>, rxtx: RxTx)
      requires Valid() && |input| == ABILITY_MAX
      modifies this`updIndex, Area(updIndex)
      ensures Valid() && updIndex == refIndex
      ensures Area(old(updIndex))[..] == Padded(Published(input, rxtx))
      ensures Area(1 - old(updIndex))[..] == old(Area(1 - updIndex)[..])
    {
      var output := Area(updIndex);
      forall x | 0 <= x < ABILITY_MAX { output[x] := NO_ABILITY; }
      var outCnt := 0;
      var inCnt := 0;
      while inCnt < ABILITY_MAX
        invariant 0 <= inCnt <= ABILITY_MAX
        invariant 0 <= outCnt == |Published(input[..inCnt], rxtx)| <= inCnt
        invariant output[..] == Padded(Published(input[..inCnt], rxtx))
        modifies output
      {
        assert input[..inCnt + 1][..inCnt] == input[..inCnt];
        if Selected(input[inCnt], rxtx) {
          output[outCnt] := input[inCnt];
          if output[outCnt].ope == AddVlanTag {
            output[outCnt] := output[outCnt].(tci := Tci(output[outCnt].vid, output[outCnt].pcp));
          }
          outCnt := outCnt + 1;
        }
        inCnt := inCnt + 1;
        assert output[..] == Padded(Published(input[..inCnt], rxtx));
      }
      assert input[..ABILITY_MAX] == input;
      updIndex := refIndex;
    }

    /** The worker's side of a switch. */
    method ChangeRef()
      requires Valid()
      modifies this`refIndex
      ensures Valid() && refIndex != updIndex
      ensures old(refIndex == updIndex) ==> refIndex != old(refIndex)
    {
      refIndex := (updIndex + 1) % 2;
    }
  }

  // ----- The data path -----

  /** One operation; `data` is the entry it takes its tag from. */
  function Operate(ope: AbilityOpe, data: Ability, f: seq<Byte>): (r: seq<Byte>)
    requires Whole(f) && 0 <= data.tci < 0x1_0000
    ensures ope == AddVlanTag ==> Tagged(r) && Whole(r)
  {
    match ope
    case NoOpe => f
    case AddVlanTag => DeleteAfterAdd(f, BigEndian(data.tci)); Added(f, BigEndian(data.tci))
    case DelVlanTag => Deleted(f)
  }

  /** A frame after the operations, or the entry for whose operation it was too short. */
  datatype Outcome = Done(frame: seq<Byte>) | TooShort(at: nat)

  /** The entries from `cnt` up to the first empty one, every one with the same data. */
  function OperateFrom(info: seq<Ability>, data: Ability, cnt: nat, f: seq<Byte>): Outcome
    requires cnt <= |info| && 0 <= data.tci < 0x1_0000
    decreases |info| - cnt
  {
    if cnt == |info| || info[cnt].ope == NoOpe then Done(f)
    else if !Whole(f) then TooShort(cnt)
    else OperateFrom(info, data, cnt + 1, Operate(info[cnt].ope, data, f))
  }

  /** `port_ability_each_operation` on one frame: every entry gets the data of the first. */
  method EachOperation(info: seq<Ability>, f: seq<Byte>) returns (o: Outcome)
    requires |info| == ABILITY_MAX && 0 <= info[0].tci < 0x1_0000
    ensures o == OperateFrom(info, info[0], 0, f)
  {
    if info[0].ope == NoOpe {
      return Done(f);
    }
    var r := f;
    var cnt := 0;
    while cnt < ABILITY_MAX && info[cnt].ope != NoOpe
      invariant 0 <= cnt <= ABILITY_MAX
      invariant OperateFrom(info, info[0], cnt, r) == OperateFrom(info, info[0], 0, f)
    {
      if !Whole(r) {
        return TooShort(cnt);
      }
      r := Operate(info[cnt].ope, info[0], r);
      cnt := cnt + 1;
    }
    return Done(r);
  }

  /** A published list: used entries only, and a TCI of sixteen bits in the first. */
  predicate Listed(p: seq<Ability>) {
    && |p| <= ABILITY_MAX
    && (forall x :: 0 <= x < |p| ==> p[x].ope != NoOpe)
    && (p != [] ==> 0 <= p[0].tci < 0x1_0000)
  }

  function Outcomes(p: seq<Ability>, f: seq<Byte>): Outcome
    requires Listed(p)
  {
    if p == [] then Done(f) else OperateFrom(p, p[0], 0, f)
  }

  /** The empty places behind a published list play no part. */
  lemma {:induction false} PaddingIgnored(p: seq<Ability>, data: Ability, cnt: nat, f: seq<Byte>)
    requires Listed(p) && cnt <= |p| && 0 <= data.tci < 0x1_0000
    ensures OperateFrom(Padded(p), data, cnt, f) == OperateFrom(p, data, cnt, f)
    decreases |p| - cnt
  {
    if cnt < |p| && Whole(f) {
      PaddingIgnored(p, data, cnt + 1, Operate(p[cnt].ope, data, f));
    }
  }

  /** A frame with four octets for every operation is long enough for all of them. */
  lemma {:induction false} LongFramesDone(p: seq<Ability>, data: Ability, cnt: nat, f: seq<Byte>)
    requires Listed(p) && cnt <= |p| && 0 <= data.tci < 0x1_0000
    requires |f| >= ETHER_HEADER + VLAN_HEADER * (|p| - cnt)
    ensures OperateFrom(p, data, cnt, f).Done?
    decreases |p| - cnt
  {
    if cnt < |p| {
      LongFramesDone(p, data, cnt + 1, Operate(p[cnt].ope, data, f));
    }
  }

  /** A frame with two tags of which the second is cut off is too short to lose both. */
  lemma CutOffFrame(del: Ability, f: seq<Byte>)
    requires del.ope == DelVlanTag && 0 <= del.tci < 0x1_0000
    requires |f| == ETHER_HEADER + VLAN_HEADER && Tagged(f) && f[16..18] == TPID
    ensures Outcomes([del, del], f) == TooShort(1)
  {
    var p, g := [del, del], Deleted(f);
    assert g[12..14] == f[16..18];
    assert !Whole(g);
    assert OperateFrom(p, del, 0, f) == OperateFrom(p, del, 1, g);
  }

  /** An untagged frame is never too short: after any operations it is tagged with the first
      entry's TCI if the last operation adds, and itself again if it deletes. */
  lemma {:induction false} UntaggedFrom(p: seq<Ability>, data: Ability, cnt: nat, f: seq<Byte>, g: seq<Byte>)
    requires Listed(p) && cnt <= |p| && 0 <= data.tci < 0x1_0000
    requires Whole(f) && !Tagged(f) && (g == f || g == Added(f, BigEndian(data.tci)))
    ensures OperateFrom(p, data, cnt, g)
            == Done(if cnt == |p| then g
                    else if p[|p| - 1].ope == AddVlanTag then Added(f, BigEndian(data.tci)) else f)
    decreases |p| - cnt
  {
    var tci := BigEndian(data.tci);
    DeleteAfterAdd(f, tci);
    AddTwice(f, tci);
    if cnt < |p| {
      UntaggedFrom(p, data, cnt + 1, f, Operate(p[cnt].ope, data, g));
    }
  }

  /** Adding the same tag again changes nothing. */
  lemma AddTwice(f: seq<Byte>, tci: seq<Byte>)
    requires Whole(f) && |tci| == 2
    ensures Whole(Added(f, tci)) && Added(Added(f, tci), tci) == Added(f, tci)
  {
    DeleteAfterAdd(f, tci);
    var a := Added(f, tci);
    assert a[14..16] == tci;
    assert a == a[..14] + tci + a[16..];
  }

  /** The frame carries a tag with that control information. */
  predicate Carries(f: seq<Byte>, tci: nat) { Whole(f) && View(f).tci == Some(tci) }

  lemma AddedCarries(f: seq<Byte>, tci: nat)
    requires Whole(f) && tci < 0x1_0000
    ensures Carries(Added(f, BigEndian(tci)), tci) && View(Added(f, BigEndian(tci))).dst == View(f).dst
  {
    var b := BigEndian(tci);
    DeleteAfterAdd(f, b);
    var a := Added(f, b);
    assert a[14..16] == b && Number(b) == tci;
    assert a[..6] == f[..6];
  }

  /** If the last operation adds, whatever comes out carries the first entry's TCI. */
  lemma {:induction false} LastAdds(p: seq<Ability>, data: Ability, cnt: nat, f: seq<Byte>)
    requires Listed(p) && cnt < |p| && p[|p| - 1].ope == AddVlanTag && 0 <= data.tci < 0x1_0000
    ensures var o := OperateFrom(p, data, cnt, f); o.Done? ==> Carries(o.frame, data.tci)
    decreases |p| - cnt
  {
    if Whole(f) {
      if cnt == |p| - 1 {
        AddedCarries(f, data.tci);
      } else {
        LastAdds(p, data, cnt + 1, Operate(p[cnt].ope, data, f));
      }
    }
  }

  /** Every frame that passes carries the tag. */
  ghost predicate ShowsTag(p: seq<Ability>, tci: nat)
    requires Listed(p)
  {
    forall f: seq<Byte> | Whole(f) :: Outcomes(p, f).Done? ==> Carries(Outcomes(p, f).frame, tci)
  }

  function Plain(): seq<Byte> { seq(ETHER_HEADER, _ => 0) }

  /** A published list makes every frame carry a tag exactly if its last entry adds one and
      its first entry, whose data all operations get, holds that control information. */
  lemma ShowsTagIff(p: seq<Ability>, tci: nat)
    requires Listed(p) && tci < 0x1_0000
    ensures ShowsTag(p, tci) <==> p != [] && p[|p| - 1].ope == AddVlanTag && p[0].tci == tci
  {
    var f := Plain();
    assert f[12..14][0] != TPID[0];
    assert Whole(f) && !Tagged(f) && View(f).tci == None;
    if p != [] {
      UntaggedFrom(p, p[0], 0, f, f);
      AddedCarries(f, p[0].tci);
      if p[|p| - 1].ope == AddVlanTag {
        forall g: seq<Byte> | Whole(g) && Outcomes(p, g).Done? ensures Carries(Outcomes(p, g).frame, p[0].tci) {
          LastAdds(p, p[0], 0, g);
        }
      }
    }
    assert Outcomes(p, f).Done?;
  }

  /** Entries as configured: the raw TCI of an entry that adds no tag has sixteen bits. */
  predicate Sane(list: seq<Ability>) {
    |list| <= ABILITY_MAX && forall x :: 0 <= x < |list| ==> 0 <= list[x].tci < 0x1_0000
  }

  lemma {:induction false} PublishedListed(list: seq<Ability>, rxtx: RxTx)
    requires Sane(list)
    ensures Listed(Published(list, rxtx))
  {
    if list != [] {
      PublishedListed(list[..|list| - 1], rxtx);
    }
  }

  /** The configured tag of entry `i` is shown exactly if the last entry of the direction adds
      a tag and the first one holds the same control information. */
  lemma ConfiguredTagIff(list: seq<Ability>, rxtx: RxTx, i: nat)
    requires Sane(list) && i < |list| && Selected(list[i], rxtx) && list[i].ope == AddVlanTag
    ensures var p := Published(list, rxtx);
            && Listed(p) && p != []
            && (ShowsTag(p, Tci(list[i].vid, list[i].pcp))
                <==> p[|p| - 1].ope == AddVlanTag && p[0].tci == Tci(list[i].vid, list[i].pcp))
  {
    var p, tci := Published(list, rxtx), Tci(list[i].vid, list[i].pcp);
    PublishedListed(list, rxtx);
    assert p != [] by {
      PublishedAt(list, rxtx, i);
    }
    ShowsTagIff(p, tci);
  }

  /** A tag added by the sending port is taken off again by a receiving port that deletes tags. */
  lemma TagCrossesLink(add: Ability, del: Ability, f: seq<Byte>)
    requires add.ope == AddVlanTag && del.ope == DelVlanTag && 0 <= del.tci < 0x1_0000
    requires Whole(f) && !Tagged(f)
    ensures Operate(del.ope, del, Operate(add.ope, Prepared(add), f)) == f
  {
    DeleteAfterAdd(f, BigEndian(Tci(add.vid, add.pcp)));
  }
}

/** VLAN tag editing in the buffer of a packet, by moving its Ethernet header in place. */
module VlanTag {
  import opened SppTypes
  import Classifier

  const ETHER_HEADER: nat := 14
  const VLAN_HEADER: nat := 4

  /** Type field of a tagged frame, as sent. */
  const TPID: seq<Byte> := [0x81, 0x00]

  // ----- Frames -----

  predicate Tagged(f: seq<Byte>) {
    |f| >= ETHER_HEADER && f[12..14] == TPID
  }

  /** Long enough for the header it claims to have. */
  predicate Whole(f: seq<Byte>) {
    |f| >= if Tagged(f) then ETHER_HEADER + VLAN_HEADER else ETHER_HEADER
  }

  /** Tag control information: three bits of priority, one zero bit, twelve bits of VID. */
  function Tci(vid: int, pcp: int): (r: nat)
    ensures r < 0x1_0000
  {
    (pcp % 8) * 0x2000 + vid % 0x1000
  }

  function BigEndian(n: nat): (r: seq<Byte>)
    requires n < 0x1_0000
    ensures |r| == 2
  {
    [n / 256, n % 256]
  }

  /** The frame with a tag inserted after the addresses. */
  function Insert(f: seq<Byte>, tci: seq<Byte>): (r: seq<Byte>)
    requires |f| >= ETHER_HEADER && |tci| == 2
  {
    f[..12] + TPID + tci + f[12..]
  }

  /** The frame with the control information of its tag replaced. */
  function Replace(f: seq<Byte>, tci: seq<Byte>): seq<Byte>
    requires Tagged(f) && Whole(f) && |tci| == 2
  {
    f[..14] + tci + f[16..]
  }

  /** The frame without its tag. */
  function Remove(f: seq<Byte>): seq<Byte>
    requires Tagged(f) && Whole(f)
  {
    f[..12] + f[16..]
  }

  function Added(f: seq<Byte>, tci: seq<Byte>): seq<Byte>
    requires Whole(f) && |tci| == 2
  {
    if Tagged(f) then Replace(f, tci) else Insert(f, tci)
  }

  function Deleted(f: seq<Byte>): seq<Byte>
    requires Whole(f)
  {
    if Tagged(f) then Remove(f) else f
  }

  /** Deleting after adding restores an untagged frame, and takes the tag off a tagged one. */
  lemma DeleteAfterAdd(f: seq<Byte>, tci: seq<Byte>)
    requires Whole(f) && |tci| == 2
    ensures Tagged(Added(f, tci)) && Whole(Added(f, tci))
    ensures Deleted(Added(f, tci)) == Deleted(f)
  {
    var a := Added(f, tci);
    assert a[12..14] == TPID;
    if Tagged(f) {
      assert a[..12] == f[..12] && a[16..] == f[16..];
    } else {
      assert a[..12] + a[16..] == f;
    }
  }

  /** Adding to a tagged frame changes nothing but its tag control information. */
  lemma AddOnTagged(f: seq<Byte>, tci: seq<Byte>)
    requires Tagged(f) && Whole(f) && |tci| == 2
    ensures var a := Added(f, tci);
            && |a| == |f| && a[14..16] == tci
            && forall i :: 0 <= i < |f| && i != 14 && i != 15 ==> a[i] == f[i]
  {
  }

  /** The first octets of a frame as the classifier reads them. */
  function View(f: seq<Byte>): Classifier.Frame
    requires Whole(f)
  {
    Classifier.Frame(
      Address(f[..6]), if Tagged(f) then Some(Number(f[14..16])) else None)
  }

  /** Six octets, the first in the low byte. */
  function Address(s: seq<Byte>): nat
    decreases |s|
  {
    if s == [] then 0 else s[0] as int + 0x100 * Address(s[1..])
  }

  function Number(s: seq<Byte>): nat
    requires |s| == 2
  {
    s[0] as int * 0x100 + s[1] as int
  }

  lemma TciParts(vid: nat, pcp: int)
    requires vid < 0x1000
    ensures Tci(vid, pcp) % 0x1000 == vid && Tci(vid, pcp) / 0x1000 % 2 == 0 && Tci(vid, pcp) / 0x2000 == pcp % 8
    ensures Number(BigEndian(Tci(vid, pcp))) == Tci(vid, pcp)
  {
  }

  /** After tagging with any VID and any priority the classifier sees the configured VID, the
      configured priority with the bit between them clear, and the destination it saw before. */
  lemma TaggedVidIsSeen(f: seq<Byte>, vid: nat, pcp: int)
    requires Whole(f) && vid < NUM_VLAN_VID
    ensures var a := Added(f, BigEndian(Tci(vid, pcp)));
            && Whole(a) && View(a).tci == Some(Tci(vid, pcp))
            && Classifier.GetVid(View(a)) == vid && Tci(vid, pcp) / 0x1000 % 2 == 0 && Tci(vid, pcp) / 0x2000 == pcp % 8
            && View(a).dst == View(f).dst
  {
    var tci := BigEndian(Tci(vid, pcp));
    var a := Added(f, tci);
    DeleteAfterAdd(f, tci);
    TciParts(vid, pcp);
    assert a[14..16] == tci;
    assert a[..6] == f[..6];
  }

  /** The classifier takes a frame for multicast by the group bit, the lowest bit of the first
      octet on the wire; a frame without a tag has VID 4095, one with a tag the twelve low
      bits of the two octets behind the tag's type. */
  lemma SeenOnWire(f: seq<Byte>)
    requires Whole(f)
    ensures Classifier.IsMulticast(View(f).dst) <==> f[0] % 2 == 1
    ensures Classifier.GetVid(View(f))
            == if f[12] == 0x81 && f[13] == 0x00 then (f[14] as int % 16) * 256 + f[15] as int else 4095
  {
    assert f[..6][0] == f[0];
    assert f[12..14] == [f[12], f[13]];
    if Tagged(f) {
      assert f[14..16] == [f[14], f[15]];
    }
  }

  // ----- The buffer -----

  class Mbuf {
    const buf: array<Byte>
    /** Start of the data in the buffer, and its length. */
    var off: nat
    var len: nat

    /** Room for the checksum behind the data. */
    ghost predicate Valid()
      reads this
    {
      off + len + 4 <= buf.Length
    }

    function Frame(): seq<Byte>
      requires Valid()
      reads this, buf
    {
      buf[off..off + len]
    }

    constructor (f: seq<Byte>, headroom: nat, tailroom: nat)
      requires tailroom >= 4
      ensures fresh(buf) && Valid() && Frame() == f && off == headroom
    {
      off, len := headroom, |f|;
      buf := new Byte[headroom + |f| + tailroom](i => if headroom <= i < headroom + |f| then f[i - headroom] else 0);
    }

    /** `set_fcs_packet`: four octets right behind the data. */
    method SetFcs(fcs: seq<Byte>)
      requires Valid() && |fcs| == 4
      modifies buf
      ensures forall i :: 0 <= i < buf.Length && !(off + len <= i < off + len + 4) ==> buf[i] == old(buf[i])
    {
      for i := 0 to 4
        invariant forall k :: 0 <= k < buf.Length && !(off + len <= k < off + len + 4) ==> buf[k] == old(buf[k])
      {
        buf[off + len + i] := fcs[i];
      }
    }

    /** Copies `n` octets `VLAN_HEADER` places down, lowest first. */
    method CopyDown(n: nat, src: nat)
      requires VLAN_HEADER <= src && src + n <= buf.Length
      modifies buf
      ensures forall i :: src - VLAN_HEADER <= i < src - VLAN_HEADER + n ==> buf[i] == old(buf[i + VLAN_HEADER])
      ensures forall i :: 0 <= i < buf.Length && !(src - VLAN_HEADER <= i < src - VLAN_HEADER + n) ==> buf[i] == old(buf[i])
    {
      for k := 0 to n
        invariant forall i :: src - VLAN_HEADER <= i < src - VLAN_HEADER + k ==> buf[i] == old(buf[i + VLAN_HEADER])
        invariant forall i :: 0 <= i < buf.Length && !(src - VLAN_HEADER <= i < src - VLAN_HEADER + k) ==> buf[i] == old(buf[i])
      {
        buf[src - VLAN_HEADER + k] := buf[src + k];
      }
    }

    /** The new tag control information, and the checksum. */
    method SetTci(tci: seq<Byte>, fcs: seq<Byte>)
      requires Valid() && len >= ETHER_HEADER + VLAN_HEADER && |tci| == 2 && |fcs| == 4
      modifies buf
      ensures Frame() == old(Frame())[..14] + tci + old(Frame())[16..]
    {
      ghost var f := Frame();
      buf[off + 14], buf[off + 15] := tci[0], tci[1];
      SetFcs(fcs);
      assert forall i :: 0 <= i < len ==> Frame()[i] == (f[..14] + tci + f[16..])[i];
    }

    /** The header four places down; the four octets behind it are left as they were. */
    method LowerHeader()
      requires Valid() && len >= ETHER_HEADER && off >= VLAN_HEADER
      modifies this, buf
      ensures Valid() && off == old(off) - VLAN_HEADER && len == old(len) + VLAN_HEADER
      ensures Frame()[..14] == old(Frame())[..14] && Frame()[18..] == old(Frame())[14..]
    {
      CopyDown(ETHER_HEADER, off);
      off, len := off - VLAN_HEADER, len + VLAN_HEADER;
    }

    /** The type moves behind the gap, the tag's type takes its place. */
    method WriteType()
      requires Valid() && len >= ETHER_HEADER + VLAN_HEADER
      modifies buf
      ensures Frame()[..14] == old(Frame())[..12] + TPID
      ensures Frame()[16..] == old(Frame())[12..14] + old(Frame())[18..]
    {
      ghost var f := Frame();
      buf[off + 16], buf[off + 17] := buf[off + 12], buf[off + 13];
      buf[off + 12], buf[off + 13] := TPID[0], TPID[1];
      assert Frame()[18..] == f[18..] && Frame()[16..18] == f[12..14] && Frame()[..12] == f[..12];
      assert Frame()[16..] == Frame()[16..18] + Frame()[18..] && Frame()[..14] == Frame()[..12] + Frame()[12..14];
    }

    /** Opens a gap of four octets behind the addresses and writes the tag's type into it;
        the two octets behind that are arbitrary. */
    method OpenGap()
      requires Valid() && len >= ETHER_HEADER && off >= VLAN_HEADER
      modifies this, buf
      ensures Valid() && off == old(off) - VLAN_HEADER && len == old(len) + VLAN_HEADER
      ensures Frame()[..14] == old(Frame())[..12] + TPID && Frame()[16..] == old(Frame())[12..]
    {
      ghost var f := Frame();
      LowerHeader();
      ghost var g := Frame();
      assert g[..12] == g[..14][..12] && f[..12] == f[..14][..12];
      assert g[12..14] == g[..14][12..] && f[12..] == f[..14][12..] + f[14..];
      WriteType();
    }

    method HasTag() returns (b: bool)
      requires Valid() && len >= ETHER_HEADER
      ensures b == Tagged(Frame())
    {
      ghost var f := Frame();
      assert f[12] == buf[off + 12] && f[13] == buf[off + 13];
      assert f[12..14] == [f[12], f[13]];
      return buf[off + 12] == TPID[0] && buf[off + 13] == TPID[1];
    }

    /** `add_vlantag_packet`.  It fails only for want of headroom, and then changes nothing. */
    method AddVlanTag(tci: seq<Byte>, fcs: seq<Byte>) returns (ok: bool)
      requires Valid() && Whole(Frame()) && |tci| == 2 && |fcs| == 4
      modifies this, buf
      ensures Valid() && ok == (Tagged(old(Frame())) || old(off) >= VLAN_HEADER)
      ensures Frame() == if ok then Added(old(Frame()), tci) else old(Frame())
      ensures off == if ok && !Tagged(old(Frame())) then old(off) - VLAN_HEADER else old(off)
      ensures off + len == old(off + len)
    {
      var tagged := HasTag();
      if !tagged {
        if off < VLAN_HEADER {
          return false;
        }
        OpenGap();
      }
      SetTci(tci, fcs);
      return true;
    }

    /** Copies one 32-bit word. */
    method MoveWord(dst: nat, src: nat)
      requires src + 4 <= dst && dst + 4 <= buf.Length
      modifies buf
      ensures forall i :: dst <= i < dst + 4 ==> buf[i] == old(buf[i - (dst - src)])
      ensures forall i :: 0 <= i < buf.Length && !(dst <= i < dst + 4) ==> buf[i] == old(buf[i])
    {
      buf[dst], buf[dst + 1], buf[dst + 2], buf[dst + 3] := buf[src], buf[src + 1], buf[src + 2], buf[src + 3];
    }

    /** The three overlapping moves, highest word first: twelve octets go four places up. */
    method MoveUp(src: nat)
      requires src + 16 <= buf.Length
      modifies buf
      ensures forall i :: src + VLAN_HEADER <= i < src + 16 ==> buf[i] == old(buf[i - VLAN_HEADER])
      ensures forall i :: 0 <= i < buf.Length && !(src + VLAN_HEADER <= i < src + 16) ==> buf[i] == old(buf[i])
    {
      var dst := src + VLAN_HEADER;
      MoveWord(dst + 8, src + 8);
      MoveWord(dst + 4, src + 4);
      MoveWord(dst, src);
    }

    /** The addresses four places up; the octets given up are cleared. */
    method MoveAddresses(src: nat)
      requires src + 16 <= buf.Length
      modifies buf
      ensures buf[src + 4..src + 16] == old(buf[src..src + 12]) && buf[src + 16..] == old(buf[src + 16..])
    {
      MoveUp(src);
      buf[src], buf[src + 1], buf[src + 2], buf[src + 3] := 0, 0, 0, 0;
    }

    /** Closes the gap of a tag. */
    method CloseGap()
      requires Valid() && Tagged(Frame()) && Whole(Frame())
      modifies this, buf
      ensures Valid() && off == old(off) + VLAN_HEADER && len == old(len) - VLAN_HEADER
      ensures Frame() == Remove(old(Frame()))
    {
      ghost var f := Frame();
      assert f[..12] == buf[off..off + 12] && f[16..] == buf[off + 16..][..len - 16];
      MoveAddresses(off);
      assert buf[off + 4..off + len] == buf[off + 4..off + 16] + buf[off + 16..][..len - 16];
      off, len := off + VLAN_HEADER, len - VLAN_HEADER;
    }

    /** `del_vlantag_packet`. */
    method DelVlanTag(fcs: seq<Byte>)
      requires Valid() && Whole(Frame()) && |fcs| == 4
      modifies this, buf
      ensures Valid() && Frame() == Deleted(old(Frame()))
      ensures off == old(off) + (if Tagged(old(Frame())) then VLAN_HEADER else 0) && off + len == old(off + len)
    {
      var tagged := HasTag();
      if tagged {
        CloseGap();
        ghost var f := Frame();
        SetFcs(fcs);
        assert Frame() == f;
      }
    }

    /** Adding and then deleting leaves an untagged frame, and its place in the buffer, as they were. */
    method AddThenDelete(tci: seq<Byte>, fcs1: seq<Byte>, fcs2: seq<Byte>)
      requires Valid() && Whole(Frame()) && !Tagged(Frame()) && off >= VLAN_HEADER
      requires |tci| == 2 && |fcs1| == |fcs2| == 4
      modifies this, buf
      ensures Valid() && Frame() == old(Frame()) && off == old(off)
    {
      DeleteAfterAdd(Frame(), tci);
      var ok := AddVlanTag(tci, fcs1);
      DelVlanTag(fcs2);
    }
  }
}

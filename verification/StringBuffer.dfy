/** The growing text buffer that carries replies, and the functions that append JSON to it. */
module StringBuffer {
  import opened SppTypes
  import opened Decimal

  const NUL: char := '\0'

  /** The C string in a stretch of memory: what stands before the first terminator. */
  function Cut(s: seq<char>): (t: seq<char>)
    ensures |t| <= |s| && t == s[..|t|] && NUL !in t
    ensures |t| < |s| ==> s[|t|] == NUL
  {
    if s == [] || s[0] == NUL then [] else [s[0]] + Cut(s[1..])
  }

  lemma {:induction false} CutAt(s: seq<char>, k: nat)
    requires k < |s| && s[k] == NUL && NUL !in s[..k]
    ensures Cut(s) == s[..k]
  {
    if k > 0 {
      assert s[0] == s[..k][0];
      assert s[1..][..k - 1] == s[..k][1..];
      CutAt(s[1..], k - 1);
    } else {
      assert s[0] == NUL;
    }
  }

  /** The capacity after `n` doublings. */
  function Doubled(capacity: nat, n: nat): nat {
    if n == 0 then capacity else 2 * Doubled(capacity, n - 1)
  }

  lemma {:induction false} DoubledGrows(capacity: nat, n: nat)
    requires capacity > 0
    ensures Doubled(capacity, n) > n
  {
    if n > 0 {
      DoubledGrows(capacity, n - 1);
    }
  }

  lemma {:induction false} DoubledZero(n: nat)
    ensures Doubled(0, n) == 0
  {
    if n > 0 {
      DoubledZero(n - 1);
    }
  }

  /** The doubling loop reaches every required length exactly if it does not start from nothing. */
  lemma DoublingEndsIff(capacity: nat, required: nat)
    ensures (exists n: nat :: Doubled(capacity, n) > required) <==> capacity > 0
  {
    if capacity > 0 {
      DoubledGrows(capacity, required);
    } else {
      forall n: nat ensures Doubled(capacity, n) <= required {
        DoubledZero(n);
      }
    }
  }

  class StrBuf {
    var mem: array<char>

    ghost predicate Valid()
      reads this, mem
    {
      exists i :: 0 <= i < mem.Length && mem[i] == NUL
    }

    function Text(): string
      reads this, mem
    {
      Cut(mem[..])
    }

    /** `spp_strbuf_allocate`. */
    constructor (capacity: nat)
      requires capacity > 0
      ensures fresh(mem) && Valid() && Text() == "" && mem.Length == capacity
    {
      mem := new char[capacity](_ => NUL);
      new;
      assert mem[0] == NUL;
    }

    method StrLen() returns (n: nat)
      requires Valid()
      ensures n == |Text()| < mem.Length && mem[n] == NUL && Text() == mem[..n]
    {
      n := 0;
      while mem[n] != NUL
        invariant n < mem.Length && NUL !in mem[..n]
        invariant exists i :: n <= i < mem.Length && mem[i] == NUL
        decreases mem.Length - n
      {
        n := n + 1;
      }
      CutAt(mem[..], n);
    }

    /** `strbuf_reallocate`: doubles until the text and its terminator fit. */
    method Reallocate(required: nat)
      requires Valid() && required + 1 > |Text()|
      modifies this
      ensures fresh(mem) && Valid() && Text() == old(Text())
      ensures mem.Length > required && mem.Length >= 2 * old(mem.Length)
      ensures exists n: nat :: mem.Length == Doubled(old(mem).Length, n)
    {
      var len := StrLen();
      var newCap := mem.Length * 2;
      ghost var n := 1;
      while newCap <= required
        invariant len < mem.Length && newCap == Doubled(mem.Length, n) && newCap >= 2 * mem.Length > 0
        decreases required - newCap
      {
        newCap := newCap * 2;
        n := n + 1;
      }
      var to := new char[newCap](_ => NUL);
      var i := 0;
      while i < len
        invariant 0 <= i <= len && to[..i] == mem[..i]
        modifies to
      {
        to[i] := mem[i];
        i := i + 1;
      }
      to[len] := NUL;
      CutAt(to[..], len);
      mem := to;
    }

    /** Copies characters into memory from place `at` on. */
    method Copy(at: nat, s: seq<char>)
      requires at + |s| <= mem.Length
      modifies mem
      ensures mem[..] == old(mem[..at]) + s + old(mem[at + |s|..])
    {
      var i := 0;
      while i < |s|
        invariant 0 <= i <= |s|
        invariant mem[..at] == old(mem[..at])
        invariant mem[at..at + i] == s[..i]
        invariant mem[at + i..] == old(mem[at + i..])
      {
        mem[at + i] := s[i];
        i := i + 1;
      }
      assert mem[..] == mem[..at] + mem[at..at + |s|] + mem[at + |s|..];
    }

    /** `spp_strbuf_append` of any characters, terminators among them allowed. */
    method AppendRaw(s: seq<char>)
      requires Valid()
      modifies this, mem
      ensures mem == old(mem) || fresh(mem)
      ensures Valid() && |old(Text())| + |s| < mem.Length
      ensures mem[..|old(Text())|] == old(Text())
      ensures mem[|old(Text())|..|old(Text())| + |s|] == s && mem[|old(Text())| + |s|] == NUL
    {
      var len := StrLen();
      if len + |s| >= mem.Length {
        Reallocate(len + |s|);
        assert Cut(mem[..]) == mem[..len];
      }
      Copy(len, s);
      mem[len + |s|] := NUL;
    }

    /** `spp_strbuf_append` of a string: concatenation, whether or not the memory moves. */
    method Append(s: string)
      requires Valid() && NUL !in s
      modifies this, mem
      ensures mem == old(mem) || fresh(mem)
      ensures Valid() && Text() == old(Text()) + s && |Text()| < mem.Length
    {
      ghost var t := Text();
      AppendRaw(s);
      assert mem[..|t| + |s|] == t + s;
      CutAt(mem[..], |t| + |s|);
    }

    /** `memmove` to the front of the memory. */
    method MoveDown(from: nat, count: nat)
      requires from + count <= mem.Length
      modifies mem
      ensures mem[..count] == old(mem[from..from + count])
    {
      for i := 0 to count
        invariant forall k :: 0 <= k < i ==> mem[k] == old(mem[from + k])
        invariant forall k :: i <= k < mem.Length ==> mem[k] == old(mem[k])
      {
        mem[i] := mem[from + i];
      }
    }

    /** `spp_strbuf_remove_front`. */
    method RemoveFront(n: nat)
      requires Valid() && n <= |Text()|
      modifies mem
      ensures Valid() && Text() == old(Text())[n..]
    {
      var len := StrLen();
      var newLen := len - n;
      ghost var t := Text();
      if newLen == 0 {
        mem[0] := NUL;
      } else {
        assert mem[n..n + newLen + 1] == t[n..] + [NUL];
        MoveDown(n, newLen + 1);
        assert mem[newLen] == mem[..newLen + 1][newLen];
        assert mem[..newLen] == mem[..newLen + 1][..newLen];
      }
      CutAt(mem[..], newLen);
    }

    /** What all the JSON functions do: reserve room by appending `filler`, whose contents are
        whatever the memory behind an empty string literal holds, then print over it from the
        old end on.  The text fits in the room reserved. */
    method Print(text: string, filler: seq<char>)
      requires Valid() && NUL !in text && |text| <= |filler|
      modifies this, mem
      ensures mem == old(mem) || fresh(mem)
      ensures Valid() && Text() == old(Text()) + text
    {
      ghost var t := Text();
      var len := StrLen();
      AppendRaw(filler);
      Copy(len, text + [NUL]);
      assert mem[len + |text|] == NUL;
      assert mem[..len + |text|] == t + text;
      CutAt(mem[..], len + |text|);
    }

    method AppendUint(name: string, value: nat, filler: seq<char>)
      requires Valid() && NUL !in name && value < 0x1_0000_0000 && |filler| == |name| + 2 * CMD_TAG_APPEND_SIZE
      modifies this, mem
      ensures mem == old(mem) || fresh(mem)
      ensures Valid() && Text() == old(Text()) + Member(old(Text()), name, Unsigned(value))
    {
      Width32(value);
      DigitsPrintable(value);
      var len := StrLen();
      Print(Comma(len) + "\"" + name + "\": " + Unsigned(value), filler);
    }

    method AppendInt(name: string, value: int, filler: seq<char>)
      requires Valid() && NUL !in name && -0x8000_0000 <= value < 0x8000_0000 && |filler| == |name| + 2 * CMD_TAG_APPEND_SIZE
      modifies this, mem
      ensures mem == old(mem) || fresh(mem)
      ensures Valid() && Text() == old(Text()) + Member(old(Text()), name, Signed(value))
    {
      Width32(value);
      SignedPrintable(value);
      var len := StrLen();
      Print(Comma(len) + "\"" + name + "\": " + Signed(value), filler);
    }

    method AppendStr(name: string, str: string, filler: seq<char>)
      requires Valid() && NUL !in name && NUL !in str && |filler| == |name| + |str| + CMD_TAG_APPEND_SIZE
      modifies this, mem
      ensures mem == old(mem) || fresh(mem)
      ensures Valid() && Text() == old(Text()) + Member(old(Text()), name, "\"" + str + "\"")
    {
      var len := StrLen();
      Print(Comma(len) + "\"" + name + "\": " + ("\"" + str + "\""), filler);
    }

    method AppendArray(name: string, str: string, filler: seq<char>)
      requires Valid() && NUL !in name && NUL !in str && |filler| == |name| + |str| + CMD_TAG_APPEND_SIZE
      modifies this, mem
      ensures mem == old(mem) || fresh(mem)
      ensures Valid() && Text() == old(Text()) + Member(old(Text()), name, "[ " + str + " ]")
    {
      var len := StrLen();
      Print(Comma(len) + "\"" + name + "\": " + ("[ " + str + " ]"), filler);
    }

    method AppendBlock(name: string, str: string, filler: seq<char>)
      requires Valid() && NUL !in name && NUL !in str && |filler| == |name| + |str| + CMD_TAG_APPEND_SIZE
      modifies this, mem
      ensures mem == old(mem) || fresh(mem)
      ensures Valid()
      ensures Text() == old(Text()) +
                (if name == "" then Separator(old(Text())) + "{ " + str + " }"
                 else Member(old(Text()), name, "{ " + str + " }"))
    {
      var len := StrLen();
      if name == "" {
        Print(Comma(len) + "{ " + str + " }", filler);
      } else {
        Print(Comma(len) + "\"" + name + "\": " + ("{ " + str + " }"), filler);
      }
    }
  }

  const CMD_TAG_APPEND_SIZE: nat := 16

  function Comma(flag: nat): string { if flag != 0 then ", " else "" }

  /** A member is separated from a text that is not empty. */
  function Separator(before: string): string { if before == "" then "" else ", " }

  /** A JSON member as it follows a text. */
  function Member(before: string, name: string, value: string): string {
    Separator(before) + "\"" + name + "\": " + value
  }

  lemma SignedPrintable(n: int)
    ensures NUL !in Signed(n)
  {
    DigitsPrintable(if n < 0 then -n else n);
  }

  lemma DigitsPrintable(n: nat)
    ensures NUL !in Unsigned(n)
  {
    var s := Unsigned(n);
    forall i | 0 <= i < |s| ensures s[i] != NUL {
      assert IsDigit(s[i]);
    }
  }
}

/** C library text functions used on commands: splitting with `strtok_r`, and `strtol` and
    `strtoul` on whole tokens. */
module Text {
  import opened SppTypes
  import opened Decimal

  // ----- Splitting -----

  /** Length of the stretch before the first delimiter. */
  function Span(s: string, d: char): (n: nat)
    ensures n <= |s| && d !in s[..n] && (n < |s| ==> s[n] == d)
  {
    if s == [] || s[0] == d then 0 else 1 + Span(s[1..], d)
  }

  /** The tokens of a string: the stretches between delimiters that are not empty. */
  function Tokens(s: string, d: char): seq<string>
    decreases |s|
  {
    if s == [] then []
    else if s[0] == d then Tokens(s[1..], d)
    else [s[..Span(s, d)]] + Tokens(s[Span(s, d)..], d)
  }

  predicate Word(w: string, d: char) { w != [] && d !in w }

  ghost predicate Words(ws: seq<string>, d: char) { forall i :: 0 <= i < |ws| ==> Word(ws[i], d) }

  function Join(ws: seq<string>, d: char): string {
    if ws == [] then [] else if |ws| == 1 then ws[0] else ws[0] + [d] + Join(ws[1..], d)
  }

  lemma {:induction false} SpanOf(w: string, rest: string, d: char)
    requires d !in w && (rest == [] || rest[0] == d)
    ensures Span(w + rest, d) == |w|
  {
    if w == [] {
      assert w + rest == rest;
    } else {
      assert (w + rest)[0] == w[0] && (w + rest)[1..] == w[1..] + rest;
      SpanOf(w[1..], rest, d);
    }
  }

  lemma FirstToken(w: string, rest: string, d: char)
    requires Word(w, d) && (rest == [] || rest[0] == d)
    ensures Tokens(w + rest, d) == [w] + Tokens(rest, d)
  {
    SpanOf(w, rest, d);
    assert (w + rest)[..|w|] == w && (w + rest)[|w|..] == rest;
    assert (w + rest)[0] == w[0];
  }

  /** Splitting undoes joining. */
  lemma {:induction false} TokensOfJoin(ws: seq<string>, d: char)
    requires Words(ws, d)
    ensures Tokens(Join(ws, d), d) == ws
  {
    if |ws| == 1 {
      FirstToken(ws[0], [], d);
      assert ws[0] + [] == ws[0];
    } else if |ws| > 1 {
      TokensOfJoin(ws[1..], d);
      var rest := [d] + Join(ws[1..], d);
      assert rest[1..] == Join(ws[1..], d);
      FirstToken(ws[0], rest, d);
      assert ws[0] + [d] + Join(ws[1..], d) == ws[0] + rest;
    }
  }

  /** Tokens are never empty and contain no delimiter. */
  lemma {:induction false} TokensAreWords(s: string, d: char)
    ensures Words(Tokens(s, d), d)
    decreases |s|
  {
    if s != [] {
      if s[0] == d {
        TokensAreWords(s[1..], d);
      } else {
        TokensAreWords(s[Span(s, d)..], d);
      }
    }
  }

  /** The `strtok_r` loop: at most `max` tokens. */
  method DecodeParameterValue(s: string, max: nat) returns (ok: bool, argv: seq<string>)
    ensures ok == (|Tokens(s, ' ')| <= max)
    ensures ok ==> argv == Tokens(s, ' ')
  {
    argv := [];
    var rest := s;
    while rest != []
      invariant Tokens(s, ' ') == argv + Tokens(rest, ' ')
      invariant |argv| <= max
      decreases |rest|
    {
      if rest[0] == ' ' {
        rest := rest[1..];
      } else {
        if |argv| >= max {
          return false, [];
        }
        var n := Span(rest, ' ');
        argv := argv + [rest[..n]];
        rest := rest[n..];
      }
    }
    return true, argv;
  }

  /** What is left of a string without its delimiters. */
  function Stripped(s: string, d: char): string {
    if s == [] then [] else (if s[0] == d then [] else [s[0]]) + Stripped(s[1..], d)
  }

  function Glued(ws: seq<string>): string {
    if ws == [] then [] else ws[0] + Glued(ws[1..])
  }

  lemma {:induction false} StrippedSpan(s: string, d: char)
    ensures Stripped(s, d) == s[..Span(s, d)] + Stripped(s[Span(s, d)..], d)
  {
    if s != [] && s[0] != d {
      StrippedSpan(s[1..], d);
      var n := Span(s[1..], d);
      assert s[..n + 1] == [s[0]] + s[1..][..n] && s[n + 1..] == s[1..][n..];
    }
  }

  /** Of every string, however many delimiters stand together, the tokens are all that is not a
      delimiter, in order. */
  lemma {:induction false} TokensKeep(s: string, d: char)
    ensures Glued(Tokens(s, d)) == Stripped(s, d)
    decreases |s|
  {
    if s != [] {
      if s[0] == d {
        TokensKeep(s[1..], d);
      } else {
        var n := Span(s, d);
        StrippedSpan(s, d);
        TokensKeep(s[n..], d);
        assert ([s[..n]] + Tokens(s[n..], d))[1..] == Tokens(s[n..], d);
      }
    }
  }

  // ----- Numbers -----

  predicate IsSpace(c: char) { c == ' ' || '\t' <= c <= '\r' }

  /** The digit a character stands for, 36 if it is none. */
  function DigitOf(c: char): nat {
    if '0' <= c <= '9' then c as int - '0' as int
    else if 'a' <= c <= 'z' then c as int - 'a' as int + 10
    else if 'A' <= c <= 'Z' then c as int - 'A' as int + 10
    else 36
  }

  predicate Numeral(s: string, base: nat) { s != [] && forall i :: 0 <= i < |s| ==> DigitOf(s[i]) < base }

  function NumeralValue(s: string, base: nat): nat {
    if s == [] then 0 else base * NumeralValue(s[..|s| - 1], base) + DigitOf(s[|s| - 1])
  }

  predicate HexPrefix(s: string) { |s| >= 2 && s[0] == '0' && (s[1] == 'x' || s[1] == 'X') }

  function Whole(s: string, base: nat): Option<nat> {
    if Numeral(s, base) then Some(NumeralValue(s, base)) else None
  }

  /** A numeral that is the whole string; base 0 lets a prefix choose the base. */
  function Magnitude(s: string, base: nat): Option<nat> {
    if (base == 0 || base == 16) && HexPrefix(s) then Whole(s[2..], 16)
    else if base == 0 then Whole(s, if s != [] && s[0] == '0' then 8 else 10)
    else Whole(s, base)
  }

  /** Sign and magnitude, if the whole string is read. */
  function Number(s: string, base: nat): Option<(bool, nat)> {
    if s == [] then None
    else if IsSpace(s[0]) then Number(s[1..], base)
    else
      var neg := s[0] == '-';
      match Magnitude(if s[0] == '-' || s[0] == '+' then s[1..] else s, base)
      case None => None
      case Some(m) => Some((neg, m))
  }

  const LONG_LIMIT: nat := 0x8000_0000_0000_0000

  /** A long stored in an int. */
  function ToInt32(v: int): int { (v + 0x8000_0000) % 0x1_0000_0000 - 0x8000_0000 }

  /** The long saturates, the int it is stored in wraps. */
  function IntFrom(neg: bool, m: nat): int {
    ToInt32(if neg then 0 - Min(m, LONG_LIMIT) else Min(m, LONG_LIMIT - 1))
  }

  function UintFrom(neg: bool, m: nat): nat {
    if m >= 2 * LONG_LIMIT then 0xffff_ffff else (if neg then 0 - m else m) % 0x1_0000_0000
  }

  /** The int a string is converted to by `strtol`. */
  function IntOf(s: string, base: nat): Option<int> {
    match Number(s, base)
    case None => None
    case Some((neg, m)) => Some(IntFrom(neg, m))
  }

  /** The unsigned int a string is converted to by `strtoul`. */
  function UintOf(s: string): Option<nat> {
    match Number(s, 0)
    case None => None
    case Some((neg, m)) => Some(UintFrom(neg, m))
  }

  lemma SmallNumbers(n: nat)
    requires n < 0x8000_0000
    ensures IntFrom(false, n) == n && UintFrom(false, n) == n
  {
  }

  lemma {:induction false} DecimalNumeral(s: string)
    requires AllDigits(s)
    ensures s != [] ==> Numeral(s, 10)
    ensures NumeralValue(s, 10) == Value(s)
  {
    assert forall i :: 0 <= i < |s| ==> IsDigit(s[i]);
    if s != [] {
      DecimalNumeral(s[..|s| - 1]);
    }
  }

  /** A string that starts with a digit has neither blanks nor sign in front. */
  lemma DigitFirst(s: string)
    requires s != [] && IsDigit(s[0])
    ensures Number(s, 0) == match Magnitude(s, 0) case None => None case Some(m) => Some((false, m))
  {
  }

  lemma DecimalMagnitude(s: string)
    requires s != [] && AllDigits(s) && (s[0] == '0' ==> s == "0")
    ensures Magnitude(s, 0) == Some(Value(s))
  {
    DecimalNumeral(s);
    assert !HexPrefix(s) by {
      assert |s| >= 2 ==> IsDigit(s[1]);
    }
    if s == "0" {
      assert Numeral(s, 8) && s[..0] == [];
      assert NumeralValue(s[..0], 8) == 0 && NumeralValue(s, 8) == 0;
      assert Value(s[..0]) == 0 && Value(s) == 0;
    }
  }

  lemma DecimalNumber(n: nat)
    ensures Number(Unsigned(n), 0) == Some((false, n))
  {
    var s := Unsigned(n);
    ValueOfUnsigned(n);
    DecimalMagnitude(s);
    DigitFirst(s);
  }

  /** A printed number is read back, although its base is left to be guessed. */
  lemma DecimalReadBack(n: nat)
    requires n < 0x8000_0000
    ensures IntOf(Unsigned(n), 0) == Some(n) && UintOf(Unsigned(n)) == Some(n)
  {
    DecimalNumber(n);
    SmallNumbers(n);
  }

  /** So is a printed number with its sign, over the whole range of an int. */
  lemma SignedReadBack(n: int)
    requires -0x8000_0000 <= n < 0x8000_0000
    ensures IntOf(Signed(n), 0) == Some(n)
  {
    if n < 0 {
      var u := Unsigned(-n);
      DecimalNumber(-n);
      assert ("-" + u)[1..] == u && IsDigit(u[0]);
      assert Number("-" + u, 0) == Some((true, -n));
      assert IntFrom(true, -n) == n;
    } else {
      DecimalReadBack(n);
    }
  }

  lemma UnsignedIsWord(n: nat, d: char)
    requires !IsDigit(d)
    ensures Word(Unsigned(n), d)
  {
    var s := Unsigned(n);
    assert forall i :: 0 <= i < |s| ==> IsDigit(s[i]);
  }

  // ----- MAC addresses -----

  /** An octet as `strtol` in base 16 reads it. */
  function Octet(s: string): Option<nat> {
    match IntOf(s, 16)
    case Some(v) => if 0 <= v < 256 then Some(v) else None
    case None => None
  }

  predicate MacText(s: string) {
    var ts := Tokens(s, ':');
    |ts| == 6 && forall k :: 0 <= k < |ts| ==> Octet(ts[k]).Some?
  }

  function Octets(ts: seq<string>): (r: seq<nat>)
    requires forall k :: 0 <= k < |ts| ==> Octet(ts[k]).Some?
    ensures forall k :: 0 <= k < |r| ==> r[k] < 256
  {
    seq(|ts|, k requires 0 <= k < |ts| => Octet(ts[k]).value)
  }

  /** The number whose octets these are, the first in the low byte. */
  function LittleEndian(os: seq<nat>): nat {
    if os == [] then 0 else os[0] + 256 * LittleEndian(os[1..])
  }

  function Power256(k: nat): (r: nat)
    ensures r > 0
  {
    if k == 0 then 1 else 256 * Power256(k - 1)
  }

  lemma SixOctets()
    ensures Power256(6) == MAC_LIMIT
  {
    assert Power256(2) == 0x1_0000;
    assert Power256(4) == 0x1_0000_0000;
  }

  /** One octet more is one more digit to base 256, above all the others. */
  lemma {:induction false} OneMoreOctet(os: seq<nat>, o: nat)
    requires o < 256 && forall k :: 0 <= k < |os| ==> os[k] < 256
    ensures LittleEndian(os) < Power256(|os|)
    ensures LittleEndian(os + [o]) == LittleEndian(os) + o * Power256(|os|)
  {
    if os == [] {
      assert os + [o] == [o];
    } else {
      assert (os + [o])[1..] == os[1..] + [o];
      OneMoreOctet(os[1..], o);
      Reassociate(o, Power256(|os| - 1));
    }
  }

  lemma Reassociate(o: nat, p: nat)
    ensures o * (256 * p) == 256 * (o * p)
  {
  }

  function MacValue(s: string): nat
    requires MacText(s)
  {
    LittleEndian(Octets(Tokens(s, ':')))
  }

  // The code joins tokens by bits, as long integers of 64 bits, and takes whatever number a
  // token reads as; a token that is not a number ends the address.

  const WORD64: nat := 0x1_0000_0000_0000_0000

  /** Bitwise or. */
  function Or(a: nat, b: nat): nat
    decreases a + b
  {
    if a == 0 then b
    else if b == 0 then a
    else 2 * Or(a / 2, b / 2) + (if a % 2 == 1 || b % 2 == 1 then 1 else 0)
  }

  /** An int shifted to the place of octet `k`, as 64 bits. */
  function Shifted(v: int, k: nat): nat { (v * Power256(k)) % WORD64 }

  /** The tokens from `k` on joined to `acc`; None for a seventh token. */
  function ParseMac(ts: seq<string>, k: nat, acc: nat): Option<nat>
    requires k <= |ts|
    decreases |ts| - k
  {
    if k == |ts| then Some(acc)
    else if k >= 6 then None
    else
      match IntOf(ts[k], 16)
      case None => Some(acc)
      case Some(v) => ParseMac(ts, k + 1, Or(acc, Shifted(v, k)))
  }

  /** The 64 bits `spp_change_mac_str_to_int64` returns, None for its error. */
  function MacBits(s: string): Option<nat> { ParseMac(Tokens(s, ':'), 0, 0) }

  /** The address the callers use: an error and a negative number are refused. */
  function MacNumber(s: string): Option<nat> {
    match MacBits(s)
    case Some(v) => if v < WORD64 / 2 then Some(v) else None
    case None => None
  }

  function Power2(k: nat): (r: nat)
    ensures r > 0
  {
    if k == 0 then 1 else 2 * Power2(k - 1)
  }

  lemma {:induction false} Power2Of8(k: nat)
    ensures Power2(8 * k) == Power256(k)
  {
    if k > 0 {
      Power2Of8(k - 1);
      assert Power2(8 * k) == 2 * Power2(8 * k - 1) == 4 * Power2(8 * k - 2) == 8 * Power2(8 * k - 3);
      assert Power2(8 * k - 3) == 2 * Power2(8 * k - 4) == 4 * Power2(8 * k - 5) == 8 * Power2(8 * k - 6);
      assert Power2(8 * k - 6) == 4 * Power2(8 * k - 8);
    }
  }

  /** Joining bits that stand above all others is adding. */
  lemma {:induction false} OrAbove(a: nat, c: nat, j: nat)
    requires a < Power2(j)
    ensures Or(a, c * Power2(j)) == a + c * Power2(j)
  {
    if j > 0 && a > 0 && c > 0 {
      var b := c * Power2(j - 1);
      assert c * Power2(j) == 2 * b;
      OrAbove(a / 2, c, j - 1);
      assert b > 0;
      assert (2 * b) / 2 == b && (2 * b) % 2 == 0;
    }
  }

  lemma OctetShifted(o: nat, k: nat)
    requires o < 256 && k < 6
    ensures Shifted(o, k) == o * Power256(k)
  {
    PlaceBelow(k);
    ShiftFits(o, Power256(k));
  }

  lemma ShiftFits(o: nat, p: nat)
    requires o < 256 && 256 * p <= MAC_LIMIT
    ensures (o * p) % WORD64 == o * p
  {
    var rest := 255 - o;
    assert o * p + rest * p == 255 * p by {
      assert o + rest == 255;
    }
    assert rest * p >= 0;
    Unwrapped(o * p);
  }

  lemma Unwrapped(x: nat)
    requires x < WORD64
    ensures x % WORD64 == x
  {
  }

  lemma {:induction false} PlaceBelow(k: nat)
    requires k < 6
    ensures 256 * Power256(k) <= MAC_LIMIT
    decreases 6 - k
  {
    if k == 5 {
      SixOctets();
    } else {
      PlaceBelow(k + 1);
    }
  }

  /** On six octets this is the address with the first octet in the low byte. */
  lemma {:induction false} ParseOctets(ts: seq<string>, k: nat)
    requires k <= |ts| == 6 && forall i :: 0 <= i < |ts| ==> Octet(ts[i]).Some?
    ensures ParseMac(ts, k, LittleEndian(Octets(ts)[..k])) == Some(LittleEndian(Octets(ts)))
    decreases |ts| - k
  {
    var os := Octets(ts);
    if k == |ts| {
      assert os[..k] == os;
    } else {
      var o := os[k];
      ParseOctets(ts, k + 1);
      assert os[..k + 1] == os[..k] + [o];
      JoinOctet(os[..k], o);
      assert IntOf(ts[k], 16) == Some(o);
    }
  }

  lemma JoinOctet(os: seq<nat>, o: nat)
    requires |os| < 6 && o < 256 && forall i :: 0 <= i < |os| ==> os[i] < 256
    ensures Or(LittleEndian(os), Shifted(o, |os|)) == LittleEndian(os + [o])
  {
    OneMoreOctet(os, o);
    OctetShifted(o, |os|);
    Power2Of8(|os|);
    OrAbove(LittleEndian(os), o, 8 * |os|);
  }

  lemma MacTextNumber(s: string)
    requires MacText(s)
    ensures MacNumber(s) == Some(MacValue(s)) && MacValue(s) < MAC_LIMIT
  {
    var ts := Tokens(s, ':');
    ParseOctets(ts, 0);
    assert Octets(ts)[..0] == [];
    OneMoreOctet(Octets(ts), 0);
    SixOctets();
  }

  /** The accumulator loop of `spp_change_mac_str_to_int64`. */
  method ChangeMacStrToInt64(mac: string) returns (ret: Option<nat>)
    ensures ret == MacBits(mac)
    ensures MacText(mac) ==> ret == Some(MacValue(mac))
  {
    if MacText(mac) {
      MacTextNumber(mac);
    }
    var ts := Tokens(mac, ':');
    var retMac, tokenCnt := 0, 0;
    while tokenCnt < |ts|
      invariant 0 <= tokenCnt <= |ts|
      invariant MacBits(mac) == ParseMac(ts, tokenCnt, retMac)
    {
      if tokenCnt >= 6 {
        return None;
      }
      var tokenVal := IntOf(ts[tokenCnt], 16);
      if tokenVal == None {
        return Some(retMac);
      }
      retMac := Or(retMac, Shifted(tokenVal.value, tokenCnt));
      tokenCnt := tokenCnt + 1;
    }
    return Some(retMac);
  }

  /** Two hexadecimal digits. */
  function HexDigit(d: nat): char
    requires d < 16
  {
    if d < 10 then ('0' as int + d) as char else ('a' as int + d - 10) as char
  }

  function HexOctet(v: nat): string
    requires v < 256
  {
    [HexDigit(v / 16), HexDigit(v % 16)]
  }

  lemma OctetReadBack(v: nat)
    requires v < 256
    ensures Octet(HexOctet(v)) == Some(v) && Word(HexOctet(v), ':') && Word(HexOctet(v), ' ')
  {
    var s := HexOctet(v);
    assert s[..1] == [s[0]] && s[..1][..0] == [];
    assert NumeralValue(s[..1], 16) == DigitOf(s[0]);
    assert NumeralValue(s, 16) == v;
    assert Magnitude(s, 16) == Some(v);
  }

  /** The texts of the `k` low octets of a number, lowest first. */
  function OctetTexts(m: nat, k: nat): (ts: seq<string>)
    ensures |ts| == k
  {
    if k == 0 then [] else [HexOctet(m % 256)] + OctetTexts(m / 256, k - 1)
  }

  function FormatMac(m: nat): string { Join(OctetTexts(m, 6), ':') }

  lemma {:induction false} OctetTextsRead(m: nat, k: nat)
    requires m < Power256(k)
    ensures Words(OctetTexts(m, k), ':')
    ensures forall i :: 0 <= i < k ==> Octet(OctetTexts(m, k)[i]).Some?
    ensures LittleEndian(Octets(OctetTexts(m, k))) == m
  {
    if k > 0 {
      OctetTextsRead(m / 256, k - 1);
      OctetReadBack(m % 256);
      assert Octets(OctetTexts(m, k))[1..] == Octets(OctetTexts(m / 256, k - 1));
    }
  }

  /** An address of 48 bits is read back from its text. */
  lemma MacReadBack(m: nat)
    requires m < MAC_LIMIT
    ensures MacText(FormatMac(m)) && MacValue(FormatMac(m)) == m && MacNumber(FormatMac(m)) == Some(m)
  {
    SixOctets();
    OctetTextsRead(m, 6);
    TokensOfJoin(OctetTexts(m, 6), ':');
    MacTextNumber(FormatMac(m));
  }
}

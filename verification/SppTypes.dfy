/** Entities shared by the management plane and the data path. */
module SppTypes {

  datatype Option<+T> = None | Some(value: T)

  type Byte = x: int | 0 <= x < 256

  function Min(a: nat, b: nat): nat { if a < b then a else b }

  function Max(a: nat, b: nat): nat { if a < b then b else a }

  /** Interface kinds a port may have; `get_iface_info` knows no others. */
  datatype PortType = Phy | Ring | Vhost

  /** A port, identified as the command text identifies it, for instance `ring:0`. */
  datatype PortIndex = PortIndex(kind: PortType, no: nat)

  datatype RxTx = Rx | Tx

  datatype AbilityOpe = NoOpe | AddVlanTag | DelVlanTag

  /** One entry of a port's ability list.  `rxtx` is meaningless in an empty entry. */
  datatype Ability = Ability(ope: AbilityOpe, rxtx: RxTx, vid: int, pcp: int, tci: int)

  /** Entries in a port's ability list. */
  const ABILITY_MAX: nat := 4

  /** The VID that stands for "untagged". */
  const UNTAGGED_VID: nat := 0x0fff

  const NUM_VLAN_VID: nat := 4096

  /** The MAC address, first octet in the low byte, that marks the default port. */
  const DEFAULT_MAC: nat := 0x0100_0000_0000

  const MAC_LIMIT: nat := 0x1_0000_0000_0000

  const NO_ABILITY := Ability(NoOpe, Rx, 0, 0, 0)

  datatype CompType = Unuse | ClassifierMac | Merge | Forward | Mirror

  ghost predicate NoDups<T>(s: seq<T>) {
    forall i, j :: 0 <= i < j < |s| ==> s[i] != s[j]
  }

  function Below(n: nat): (r: set<nat>)
    ensures |r| == n
    ensures forall x: nat :: x in r <==> x < n
  {
    if n == 0 then {} else Below(n - 1) + {n - 1}
  }

  function Elements<T(==,!new)>(s: seq<T>): (r: set<T>)
    ensures forall x :: x in r <==> x in s
  {
    set x | x in s
  }

  lemma {:induction false} ElementsSize<T(!new)>(s: seq<T>)
    requires NoDups(s)
    ensures |Elements(s)| == |s|
  {
    if s != [] {
      ElementsSize(s[1..]);
      assert s == [s[0]] + s[1..];
      assert Elements(s) == Elements(s[1..]) + {s[0]};
    }
  }

  lemma {:induction false} SubsetSize<T>(a: set<T>, b: set<T>)
    requires a <= b
    ensures |a| <= |b|
  {
    if a != {} {
      var x :| x in a;
      SubsetSize(a - {x}, b - {x});
    }
  }

  /** A list without repetitions that avoids one of the numbers below `n` is shorter than `n`. */
  lemma Pigeonhole(s: seq<nat>, n: nat, avoid: nat)
    requires NoDups(s) && avoid < n
    requires forall i :: 0 <= i < |s| ==> s[i] < n && s[i] != avoid
    ensures |s| < n
  {
    ElementsSize(s);
    SubsetSize(Elements(s), Below(n) - {avoid});
  }
}

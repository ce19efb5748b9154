/**
  How the client picks its interface: bit strings of IPv4 addresses, the common-prefix
  and mask-length loops, and the loop that keeps the longest match.
 */
module Interfaces {
  import opened Segments

  /** An IPv4 address or mask as its four octets in network order. */
  type Address = a: seq<byte> | |a| == 4 witness [0, 0, 0, 0]

  /** The address in host order, as `htonl` yields it. */
  function Value(a: Address): nat {
    a[3] as int + 0x100 * (a[2] as int + 0x100 * (a[1] as int + 0x100 * a[0] as int))
  }

  /** `s_addr` as a little-endian machine reads it. */
  function Raw(a: Address): nat {
    a[0] as int + 0x100 * (a[1] as int + 0x100 * (a[2] as int + 0x100 * a[3] as int))
  }

  /** x >> k. */
  function Shift(x: nat, k: nat): nat { if k == 0 then x else Shift(x / 2, k - 1) }

  /** Bit j of an n-bit number, counted from the most significant: `get_bit` for n = 32. */
  function Bit(x: nat, n: nat, j: nat): (b: nat)
    requires j < n
    ensures b <= 1
  {
    Shift(x, n - 1 - j) % 2
  }

  function AddressBit(a: Address, j: nat): nat
    requires j < 32
  {
    Bit(Value(a), 32, j)
  }

  /** Set bits, as the shift-and-test loop counts them. */
  function Ones(x: nat): nat {
    if x == 0 then 0 else x % 2 + Ones(x / 2)
  }

  /** The first m bits of the mask are set and no others. */
  ghost predicate Contiguous(mask: Address, m: nat) {
    m <= 32 && forall j :: 0 <= j < 32 ==> AddressBit(mask, j) == if j < m then 1 else 0
  }

  /** The bitwise conjunction of an address and a mask, bit by bit. */
  ghost function Subnet(a: Address, mask: Address): seq<nat> {
    seq(32, j requires 0 <= j < 32 => AddressBit(a, j) * AddressBit(mask, j))
  }

  ghost predicate SameSubnet(a: Address, b: Address, mask: Address) {
    Subnet(a, mask) == Subnet(b, mask)
  }

  /** Length of the common prefix. */
  ghost predicate IsPrefixLength(a: Address, b: Address, i: nat) {
    && i <= 32
    && (forall j :: 0 <= j < i ==> AddressBit(a, j) == AddressBit(b, j))
    && (i < 32 ==> AddressBit(a, i) != AddressBit(b, i))
  }

  function PrefixFrom(a: Address, b: Address, i: nat): (r: nat)
    requires i <= 32
    ensures i <= r <= 32
    ensures forall j :: i <= j < r ==> AddressBit(a, j) == AddressBit(b, j)
    ensures r < 32 ==> AddressBit(a, r) != AddressBit(b, r)
    decreases 32 - i
  {
    if i == 32 || AddressBit(a, i) != AddressBit(b, i) then i else PrefixFrom(a, b, i + 1)
  }

  function Prefix(a: Address, b: Address): (r: nat)
    ensures IsPrefixLength(a, b, r)
  {
    PrefixFrom(a, b, 0)
  }

  // ----- the loops

  method GetBitString(a: Address) returns (bits: array<nat>)
    ensures bits.Length == 32 && fresh(bits)
    ensures forall j :: 0 <= j < 32 ==> bits[j] == AddressBit(a, j)
  {
    bits := new nat[32](_ => 0);
    for j := 0 to 32
      invariant forall i :: 0 <= i < j ==> bits[i] == AddressBit(a, i)
    {
      bits[j] := AddressBit(a, j);
    }
  }

  method GetLongest(left: Address, right: Address) returns (i: nat)
    ensures i == Prefix(left, right)
  {
    var bitLeft := GetBitString(left);
    var bitRight := GetBitString(right);
    i := 0;
    while i < 32
      invariant i <= 32 && Prefix(left, right) == PrefixFrom(left, right, i)
    {
      if bitLeft[i] != bitRight[i] { break; }
      i := i + 1;
    }
  }

  method GetNetworkMaskNum(mask: Address) returns (n: nat)
    ensures n == Ones(Raw(mask))
  {
    n := 0;
    var tmp := Raw(mask);
    while tmp != 0
      invariant n + Ones(tmp) == Ones(Raw(mask))
    {
      if tmp % 2 == 1 { n := n + 1; }
      tmp := tmp / 2;
    }
  }

  // ----- byte order does not matter for the count

  /** x << k. */
  function ShiftLeft(x: nat, k: nat): nat { if k == 0 then x else 2 * ShiftLeft(x, k - 1) }

  lemma {:induction false} OnesSplit(lo: nat, hi: nat, k: nat)
    requires Shift(lo, k) == 0
    ensures Ones(lo + ShiftLeft(hi, k)) == Ones(lo) + Ones(hi)
    decreases k
  {
    if k > 0 {
      var x, half := lo + ShiftLeft(hi, k), ShiftLeft(hi, k - 1);
      assert x / 2 == lo / 2 + half && x % 2 == lo % 2;
      OnesSplit(lo / 2, hi, k - 1);
    }
  }

  lemma Octet(lo: nat, hi: nat)
    requires lo < 0x100
    ensures Ones(lo + 0x100 * hi) == Ones(lo) + Ones(hi)
  {
    Shift8(lo);
    ShiftLeft8(hi);
    OnesSplit(lo, hi, 8);
  }

  lemma Shift8(x: nat)
    ensures Shift(x, 8) == x / 0x100
  {
    var y := x / 2 / 2;
    var z := y / 2 / 2;
    var w := z / 2 / 2;
    assert Shift(x, 8) == Shift(x / 2, 7) == Shift(y, 6);
    assert Shift(y, 6) == Shift(y / 2, 5) == Shift(z, 4);
    assert Shift(z, 4) == Shift(z / 2, 3) == Shift(w, 2);
    assert Shift(w, 2) == Shift(w / 2, 1) == Shift(w / 2 / 2, 0);
    assert y == x / 4 && z == x / 16 && w == x / 64;
  }

  lemma ShiftLeft8(x: nat)
    ensures ShiftLeft(x, 8) == 0x100 * x
  {
    assert ShiftLeft(x, 1) == 2 * ShiftLeft(x, 0);
    assert ShiftLeft(x, 4) == 4 * ShiftLeft(x, 2);
    assert ShiftLeft(x, 6) == 4 * ShiftLeft(x, 4);
    assert ShiftLeft(x, 8) == 4 * ShiftLeft(x, 6);
  }

  lemma OnesOfOctets(a: nat, b: nat, c: nat, d: nat)
    requires a < 0x100 && b < 0x100 && c < 0x100
    ensures Ones(a + 0x100 * (b + 0x100 * (c + 0x100 * d))) == Ones(a) + Ones(b) + Ones(c) + Ones(d)
  {
    var y := c + 0x100 * d;
    var z := b + 0x100 * y;
    Octet(a, z);
    Octet(b, y);
    Octet(c, d);
  }

  lemma OnesByteOrder(a: Address)
    ensures Ones(Raw(a)) == Ones(Value(a))
  {
    OnesOfOctets(a[0], a[1], a[2], a[3]);
    OnesOfOctets(a[3], a[2], a[1], a[0]);
  }

  // ----- the mask length

  lemma {:induction false} OnesOfRun(x: nat, n: nat, m: nat)
    requires Shift(x, n) == 0 && m <= n
    requires forall j :: 0 <= j < n ==> Bit(x, n, j) == if j < m then 1 else 0
    ensures Ones(x) == m
    decreases n
  {
    if n > 0 {
      assert Bit(x, n, n - 1) == x % 2;
      var half, k := x / 2, n - 1;
      var m' := if m == n then k else m;
      forall j | 0 <= j < k ensures Bit(half, k, j) == if j < m' then 1 else 0 {
        assert Bit(x, n, j) == Bit(half, k, j);
      }
      OnesOfRun(half, k, m');
    }
  }

  lemma {:induction false} ShiftTwice(x: nat, i: nat, j: nat)
    ensures Shift(x, i + j) == Shift(Shift(x, i), j)
    decreases i
  {
    if i > 0 { ShiftTwice(x / 2, i - 1, j); }
  }

  lemma ValueBelow(a: Address)
    ensures Shift(Value(a), 32) == 0
  {
    var v := Value(a);
    ShiftTwice(v, 8, 24);
    ShiftTwice(v / 0x100, 8, 16);
    ShiftTwice(v / 0x100 / 0x100, 8, 8);
    Shift8(v);
    Shift8(v / 0x100);
    Shift8(v / 0x100 / 0x100);
    Shift8(v / 0x100 / 0x100 / 0x100);
  }

  /** For a contiguous mask the count is the prefix length of the mask. */
  lemma MaskLength(mask: Address, m: nat)
    requires Contiguous(mask, m)
    ensures Ones(Raw(mask)) == m
  {
    OnesByteOrder(mask);
    ValueBelow(mask);
    forall j | 0 <= j < 32 ensures Bit(Value(mask), 32, j) == if j < m then 1 else 0 {
      assert AddressBit(mask, j) == if j < m then 1 else 0;
    }
    OnesOfRun(Value(mask), 32, m);
  }

  /** The client's test: the common prefix is at least as long as the mask. */
  predicate Matches(a: Address, server: Address, mask: Address) { Prefix(a, server) >= Ones(Raw(mask)) }

  /** With a contiguous mask that test says exactly whether both addresses are on one subnet. */
  lemma MatchesIffSameSubnet(a: Address, b: Address, mask: Address, m: nat)
    requires Contiguous(mask, m)
    ensures Matches(a, b, mask) <==> SameSubnet(a, b, mask)
  {
    MaskLength(mask, m);
    var r := Prefix(a, b);
    forall j | 0 <= j < 32
      ensures Subnet(a, mask)[j] == Subnet(b, mask)[j] <==> (j < m ==> AddressBit(a, j) == AddressBit(b, j))
    {
      assert AddressBit(mask, j) == if j < m then 1 else 0;
    }
    if r < m { assert Subnet(a, mask)[r] != Subnet(b, mask)[r]; }
  }

  // ----- the selection loop

  datatype Interface = Interface(inUse: int, address: Address, mask: Address)

  /** Entries up to the first free one. */
  function Live(table: seq<Interface>): (n: nat)
    ensures n <= |table|
    ensures forall k :: 0 <= k < n ==> table[k].inUse > 0
    ensures n < |table| ==> table[n].inUse <= 0
  {
    if table == [] || table[0].inUse <= 0 then 0 else 1 + Live(table[1..])
  }

  /** The length of an interface's match, or -1 when it does not match. */
  function Score(i: Interface, server: Address): int {
    if Matches(i.address, server, i.mask) then Prefix(i.address, server) else -1
  }

  ghost function Scores(table: seq<Interface>, server: Address, n: nat): (r: seq<int>)
    requires n <= |table|
    ensures |r| == n && forall k :: 0 <= k < n ==> r[k] == Score(table[k], server)
  {
    seq(n, k requires 0 <= k < n => Score(table[k], server))
  }

  /** index is the first position of the largest score above -1, and -1 when there is none. */
  ghost predicate FirstMax(scores: seq<int>, index: int, longest: int) {
    && -1 <= index < |scores|
    && (if index == -1 then longest == -1 else longest == scores[index] > -1)
    && (forall k :: 0 <= k < |scores| ==> scores[k] <= longest)
    && (forall k :: 0 <= k < index ==> scores[k] < longest)
  }

  lemma FirstMaxNext(scores: seq<int>, x: int, index: int, longest: int)
    requires FirstMax(scores, index, longest)
    ensures if x > longest then FirstMax(scores + [x], |scores|, x) else FirstMax(scores + [x], index, longest)
  {
  }

  lemma ScoresNext(table: seq<Interface>, server: Address, w: nat, index: int, longest: int)
    requires w < |table| && FirstMax(Scores(table, server, w), index, longest)
    ensures var score := Score(table[w], server);
      if score > longest then FirstMax(Scores(table, server, w + 1), w, score)
      else FirstMax(Scores(table, server, w + 1), index, longest)
  {
    var score := Score(table[w], server);
    FirstMaxNext(Scores(table, server, w), score, index, longest);
    assert Scores(table, server, w + 1) == Scores(table, server, w) + [score];
  }

  lemma LiveIs(table: seq<Interface>, w: nat)
    requires w <= |table| && (w < |table| ==> table[w].inUse <= 0)
    requires forall k :: 0 <= k < w ==> table[k].inUse > 0
    ensures w == Live(table)
  {
  }

  method Select(table: seq<Interface>, server: Address) returns (index: int, longest: int)
    ensures FirstMax(Scores(table, server, Live(table)), index, longest)
  {
    index, longest := -1, -1;
    var w := 0;
    while w < |table|
      invariant w <= |table| && FirstMax(Scores(table, server, w), index, longest)
      invariant forall k :: 0 <= k < w ==> table[k].inUse > 0
    {
      if table[w].inUse > 0 {
        ScoresNext(table, server, w, index, longest);
        var networkMaskNum := GetNetworkMaskNum(table[w].mask);
        var tmpLong := GetLongest(table[w].address, server);
        if tmpLong >= networkMaskNum && tmpLong > longest {
          longest := tmpLong;
          index := w;
        }
      } else {
        break;
      }
      w := w + 1;
    }
    LiveIs(table, w);
  }

  ghost predicate MaskIsContiguous(mask: Address) { exists m: nat :: Contiguous(mask, m) }

  /** In terms of subnets, when every live mask is contiguous. */
  lemma SelectionIsBySubnet(table: seq<Interface>, server: Address, index: int, longest: int)
    requires FirstMax(Scores(table, server, Live(table)), index, longest)
    requires forall k :: 0 <= k < Live(table) ==> MaskIsContiguous(table[k].mask)
    ensures index == -1 <==>
      forall k :: 0 <= k < Live(table) ==> !SameSubnet(table[k].address, server, table[k].mask)
    ensures index != -1 ==>
      && 0 <= index < Live(table) && SameSubnet(table[index].address, server, table[index].mask)
      && forall k :: 0 <= k < Live(table) && SameSubnet(table[k].address, server, table[k].mask) ==>
           && Prefix(table[k].address, server) <= Prefix(table[index].address, server)
           && (k < index ==> Prefix(table[k].address, server) < Prefix(table[index].address, server))
  {
    forall k | 0 <= k < Live(table)
      ensures Matches(table[k].address, server, table[k].mask) <==> SameSubnet(table[k].address, server, table[k].mask)
    {
      assert MaskIsContiguous(table[k].mask);
      var m: nat :| Contiguous(table[k].mask, m);
      MatchesIffSameSubnet(table[k].address, server, table[k].mask, m);
    }
  }

  // ----- the same in terms of octets

  function BitWeight(k: nat): (w: nat)
    requires k < 8
    ensures w >= 1
  {
    [128, 64, 32, 16, 8, 4, 2, 1][k]
  }

  /** Bit k of an octet, counted from the most significant. */
  function OctetBit(x: byte, k: nat): nat
    requires k < 8
  {
    x as int / BitWeight(k) % 2
  }

  lemma {:induction false} ShiftSmall(x: nat, r: nat)
    requires r < 8
    ensures Shift(x, r) == x / BitWeight(7 - r)
  {
    if r == 0 {
      assert BitWeight(7) == 1;
    } else {
      ShiftSmall(x, r - 1);
      ShiftTwice(x, r - 1, 1);
      assert Shift(Shift(x, r - 1), 1) == Shift(Shift(x, r - 1) / 2, 0);
      HalfWeight(x, r);
    }
  }

  lemma HalfWeight(x: nat, r: nat)
    requires 0 < r < 8
    ensures x / BitWeight(8 - r) / 2 == x / BitWeight(7 - r)
  {
  }

  /** Low bits do not depend on what stands above them. */
  lemma {:induction false} ShiftLow(lo: nat, hi: nat, n: nat, r: nat)
    requires r < n
    ensures Shift(lo + ShiftLeft(hi, n), r) % 2 == Shift(lo, r) % 2
    decreases r
  {
    var half := ShiftLeft(hi, n - 1);
    assert ShiftLeft(hi, n) == 2 * half;
    if r > 0 {
      assert (lo + 2 * half) / 2 == lo / 2 + half;
      ShiftLow(lo / 2, hi, n - 1, r - 1);
    }
  }

  /** What is left of the address after dropping the octets behind octet i. */
  lemma UpperOctets(a: Address, i: nat) returns (hi: nat)
    requires i < 4
    ensures Shift(Value(a), 8 * (3 - i)) == a[i] as int + 0x100 * hi
  {
    var v1 := a[0] as int;
    var v2 := a[1] as int + 0x100 * v1;
    var v3 := a[2] as int + 0x100 * v2;
    var v := Value(a);
    assert v == a[3] as int + 0x100 * v3;
    assert v / 0x100 == v3 && v3 / 0x100 == v2 && v2 / 0x100 == v1;
    Shift8(v);
    Shift8(v3);
    Shift8(v2);
    ShiftTwice(v, 8, 8);
    ShiftTwice(v, 8, 16);
    ShiftTwice(v3, 8, 8);
    hi := if i == 0 then 0 else if i == 1 then v1 else if i == 2 then v2 else v3;
  }

  /** Bit 8i + k of an address is bit k of its octet i. */
  lemma BitOfOctet(a: Address, i: nat, k: nat)
    requires i < 4 && k < 8
    ensures AddressBit(a, 8 * i + k) == OctetBit(a[i], k)
  {
    var hi := UpperOctets(a, i);
    ShiftTwice(Value(a), 8 * (3 - i), 7 - k);
    ShiftLeft8(hi);
    ShiftLow(a[i], hi, 8, 7 - k);
    ShiftSmall(a[i], 7 - k);
  }

  lemma OctetFromBits(x: byte)
    ensures x == 128 * OctetBit(x, 0) + 64 * OctetBit(x, 1) + 32 * OctetBit(x, 2) + 16 * OctetBit(x, 3)
               + 8 * OctetBit(x, 4) + 4 * OctetBit(x, 5) + 2 * OctetBit(x, 6) + OctetBit(x, 7)
  {
    var n: nat := x;
    assert n / 1 == n && n / 4 == n / 2 / 2 && n / 8 == n / 4 / 2 && n / 16 == n / 8 / 2;
    assert n / 32 == n / 16 / 2 && n / 64 == n / 32 / 2 && n / 128 == n / 64 / 2 && n / 128 < 2;
  }

  lemma SameBitsSameOctet(x: byte, y: byte)
    requires forall k :: 0 <= k < 8 ==> OctetBit(x, k) == OctetBit(y, k)
    ensures x == y
  {
    OctetFromBits(x);
    OctetFromBits(y);
  }

  /** The common prefix covers i octets exactly when the first i octets agree. */
  lemma PrefixOfOctets(a: Address, b: Address, i: nat)
    requires i <= 4
    ensures Prefix(a, b) >= 8 * i <==> a[..i] == b[..i]
  {
    var r := Prefix(a, b);
    if r >= 8 * i {
      forall n | 0 <= n < i ensures a[n] == b[n] {
        forall k | 0 <= k < 8 ensures OctetBit(a[n], k) == OctetBit(b[n], k) {
          BitOfOctet(a, n, k);
          BitOfOctet(b, n, k);
        }
        SameBitsSameOctet(a[n], b[n]);
      }
    } else {
      var n, k := r / 8, r % 8;
      BitOfOctet(a, n, k);
      BitOfOctet(b, n, k);
      assert a[..i][n] != b[..i][n];
    }
  }

  /** The bitwise conjunction of two numbers. */
  function And(x: nat, y: nat): nat {
    if x == 0 || y == 0 then 0 else (x % 2) * (y % 2) + 2 * And(x / 2, y / 2)
  }

  lemma {:induction false} AndBits(x: nat, y: nat, r: nat)
    ensures Shift(And(x, y), r) % 2 == (Shift(x, r) % 2) * (Shift(y, r) % 2)
    decreases r
  {
    if r > 0 {
      assert And(x, y) / 2 == And(x / 2, y / 2);
      AndBits(x / 2, y / 2, r - 1);
    }
  }

  lemma {:induction false} AndBelow(x: nat, y: nat)
    ensures And(x, y) <= x
  {
    if x != 0 && y != 0 { AndBelow(x / 2, y / 2); }
  }

  function OctetAnd(x: byte, y: byte): byte {
    AndBelow(x, y);
    And(x, y)
  }

  lemma BitOfAnd(x: byte, y: byte, k: nat)
    requires k < 8
    ensures OctetBit(OctetAnd(x, y), k) == OctetBit(x, k) * OctetBit(y, k)
  {
    AndBits(x, y, 7 - k);
    ShiftSmall(x, 7 - k);
    ShiftSmall(y, 7 - k);
    ShiftSmall(OctetAnd(x, y), 7 - k);
  }

  lemma SubnetBit(a: Address, mask: Address, i: nat, k: nat)
    requires i < 4 && k < 8
    ensures Subnet(a, mask)[8 * i + k] == OctetBit(OctetAnd(a[i], mask[i]), k)
  {
    BitOfOctet(a, i, k);
    BitOfOctet(mask, i, k);
    BitOfAnd(a[i], mask[i], k);
  }

  /** Being on one subnet is what `(a & mask) == (b & mask)` says, octet by octet. */
  lemma SubnetByOctets(a: Address, b: Address, mask: Address)
    ensures SameSubnet(a, b, mask) <==>
      forall i :: 0 <= i < 4 ==> OctetAnd(a[i], mask[i]) == OctetAnd(b[i], mask[i])
  {
    if SameSubnet(a, b, mask) {
      forall i | 0 <= i < 4 ensures OctetAnd(a[i], mask[i]) == OctetAnd(b[i], mask[i]) {
        forall k | 0 <= k < 8 ensures OctetBit(OctetAnd(a[i], mask[i]), k) == OctetBit(OctetAnd(b[i], mask[i]), k) {
          SubnetBit(a, mask, i, k);
          SubnetBit(b, mask, i, k);
        }
        SameBitsSameOctet(OctetAnd(a[i], mask[i]), OctetAnd(b[i], mask[i]));
      }
    } else {
      var j :| 0 <= j < 32 && Subnet(a, mask)[j] != Subnet(b, mask)[j];
      assert j == 8 * (j / 8) + j % 8;
      SubnetBit(a, mask, j / 8, j % 8);
      SubnetBit(b, mask, j / 8, j % 8);
    }
  }

  /** How many of the m leading bits fall into octet i. */
  function Share(m: nat, i: nat): (n: nat)
    ensures n <= 8
  {
    if m <= 8 * i then 0 else if m >= 8 * i + 8 then 8 else m - 8 * i
  }

  /** An octet whose n leading bits are set. */
  function LeadingOnes(n: nat): byte
    requires n <= 8
  {
    [0, 128, 192, 224, 240, 248, 252, 254, 255][n]
  }

  lemma BitOfLeadingOnes(n: nat, k: nat)
    requires n <= 8 && k < 8
    ensures OctetBit(LeadingOnes(n), k) == if k < n then 1 else 0
  {
  }

  /** The contiguous mask of length m, in octets: 255s, one partial octet, 0s. */
  lemma ContiguousByOctets(mask: Address, m: nat)
    requires m <= 32
    ensures Contiguous(mask, m) <==> forall i :: 0 <= i < 4 ==> mask[i] == LeadingOnes(Share(m, i))
  {
    forall i, k | 0 <= i < 4 && 0 <= k < 8
      ensures OctetBit(LeadingOnes(Share(m, i)), k) == if 8 * i + k < m then 1 else 0
      ensures AddressBit(mask, 8 * i + k) == OctetBit(mask[i], k)
    {
      BitOfLeadingOnes(Share(m, i), k);
      BitOfOctet(mask, i, k);
    }
    if Contiguous(mask, m) {
      forall i | 0 <= i < 4 ensures mask[i] == LeadingOnes(Share(m, i)) {
        forall k | 0 <= k < 8 ensures OctetBit(mask[i], k) == OctetBit(LeadingOnes(Share(m, i)), k) {
          assert AddressBit(mask, 8 * i + k) == OctetBit(mask[i], k);
        }
        SameBitsSameOctet(mask[i], LeadingOnes(Share(m, i)));
      }
    }
    if forall i :: 0 <= i < 4 ==> mask[i] == LeadingOnes(Share(m, i)) {
      forall j | 0 <= j < 32 ensures AddressBit(mask, j) == if j < m then 1 else 0 {
        assert j == 8 * (j / 8) + j % 8;
        assert AddressBit(mask, 8 * (j / 8) + j % 8) == OctetBit(mask[j / 8], j % 8);
      }
    }
  }

  /** A mask of i octets of 255 and then 0s has length 8i. */
  lemma WholeOctetMask(mask: Address, i: nat)
    requires i <= 4 && forall n :: 0 <= n < 4 ==> mask[n] == if n < i then 255 else 0
    ensures Contiguous(mask, 8 * i)
  {
    ContiguousByOctets(mask, 8 * i);
  }
}

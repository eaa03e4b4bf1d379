/** IPv4 literals: parsing, CIDR ranges and the block list. */
module Ipv4 {
  import opened Wrappers
  import opened Text
  import opened Bits

  /** JavaScript's Number(), of which only its value on decimal digits is used. */
  datatype Js = Js(number: string -> Option<int>)

  ghost predicate Sane(js: Js) { forall s :: IsDecimal(s) ==> js.number(s) == Some(DecimalValue(s)) }

  const WORD: nat := 0x1_0000_0000

  predicate GoodPart(js: Js, p: string) {
    1 <= |p| <= 3 && js.number(p).Some? && 0 <= js.number(p).value <= 255
  }

  function Fold(js: Js, parts: seq<string>): (n: nat)
    requires GoodParts(js, parts)
  {
    if parts == [] then 0
    else
      assert GoodPart(js, parts[|parts| - 1]);
      256 * Fold(js, parts[..|parts| - 1]) + js.number(parts[|parts| - 1]).value
  }

  predicate GoodParts(js: Js, parts: seq<string>) { forall i :: 0 <= i < |parts| ==> GoodPart(js, parts[i]) }

  /** ipv4ToUint32 as a function. */
  function Parse(js: Js, ip: string): Option<nat> {
    var parts := Split(ip, '.');
    if |parts| == 4 && GoodParts(js, parts) then Some(Fold(js, parts)) else None
  }

  /** ipv4ToUint32. */
  method Ipv4ToUint32(js: Js, ip: string) returns (r: Option<nat>)
    ensures r == Parse(js, ip)
    ensures var parts := Split(ip, '.');
      && (r.Some? <==> |parts| == 4 && forall i :: 0 <= i < 4 ==>
            1 <= |parts[i]| <= 3 && js.number(parts[i]).Some? && 0 <= js.number(parts[i]).value <= 255)
      && (r.Some? ==> r.value == 0x100_0000 * js.number(parts[0]).value + 0x1_0000 * js.number(parts[1]).value
                                 + 0x100 * js.number(parts[2]).value + js.number(parts[3]).value)
    ensures r.Some? ==> r.value < WORD
  {
    var parts := Split(ip, '.');
    if |parts| != 4 {
      return None;
    }
    var out := 0;
    for i := 0 to 4
      invariant GoodParts(js, parts[..i]) && out == Fold(js, parts[..i])
      invariant out < [1, 0x100, 0x1_0000, 0x100_0000, WORD][i]
    {
      var p := parts[i];
      if |p| == 0 || |p| > 3 {
        return None;
      }
      var n := js.number(p);
      if n.None? || n.value < 0 || n.value > 255 {
        return None;
      }
      assert parts[..i + 1] == parts[..i] + [p] && parts[..i + 1][..i] == parts[..i];
      out := out * 256 + n.value;
    }
    assert parts[..4] == parts;
    forall i | 0 <= i < 4 ensures GoodPart(js, parts[i]) {
    }
    FoldFour(js, parts[0], parts[1], parts[2], parts[3]);
    assert parts == [parts[0], parts[1], parts[2], parts[3]];
    r := Some(out);
  }

  // ----- ranges ------------------------------------------------------------

  datatype Range = Range(network: nat, prefix: nat)

  const BLOCKED_V4_RANGES: seq<Range> := [
    Range(0, 8),             // 0.0.0.0/8
    Range(0x0A00_0000, 8),   // 10.0.0.0/8
    Range(0x6440_0000, 10),  // 100.64.0.0/10
    Range(0x7F00_0000, 8),   // 127.0.0.0/8
    Range(0xA9FE_0000, 16),  // 169.254.0.0/16
    Range(0xAC10_0000, 12),  // 172.16.0.0/12
    Range(0xC0A8_0000, 16)]  // 192.168.0.0/16

  /** The signed value that JavaScript's & gives back. */
  function ToInt32(x: nat): int { if x < 0x8000_0000 then x else x - WORD }

  function Mask(prefix: nat): nat
    requires 0 < prefix <= 32
  {
    if prefix == 32 then 0xffff_ffff else (0xffff_ffff * Pow2(32 - prefix)) % WORD
  }

  /** v4InRange. */
  predicate InRange(addr: nat, r: Range)
    requires r.prefix <= 32
  {
    r.prefix == 0 || ToInt32(And(addr, Mask(r.prefix))) == ToInt32(And(r.network, Mask(r.prefix)))
  }

  lemma Powers()
    ensures Pow2(8) == 0x100 && Pow2(16) == 0x1_0000 && Pow2(32) == WORD
  {
    assert Pow2(4) == 16;
    assert Pow2(8) == 0x100;
    assert Pow2(12) == 0x1000;
    assert Pow2(16) == 0x1_0000;
    assert Pow2(20) == 0x10_0000;
    assert Pow2(24) == 0x100_0000;
    assert Pow2(28) == 0x1000_0000;
  }

  /** The left shift, cut to 32 bits, sets exactly the prefix. */
  lemma {:induction false} MaskIs(prefix: nat)
    requires 0 < prefix <= 32
    ensures Pow2(32 - prefix) <= WORD && Mask(prefix) == WORD - Pow2(32 - prefix)
  {
    Powers();
    PowMonotone(32 - prefix, 32);
    if prefix < 32 {
      var k := Pow2(32 - prefix);
      PowMonotone(0, 32 - prefix);
      assert 0xffff_ffff * k == WORD * (k - 1) + (WORD - k);
      Quotient(0xffff_ffff * k, WORD, k - 1, WORD - k);
    }
  }

  /** The lowest address of a range. */
  function Base(r: Range): int
    requires r.prefix <= 32
  {
    Floor(r.network, Pow2(32 - r.prefix))
  }

  /** The mask test is membership in the interval of 2^(32 - prefix) addresses
      that starts at the network's base, for every prefix from 0 to 32. */
  lemma InRangeIsInterval(addr: nat, r: Range)
    requires addr < WORD && r.network < WORD && r.prefix <= 32
    ensures InRange(addr, r) <==> Base(r) <= addr < Base(r) + Pow2(32 - r.prefix)
  {
    hide Pow2, Floor;
    var k := Pow2(32 - r.prefix);
    if r.prefix == 0 {
      Powers();
      SameFloor(0, r.network, k);
      SameFloor(r.network, 0, k);
      FloorBelow(0, k);
    } else {
      InRangeIsBlock(addr, r);
      hide InRange;
      SameFloor(addr, r.network, k);
    }
  }

  lemma InRangeIsBlock(addr: nat, r: Range)
    requires addr < WORD && r.network < WORD && 0 < r.prefix <= 32
    ensures var k := Pow2(32 - r.prefix); InRange(addr, r) <==> Floor(addr, k) == Floor(r.network, k)
  {
    hide And, Mask, Pow2, ToInt32, Floor;
    var k := Pow2(32 - r.prefix);
    Powers();
    MaskIs(r.prefix);
    AndHigh(addr, 32, 32 - r.prefix);
    AndHigh(r.network, 32, 32 - r.prefix);
    FloorBelow(addr, k);
    FloorBelow(r.network, k);
    Int32Injective(Floor(addr, k), Floor(r.network, k));
  }

  lemma Int32Injective(x: nat, y: nat)
    requires x < WORD && y < WORD
    ensures ToInt32(x) == ToInt32(y) <==> x == y
  {
  }

  // ----- the block list ----------------------------------------------------

  predicate BlockedValue(n: nat)
  {
    exists i :: 0 <= i < |BLOCKED_V4_RANGES| && InRange(n, BLOCKED_V4_RANGES[i])
  }

  /** isBlockedV4 as a function: what does not parse is not blocked. */
  predicate Blocked(js: Js, ip: string) { Parse(js, ip).Some? && BlockedValue(Parse(js, ip).value) }

  method IsBlockedV4(js: Js, ip: string) returns (blocked: bool)
    ensures blocked == Blocked(js, ip)
  {
    hide InRange, Parse;
    var n := Ipv4ToUint32(js, ip);
    if n.None? {
      return false;
    }
    for i := 0 to |BLOCKED_V4_RANGES|
      invariant forall k :: 0 <= k < i ==> !InRange(n.value, BLOCKED_V4_RANGES[k])
    {
      if InRange(n.value, BLOCKED_V4_RANGES[i]) {
        return true;
      }
    }
    blocked := false;
  }

  /** A dotted quad by its octets. */
  function Quad(a: nat, b: nat, c: nat, d: nat): nat { ((a * 256 + b) * 256 + c) * 256 + d }

  /** The reserved networks, spelt out by octets. */
  predicate Reserved(a: nat, b: nat) {
    a == 0 || a == 10 || a == 127 || (a == 100 && 64 <= b <= 127) || (a == 169 && b == 254)
    || (a == 172 && 16 <= b <= 31) || (a == 192 && b == 168)
  }

  lemma RangeIs(n: nat, i: nat)
    requires n < WORD && i < |BLOCKED_V4_RANGES|
    ensures var bounds := [(0, 0x0100_0000), (0x0A00_0000, 0x0B00_0000), (0x6440_0000, 0x6480_0000), (0x7F00_0000, 0x8000_0000),
                           (0xA9FE_0000, 0xA9FF_0000), (0xAC10_0000, 0xAC20_0000), (0xC0A8_0000, 0xC0A9_0000)];
      InRange(n, BLOCKED_V4_RANGES[i]) <==> bounds[i].0 <= n < bounds[i].1
  {
    hide InRange;
    var r := BLOCKED_V4_RANGES[i];
    InRangeIsInterval(n, r);
    HighPowers();
    assert r == Range(0, 8) || r == Range(0x0A00_0000, 8) || r == Range(0x6440_0000, 10) || r == Range(0x7F00_0000, 8)
        || r == Range(0xA9FE_0000, 16) || r == Range(0xAC10_0000, 12) || r == Range(0xC0A8_0000, 16);
  }

  lemma HighPowers()
    ensures Pow2(24) == 0x100_0000 && Pow2(22) == 0x40_0000 && Pow2(20) == 0x10_0000 && Pow2(16) == 0x1_0000
  {
    assert Pow2(4) == 16;
    assert Pow2(8) == 0x100;
    assert Pow2(12) == 0x1000;
    assert Pow2(16) == 0x1_0000;
    assert Pow2(20) == 0x10_0000;
  }

  /** The mask tests together block exactly the reserved networks. */
  lemma BlocksReserved(a: nat, b: nat, c: nat, d: nat)
    requires a < 256 && b < 256 && c < 256 && d < 256
    ensures BlockedValue(Quad(a, b, c, d)) <==> Reserved(a, b)
  {
    hide InRange;
    var n := Quad(a, b, c, d);
    assert n == a * 0x100_0000 + b * 0x1_0000 + c * 0x100 + d;
    forall i | 0 <= i < |BLOCKED_V4_RANGES| {
      RangeIs(n, i);
    }
    assert BlockedValue(n) <==>
      InRange(n, BLOCKED_V4_RANGES[0]) || InRange(n, BLOCKED_V4_RANGES[1]) || InRange(n, BLOCKED_V4_RANGES[2])
      || InRange(n, BLOCKED_V4_RANGES[3]) || InRange(n, BLOCKED_V4_RANGES[4]) || InRange(n, BLOCKED_V4_RANGES[5])
      || InRange(n, BLOCKED_V4_RANGES[6]);
  }

  // ----- literals ----------------------------------------------------------

  /** One to three digits, up to 255. */
  predicate IsOctet(t: string) { |t| <= 3 && IsDecimal(t) && DecimalValue(t) <= 255 }

  datatype Dotted = Dotted(a: string, b: string, c: string, d: string)

  predicate IsDotted(q: Dotted) { IsOctet(q.a) && IsOctet(q.b) && IsOctet(q.c) && IsOctet(q.d) }

  function DottedText(q: Dotted): string { q.a + "." + q.b + "." + q.c + "." + q.d }

  function DottedValue(q: Dotted): nat
    requires IsDotted(q)
  {
    Quad(DecimalValue(q.a), DecimalValue(q.b), DecimalValue(q.c), DecimalValue(q.d))
  }

  lemma SplitDotted(q: Dotted)
    requires '.' !in q.a && '.' !in q.b && '.' !in q.c && '.' !in q.d
    ensures Split(DottedText(q), '.') == [q.a, q.b, q.c, q.d]
  {
    hide Split;
    var cd := q.c + "." + q.d;
    var bcd := q.b + "." + cd;
    assert DottedText(q) == q.a + "." + bcd;
    SplitFirst(q.a, bcd, '.');
    SplitFirst(q.b, cd, '.');
    SplitFirst(q.c, q.d, '.');
    SplitNone(q.d, '.');
  }

  lemma FoldFour(js: Js, a: string, b: string, c: string, d: string)
    requires GoodPart(js, a) && GoodPart(js, b) && GoodPart(js, c) && GoodPart(js, d)
    ensures GoodParts(js, [a, b, c, d])
    ensures Fold(js, [a, b, c, d])
         == Quad(js.number(a).value, js.number(b).value, js.number(c).value, js.number(d).value)
  {
    var p := [a, b, c, d];
    assert p[..3] == [a, b, c] && [a, b, c][..2] == [a, b] && [a, b][..1] == [a] && [a][..0] == [];
    assert Fold(js, [a]) == js.number(a).value;
    assert Fold(js, [a, b]) == 256 * Fold(js, [a]) + js.number(b).value;
    assert Fold(js, [a, b, c]) == 256 * Fold(js, [a, b]) + js.number(c).value;
  }

  /** Every dotted quad reads as its value, leading zeros or not. */
  lemma ParsesDotted(js: Js, q: Dotted)
    requires Sane(js) && IsDotted(q)
    ensures Parse(js, DottedText(q)) == Some(DottedValue(q)) && DottedValue(q) < WORD
  {
    SplitDotted(q);
    hide Split, DecimalValue;
    var p := [q.a, q.b, q.c, q.d];
    assert GoodPart(js, q.a) && GoodPart(js, q.b) && GoodPart(js, q.c) && GoodPart(js, q.d);
    FoldFour(js, q.a, q.b, q.c, q.d);
  }

  /** A dotted literal is blocked exactly when its octets are reserved. */
  lemma BlockedDotted(js: Js, q: Dotted)
    requires Sane(js) && IsDotted(q)
    ensures Blocked(js, DottedText(q)) <==> Reserved(DecimalValue(q.a), DecimalValue(q.b))
  {
    ParsesDotted(js, q);
    hide Parse, DecimalValue, BlockedValue, Reserved, Sane;
    BlocksReserved(DecimalValue(q.a), DecimalValue(q.b), DecimalValue(q.c), DecimalValue(q.d));
  }
}

/** IPv6 literals: expansion to eight groups, and the block list. */
module Ipv6 {
  import opened Wrappers
  import opened Text
  import opened Bits
  import Ipv4

  // ----- the parser --------------------------------------------------------

  /** Where the first "::" starts. */
  function FindGap(s: string): (at: Option<nat>)
    ensures at.Some? ==> at.value + 2 <= |s|
  {
    if |s| < 2 then None
    else if s[0] == ':' && s[1] == ':' then Some(0)
    else match FindGap(s[1..])
      case None => None
      case Some(i) => Some(i + 1)
  }

  /** One past the last colon, or zero. */
  function AfterLastColon(s: string): (n: nat)
    ensures n <= |s|
  {
    if s == [] || s[|s| - 1] == ':' then |s| else AfterLastColon(s[..|s| - 1])
  }

  /** \d{1,3}\.\d{1,3}\.\d{1,3}\.\d{1,3} */
  predicate LooksDotted(s: string) {
    var parts := Split(s, '.');
    |parts| == 4 && forall i :: 0 <= i < 4 ==> |parts[i]| <= 3 && IsDecimal(parts[i])
  }

  /** ^[0-9a-fA-F]{1,4}$ */
  predicate IsGroup(g: string) { |g| <= 4 && IsHex(g) }

  predicate AllGroups(gs: seq<string>) { forall i :: 0 <= i < |gs| ==> IsGroup(gs[i]) }

  function Values(gs: seq<string>): (vs: seq<nat>)
    requires AllGroups(gs)
    ensures |vs| == |gs|
  {
    if gs == [] then [] else Values(gs[..|gs| - 1]) + [HexValue(gs[|gs| - 1])]
  }

  function Zeros(n: nat): (vs: seq<nat>)
    ensures |vs| == n && forall i :: 0 <= i < n ==> vs[i] == 0
  {
    seq(n, _ => 0)
  }

  function Pieces(s: string): seq<string> { if s == "" then [] else Split(s, ':') }

  function Left(head: string): seq<string> {
    Pieces(if FindGap(head).None? then head else head[..FindGap(head).value])
  }

  function Right(head: string): seq<string> {
    if FindGap(head).None? then [] else Pieces(head[FindGap(head).value + 2..])
  }

  function Assemble(head: string, trailing: seq<nat>): Option<seq<nat>> {
    var left, right := Left(head), Right(head);
    var explicit := |left| + |right| + |trailing|;
    if explicit > 8 || !AllGroups(left) || !AllGroups(right) then None
    else
      var out := Values(left) + Zeros(if FindGap(head).None? then 0 else 8 - explicit) + Values(right) + trailing;
      if |out| == 8 then Some(out) else None
  }

  function High(n: nat): nat { And(ShiftRight(n, 16), 0xffff) }

  function Low(n: nat): nat { And(n, 0xffff) }

  predicate HasTail(ip: string) { AfterLastColon(ip) > 0 && LooksDotted(ip[AfterLastColon(ip)..]) }

  /** What stands before a dotted tail, without its last colon. */
  function HeadBefore(ip: string): string
    requires HasTail(ip)
  {
    var head := ip[..AfterLastColon(ip) - 1];
    if head == "" then "::" else head
  }

  /** ipv6Groups as a function. */
  function Groups(js: Ipv4.Js, ip: string): Option<seq<nat>> {
    if !HasTail(ip) then Assemble(ip, [])
    else match Ipv4.Parse(js, ip[AfterLastColon(ip)..])
      case None => None
      case Some(n) => Assemble(HeadBefore(ip), [High(n), Low(n)])
  }

  method PushGroups(out: seq<nat>, gs: seq<string>) returns (ok: bool, r: seq<nat>)
    ensures ok <==> AllGroups(gs)
    ensures ok ==> r == out + Values(gs)
  {
    r := out;
    for i := 0 to |gs|
      invariant AllGroups(gs[..i]) && r == out + Values(gs[..i])
    {
      if !(|gs[i]| <= 4 && IsHex(gs[i])) {
        assert !IsGroup(gs[i]);
        return false, r;
      }
      assert gs[..i + 1] == gs[..i] + [gs[i]] && gs[..i + 1][..i] == gs[..i];
      r := r + [HexValue(gs[i])];
    }
    assert gs[..|gs|] == gs;
    ok := true;
  }

  /** ipv6Groups. */
  method Ipv6Groups(js: Ipv4.Js, ip: string) returns (r: Option<seq<nat>>)
    ensures r == Groups(js, ip)
  {
    hide FindGap, AfterLastColon, LooksDotted, Split, Pieces, Left, Right, Values, AllGroups, Ipv4.Parse, High, Low;
    var head, trailing := ip, [];
    if HasTail(ip) {
      head := HeadBefore(ip);
      var n := Ipv4.Ipv4ToUint32(js, ip[AfterLastColon(ip)..]);
      if n.None? {
        return None;
      }
      trailing := [High(n.value), Low(n.value)];
    }
    var doubleIdx := FindGap(head);
    var leftRaw, rightRaw := Left(head), Right(head);
    var explicit := |leftRaw| + |rightRaw| + |trailing|;
    if explicit > 8 {
      return None;
    }
    var zeros := if doubleIdx.None? then 0 else 8 - explicit;
    var ok, out := PushGroups([], leftRaw);
    if !ok {
      return None;
    }
    assert out == Values(leftRaw);
    for i := 0 to zeros
      invariant out == Values(leftRaw) + Zeros(i)
    {
      out := out + [0];
      assert Zeros(i) + [0] == Zeros(i + 1);
    }
    ok, out := PushGroups(out, rightRaw);
    if !ok {
      return None;
    }
    for i := 0 to |trailing|
      invariant out == Values(leftRaw) + Zeros(zeros) + Values(rightRaw) + trailing[..i]
    {
      assert trailing[..i + 1] == trailing[..i] + [trailing[i]];
      out := out + [trailing[i]];
    }
    assert trailing[..|trailing|] == trailing;
    r := if |out| == 8 then Some(out) else None;
  }

  // ----- text forms (section 2.2 of RFC 4291) ------------------------------

  /** Groups before and after "::", if there is one, and a dotted tail. */
  datatype Form = Form(left: seq<string>, gap: bool, right: seq<string>, tail: Option<Ipv4.Dotted>)

  function TailGroups(f: Form): nat { if f.tail.Some? then 2 else 0 }

  predicate Legal(f: Form) {
    && AllGroups(f.left) && AllGroups(f.right)
    && (f.tail.Some? ==> Ipv4.IsDotted(f.tail.value))
    && (if f.gap then |f.left| + |f.right| + TailGroups(f) <= 7
        else f.right == [] && |f.left| + TailGroups(f) == 8)
  }

  function HeadText(f: Form): string {
    Join(f.left, ':') + if f.gap then "::" + Join(f.right, ':') else ""
  }

  function TextOf(f: Form): string {
    match f.tail
    case None => HeadText(f)
    case Some(q) => HeadText(f) + (if DottedAfterGap(f) then "" else ":") + Ipv4.DottedText(q)
  }

  /** The dotted tail stands directly after the "::". */
  predicate DottedAfterGap(f: Form) { f.tail.Some? && f.gap && f.right == [] }

  /** The address a form denotes. */
  function Address(f: Form): (gs: seq<nat>)
    requires Legal(f)
    ensures |gs| == 8
  {
    var trailing := if f.tail.Some? then [Ipv4.DottedValue(f.tail.value) / 0x1_0000, Ipv4.DottedValue(f.tail.value) % 0x1_0000] else [];
    Values(f.left) + Zeros(8 - |f.left| - |f.right| - TailGroups(f)) + Values(f.right) + trailing
  }

  // ----- lemmas on texts ---------------------------------------------------

  predicate Solid(parts: seq<string>) { forall i :: 0 <= i < |parts| ==> parts[i] != "" && ':' !in parts[i] }

  predicate Closed(s: string) { s != "" && s[0] != ':' && s[|s| - 1] != ':' && FindGap(s).None? }

  lemma {:induction false} NoGapWithin(a: string)
    requires ':' !in a
    ensures FindGap(a).None?
  {
    if |a| >= 2 {
      NoGapWithin(a[1..]);
    }
  }

  lemma {:induction false} NoGapAcross(a: string, b: string)
    requires ':' !in a && a != "" && Closed(b)
    ensures FindGap(a + ":" + b).None?
    decreases |a|
  {
    var s := a + ":" + b;
    if |a| == 1 {
      assert s[1..] == ":" + b && (":" + b)[1..] == b;
    } else {
      assert s[1..] == a[1..] + ":" + b;
      NoGapAcross(a[1..], b);
    }
  }

  lemma {:induction false} JoinClosed(parts: seq<string>)
    requires parts != [] && Solid(parts)
    ensures Closed(Join(parts, ':'))
    decreases |parts|
  {
    if |parts| == 1 {
      NoGapWithin(parts[0]);
    } else {
      JoinClosed(parts[1..]);
      NoGapAcross(parts[0], Join(parts[1..], ':'));
    }
  }

  lemma {:induction false} GapAfter(a: string, rest: string)
    requires a == "" || Closed(a)
    ensures FindGap(a + "::" + rest) == Some(|a|)
    decreases |a|
  {
    var s := a + "::" + rest;
    if |a| == 1 {
      assert s[1..] == "::" + rest;
    } else if |a| > 1 {
      assert s[1..] == a[1..] + "::" + rest;
      GapFrom(a[1..], rest);
    }
  }

  /** The same for any text without "::" that does not end in a colon. */
  lemma {:induction false} GapFrom(a: string, rest: string)
    requires a != "" && a[|a| - 1] != ':' && FindGap(a).None?
    ensures FindGap(a + "::" + rest) == Some(|a|)
    decreases |a|
  {
    var s := a + "::" + rest;
    if |a| == 1 {
      assert s[1..] == "::" + rest;
    } else {
      assert s[1..] == a[1..] + "::" + rest;
      GapFrom(a[1..], rest);
    }
  }

  lemma GroupsSolid(gs: seq<string>)
    requires AllGroups(gs)
    ensures Solid(gs) && Free(gs, ':') && Free(gs, '.')
  {
    forall i | 0 <= i < |gs| ensures gs[i] != "" && ':' !in gs[i] && '.' !in gs[i] {
      assert IsGroup(gs[i]);
    }
  }

  lemma PiecesJoin(gs: seq<string>)
    requires AllGroups(gs)
    ensures Pieces(Join(gs, ':')) == gs
  {
    GroupsSolid(gs);
    if gs != [] {
      JoinClosed(gs);
      SplitJoin(gs, ':');
    }
  }

  lemma {:induction false} LastColonAt(pre: string, t: string)
    requires pre != "" && pre[|pre| - 1] == ':' && ':' !in t
    ensures AfterLastColon(pre + t) == |pre|
    decreases |t|
  {
    var s := pre + t;
    if t == "" {
      assert s == pre;
    } else {
      assert s[..|s| - 1] == pre + t[..|t| - 1];
      LastColonAt(pre, t[..|t| - 1]);
    }
  }

  lemma {:induction false} JoinWithout(parts: seq<string>, c: char)
    requires Free(parts, c) && c != ':'
    ensures c !in Join(parts, ':')
    decreases |parts|
  {
    if |parts| > 1 {
      JoinWithout(parts[1..], c);
    }
  }

  // ----- expansion ---------------------------------------------------------

  /** A head made of groups, with or without "::", assembles to its values. */
  lemma AssemblesHead(f: Form, trailing: seq<nat>)
    requires AllGroups(f.left) && AllGroups(f.right) && |trailing| <= 2
    requires if f.gap then |f.left| + |f.right| + |trailing| <= 7 else f.right == [] && |f.left| + |trailing| == 8
    ensures Assemble(HeadText(f), trailing)
      == Some(Values(f.left) + Zeros(8 - |f.left| - |f.right| - |trailing|) + Values(f.right) + trailing)
  {
    PartsOfHead(f);
    hide HeadText, Left, Right, FindGap, Values;
  }

  lemma PartsOfHead(f: Form)
    requires AllGroups(f.left) && AllGroups(f.right)
    requires f.gap || (f.right == [] && f.left != [])
    ensures FindGap(HeadText(f)).Some? == f.gap && Left(HeadText(f)) == f.left && Right(HeadText(f)) == f.right
  {
    GroupsSolid(f.left);
    PiecesJoin(f.left);
    PiecesJoin(f.right);
    var a, b := Join(f.left, ':'), Join(f.right, ':');
    if f.left != [] {
      JoinClosed(f.left);
    } else {
      JoinNone();
    }
    hide Pieces, Join, AllGroups, Solid;
    if f.gap {
      GapAfter(a, b);
      var head := a + ("::" + b);
      assert HeadText(f) == head && a + "::" + b == head;
      assert head[..|a|] == a && head[|a| + 2..] == b;
    } else {
      assert HeadText(f) == a;
    }
  }

  lemma DottedWithoutColon(q: Ipv4.Dotted)
    requires Ipv4.IsDotted(q)
    ensures ':' !in Ipv4.DottedText(q) && LooksDotted(Ipv4.DottedText(q))
    ensures '.' !in q.a && '.' !in q.b && '.' !in q.c && '.' !in q.d
  {
    Ipv4.SplitDotted(q);
    hide Split;
  }

  /** A text with a dotted tail, taken apart. */
  lemma TakesTail(pre: string, q: Ipv4.Dotted)
    requires |pre| > 1 && pre[|pre| - 1] == ':' && Ipv4.IsDotted(q)
    ensures var ip := pre + Ipv4.DottedText(q);
      HasTail(ip) && ip[AfterLastColon(ip)..] == Ipv4.DottedText(q) && HeadBefore(ip) == pre[..|pre| - 1]
  {
    DottedWithoutColon(q);
    LastColonAt(pre, Ipv4.DottedText(q));
    hide LooksDotted, AfterLastColon, Ipv4.DottedText;
    var ip := pre + Ipv4.DottedText(q);
    assert ip[|pre|..] == Ipv4.DottedText(q) && ip[..|pre| - 1] == pre[..|pre| - 1];
  }

  lemma HalvesOf(n: nat)
    requires n < Ipv4.WORD
    ensures High(n) == n / 0x1_0000 && Low(n) == n % 0x1_0000 && High(n) < 0x1_0000
  {
    hide And;
    Ipv4.Powers();
    hide Pow2;
    hide ShiftRight;
    ShiftDivides(n, 16);
    AndLow(ShiftRight(n, 16), 16);
    AndLow(n, 16);
  }

  lemma NoTail(f: Form)
    requires Legal(f) && f.tail.None?
    ensures !HasTail(TextOf(f))
  {
    GroupsSolid(f.left);
    GroupsSolid(f.right);
    JoinWithout(f.left, '.');
    JoinWithout(f.right, '.');
    var s := TextOf(f);
    assert '.' !in s;
    var t := s[AfterLastColon(s)..];
    assert '.' !in t;
    SplitNone(t, '.');
  }

  /** Every legal spelling of an address, with "::" anywhere, leading zeros,
      either letter case, and a dotted tail that is not directly after "::",
      expands to the address. A dotted tail directly after "::" is not read. */
  lemma ExpandsToAddress(js: Ipv4.Js, f: Form)
    requires Ipv4.Sane(js) && Legal(f)
    ensures Groups(js, TextOf(f)) == if DottedAfterGap(f) then None else Some(Address(f))
  {
    match f.tail
    case None =>
      NoTail(f);
      AssemblesHead(f, []);
    case Some(q) =>
      if DottedAfterGap(f) {
        GapBeforeTail(js, f, q);
      } else {
        HeadNotEmpty(f);
        ReadsTail(js, f, q);
      }
  }

  lemma HeadNotEmpty(f: Form)
    requires Legal(f) && f.tail.Some?
    ensures HeadText(f) != ""
  {
    GroupsSolid(f.left);
    if !f.gap {
      JoinClosed(f.left);
    }
  }

  lemma ReadsTail(js: Ipv4.Js, f: Form, q: Ipv4.Dotted)
    requires Ipv4.Sane(js) && Legal(f) && f.tail == Some(q) && !DottedAfterGap(f) && HeadText(f) != ""
    ensures Groups(js, TextOf(f)) == Some(Address(f))
  {
    hide Assemble, HeadText, HasTail, AfterLastColon, HeadBefore, Ipv4.DottedText, Ipv4.DottedValue, Ipv4.Parse, Ipv4.IsDotted,
         Ipv4.Sane, High, Low, Values;
    var pre := HeadText(f) + ":";
    TakesTail(pre, q);
    Ipv4.ParsesDotted(js, q);
    var n := Ipv4.DottedValue(q);
    HalvesOf(n);
    AssemblesHead(f, [High(n), Low(n)]);
    assert pre[..|pre| - 1] == HeadText(f);
    assert TextOf(f) == pre + Ipv4.DottedText(q);
  }

  /** What is left of the head ends in a single colon, so its last piece is
      empty and no group. */
  lemma GapBeforeTail(js: Ipv4.Js, f: Form, q: Ipv4.Dotted)
    requires Ipv4.Sane(js) && Legal(f) && f.tail == Some(q) && DottedAfterGap(f)
    ensures Groups(js, TextOf(f)) == None
  {
    hide Assemble, HasTail, AfterLastColon, HeadBefore, HeadText, TextOf, Ipv4.DottedText, Ipv4.Parse, Join, Ipv4.Sane, Ipv4.IsDotted;
    var a := Join(f.left, ':');
    var pre := a + "::";
    TextWithTail(f, q);
    TakesTail(pre, q);
    assert pre[..|pre| - 1] == a + ":";
    forall trailing ensures Assemble(a + ":", trailing) == None {
      NotAssembled(f.left, trailing);
    }
  }

  lemma TextWithTail(f: Form, q: Ipv4.Dotted)
    requires f.tail == Some(q) && DottedAfterGap(f)
    ensures TextOf(f) == (Join(f.left, ':') + "::") + Ipv4.DottedText(q)
  {
    JoinNone();
    hide Ipv4.DottedText, Join;
    assert HeadText(f) == Join(f.left, ':') + "::";
  }

  lemma JoinNone()
    ensures Join([], ':') == ""
  {
  }

  lemma TrailingColon(gs: seq<string>)
    requires AllGroups(gs)
    ensures FindGap(Join(gs, ':') + ":").None?
    ensures exists parts :: Left(Join(gs, ':') + ":") == parts + [""]
  {
    GroupsSolid(gs);
    var a := Join(gs, ':');
    var lead := if gs == [] then [""] else gs;
    if gs != [] {
      JoinClosed(gs);
      NoGapAtEnd(a);
    }
    JoinEmpty(lead);
    assert Join(lead, ':') == a;
    assert Free(lead + [""], ':');
    SplitJoin(lead + [""], ':');
    assert Left(a + ":") == lead + [""];
  }

  lemma {:induction false} NoGapAtEnd(a: string)
    requires a != "" && a[|a| - 1] != ':' && FindGap(a).None?
    ensures FindGap(a + ":").None?
    decreases |a|
  {
    if |a| > 1 {
      assert (a + ":")[1..] == a[1..] + ":";
      NoGapAtEnd(a[1..]);
    }
  }

  lemma {:induction false} JoinEmpty(parts: seq<string>)
    requires parts != []
    ensures Join(parts + [""], ':') == Join(parts, ':') + ":"
    decreases |parts|
  {
    var all := parts + [""];
    if |parts| == 1 {
      assert all[1..] == [""];
    } else {
      assert all[1..] == parts[1..] + [""];
      JoinEmpty(parts[1..]);
      assert Join(all, ':') == parts[0] + ":" + (Join(parts[1..], ':') + ":");
    }
  }

  lemma NotAssembled(gs: seq<string>, trailing: seq<nat>)
    requires AllGroups(gs)
    ensures Assemble(Join(gs, ':') + ":", trailing) == None
  {
    TrailingColon(gs);
    var left := Left(Join(gs, ':') + ":");
    var parts :| left == parts + [""];
    assert !IsGroup(left[|parts|]);
  }

  // ----- the block list ----------------------------------------------------

  predicate AllZero(gs: seq<nat>) { forall i :: 0 <= i < |gs| ==> gs[i] == 0 }

  /** The branch chain of isBlockedV6 on eight groups. */
  predicate BlockedGroups(js: Ipv4.Js, g: seq<nat>)
    requires |g| == 8
  {
    if AllZero(g) then true
    else if AllZero(g[..7]) && g[7] == 1 then true
    else if And(g[0], 0xffc0) == 0xfe80 then true
    else if And(g[0], 0xfe00) == 0xfc00 then true
    else if AllZero(g[..5]) && g[5] == 0xffff then
      var v4 := Or((g[6] * 0x1_0000) % Ipv4.WORD, g[7]);
      Ipv4.Blocked(js, Decimal(And(ShiftRight(v4, 24), 0xff)) + "." + Decimal(And(ShiftRight(v4, 16), 0xff)) + "."
                       + Decimal(And(ShiftRight(v4, 8), 0xff)) + "." + Decimal(And(v4, 0xff)))
    else false
  }

  /** ^::ffff:(dotted)$, in either case. */
  predicate IsMapped(s: string) {
    |s| > 7 && s[..2] == "::" && (forall i :: 2 <= i < 6 ==> s[i] == 'f' || s[i] == 'F') && s[6] == ':' && LooksDotted(s[7..])
  }

  /** isBlockedV6. */
  predicate IsBlockedV6(js: Ipv4.Js, ip: string) {
    var stripped := Split(ip, '%')[0];
    if IsMapped(stripped) then Ipv4.Blocked(js, stripped[7..])
    else
      var groups := Groups(js, stripped);
      groups.Some? && |groups.value| == 8 && BlockedGroups(js, groups.value)
  }

  /** The 128-bit address. */
  function Number(g: seq<nat>): nat
    requires |g| == 8
  {
    ((((((g[0] * 0x1_0000 + g[1]) * 0x1_0000 + g[2]) * 0x1_0000 + g[3]) * 0x1_0000 + g[4]) * 0x1_0000 + g[5]) * 0x1_0000 + g[6])
      * 0x1_0000 + g[7]
  }

  const TOP: nat := 0x1_0000_0000_0000_0000_0000_0000_0000   // one unit of the first group

  /** Unspecified, loopback, fe80::/10, fc00::/7, or an IPv4-mapped address whose
      IPv4 part is reserved, as intervals of addresses. */
  predicate BlockedNumber(n: nat) {
    || n == 0 || n == 1
    || 0xfe80 * TOP <= n < 0xfec0 * TOP
    || 0xfc00 * TOP <= n < 0xfe00 * TOP
    || (0xffff_0000_0000 <= n < 0x1_0000_0000_0000 && Ipv4.Reserved(n / 0x100_0000 % 0x100, n / 0x1_0000 % 0x100))
  }

  predicate Words(g: seq<nat>) { forall i :: 0 <= i < |g| ==> g[i] < 0x1_0000 }

  lemma MasksOfFirst(x: nat)
    requires x < 0x1_0000
    ensures And(x, 0xffc0) == 0xfe80 <==> 0xfe80 <= x < 0xfec0
    ensures And(x, 0xfe00) == 0xfc00 <==> 0xfc00 <= x < 0xfe00
  {
    hide And;
    Ipv4.Powers();
    assert Pow2(6) == 64 && Pow2(9) == 512;
    hide Pow2;
    AndHigh(x, 16, 6);
    AndHigh(x, 16, 9);
  }

  lemma DecimalShort(n: nat)
    requires n < 256
    ensures Ipv4.IsOctet(Decimal(n)) && DecimalValue(Decimal(n)) == n
  {
    DecimalReadsBack(n);
    assert |Decimal(n / 10 / 10)| == 1;
    assert |Decimal(n / 10)| <= 2;
  }

  /** The embedded IPv4 address, put together, taken apart and printed. */
  lemma EmbeddedIs(js: Ipv4.Js, g6: nat, g7: nat)
    requires Ipv4.Sane(js) && g6 < 0x1_0000 && g7 < 0x1_0000
    ensures var v4 := Or((g6 * 0x1_0000) % Ipv4.WORD, g7);
      Ipv4.Blocked(js, Decimal(And(ShiftRight(v4, 24), 0xff)) + "." + Decimal(And(ShiftRight(v4, 16), 0xff)) + "."
                       + Decimal(And(ShiftRight(v4, 8), 0xff)) + "." + Decimal(And(v4, 0xff)))
      <==> Ipv4.Reserved(g6 / 0x100, g6 % 0x100)
  {
    OctetsOf(g6, g7);
    hide And, Or, ShiftRight, Decimal, DecimalValue, Ipv4.Blocked, Ipv4.Reserved, Ipv4.Sane;
    var v4 := Or((g6 * 0x1_0000) % Ipv4.WORD, g7);
    var a, b := And(ShiftRight(v4, 24), 0xff), And(ShiftRight(v4, 16), 0xff);
    var c, d := And(ShiftRight(v4, 8), 0xff), And(v4, 0xff);
    DecimalShort(a);
    DecimalShort(b);
    DecimalShort(c);
    DecimalShort(d);
    Ipv4.BlockedDotted(js, Ipv4.Dotted(Decimal(a), Decimal(b), Decimal(c), Decimal(d)));
  }

  lemma OctetsOf(g6: nat, g7: nat)
    requires g6 < 0x1_0000 && g7 < 0x1_0000
    ensures var v4 := Or((g6 * 0x1_0000) % Ipv4.WORD, g7);
      && And(ShiftRight(v4, 24), 0xff) == g6 / 0x100 && And(ShiftRight(v4, 16), 0xff) == g6 % 0x100
      && And(ShiftRight(v4, 8), 0xff) < 0x100 && And(v4, 0xff) < 0x100
  {
    hide And, Or, ShiftRight;
    JoinsHalves(g6, g7);
    var v4 := g6 * 0x1_0000 + g7;
    ByteShifts(v4);
    LowByte(v4 / 0x100_0000);
    LowByte(v4 / 0x1_0000);
    LowByte(v4 / 0x100);
    LowByte(v4);
    assert v4 / 0x100_0000 == g6 / 0x100 && v4 / 0x1_0000 == g6;
  }

  lemma JoinsHalves(g6: nat, g7: nat)
    requires g6 < 0x1_0000 && g7 < 0x1_0000
    ensures Or((g6 * 0x1_0000) % Ipv4.WORD, g7) == g6 * 0x1_0000 + g7
  {
    hide Or;
    Ipv4.Powers();
    OrAdds(g6, g7, 16);
  }

  lemma ByteShifts(x: nat)
    ensures ShiftRight(x, 24) == x / 0x100_0000 && ShiftRight(x, 16) == x / 0x1_0000 && ShiftRight(x, 8) == x / 0x100
  {
    hide ShiftRight;
    Ipv4.Powers();
    Ipv4.HighPowers();
    hide Pow2;
    ShiftDivides(x, 24);
    ShiftDivides(x, 16);
    ShiftDivides(x, 8);
  }

  lemma LowByte(x: nat)
    ensures And(x, 0xff) == x % 0x100
  {
    hide And;
    Ipv4.Powers();
    AndLow(x, 8);
  }

  /** The branch chain is the interval specification. */
  lemma ChainIsIntervals(js: Ipv4.Js, g: seq<nat>)
    requires Ipv4.Sane(js) && |g| == 8 && Words(g)
    ensures BlockedGroups(js, g) <==> BlockedNumber(Number(g))
  {
    MasksOfFirst(g[0]);
    EmbeddedIs(js, g[6], g[7]);
    hide And, Or, Ipv4.Blocked, Decimal, ShiftRight, Ipv4.Reserved, Ipv4.Sane;
    SmallNumbers(g);
  }

  lemma SmallNumbers(g: seq<nat>)
    requires |g| == 8 && Words(g)
    ensures Number(g) == 0 <==> AllZero(g)
    ensures Number(g) == 1 <==> AllZero(g[..7]) && g[7] == 1
    ensures g[0] * TOP <= Number(g) < (g[0] + 1) * TOP
    ensures 0xffff_0000_0000 <= Number(g) < 0x1_0000_0000_0000 <==> AllZero(g[..5]) && g[5] == 0xffff
    ensures AllZero(g[..5]) && g[5] == 0xffff ==>
      Number(g) / 0x100_0000 % 0x100 == g[6] / 0x100 && Number(g) / 0x1_0000 % 0x100 == g[6] % 0x100
  {
    assert AllZero(g) <==> g[0] == 0 && g[1] == 0 && g[2] == 0 && g[3] == 0 && g[4] == 0 && g[5] == 0 && g[6] == 0 && g[7] == 0;
    assert AllZero(g[..7]) <==> g[0] == 0 && g[1] == 0 && g[2] == 0 && g[3] == 0 && g[4] == 0 && g[5] == 0 && g[6] == 0;
    assert AllZero(g[..5]) <==> g[0] == 0 && g[1] == 0 && g[2] == 0 && g[3] == 0 && g[4] == 0;
    hide AllZero;
    SumOfWords(g[0], g[1], g[2], g[3], g[4], g[5], g[6], g[7]);
  }

  /** The same for eight separate words: an address is small when its leading
      words are zero. */
  lemma SumOfWords(a: nat, b: nat, c: nat, d: nat, e: nat, f: nat, g: nat, h: nat)
    requires a < 0x1_0000 && b < 0x1_0000 && c < 0x1_0000 && d < 0x1_0000
    requires e < 0x1_0000 && f < 0x1_0000 && g < 0x1_0000 && h < 0x1_0000
    ensures var n := Number([a, b, c, d, e, f, g, h]);
      && (n == 0 <==> a == 0 && b == 0 && c == 0 && d == 0 && e == 0 && f == 0 && g == 0 && h == 0)
      && (n == 1 <==> a == 0 && b == 0 && c == 0 && d == 0 && e == 0 && f == 0 && g == 0 && h == 1)
      && a * TOP <= n < (a + 1) * TOP
      && (0xffff_0000_0000 <= n < 0x1_0000_0000_0000 <==> a == 0 && b == 0 && c == 0 && d == 0 && e == 0 && f == 0xffff)
      && (a == 0 && b == 0 && c == 0 && d == 0 && e == 0 && f == 0xffff ==>
            n / 0x100_0000 % 0x100 == g / 0x100 && n / 0x1_0000 % 0x100 == g % 0x100)
  {
  }

  // ----- the two paths agree, and spelling does not matter ------------------

  /** A mapped literal also expands, to the mapped address. */
  lemma MappedExpands(js: Ipv4.Js, ip: string)
    requires IsMapped(ip)
    ensures Groups(js, ip) == match Ipv4.Parse(js, ip[7..])
                              case None => None
                              case Some(n) => Some([0, 0, 0, 0, 0, 0xffff, High(n), Low(n)])
  {
    var t := ip[7..];
    var gap := Form([], true, [ip[2..6]], None);
    assert ip[..7] + t == ip;
    NoColonInDotted(t);
    LastColonAt(ip[..7], t);
    assert HasTail(ip);
    assert IsGroup(ip[2..6]) && HexValue(ip[2..6]) == 0xffff by { FourF(ip[2..6]); }
    assert ip[..6] == "::" + ip[2..6];
    assert HeadText(gap) == ip[..6];
    assert HeadBefore(ip) == ip[..6];
    hide LooksDotted, AfterLastColon, HexValue, Ipv4.Parse, High, Low, HeadText, Assemble;
    assert Values([ip[2..6]]) == [0xffff] by { assert [ip[2..6]][..0] == []; }
    forall hi: nat, lo: nat ensures Assemble(ip[..6], [hi, lo]) == Some([0, 0, 0, 0, 0, 0xffff, hi, lo]) {
      AssemblesHead(gap, [hi, lo]);
      assert Values([]) == [];
      assert Values([]) + Zeros(5) + [0xffff] + [hi, lo] == [0, 0, 0, 0, 0, 0xffff, hi, lo];
    }
  }

  lemma FourF(s: string)
    requires |s| == 4 && forall i :: 0 <= i < 4 ==> s[i] == 'f' || s[i] == 'F'
    ensures IsGroup(s) && HexValue(s) == 0xffff
  {
    assert HexValue(s[..1]) == 15;
    assert s[..2][..1] == s[..1] && s[..3][..2] == s[..2];
    assert HexValue(s[..2]) == 0xff;
    assert HexValue(s[..3]) == 0xfff;
  }

  lemma {:induction false} SplitKeepsColon(s: string, i: nat)
    requires i < |s| && s[i] == ':'
    ensures exists k | 0 <= k < |Split(s, '.')| :: ':' in Split(s, '.')[k]
    decreases |s|
  {
    var rest := Split(s[1..], '.');
    var parts := Split(s, '.');
    if i == 0 {
      assert parts[0][0] == ':';
    } else {
      SplitKeepsColon(s[1..], i - 1);
      var k :| 0 <= k < |rest| && ':' in rest[k];
      if s[0] == '.' {
        assert parts[k + 1] == rest[k];
      } else if k == 0 {
        assert parts[0] == [s[0]] + rest[0];
        var j :| 0 <= j < |rest[0]| && rest[0][j] == ':';
        assert parts[0][j + 1] == ':';
      } else {
        assert parts[k] == rest[k];
      }
    }
  }

  lemma NoColonInDotted(t: string)
    requires LooksDotted(t)
    ensures ':' !in t
  {
    if ':' in t {
      var i :| 0 <= i < |t| && t[i] == ':';
      SplitKeepsColon(t, i);
      assert false;
    }
  }

  lemma ParseBounded(js: Ipv4.Js, ip: string)
    ensures Ipv4.Parse(js, ip).Some? ==> Ipv4.Parse(js, ip).value < Ipv4.WORD
  {
    var p := Split(ip, '.');
    if |p| == 4 && Ipv4.GoodParts(js, p) {
      assert p == [p[0], p[1], p[2], p[3]];
      assert Ipv4.GoodPart(js, p[0]) && Ipv4.GoodPart(js, p[1]) && Ipv4.GoodPart(js, p[2]) && Ipv4.GoodPart(js, p[3]);
      hide Split;
      Ipv4.FoldFour(js, p[0], p[1], p[2], p[3]);
    }
  }

  /** For every literal that the regular expression sends down the IPv4 path, the
      group path gives the same answer. */
  lemma PathsAgree(js: Ipv4.Js, ip: string)
    requires Ipv4.Sane(js) && IsMapped(ip)
    ensures Ipv4.Blocked(js, ip[7..])
      <==> Groups(js, ip).Some? && |Groups(js, ip).value| == 8 && BlockedGroups(js, Groups(js, ip).value)
  {
    assert |ip| > 7;
    hide IsMapped, Groups, Ipv4.Parse, Ipv4.Sane, High, Low, BlockedGroups, Ipv4.BlockedValue, Number, BlockedNumber;
    MappedExpands(js, ip);
    ParseBounded(js, ip[7..]);
    var v := Ipv4.Parse(js, ip[7..]);
    if v.Some? {
      MappedBlocked(js, v.value);
    }
  }

  /** The group path on a mapped address is the IPv4 block list. */
  lemma MappedBlocked(js: Ipv4.Js, n: nat)
    requires Ipv4.Sane(js) && n < Ipv4.WORD
    ensures BlockedGroups(js, [0, 0, 0, 0, 0, 0xffff, High(n), Low(n)]) <==> Ipv4.BlockedValue(n)
  {
    hide Ipv4.Sane, High, Low, BlockedGroups, Ipv4.BlockedValue, Number, BlockedNumber;
    HalvesOf(n);
    var g := [0, 0, 0, 0, 0, 0xffff, High(n), Low(n)];
    MappedNumber(n, g);
    ChainIsIntervals(js, g);
  }

  lemma MappedNumber(n: nat, g: seq<nat>)
    requires n < Ipv4.WORD && g == [0, 0, 0, 0, 0, 0xffff, n / 0x1_0000, n % 0x1_0000]
    ensures Words(g) && (BlockedNumber(Number(g)) <==> Ipv4.BlockedValue(n))
  {
    hide Ipv4.BlockedValue, Ipv4.Reserved, Ipv4.Quad, Number, AllZero;
    OctetsOfWord(n);
    Ipv4.BlocksReserved(n / 0x1_0000 / 0x100, n / 0x1_0000 % 0x100, n / 0x100 % 0x100, n % 0x100);
    MappedZeros(g);
    SmallNumbers(g);
  }

  lemma OctetsOfWord(n: nat)
    requires n < Ipv4.WORD
    ensures n / 0x1_0000 / 0x100 < 0x100
    ensures n == Ipv4.Quad(n / 0x1_0000 / 0x100, n / 0x1_0000 % 0x100, n / 0x100 % 0x100, n % 0x100)
  {
  }

  lemma MappedZeros(g: seq<nat>)
    requires |g| == 8 && forall i :: 0 <= i < 5 ==> g[i] == 0
    ensures AllZero(g[..5])
  {
  }

  lemma GroupsBounded(f: Form)
    requires Legal(f)
    ensures Words(Address(f))
  {
    ValuesBounded(f.left);
    ValuesBounded(f.right);
    if f.tail.Some? {
      assert Ipv4.DottedValue(f.tail.value) < Ipv4.WORD;
    }
    hide Values, Ipv4.DottedValue;
  }

  lemma {:induction false} ValuesBounded(gs: seq<string>)
    requires AllGroups(gs)
    ensures Words(Values(gs))
  {
    if gs != [] {
      assert IsGroup(gs[|gs| - 1]);
      HexBounded(gs[|gs| - 1]);
      ValuesBounded(gs[..|gs| - 1]);
    }
  }

  lemma HexBounded(s: string)
    requires IsGroup(s)
    ensures HexValue(s) < 0x1_0000
  {
    assert |s| >= 2 ==> |s[..|s| - 1]| == |s| - 1;
    if |s| >= 2 {
      var t := s[..|s| - 1];
      assert |t| >= 2 ==> HexValue(t[..|t| - 1]) < 0x100;
    }
  }

  /** A zone suffix is cut off and changes nothing. */
  lemma WithoutZone(s: string, zone: string)
    requires '%' !in s
    ensures Split(s, '%')[0] == s && Split(s + "%" + zone, '%')[0] == s
  {
    SplitNone(s, '%');
    SplitFirst(s, zone, '%');
  }

  lemma NoPercent(f: Form)
    requires Legal(f)
    ensures '%' !in TextOf(f)
  {
    forall i | 0 <= i < |f.left| ensures '%' !in f.left[i] {
      assert IsGroup(f.left[i]);
    }
    forall i | 0 <= i < |f.right| ensures '%' !in f.right[i] {
      assert IsGroup(f.right[i]);
    }
    JoinWithout(f.left, '%');
    JoinWithout(f.right, '%');
  }

  /** Classification does not depend on the spelling: with or without a zone, a
      legal text is blocked exactly when its address lies in one of the blocked
      intervals, unless a dotted tail stands directly after "::"; then it is
      never blocked. */
  lemma BlockedIffAddress(js: Ipv4.Js, f: Form, zone: string)
    requires Ipv4.Sane(js) && Legal(f)
    ensures IsBlockedV6(js, TextOf(f)) <==> !DottedAfterGap(f) && BlockedNumber(Number(Address(f)))
    ensures IsBlockedV6(js, TextOf(f) + "%" + zone) <==> IsBlockedV6(js, TextOf(f))
  {
    var s := TextOf(f);
    NoPercent(f);
    WithoutZone(s, zone);
    ExpandsToAddress(js, f);
    GroupsBounded(f);
    hide TextOf, Legal, Groups, BlockedGroups, Ipv4.Sane, Ipv4.Blocked, BlockedNumber, Number, IsMapped, Split, Address, DottedAfterGap;
    if IsMapped(s) {
      PathsAgree(js, s);
    }
    if !DottedAfterGap(f) {
      ChainIsIntervals(js, Address(f));
    }
  }

  const DottedLoopback: Form := Form([], true, [], Some(Ipv4.Dotted("0", "0", "0", "1")))

  const PlainLoopback: Form := Form([], true, ["1"], None)

  /** An instance: "::0.0.0.1" and "::1" are one address, the loopback one, and
      only the second is read and blocked. */
  lemma LoopbackSpelledWithDots(js: Ipv4.Js)
    requires Ipv4.Sane(js)
    ensures TextOf(DottedLoopback) == "::0.0.0.1" && TextOf(PlainLoopback) == "::1"
    ensures Legal(DottedLoopback) && Legal(PlainLoopback) && Address(DottedLoopback) == Address(PlainLoopback)
    ensures Groups(js, "::0.0.0.1") == None && !IsBlockedV6(js, "::0.0.0.1") && IsBlockedV6(js, "::1")
  {
    hide Groups, IsBlockedV6, Ipv4.Sane, Legal, Address, TextOf;
    LoopbackTexts();
    LoopbackAddress();
    ExpandsToAddress(js, DottedLoopback);
    BlockedIffAddress(js, DottedLoopback, "");
    BlockedIffAddress(js, PlainLoopback, "");
  }

  lemma LoopbackTexts()
    ensures TextOf(DottedLoopback) == "::0.0.0.1" && TextOf(PlainLoopback) == "::1"
    ensures DottedAfterGap(DottedLoopback) && !DottedAfterGap(PlainLoopback)
  {
    assert HeadText(DottedLoopback) == "::" && HeadText(PlainLoopback) == "::1";
  }

  lemma LoopbackAddress()
    ensures Legal(DottedLoopback) && Legal(PlainLoopback)
    ensures Address(DottedLoopback) == [0, 0, 0, 0, 0, 0, 0, 1] == Address(PlainLoopback)
    ensures BlockedNumber(Number([0, 0, 0, 0, 0, 0, 0, 1]))
  {
    SmallTexts();
    hide HexValue, DecimalValue, IsHex, IsDecimal, Ipv4.Reserved;
    assert Values([]) == [];
    assert Values(["1"]) == [1] by { assert ["1"][..0] == []; }
    assert Zeros(7) == [0, 0, 0, 0, 0, 0, 0] && Zeros(6) == [0, 0, 0, 0, 0, 0];
    assert Ipv4.DottedValue(DottedLoopback.tail.value) == 1;
  }

  lemma SmallTexts()
    ensures IsGroup("1") && HexValue("1") == 1
    ensures Ipv4.IsOctet("0") && DecimalValue("0") == 0 && Ipv4.IsOctet("1") && DecimalValue("1") == 1
  {
  }
}

/** The envelope of a wrapped secret: base64url fields joined by dots. */
module Envelope {
  import opened Wrappers
  import opened Text

  type Byte = n: nat | n < 256 witness 0

  type Sextet = n: nat | n < 64 witness 0

  // ----- base64 ------------------------------------------------------------

  function Start(a: Byte): Sextet { a / 4 }

  function End(c: Byte): Sextet { c % 64 }

  function Middle(a: Byte, b: Byte): Sextet { (a % 4) * 16 + b / 16 }

  function Later(b: Byte, c: Byte): Sextet { (b % 16) * 4 + c / 64 }

  function ToSextets(x: seq<Byte>): seq<Sextet> {
    if |x| == 0 then []
    else if |x| == 1 then [Start(x[0]), Middle(x[0], 0)]
    else if |x| == 2 then [Start(x[0]), Middle(x[0], x[1]), Later(x[1], 0)]
    else [Start(x[0]), Middle(x[0], x[1]), Later(x[1], x[2]), End(x[2])] + ToSextets(x[3..])
  }

  predicate Six(n: nat) { n < 64 }

  function First(p: nat, q: nat): Byte
    requires Six(p) && Six(q)
  {
    p * 4 + q / 16
  }

  function Second(q: nat, r: nat): Byte
    requires Six(q) && Six(r)
  {
    (q % 16) * 16 + r / 4
  }

  function Third(r: nat, s: nat): Byte
    requires Six(r) && Six(s)
  {
    (r % 4) * 64 + s
  }

  /** Whole bytes only: what is left of the bits is dropped. */
  function FromSextets(v: seq<Sextet>): seq<Byte> {
    if |v| < 2 then []
    else if |v| == 2 then [First(v[0], v[1])]
    else if |v| == 3 then [First(v[0], v[1]), Second(v[1], v[2])]
    else [First(v[0], v[1]), Second(v[1], v[2]), Third(v[2], v[3])] + FromSextets(v[4..])
  }

  function Symbol(v: Sextet): (c: char) {
    if v < 26 then ('A' as int + v) as char
    else if v < 52 then ('a' as int + v - 26) as char
    else if v < 62 then ('0' as int + v - 52) as char
    else if v == 62 then '+' else '/'
  }

  function ValueOf(c: char): Option<Sextet> {
    if 'A' <= c <= 'Z' then Some(c as int - 'A' as int)
    else if 'a' <= c <= 'z' then Some(26 + c as int - 'a' as int)
    else if '0' <= c <= '9' then Some(52 + c as int - '0' as int)
    else if c == '+' then Some(62) else if c == '/' then Some(63) else None
  }

  function Symbols(v: seq<Sextet>): (s: string)
    ensures |s| == |v|
  {
    seq(|v|, i requires 0 <= i < |v| => Symbol(v[i]))
  }

  function Padding(n: nat): string { if n % 4 == 0 then "" else if n % 4 == 3 then "=" else if n % 4 == 2 then "==" else "===" }

  /** buf.toString("base64") */
  function ToBase64(x: seq<Byte>): string { Symbols(ToSextets(x)) + Padding(|ToSextets(x)|) }

  function Known(c: char): seq<Sextet> { if ValueOf(c).Some? then [ValueOf(c).value] else [] }

  /** Buffer.from(s, "base64") passes over characters outside the alphabet, the
      padding among them. */
  function Sextets(s: string): seq<Sextet> {
    if s == "" then [] else Known(s[0]) + Sextets(s[1..])
  }

  function FromBase64(s: string): seq<Byte> { FromSextets(Sextets(s)) }

  // ----- base64url ---------------------------------------------------------

  function Replace(s: string, a: char, b: char): (t: string)
    ensures |t| == |s| && forall i :: 0 <= i < |s| ==> t[i] == if s[i] == a then b else s[i]
  {
    seq(|s|, i requires 0 <= i < |s| => if s[i] == a then b else s[i])
  }

  /** replace(/=+$/, "") */
  function StripPadding(s: string): string {
    if s != "" && s[|s| - 1] == '=' then StripPadding(s[..|s| - 1]) else s
  }

  function B64u(x: seq<Byte>): string { StripPadding(Replace(Replace(ToBase64(x), '+', '-'), '/', '_')) }

  function Restore(s: string): string { Replace(Replace(s, '-', '+'), '_', '/') + Padding(|s|) }

  function B64uDecode(s: string): seq<Byte> { FromBase64(Restore(s)) }

  predicate IsUrlSymbol(c: char) { 'A' <= c <= 'Z' || 'a' <= c <= 'z' || '0' <= c <= '9' || c == '-' || c == '_' }

  lemma {:induction false} SextetsReadBack(x: seq<Byte>)
    ensures FromSextets(ToSextets(x)) == x
    ensures |ToSextets(x)| % 4 != 1
    decreases |x|
  {
    hide First, Second, Third, Start, Middle, Later, End;
    if |x| == 1 {
      Regroup(x[0], 0, 0);
    } else if |x| == 2 {
      Regroup(x[0], x[1], 0);
    } else if |x| >= 3 {
      SextetsReadBack(x[3..]);
      var v := ToSextets(x);
      assert v[4..] == ToSextets(x[3..]);
      Regroup(x[0], x[1], x[2]);
      assert x == [x[0], x[1], x[2]] + x[3..];
    }
  }

  lemma Regroup(a: Byte, b: Byte, c: Byte)
    ensures First(Start(a), Middle(a, b)) == a && Second(Middle(a, b), Later(b, c)) == b && Third(Later(b, c), End(c)) == c
  {
  }

  lemma {:induction false} SymbolsReadBack(v: seq<Sextet>)
    ensures Sextets(Symbols(v)) == v
  {
    if v != [] {
      var s := Symbols(v);
      assert s[1..] == Symbols(v[1..]);
      SymbolsReadBack(v[1..]);
      assert v == [v[0]] + v[1..];
    }
  }

  lemma {:induction false} SextetsConcat(s: string, t: string)
    ensures Sextets(s + t) == Sextets(s) + Sextets(t)
    decreases |s|
  {
    hide Known;
    if s == "" {
      assert s + t == t;
    } else {
      assert (s + t)[1..] == s[1..] + t;
      SextetsConcat(s[1..], t);
    }
  }

  lemma PaddingIsNothing(n: nat)
    ensures Sextets(Padding(n)) == []
  {
    assert Sextets("=") == [];
    assert "=="[1..] == "=" && "==="[1..] == "==";
    assert Sextets("==") == [];
  }

  /** Every byte string comes back from base64. */
  lemma Base64ReadsBack(x: seq<Byte>)
    ensures FromBase64(ToBase64(x)) == x
  {
    hide ToSextets, FromSextets, Sextets, Symbols, Padding;
    SextetsReadBack(x);
    SymbolsReadBack(ToSextets(x));
    SextetsConcat(Symbols(ToSextets(x)), Padding(|ToSextets(x)|));
    PaddingIsNothing(|ToSextets(x)|);
    assert ToSextets(x) + [] == ToSextets(x);
  }

  lemma {:induction false} StripsExactly(s: string, n: nat)
    requires s == "" || s[|s| - 1] != '='
    ensures StripPadding(s + Padding(n)) == s
  {
    var p := Padding(n);
    assert s + "" == s;
    assert (s + "=")[..|s|] == s && (s + "==")[..|s| + 1] == s + "=" && (s + "===")[..|s| + 2] == s + "==";
    assert StripPadding(s) == s;
    assert StripPadding(s + "=") == s;
    assert StripPadding(s + "==") == s;
  }

  function UrlSymbols(x: seq<Byte>): string { Replace(Replace(Symbols(ToSextets(x)), '+', '-'), '/', '_') }

  /** The text of a field: one url-safe symbol for each sextet, no padding. */
  lemma B64uIs(x: seq<Byte>)
    ensures B64u(x) == UrlSymbols(x) && |B64u(x)| == |ToSextets(x)|
    ensures forall i :: 0 <= i < |B64u(x)| ==> IsUrlSymbol(B64u(x)[i])
  {
    var s := Symbols(ToSextets(x));
    var p := Padding(|ToSextets(x)|);
    var u := UrlSymbols(x);
    assert Replace(Replace(s + p, '+', '-'), '/', '_') == u + p;
    forall i | 0 <= i < |u| ensures IsUrlSymbol(u[i]) {
      assert s[i] == Symbol(ToSextets(x)[i]);
    }
    StripsExactly(u, |ToSextets(x)|);
  }

  /** The url-safe alphabet of section 5 of RFC 4648. */
  predicate Writes(symbol: char, v: Sextet) {
    if v < 26 then symbol as int == 'A' as int + v
    else if v < 52 then symbol as int == 'a' as int + (v - 26)
    else if v < 62 then symbol as int == '0' as int + (v - 52)
    else symbol == if v == 62 then '-' else '_'
  }

  /** The 24 bits of three bytes, and the four sextets that carry them. */
  predicate SameBits(a: Byte, b: Byte, c: Byte, p: Sextet, q: Sextet, r: Sextet, s: Sextet) {
    0x1_0000 * a + 0x100 * b + c == 0x4_0000 * p + 0x1000 * q + 0x40 * r + s
  }

  /** The text has these sextets from 4 * g on: four for three bytes or more, three
      for two and two for one, and then it ends. */
  predicate Shows(text: string, g: nat, left: nat, p: Sextet, q: Sextet, r: Sextet, s: Sextet) {
    && 4 * g + 1 < |text| && Writes(text[4 * g], p) && Writes(text[4 * g + 1], q)
    && (if left > 1 then 4 * g + 2 < |text| && Writes(text[4 * g + 2], r) else |text| == 4 * g + 2)
    && (if left > 2 then 4 * g + 3 < |text| && Writes(text[4 * g + 3], s) else |text| <= 4 * g + 3)
    && (left == 3 ==> |text| == 4 * g + 4)
  }

  function ByteOrZero(x: seq<Byte>, i: nat): Byte { if i < |x| then x[i] else 0 }

  /** The bytes from 3 * g on are written there, missing ones counting as zero. */
  ghost predicate GroupWritten(x: seq<Byte>, text: string, g: nat)
    requires 3 * g < |x|
  {
    GroupShown(text, g, |x| - 3 * g, x[3 * g], ByteOrZero(x, 3 * g + 1), ByteOrZero(x, 3 * g + 2))
  }

  ghost predicate GroupShown(text: string, g: nat, left: nat, a: Byte, b: Byte, c: Byte) {
    exists p, q, r, s :: Shows(text, g, left, p, q, r, s) && SameBits(a, b, c, p, q, r, s)
  }

  lemma BitsOf(a: Byte, b: Byte, c: Byte)
    ensures SameBits(a, b, c, Start(a), Middle(a, b), Later(b, c), End(c))
  {
  }

  /** base64url as section 5 of RFC 4648 has it: every group of three bytes in four
      symbols of its alphabet, two in three, one in two, and nothing after them. */
  lemma WritesEveryGroup(x: seq<Byte>, g: nat)
    requires 3 * g < |x|
    ensures GroupWritten(x, B64u(x), g)
  {
    hide B64u, Start, Middle, Later, End, SameBits, Writes, ToSextets;
    var a, b, c := x[3 * g], ByteOrZero(x, 3 * g + 1), ByteOrZero(x, 3 * g + 2);
    BitsOf(a, b, c);
    SextetsAt(x, g);
    B64uIs(x);
    forall i | 0 <= i < |B64u(x)| ensures Writes(B64u(x)[i], ToSextets(x)[i]) {
      UrlSymbolAt(x, i);
    }
    assert Shows(B64u(x), g, |x| - 3 * g, Start(a), Middle(a, b), Later(b, c), End(c));
  }

  lemma UrlSymbolAt(x: seq<Byte>, i: nat)
    requires i < |ToSextets(x)|
    ensures |UrlSymbols(x)| == |ToSextets(x)| && Writes(UrlSymbols(x)[i], ToSextets(x)[i])
  {
    hide ToSextets;
    assert Symbols(ToSextets(x))[i] == Symbol(ToSextets(x)[i]);
  }

  lemma {:induction false} SextetsAt(x: seq<Byte>, g: nat)
    requires 3 * g < |x|
    ensures var v := ToSextets(x);
            var left := |x| - 3 * g;
            var b, c := ByteOrZero(x, 3 * g + 1), ByteOrZero(x, 3 * g + 2);
      && 4 * g + 1 < |v| && v[4 * g] == Start(x[3 * g]) && v[4 * g + 1] == Middle(x[3 * g], b)
      && (if left > 1 then 4 * g + 2 < |v| && v[4 * g + 2] == Later(b, c) else |v| == 4 * g + 2)
      && (if left > 2 then 4 * g + 3 < |v| && v[4 * g + 3] == End(c) else |v| <= 4 * g + 3)
      && (left == 3 ==> |v| == 4 * g + 4)
    decreases |x|
  {
    hide Start, Middle, Later, End;
    if g > 0 {
      SextetsAt(x[3..], g - 1);
      assert x[3..][3 * (g - 1)] == x[3 * g];
      assert ByteOrZero(x[3..], 3 * (g - 1) + 1) == ByteOrZero(x, 3 * g + 1) && ByteOrZero(x[3..], 3 * (g - 1) + 2) == ByteOrZero(x, 3 * g + 2);
      assert ToSextets(x)[4..] == ToSextets(x[3..]);
    } else if |x| == 3 {
      assert x[3..] == [];
    }
  }

  /** Decoding puts back the padding and the two symbols that encoding took
      away: the restored text is the base64 text itself. */
  lemma Restores(x: seq<Byte>)
    ensures Restore(B64u(x)) == ToBase64(x)
  {
    B64uIs(x);
    var s := Symbols(ToSextets(x));
    forall i | 0 <= i < |s| ensures s[i] != '-' && s[i] != '_' {
      assert s[i] == Symbol(ToSextets(x)[i]);
    }
    assert Replace(Replace(UrlSymbols(x), '-', '+'), '_', '/') == s;
  }

  /** b64uDecode(b64u(x)) == x for every byte string. */
  lemma B64uReadsBack(x: seq<Byte>)
    ensures B64uDecode(B64u(x)) == x
  {
    Restores(x);
    Base64ReadsBack(x);
  }

  // ----- wrap and unwrap ---------------------------------------------------

  datatype Sealed = Sealed(ct: seq<Byte>, tag: seq<Byte>)

  /** AES-256-GCM, the UTF-8 codec and hex, of which nothing else is assumed. */
  datatype Crypto = Crypto(
    fromHex: string -> seq<Byte>,
    encode: string -> seq<Byte>,
    decode: seq<Byte> -> string,
    seal: (seq<Byte>, seq<Byte>, Option<seq<Byte>>, seq<Byte>) -> Sealed,
    open: (seq<Byte>, seq<Byte>, Option<seq<Byte>>, Sealed) -> Option<seq<Byte>>)

  /** What is sealed opens under the same key, iv and data; what opens was sealed
      under them. */
  ghost predicate Authenticated(c: Crypto) {
    forall key, iv, aad, p, box :: c.open(key, iv, aad, box) == Some(p) <==> c.seal(key, iv, aad, p) == box
  }

  datatype WrapError = BadKey | BadFormat | NotAuthentic

  datatype Result = Ok(text: string) | Failed(error: WrapError)

  /** An empty string binds no data: `if (aad)`. */
  function Bound(c: Crypto, aad: string): Option<seq<Byte>> { if aad == "" then None else Some(c.encode(aad)) }

  function Fields(iv: seq<Byte>, box: Sealed): string { "v1." + B64u(iv) + "." + B64u(box.tag) + "." + B64u(box.ct) }

  function Wrap(c: Crypto, masterKeyHex: string, plaintext: string, aad: string, iv: seq<Byte>): Result {
    var key := c.fromHex(masterKeyHex);
    if |key| != 32 then Failed(BadKey)
    else Ok(Fields(iv, c.seal(key, iv, Bound(c, aad), c.encode(plaintext))))
  }

  function Unwrap(c: Crypto, masterKeyHex: string, wrapped: string, aad: string): Result {
    var parts := Split(wrapped, '.');
    if |parts| != 4 || parts[0] != "v1" then Failed(BadFormat)
    else
      var key := c.fromHex(masterKeyHex);
      if |key| != 32 then Failed(BadKey)
      else
        match c.open(key, B64uDecode(parts[1]), Bound(c, aad), Sealed(B64uDecode(parts[3]), B64uDecode(parts[2])))
        case None => Failed(NotAuthentic)
        case Some(p) => Ok(c.decode(p))
  }

  lemma NoDot(x: seq<Byte>)
    ensures '.' !in B64u(x)
  {
    B64uIs(x);
  }

  /** The four fields are recovered from the text, and so are their bytes. */
  lemma FieldsRecovered(iv: seq<Byte>, box: Sealed)
    ensures var parts := Split(Fields(iv, box), '.');
      && parts == ["v1", B64u(iv), B64u(box.tag), B64u(box.ct)]
      && B64uDecode(parts[1]) == iv && B64uDecode(parts[2]) == box.tag && B64uDecode(parts[3]) == box.ct
  {
    NoDot(iv);
    NoDot(box.tag);
    NoDot(box.ct);
    B64uReadsBack(iv);
    B64uReadsBack(box.tag);
    B64uReadsBack(box.ct);
    hide B64u, B64uDecode, Split;
    var c := B64u(box.ct);
    var bc := B64u(box.tag) + "." + c;
    var abc := B64u(iv) + "." + bc;
    assert Fields(iv, box) == "v1" + "." + abc;
    SplitFirst("v1", abc, '.');
    SplitFirst(B64u(iv), bc, '.');
    SplitFirst(B64u(box.tag), c, '.');
    SplitNone(c, '.');
  }

  /** unwrap undoes wrap, for every text that UTF-8 carries and every iv; and
      under another binding or key it opens only what was sealed under it. */
  lemma UnwrapUndoesWrap(c: Crypto, masterKeyHex: string, plaintext: string, aad: string, iv: seq<Byte>)
    requires Authenticated(c) && c.decode(c.encode(plaintext)) == plaintext
    ensures var w := Wrap(c, masterKeyHex, plaintext, aad, iv);
      && (w.Ok? <==> |c.fromHex(masterKeyHex)| == 32)
      && (w.Ok? ==> Unwrap(c, masterKeyHex, w.text, aad) == Ok(plaintext))
  {
    hide B64u, B64uDecode, Split, Fields;
    var key := c.fromHex(masterKeyHex);
    var box := c.seal(key, iv, Bound(c, aad), c.encode(plaintext));
    FieldsRecovered(iv, box);
    assert c.open(key, iv, Bound(c, aad), box) == Some(c.encode(plaintext));
  }

  ghost predicate SealedFrom(c: Crypto, key: seq<Byte>, iv: seq<Byte>, bound: Option<seq<Byte>>, box: Sealed) {
    exists p :: c.seal(key, iv, bound, p) == box
  }

  /** Exactly what opens: four fields of version v1, a 32-byte key, and a tag and
      ciphertext that sealing some text under that key, iv and binding gives. */
  lemma OpensOnlySealed(c: Crypto, masterKeyHex: string, wrapped: string, aad: string)
    requires Authenticated(c)
    ensures var parts := Split(wrapped, '.');
            var key := c.fromHex(masterKeyHex);
      && (Unwrap(c, masterKeyHex, wrapped, aad) == Failed(BadFormat) <==> |parts| != 4 || parts[0] != "v1")
      && (Unwrap(c, masterKeyHex, wrapped, aad) == Failed(BadKey) <==> |parts| == 4 && parts[0] == "v1" && |key| != 32)
      && (Unwrap(c, masterKeyHex, wrapped, aad).Ok? <==>
            && |parts| == 4 && parts[0] == "v1" && |key| == 32
            && SealedFrom(c, key, B64uDecode(parts[1]), if aad == "" then None else Some(c.encode(aad)),
                          Sealed(B64uDecode(parts[3]), B64uDecode(parts[2]))))
  {
    hide Split, B64uDecode;
    var parts := Split(wrapped, '.');
    if |parts| == 4 {
      var key := c.fromHex(masterKeyHex);
      var iv, box := B64uDecode(parts[1]), Sealed(B64uDecode(parts[3]), B64uDecode(parts[2]));
      var result := c.open(key, iv, Bound(c, aad), box);
      if result.Some? {
        assert c.seal(key, iv, Bound(c, aad), result.value) == box;
      }
      if SealedFrom(c, key, iv, Bound(c, aad), box) {
        var p :| c.seal(key, iv, Bound(c, aad), p) == box;
        assert result == Some(p);
      }
    }
  }

  ghost predicate MadeFor(c: Crypto, key: seq<Byte>, iv: seq<Byte>, aad: string, box: Sealed) {
    exists p :: c.seal(key, iv, Bound(c, aad), p) == box
  }

  /** A wrapped value moved to another row opens there only if the cipher would
      have made the very same text for that row. */
  lemma SwappedRowOpensOnlyIf(c: Crypto, masterKeyHex: string, plaintext: string, aad: string, other: string, iv: seq<Byte>)
    requires Authenticated(c) && |c.fromHex(masterKeyHex)| == 32
    ensures var key := c.fromHex(masterKeyHex);
            var box := c.seal(key, iv, Bound(c, aad), c.encode(plaintext));
      Unwrap(c, masterKeyHex, Wrap(c, masterKeyHex, plaintext, aad, iv).text, other).Ok? <==> MadeFor(c, key, iv, other, box)
  {
    hide B64u, B64uDecode, Split, Fields;
    var key := c.fromHex(masterKeyHex);
    var box := c.seal(key, iv, Bound(c, aad), c.encode(plaintext));
    FieldsRecovered(iv, box);
    var result := c.open(key, iv, Bound(c, other), box);
    if result.Some? {
      assert c.seal(key, iv, Bound(c, other), result.value) == box;
    }
    if p :| c.seal(key, iv, Bound(c, other), p) == box {
      assert result == Some(p);
    }
  }

  /** Sealing binds the data: boxes made with different data differ. */
  ghost predicate Separates(c: Crypto) {
    forall key, iv, aad, p, aad', p' :: c.seal(key, iv, aad, p) == c.seal(key, iv, aad', p') ==> aad == aad'
  }

  ghost predicate Injective(c: Crypto) { forall s, t :: c.encode(s) == c.encode(t) ==> s == t }

  /** With a cipher that binds its data, a wrapped value moved to another row
      opens there exactly when that row's binding is its own: copying one
      receiver's key over another's yields nothing that opens. */
  lemma SwappedRowOpensIff(c: Crypto, masterKeyHex: string, plaintext: string, aad: string, other: string, iv: seq<Byte>)
    requires Authenticated(c) && Separates(c) && |c.fromHex(masterKeyHex)| == 32
    ensures var moved := Unwrap(c, masterKeyHex, Wrap(c, masterKeyHex, plaintext, aad, iv).text, other);
      && (moved.Ok? <==> Bound(c, aad) == Bound(c, other))
      && (Injective(c) ==> (moved.Ok? <==> aad == other))
  {
    hide Wrap, Unwrap;
    WrapSucceeds(c, masterKeyHex, plaintext, aad, iv);
    SwappedRowOpensOnlyIf(c, masterKeyHex, plaintext, aad, other, iv);
    var key := c.fromHex(masterKeyHex);
    assert Bound(c, aad) == Bound(c, other) ==> MadeFor(c, key, iv, other, c.seal(key, iv, Bound(c, aad), c.encode(plaintext)));
  }

  lemma WrapSucceeds(c: Crypto, masterKeyHex: string, plaintext: string, aad: string, iv: seq<Byte>)
    requires |c.fromHex(masterKeyHex)| == 32
    ensures Wrap(c, masterKeyHex, plaintext, aad, iv).Ok?
  {
  }
}

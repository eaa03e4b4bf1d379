/** The text of the messages: how codes and nonces are made, how the SMS body is
    worded, and how it is read back. */
module Messages {
  import opened Wrappers
  import opened Schema

  /** JavaScript's toUpperCase on one code unit, which may give several, and the
      white space of trim and of \s. */
  datatype Unicode = Unicode(upper: char -> string, space: char -> bool)

  predicate IsUpper(c: char) { 'A' <= c <= 'Z' }

  predicate IsDigit(c: char) { '0' <= c <= '9' }

  predicate Alphanumeric(c: char) { IsUpper(c) || IsDigit(c) }

  /** What the model takes from Unicode: capitals and digits are their own upper
      case and not white space, the space is, and white space has no case while
      nothing else turns into it. */
  ghost predicate Standard(u: Unicode) {
    && (forall c :: Alphanumeric(c) ==> u.upper(c) == [c] && !u.space(c))
    && u.space(' ')
    && (forall c :: u.space(c) ==> u.upper(c) == [c])
    && (forall c, i :: !u.space(c) && 0 <= i < |u.upper(c)| ==> !u.space(u.upper(c)[i]))
  }

  // ----- string operations -------------------------------------------------

  function TrimStart(u: Unicode, s: string): string {
    if s != [] && u.space(s[0]) then TrimStart(u, s[1..]) else s
  }

  function TrimEnd(u: Unicode, s: string): string {
    if s != [] && u.space(s[|s| - 1]) then TrimEnd(u, s[..|s| - 1]) else s
  }

  function Trim(u: Unicode, s: string): string { TrimEnd(u, TrimStart(u, s)) }

  function Upper(u: Unicode, s: string): string { if s == [] then [] else u.upper(s[0]) + Upper(u, s[1..]) }

  /** replace(/\s+/g, "") */
  function Squeeze(u: Unicode, s: string): string {
    if s == [] then [] else (if u.space(s[0]) then [] else [s[0]]) + Squeeze(u, s[1..])
  }

  predicate Plain(s: string) { forall i :: 0 <= i < |s| ==> Alphanumeric(s[i]) }

  function Extract(u: Unicode, prefix: string, least: nat, most: nat, body: string): Option<string> {
    var upper := Upper(u, Trim(u, body));
    if !(prefix <= upper) then None
    else
      var tail := Squeeze(u, upper[|prefix|..]);
      if |tail| < least || |tail| > most then None
      else if !Plain(tail) then None
      else Some(tail)
  }

  function ExtractCode(u: Unicode, body: string): Option<string> { Extract(u, "VERIFY", 4, 32, body) }

  function ExtractBindNonce(u: Unicode, body: string): Option<string> { Extract(u, "BIND", 8, 64, body) }

  /** processInbound tries BIND first. */
  function Parse(u: Unicode, body: string): Intent {
    match ExtractBindNonce(u, body)
    case Some(nonce) => Bind(nonce)
    case None =>
      match ExtractCode(u, body)
      case Some(code) => Verify(code)
      case None => Nothing
  }

  // ----- lemmas on the operations ------------------------------------------

  lemma {:induction false} UpperConcat(u: Unicode, s: string, t: string)
    ensures Upper(u, s + t) == Upper(u, s) + Upper(u, t)
    decreases |s|
  {
    if s == [] {
      assert s + t == t;
    } else {
      assert (s + t)[1..] == s[1..] + t;
      UpperConcat(u, s[1..], t);
    }
  }

  lemma {:induction false} SqueezeConcat(u: Unicode, s: string, t: string)
    ensures Squeeze(u, s + t) == Squeeze(u, s) + Squeeze(u, t)
    decreases |s|
  {
    if s == [] {
      assert s + t == t;
    } else {
      assert (s + t)[1..] == s[1..] + t;
      SqueezeConcat(u, s[1..], t);
    }
  }

  lemma {:induction false} SqueezeTight(u: Unicode, s: string)
    requires forall i :: 0 <= i < |s| ==> !u.space(s[i])
    ensures Squeeze(u, s) == s
  {
    if s != [] {
      SqueezeTight(u, s[1..]);
    }
  }

  lemma {:induction false} SqueezeStart(u: Unicode, s: string)
    ensures Squeeze(u, TrimStart(u, s)) == Squeeze(u, s)
  {
    if s != [] && u.space(s[0]) {
      SqueezeStart(u, s[1..]);
    }
  }

  lemma {:induction false} SqueezeEnd(u: Unicode, s: string)
    ensures Squeeze(u, TrimEnd(u, s)) == Squeeze(u, s)
  {
    if s != [] && u.space(s[|s| - 1]) {
      var front := s[..|s| - 1];
      SqueezeEnd(u, front);
      SqueezeConcat(u, front, [s[|s| - 1]]);
      assert front + [s[|s| - 1]] == s;
    }
  }

  lemma SqueezeTrim(u: Unicode, s: string)
    ensures Squeeze(u, Trim(u, s)) == Squeeze(u, s)
  {
    SqueezeStart(u, s);
    SqueezeEnd(u, TrimStart(u, s));
  }

  /** Upper case neither makes nor loses white space. */
  lemma {:induction false} SqueezeUpper(u: Unicode, s: string)
    requires Standard(u)
    ensures Squeeze(u, Upper(u, s)) == Upper(u, Squeeze(u, s))
  {
    if s != [] {
      SqueezeUpper(u, s[1..]);
      SqueezeConcat(u, u.upper(s[0]), Upper(u, s[1..]));
      if u.space(s[0]) {
        SqueezeBlank(u, u.upper(s[0]));
        assert Squeeze(u, s) == [] + Squeeze(u, s[1..]) == Squeeze(u, s[1..]);
      } else {
        SqueezeTight(u, u.upper(s[0]));
        var rest := Squeeze(u, s[1..]);
        assert Squeeze(u, s) == [s[0]] + rest && ([s[0]] + rest)[1..] == rest;
        assert Upper(u, [s[0]] + rest) == u.upper(s[0]) + Upper(u, rest);
      }
    }
  }

  lemma PlainTight(u: Unicode, s: string)
    requires Standard(u) && Plain(s)
    ensures Squeeze(u, s) == s
  {
    SqueezeTight(u, s);
  }

  // ----- what a body parses to, exactly ------------------------------------

  predicate Readable(x: string, least: nat, most: nat) { least <= |x| <= most && Plain(x) }

  predicate CapitalsAndDigits(x: string) { forall i :: 0 <= i < |x| ==> 'A' <= x[i] <= 'Z' || '0' <= x[i] <= '9' }

  lemma PlainIff(x: string)
    ensures Plain(x) <==> CapitalsAndDigits(x)
  {
  }

  /** A body carries x exactly when, with all its white space removed and in
      upper case, it is the prefix followed by x, and the prefix is unbroken at
      the start of the trimmed body. */
  lemma ExtractsExactly(u: Unicode, prefix: string, least: nat, most: nat, body: string, x: string)
    requires Standard(u) && Plain(prefix)
    ensures Extract(u, prefix, least, most, body) == Some(x)
      <==> least <= |x| <= most && CapitalsAndDigits(x) && Upper(u, Squeeze(u, body)) == prefix + x && prefix <= Upper(u, Trim(u, body))
  {
    PlainIff(x);
    var upper := Upper(u, Trim(u, body));
    SqueezeUpper(u, Trim(u, body));
    SqueezeTrim(u, body);
    if prefix <= upper {
      var tail := upper[|prefix|..];
      assert upper == prefix + tail;
      SqueezeConcat(u, prefix, tail);
      PlainTight(u, prefix);
      assert Squeeze(u, upper) == prefix + Squeeze(u, tail);
      assert (prefix + Squeeze(u, tail))[|prefix|..] == Squeeze(u, tail);
      assert (prefix + x)[|prefix|..] == x;
    }
  }

  /** No body is both, so the order in which the two are tried is immaterial. */
  lemma NeverBoth(u: Unicode, body: string)
    ensures ExtractCode(u, body).None? || ExtractBindNonce(u, body).None?
  {
    var upper := Upper(u, Trim(u, body));
    assert "VERIFY" <= upper ==> upper[0] == 'V';
    assert "BIND" <= upper ==> upper[0] == 'B';
  }

  lemma ParsesOneWay(u: Unicode, body: string)
    ensures forall x :: Parse(u, body) == Verify(x) <==> ExtractCode(u, body) == Some(x)
    ensures forall x :: Parse(u, body) == Bind(x) <==> ExtractBindNonce(u, body) == Some(x)
  {
    hide Extract;
    NeverBoth(u, body);
  }

  /** The language of the two messages. A body asks to verify x exactly when its
      letters are VERIFY and x, with x of 4 to 32 capitals and digits, and to bind
      x exactly when they are BIND and x, with 8 to 64 of them, the prefix being
      unbroken at the start; any other body asks for nothing. */
  lemma ParsesExactly(u: Unicode, body: string, x: string)
    requires Standard(u)
    ensures Parse(u, body) == Verify(x) <==>
      4 <= |x| <= 32 && CapitalsAndDigits(x) && Upper(u, Squeeze(u, body)) == "VERIFY" + x && "VERIFY" <= Upper(u, Trim(u, body))
    ensures Parse(u, body) == Bind(x) <==>
      8 <= |x| <= 64 && CapitalsAndDigits(x) && Upper(u, Squeeze(u, body)) == "BIND" + x && "BIND" <= Upper(u, Trim(u, body))
  {
    hide Extract, Parse, Standard, CapitalsAndDigits, Upper, Squeeze, Trim;
    ParsesOneWay(u, body);
    PrefixesPlain();
    ExtractsExactly(u, "VERIFY", 4, 32, body, x);
    ExtractsExactly(u, "BIND", 8, 64, body, x);
  }

  // ----- what is sent is what is read --------------------------------------

  predicate Blank(u: Unicode, s: string) { forall i :: 0 <= i < |s| ==> u.space(s[i]) }

  /** The same letters in whatever case: each is one letter's upper case. */
  predicate Retyped(u: Unicode, s: string, text: string) {
    |s| == |text| && forall i :: 0 <= i < |s| ==> u.upper(s[i]) == [text[i]] && !u.space(s[i])
  }

  lemma {:induction false} UpperRetyped(u: Unicode, s: string, text: string)
    requires Retyped(u, s, text)
    ensures Upper(u, s) == text
  {
    if s != [] {
      UpperRetyped(u, s[1..], text[1..]);
    }
  }

  lemma {:induction false} SqueezeBlank(u: Unicode, s: string)
    requires Blank(u, s)
    ensures Squeeze(u, s) == []
  {
    if s != [] {
      SqueezeBlank(u, s[1..]);
    }
  }

  lemma {:induction false} TrimStartBlank(u: Unicode, pad: string, s: string)
    requires Blank(u, pad) && s != [] && !u.space(s[0])
    ensures TrimStart(u, pad + s) == s
    decreases |pad|
  {
    if pad == [] {
      assert pad + s == s;
    } else {
      assert (pad + s)[1..] == pad[1..] + s;
      TrimStartBlank(u, pad[1..], s);
    }
  }

  /** Trimming the end leaves whatever stands before the last letter. */
  lemma {:induction false} TrimEndKeeps(u: Unicode, s: string, head: string)
    requires head <= s && head != [] && !u.space(head[|head| - 1])
    ensures head <= TrimEnd(u, s)
    decreases |s|
  {
    assert s[|head| - 1] == head[|head| - 1];
    if u.space(s[|s| - 1]) {
      assert head <= s[..|s| - 1];
      TrimEndKeeps(u, s[..|s| - 1], head);
    }
  }

  /** However the prefix and the secret are cased, and whatever white space is
      put before, between, inside the secret or after it, the body reads back as
      exactly the secret. */
  lemma RoundTrip(u: Unicode, prefix: string, x: string, least: nat, most: nat,
                  before: string, head: string, between: string, tail: string)
    requires Standard(u) && prefix != [] && Plain(prefix) && Readable(x, least, most)
    requires Blank(u, before) && Blank(u, between)
    requires Retyped(u, head, prefix) && Retyped(u, Squeeze(u, tail), x)
    ensures Extract(u, prefix, least, most, before + head + between + tail) == Some(x)
  {
    PlainIff(x);
    hide Extract, Trim, Upper, Squeeze, Plain;
    var body := before + head + between + tail;
    assert body == before + (head + (between + tail));
    SqueezeParts(u, before, head, between, tail);
    UpperConcat(u, head, Squeeze(u, tail));
    UpperRetyped(u, head, prefix);
    UpperRetyped(u, Squeeze(u, tail), x);
    PrefixSurvives(u, prefix, before, head, between + tail);
    ExtractsExactly(u, prefix, least, most, body, x);
  }

  lemma SqueezeParts(u: Unicode, before: string, head: string, between: string, tail: string)
    requires Blank(u, before) && Blank(u, between) && forall i :: 0 <= i < |head| ==> !u.space(head[i])
    ensures Squeeze(u, before + (head + (between + tail))) == head + Squeeze(u, tail)
  {
    hide Squeeze;
    SqueezeConcat(u, before, head + (between + tail));
    SqueezeConcat(u, head, between + tail);
    SqueezeConcat(u, between, tail);
    SqueezeBlank(u, before);
    SqueezeBlank(u, between);
    SqueezeTight(u, head);
  }

  lemma PrefixSurvives(u: Unicode, prefix: string, before: string, head: string, rest: string)
    requires prefix != [] && Blank(u, before) && Retyped(u, head, prefix)
    ensures prefix <= Upper(u, Trim(u, before + (head + rest)))
  {
    TrimStartBlank(u, before, head + rest);
    TrimEndKeeps(u, head + rest, head);
    var t := Trim(u, before + (head + rest));
    assert t == head + t[|head|..];
    UpperConcat(u, head, t[|head|..]);
    UpperRetyped(u, head, prefix);
  }

  // ----- codes and nonces --------------------------------------------------

  const CODE_ALPHABET: string := "ABCDEFGHJKMNPQRSTUVWXYZ23456789"
  const NONCE_ALPHABET: string := "ABCDEFGHJKLMNPQRSTUVWXYZ23456789"

  lemma AlphabetsPlain()
    ensures |CODE_ALPHABET| == 31 && Plain(CODE_ALPHABET)
    ensures |NONCE_ALPHABET| == 32 && Plain(NONCE_ALPHABET)
  {
  }

  /** generateCode; `draw(i)` is the i-th randomInt. */
  method GenerateCode(length: int, draw: nat -> nat) returns (code: Option<string>)
    ensures code.None? <==> length < 4 || length > 32
    ensures code.Some? ==> |code.value| == length && Readable(code.value, 4, 32)
    ensures code.Some? ==> forall i :: 0 <= i < length ==> code.value[i] == "ABCDEFGHJKMNPQRSTUVWXYZ23456789"[draw(i) % 31]
  {
    if length < 4 || length > 32 {
      return None;
    }
    AlphabetsPlain();
    var out := "";
    for i := 0 to length
      invariant |out| == i && Plain(out)
      invariant forall k :: 0 <= k < i ==> out[k] == CODE_ALPHABET[draw(k) % 31]
    {
      assert Alphanumeric(CODE_ALPHABET[draw(i) % 31]);
      out := out + [CODE_ALPHABET[draw(i) % 31]];
    }
    code := Some(out);
  }

  /** generateNonce, from 24 random bytes. */
  method GenerateNonce(bytes: seq<nat>) returns (nonce: string)
    requires |bytes| == 24 && forall i :: 0 <= i < 24 ==> bytes[i] < 256
    ensures |nonce| == 24 && Readable(nonce, 8, 64)
    ensures forall i :: 0 <= i < 24 ==> nonce[i] == "ABCDEFGHJKLMNPQRSTUVWXYZ23456789"[bytes[i] % 32]
  {
    AlphabetsPlain();
    nonce := "";
    for i := 0 to 24
      invariant |nonce| == i && Plain(nonce)
      invariant forall k :: 0 <= k < i ==> nonce[k] == NONCE_ALPHABET[bytes[k] % 32]
    {
      assert Alphanumeric(NONCE_ALPHABET[bytes[i] % 32]);
      nonce := nonce + [NONCE_ALPHABET[bytes[i] % 32]];
    }
  }

  /** The two messages a user is asked to send, retyped in any case and spaced in
      any way, parse to what they were made from. */
  lemma MessagesReadBack(u: Unicode, code: string, nonce: string, before: string, head: string, between: string, tail: string)
    requires Standard(u) && Blank(u, before) && Blank(u, between)
    ensures Readable(code, 4, 32) && Retyped(u, head, "VERIFY") && Retyped(u, Squeeze(u, tail), code) ==>
      Parse(u, before + head + between + tail) == Verify(code)
    ensures Readable(nonce, 8, 64) && Retyped(u, head, "BIND") && Retyped(u, Squeeze(u, tail), nonce) ==>
      Parse(u, before + head + between + tail) == Bind(nonce)
  {
    hide Extract, Standard;
    var body := before + head + between + tail;
    ParsesOneWay(u, body);
    assert Plain("VERIFY") && Plain("BIND");
    if Readable(code, 4, 32) && Retyped(u, head, "VERIFY") && Retyped(u, Squeeze(u, tail), code) {
      RoundTrip(u, "VERIFY", code, 4, 32, before, head, between, tail);
    }
    if Readable(nonce, 8, 64) && Retyped(u, head, "BIND") && Retyped(u, Squeeze(u, tail), nonce) {
      RoundTrip(u, "BIND", nonce, 8, 64, before, head, between, tail);
    }
  }

  /** As printed, without any change. */
  lemma PrintedReadsBack(u: Unicode, code: string, nonce: string)
    requires Standard(u) && Readable(code, 4, 32) && Readable(nonce, 8, 64)
    ensures Parse(u, "VERIFY " + code) == Verify(code)
    ensures Parse(u, "BIND " + nonce) == Bind(nonce)
  {
    PlainTight(u, code);
    PlainTight(u, nonce);
    hide Parse, Plain;
    assert Plain("VERIFY") && Plain("BIND") by { PrefixesPlain(); }
    PlainRetyped(u, code);
    PlainRetyped(u, nonce);
    PlainRetyped(u, "VERIFY");
    PlainRetyped(u, "BIND");
    assert "" + "VERIFY" + " " + code == "VERIFY " + code;
    assert "" + "BIND" + " " + nonce == "BIND " + nonce;
    MessagesReadBack(u, code, nonce, "", "VERIFY", " ", code);
    MessagesReadBack(u, code, nonce, "", "BIND", " ", nonce);
  }

  lemma PrefixesPlain()
    ensures Plain("VERIFY") && Plain("BIND")
  {
  }

  lemma PlainRetyped(u: Unicode, s: string)
    requires Standard(u) && Plain(s)
    ensures Retyped(u, s, s)
  {
  }
}

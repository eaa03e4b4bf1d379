/** The parser of the modem's message list. */
module Modem {
  import opened Wrappers
  import opened Gateway
  import opened Text

  datatype Header = Header(index: nat, sender: string, receivedAtMs: nat)

  /** The header regular expression with the timestamp it captures converted, and
      Python's strip. */
  datatype Python = Python(header: string -> Option<Header>, strip: string -> string)

  const MARK: string := "+CMGL:"

  predicate Marked(line: string) { MARK <= line }

  /** The expression is anchored at "+CMGL:". */
  ghost predicate Anchored(py: Python) { forall line :: py.header(line).Some? ==> Marked(line) }

  /** "\n".join(lines) */
  function JoinLines(lines: seq<string>): string { Join(lines, '\n') }

  /** The next line that starts with "+CMGL:", or the end of the list. */
  function NextMark(lines: seq<string>, from: nat): (j: nat)
    requires from <= |lines|
    ensures from <= j <= |lines|
    ensures j < |lines| ==> Marked(lines[j])
    ensures forall k :: from <= k < j ==> !Marked(lines[k])
    decreases |lines| - from
  {
    if from == |lines| || Marked(lines[from]) then from else NextMark(lines, from + 1)
  }

  /** The message whose header stands at line `i`. */
  function MessageAt(py: Python, lines: seq<string>, i: nat): Sms
    requires i < |lines| && py.header(lines[i]).Some?
  {
    var h := py.header(lines[i]).value;
    Sms(h.index, h.sender, py.strip(JoinLines(lines[i + 1..NextMark(lines, i + 1)])), h.receivedAtMs)
  }

  /** The specification looks at every line: one message for each that matches,
      in order. */
  function Messages(py: Python, lines: seq<string>, from: nat): seq<Sms>
    requires from <= |lines|
    decreases |lines| - from
  {
    if from == |lines| then []
    else (if py.header(lines[from]).Some? then [MessageAt(py, lines, from)] else []) + Messages(py, lines, from + 1)
  }

  /** No line of a body can be a header, so passing over a body misses none. */
  lemma {:induction false} BodiesHoldNoHeader(py: Python, lines: seq<string>, from: nat, to: nat)
    requires Anchored(py) && from <= to <= |lines| && forall k :: from <= k < to ==> !Marked(lines[k])
    ensures Messages(py, lines, from) == Messages(py, lines, to)
    decreases |lines| - from
  {
    if from < to {
      BodiesHoldNoHeader(py, lines, from + 1, to);
    }
  }

  /** A text that splits at line breaks into exactly these lines. */
  predicate IsText(text: string, lines: seq<string>) {
    if lines == [] then text == "" else Split(text, '\n') == lines
  }

  predicate MadeOf(sms: Sms, py: Python, header: Header, text: string, body: seq<string>) {
    IsText(text, body) && sms == Sms(header.index, header.sender, py.strip(text), header.receivedAtMs)
  }

  ghost predicate ReadsAs(sms: Sms, py: Python, header: Header, body: seq<string>) {
    exists text :: MadeOf(sms, py, header, text, body)
  }

  /** The message of a header line has the header's index, sender and time, and as
      its body, stripped, the text of the lines up to the next header. */
  lemma MessageReads(py: Python, lines: seq<string>, i: nat, end: nat)
    requires i < |lines| && py.header(lines[i]).Some?
    requires i < end <= |lines| && (end < |lines| ==> "+CMGL:" <= lines[end])
    requires forall k :: i < k < end ==> !("+CMGL:" <= lines[k])
    requires forall k :: i < k < end ==> '\n' !in lines[k]
    ensures ReadsAs(MessageAt(py, lines, i), py, py.header(lines[i]).value, lines[i + 1..end])
  {
    var body := lines[i + 1..end];
    assert NextMark(lines, i + 1) == end by { MarkAt(lines, i + 1, end); }
    if body != [] {
      SplitJoin(body, '\n');
    }
    assert MadeOf(MessageAt(py, lines, i), py, py.header(lines[i]).value, JoinLines(body), body);
  }

  lemma MarkAt(lines: seq<string>, from: nat, end: nat)
    requires from <= end <= |lines| && (end < |lines| ==> Marked(lines[end])) && forall k :: from <= k < end ==> !Marked(lines[k])
    ensures NextMark(lines, from) == end
  {
  }

  /** A header line yields its message, and the rest comes after its body. */
  lemma MessageThenRest(py: Python, lines: seq<string>, i: nat, j: nat)
    requires Anchored(py) && i < j <= |lines| && py.header(lines[i]).Some?
    requires (j < |lines| ==> Marked(lines[j])) && forall k :: i < k < j ==> !Marked(lines[k])
    ensures Messages(py, lines, i) == [MessageAt(py, lines, i)] + Messages(py, lines, j)
    ensures MessageAt(py, lines, i) == Sms(py.header(lines[i]).value.index, py.header(lines[i]).value.sender,
                                           py.strip(JoinLines(lines[i + 1..j])), py.header(lines[i]).value.receivedAtMs)
  {
    hide Marked, JoinLines;
    MarkAt(lines, i + 1, j);
    BodiesHoldNoHeader(py, lines, i + 1, j);
  }

  /** _parse_cmgl_block, which jumps from a header to the end of its body. */
  method ParseCmglBlock(py: Python, lines: seq<string>) returns (out: seq<Sms>)
    requires Anchored(py)
    ensures out == Messages(py, lines, 0)
  {
    hide JoinLines, Marked, MessageAt, NextMark, Anchored;
    out := [];
    var i := 0;
    while i < |lines|
      invariant 0 <= i <= |lines|
      invariant out + Messages(py, lines, i) == Messages(py, lines, 0)
    {
      var m := py.header(lines[i]);
      if m.None? {
        i := i + 1;
        continue;
      }
      var bodyLines := [];
      var j := i + 1;
      while j < |lines| && !Marked(lines[j])
        invariant i + 1 <= j <= |lines| && bodyLines == lines[i + 1..j]
        invariant forall k :: i < k < j ==> !Marked(lines[k])
      {
        bodyLines := bodyLines + [lines[j]];
        j := j + 1;
      }
      MessageThenRest(py, lines, i, j);
      var sms := Sms(m.value.index, m.value.sender, py.strip(JoinLines(bodyLines)), m.value.receivedAtMs);
      assert out + ([sms] + Messages(py, lines, j)) == out + [sms] + Messages(py, lines, j);
      out := out + [sms];
      i := j;
    }
  }

  /** No line feeds two messages: the body of one ends before the header of the
      next, so bodies and headers partition the lines they use. */
  lemma BodiesApart(py: Python, lines: seq<string>, i: nat, j: nat)
    requires Anchored(py) && i < j < |lines| && py.header(lines[i]).Some? && py.header(lines[j]).Some?
    ensures i < NextMark(lines, i + 1) <= j
  {
    assert Marked(lines[j]);
  }

  /** How many header lines there are from a line on. */
  function HeaderCount(py: Python, lines: seq<string>, from: nat): nat
    requires from <= |lines|
    decreases |lines| - from
  {
    if from == |lines| then 0 else (if py.header(lines[from]).Some? then 1 else 0) + HeaderCount(py, lines, from + 1)
  }

  /** Exactly one message for each header line; the k-th header line yields the
      k-th message. */
  lemma {:induction false} OneMessageEach(py: Python, lines: seq<string>, from: nat, i: nat)
    requires from <= i < |lines| && py.header(lines[i]).Some?
    ensures |Messages(py, lines, from)| == HeaderCount(py, lines, from)
    ensures HeaderCount(py, lines, i) <= HeaderCount(py, lines, from)
    ensures var k := HeaderCount(py, lines, from) - HeaderCount(py, lines, i);
      k < |Messages(py, lines, from)| && Messages(py, lines, from)[k] == MessageAt(py, lines, i)
    decreases |lines| - from
  {
    CountMatches(py, lines, from);
    if from < i {
      OneMessageEach(py, lines, from + 1, i);
    }
  }

  lemma {:induction false} CountMatches(py: Python, lines: seq<string>, from: nat)
    requires from <= |lines|
    ensures |Messages(py, lines, from)| == HeaderCount(py, lines, from)
    decreases |lines| - from
  {
    if from < |lines| {
      CountMatches(py, lines, from + 1);
    }
  }
}

/**
 * Byte-level front matter framing (pkg/document/parser.go).
 *
 * `Split` is the reference: a plain left-to-right scan for the closing delimiter.
 * `FindClosingDelimiter` and `SplitFrontMatter` are the loops of the source, which
 * jump four bytes after a miss; they are proved to compute the reference.
 */
module FrontMatter {
  import opened Wrappers

  newtype byte = x: int | 0 <= x < 256

  const NL: byte := 10
  const CR: byte := 13
  const DASH: byte := 45

  const DASHES: seq<byte> := [DASH, DASH, DASH]

  datatype Parts = Parts(header: seq<byte>, body: seq<byte>)

  /** "\n---" starts at `i` in `s`. */
  predicate IsMark(s: seq<byte>, i: int) {
    0 <= i && i + 4 <= |s| && s[i] == NL && s[i + 1] == DASH && s[i + 2] == DASH && s[i + 3] == DASH
  }

  /** "\n---" followed by a newline, a carriage return or the end starts at `i`. */
  predicate IsClosing(s: seq<byte>, i: int) {
    IsMark(s, i) && (i + 4 == |s| || s[i + 4] == NL || s[i + 4] == CR)
  }

  ghost predicate NoClosing(s: seq<byte>) {
    forall i :: !IsClosing(s, i)
  }

  /** The reference scan: the first closing delimiter at or after `i`, or -1. */
  function ClosingFrom(s: seq<byte>, i: nat): (r: int)
    ensures r == -1 || r >= i
    ensures r == -1 ==> forall j :: i <= j ==> !IsClosing(s, j)
    ensures r != -1 ==> IsClosing(s, r) && forall j :: i <= j < r ==> !IsClosing(s, j)
    decreases |s| - i
  {
    if i + 4 > |s| then -1
    else if IsClosing(s, i) then i
    else ClosingFrom(s, i + 1)
  }

  /** The first newline at or after `i`, or -1. */
  function NewlineFrom(s: seq<byte>, i: nat): (r: int)
    ensures r == -1 ==> forall j :: i <= j < |s| ==> s[j] != NL
    ensures r != -1 ==> i <= r < |s| && s[r] == NL && forall j :: i <= j < r ==> s[j] != NL
    decreases |s| - i
  {
    if i >= |s| then -1 else if s[i] == NL then i else NewlineFrom(s, i + 1)
  }

  /** bytes.TrimRight(line, "\r"). */
  function TrimRightCR(line: seq<byte>): (r: seq<byte>)
    ensures r <= line
    ensures forall j :: |r| <= j < |line| ==> line[j] == CR
    ensures r == [] || r[|r| - 1] != CR
  {
    if line != [] && line[|line| - 1] == CR then TrimRightCR(line[..|line| - 1]) else line
  }

  predicate IsDelimiter(line: seq<byte>) {
    TrimRightCR(line) == DASHES
  }

  /** The body that follows the closing dashes, after one optional CR and one newline. */
  function BodyOf(tail: seq<byte>): seq<byte> {
    var t := if tail != [] && tail[0] == CR then tail[1..] else tail;
    if t != [] && t[0] == NL then t[1..] else []
  }

  function Split(raw: seq<byte>): Option<Parts> {
    var firstNL := NewlineFrom(raw, 0);
    if firstNL == -1 || !IsDelimiter(raw[..firstNL]) then None
    else
      var content := raw[firstNL + 1..];
      var at := ClosingFrom(content, 0);
      if at == -1 then None
      else Some(Parts(content[..at + 1], BodyOf(content[at + 4..])))
  }

  // ---------------------------------------------------------------------
  // The loops of the source
  // ---------------------------------------------------------------------

  /** bytes.Index(s, "\n---"). */
  method IndexMark(s: seq<byte>) returns (r: int)
    ensures r == -1 ==> forall j :: !IsMark(s, j)
    ensures r != -1 ==> IsMark(s, r) && forall j :: j < r ==> !IsMark(s, j)
  {
    r := 0;
    while r + 4 <= |s|
      invariant 0 <= r
      invariant forall j :: j < r ==> !IsMark(s, j)
    {
      if IsMark(s, r) { return; }
      r := r + 1;
    }
    return -1;
  }

  method FindClosingDelimiter(content: seq<byte>) returns (r: int)
    ensures r == -1 <==> NoClosing(content)
    ensures r != -1 ==> IsClosing(content, r) && forall j :: j < r ==> !IsClosing(content, j)
    ensures r == ClosingFrom(content, 0)
  {
    var offset := 0;
    while true
      invariant 0 <= offset <= |content|
      invariant forall j :: j < offset ==> !IsClosing(content, j)
      decreases |content| - offset
    {
      var idx := IndexMark(content[offset..]);
      // No mark lies between `offset` and the occurrence found.
      assert forall j :: offset <= j && (idx == -1 || j < offset + idx) ==>
        (IsMark(content, j) ==> IsMark(content[offset..], j - offset));
      if idx == -1 { return -1; }
      var abs := offset + idx;
      assert IsMark(content, abs);
      var after := content[abs + 4..];
      if |after| == 0 || after[0] == NL || after[0] == CR {
        assert IsClosing(content, abs);
        return abs;
      }
      offset := abs + 4;
    }
  }

  method SplitFrontMatter(raw: seq<byte>) returns (r: Option<Parts>)
    ensures r == Split(raw)
  {
    var firstNL := 0;
    while firstNL < |raw| && raw[firstNL] != NL
      invariant 0 <= firstNL <= |raw|
      invariant NewlineFrom(raw, 0) == NewlineFrom(raw, firstNL)
    {
      firstNL := firstNL + 1;
    }
    if firstNL == |raw| || !IsDelimiter(raw[..firstNL]) { return None; }
    var content := raw[firstNL + 1..];
    var closing := FindClosingDelimiter(content);
    if closing == -1 { return None; }
    var header := content[..closing + 1];
    var after := content[closing + 4..];
    if |after| > 0 && after[0] == CR { after := after[1..]; }
    var body := [];
    if |after| > 0 && after[0] == NL { body := after[1..]; }
    return Some(Parts(header, body));
  }

  // ---------------------------------------------------------------------
  // Every successful split is a unique decomposition of the input
  // ---------------------------------------------------------------------

  ghost predicate EndsInNewline(s: seq<byte>) {
    s != [] && s[|s| - 1] == NL
  }

  function Content(header: seq<byte>, tail: seq<byte>): seq<byte> {
    header + (DASHES + tail)
  }

  function Whole(open: seq<byte>, content: seq<byte>): seq<byte> {
    open + ([NL] + content)
  }

  /** `raw` is an opening line, a header and a closing line whose rest is `tail`. */
  ghost predicate Decomposes(raw: seq<byte>, open: seq<byte>, header: seq<byte>, tail: seq<byte>) {
    && raw == Whole(open, Content(header, tail))
    && IsDelimiter(open)
    && EndsInNewline(header) && NoClosing(header)
    && (tail == [] || tail[0] == NL || tail[0] == CR)
  }

  /** The closing line carries a CR that neither a newline nor the end of input follows. */
  ghost predicate StrayCR(tail: seq<byte>) {
    |tail| >= 2 && tail[0] == CR && tail[1] != NL
  }

  /** After the closing dashes stand one line ending and the body; without a newline there is no body. */
  ghost predicate KeepsEveryByte(tail: seq<byte>) {
    || tail == [NL] + BodyOf(tail) || tail == [CR, NL] + BodyOf(tail)
    || ((tail == [] || tail == [CR]) && BodyOf(tail) == [])
  }

  lemma DelimiterHasNoNewline(line: seq<byte>)
    requires IsDelimiter(line)
    ensures forall j :: 0 <= j < |line| ==> line[j] != NL
  {
    var t := TrimRightCR(line);
    assert t == line[..3];
    forall j | 0 <= j < |line| ensures line[j] != NL {
      if j < 3 { assert line[j] == t[j]; }
    }
  }

  /** Inside header + "---" + tail, the header's final newline is the first closing delimiter. */
  lemma ClosingOfContent(header: seq<byte>, tail: seq<byte>)
    requires EndsInNewline(header) && NoClosing(header)
    requires tail == [] || tail[0] == NL || tail[0] == CR
    ensures ClosingFrom(Content(header, tail), 0) == |header| - 1
  {
    var c := Content(header, tail);
    var n := |header| - 1;
    assert IsClosing(c, n);
    forall j | j < n ensures !IsClosing(c, j) {
      if IsClosing(c, j) {
        assert c[n] == NL;
        assert j + 4 <= n;  // otherwise one of the dashes would be that newline
        assert forall k :: j <= k <= j + 4 ==> c[k] == header[k];
        assert IsClosing(header, j);
      }
    }
  }

  lemma WholeSlices(open: seq<byte>, content: seq<byte>)
    requires forall j :: 0 <= j < |open| ==> open[j] != NL
    ensures NewlineFrom(Whole(open, content), 0) == |open|
    ensures Whole(open, content)[..|open|] == open
    ensures Whole(open, content)[|open| + 1..] == content
  {
    var raw := Whole(open, content);
    assert raw[|open|] == NL;
    assert forall j :: 0 <= j < |open| ==> raw[j] == open[j];
  }

  lemma SplitOfDecomposed(raw: seq<byte>, open: seq<byte>, header: seq<byte>, tail: seq<byte>)
    requires Decomposes(raw, open, header, tail)
    ensures Split(raw) == Some(Parts(header, BodyOf(tail)))
    ensures NewlineFrom(raw, 0) == |open|
  {
    DelimiterHasNoNewline(open);
    var content := Content(header, tail);
    WholeSlices(open, content);
    ClosingOfContent(header, tail);
    assert content[..|header|] == header;
    assert content[|header| + 3..] == tail;
  }

  lemma HeaderHasNoClosing(content: seq<byte>, at: nat)
    requires at < |content| && content[at] == NL
    requires forall j :: j < at ==> !IsClosing(content, j)
    ensures EndsInNewline(content[..at + 1]) && NoClosing(content[..at + 1])
  {
    var header := content[..at + 1];
    assert header[at] == NL;
    forall j ensures !IsClosing(header, j) {
      if IsClosing(header, j) {
        assert j + 4 <= at;  // the last byte is a newline, not a dash
        assert forall k :: j <= k <= j + 4 ==> header[k] == content[k];
        assert IsClosing(content, j);
      }
    }
  }

  lemma ContentAround(content: seq<byte>, at: nat)
    requires IsMark(content, at)
    ensures content == Content(content[..at + 1], content[at + 4..])
  {
    assert content[at + 1..at + 4] == DASHES;
    assert content == content[..at + 1] + content[at + 1..];
    assert content[at + 1..] == content[at + 1..at + 4] + content[at + 4..];
  }

  lemma WholeAround(raw: seq<byte>, nl: nat)
    requires nl < |raw| && raw[nl] == NL
    ensures raw == Whole(raw[..nl], raw[nl + 1..])
  {
    assert raw[nl..] == [NL] + raw[nl + 1..];
    assert raw == raw[..nl] + raw[nl..];
  }

  lemma PartsDecompose(raw: seq<byte>, nl: nat, content: seq<byte>, at: nat)
    requires nl < |raw| && raw[nl] == NL && IsDelimiter(raw[..nl])
    requires content == raw[nl + 1..]
    requires IsClosing(content, at) && forall j :: j < at ==> !IsClosing(content, j)
    ensures Decomposes(raw, raw[..nl], content[..at + 1], content[at + 4..])
  {
    HeaderHasNoClosing(content, at);
    ContentAround(content, at);
    WholeAround(raw, nl);
    var tail := content[at + 4..];
    if tail != [] { assert tail[0] == content[at + 4]; }
  }

  /** A successful split exhibits the decomposition it found. */
  lemma SplitDecomposes(raw: seq<byte>) returns (open: seq<byte>, tail: seq<byte>)
    requires Split(raw).Some?
    ensures Decomposes(raw, open, Split(raw).value.header, tail)
    ensures Split(raw).value.body == BodyOf(tail)
  {
    var nl := NewlineFrom(raw, 0);
    open := raw[..nl];
    var content := raw[nl + 1..];
    var at := FirstClosing(content);
    tail := content[at + 4..];
    assert Split(raw) == Some(Parts(content[..at + 1], BodyOf(tail)));
    PartsDecompose(raw, nl, content, at);
  }

  lemma FirstClosing(content: seq<byte>) returns (at: nat)
    requires ClosingFrom(content, 0) != -1
    ensures at == ClosingFrom(content, 0) && IsClosing(content, at) && forall j :: j < at ==> !IsClosing(content, j)
  {
    at := ClosingFrom(content, 0);
  }

  lemma DecompositionIsUnique(raw: seq<byte>, o: seq<byte>, h: seq<byte>, t: seq<byte>,
                              o': seq<byte>, h': seq<byte>, t': seq<byte>)
    requires Decomposes(raw, o, h, t) && Decomposes(raw, o', h', t')
    ensures o == o' && h == h' && t == t'
  {
    PartsOfDecomposed(raw, o, h, t);
    PartsOfDecomposed(raw, o', h', t');
  }

  /** The parts of a decomposition, read off the input. */
  lemma PartsOfDecomposed(raw: seq<byte>, o: seq<byte>, h: seq<byte>, t: seq<byte>)
    requires Decomposes(raw, o, h, t)
    ensures NewlineFrom(raw, 0) == |o| && raw[..|o|] == o
    ensures Split(raw).Some? && Split(raw).value.header == h
    ensures |o| + |h| + 4 <= |raw| && raw[|o| + |h| + 4..] == t
  {
    SplitOfDecomposed(raw, o, h, t);
  }

  lemma BytesAreLostByStrayCR(tail: seq<byte>)
    requires tail == [] || tail[0] == NL || tail[0] == CR
    ensures KeepsEveryByte(tail) <==> !StrayCR(tail)
  {
    if StrayCR(tail) {
      assert BodyOf(tail) == [];
    } else {
      assert tail == [] || tail == [CR] || tail == [NL] + tail[1..] || tail == [CR, NL] + tail[2..];
    }
  }

  /**
   * A split succeeds exactly on decomposable input, the decomposition is unique, the
   * result is its header and body, and bytes are lost exactly on a stray CR.
   */
  lemma SplitIsUniqueDecomposition(raw: seq<byte>)
    ensures Split(raw).Some? <==> exists o, h, t :: Decomposes(raw, o, h, t)
    ensures forall o, h, t, o', h', t' ::
              Decomposes(raw, o, h, t) && Decomposes(raw, o', h', t') ==> o == o' && h == h' && t == t'
    ensures forall o, h, t :: Decomposes(raw, o, h, t) ==>
              && Split(raw) == Some(Parts(h, BodyOf(t)))
              && (KeepsEveryByte(t) <==> !StrayCR(t))
  {
    if Split(raw).Some? {
      var o, t := SplitDecomposes(raw);
    }
    forall o, h, t | Decomposes(raw, o, h, t)
      ensures Split(raw) == Some(Parts(h, BodyOf(t)))
      ensures KeepsEveryByte(t) <==> !StrayCR(t)
    {
      SplitOfDecomposed(raw, o, h, t);
      BytesAreLostByStrayCR(t);
    }
    forall o, h, t, o', h', t' | Decomposes(raw, o, h, t) && Decomposes(raw, o', h', t')
      ensures o == o' && h == h' && t == t'
    {
      DecompositionIsUnique(raw, o, h, t, o', h', t');
    }
  }

  // ---------------------------------------------------------------------
  // Serialize's framing and its inverse
  // ---------------------------------------------------------------------

  /** The header bytes Serialize emits: the marshalled bytes, newline-terminated when non-empty. */
  function Terminated(yaml: seq<byte>): seq<byte> {
    if yaml != [] && yaml[|yaml| - 1] != NL then yaml + [NL] else yaml
  }

  function Frame(yaml: seq<byte>, body: seq<byte>): seq<byte> {
    DASHES + [NL] + Terminated(yaml) + DASHES + [NL] + body
  }

  method WriteFrame(yaml: seq<byte>, body: seq<byte>) returns (buf: seq<byte>)
    ensures buf == Frame(yaml, body)
  {
    buf := DASHES + [NL];
    buf := buf + yaml;
    if |yaml| > 0 && yaml[|yaml| - 1] != NL { buf := buf + [NL]; }
    buf := buf + DASHES + [NL];
    if body != [] { buf := buf + body; }
    assert DASHES + [NL] + yaml + [NL] == DASHES + [NL] + (yaml + [NL]);
  }

  lemma OpeningLineIsDelimiter()
    ensures IsDelimiter(DASHES)
  {
    assert DASHES[|DASHES| - 1] != CR;
  }

  /**
   * Splitting what Serialize framed returns the (terminated) header and the body, for
   * every body, exactly when the header is non-empty and holds no bare delimiter line.
   */
  lemma SplitInvertsFrame(yaml: seq<byte>, body: seq<byte>)
    ensures Split(Frame(yaml, body)) == Some(Parts(Terminated(yaml), body))
            <==> yaml != [] && NoClosing(Terminated(yaml))
  {
    var raw := Frame(yaml, body);
    var header := Terminated(yaml);
    OpeningLineIsDelimiter();
    if yaml != [] && NoClosing(header) {
      assert raw == Whole(DASHES, Content(header, [NL] + body));
      SplitOfDecomposed(raw, DASHES, header, [NL] + body);
    }
    if Split(raw) == Some(Parts(header, body)) {
      var open, tail := SplitDecomposes(raw);
    }
  }

  /** A delimiter line is three dashes and then carriage returns only. */
  lemma {:induction false} DelimiterExactlyWhen(line: seq<byte>)
    ensures IsDelimiter(line) <==>
            |line| >= 3 && line[..3] == [45, 45, 45] && forall j :: 3 <= j < |line| ==> line[j] == 13
    decreases |line|
  {
    if line != [] && line[|line| - 1] == CR {
      var init := line[..|line| - 1];
      DelimiterExactlyWhen(init);
      if |init| >= 3 { assert line[..3] == init[..3]; }
    } else if |line| >= 3 {
      assert line[|line| - 1] != CR;
    }
  }

  /** A line end with or without a carriage return. */
  function LineEnd(crlf: bool): seq<byte> {
    if crlf then [13, 10] else [10]
  }

  /** What a document with the given line ends after the opening and the closing dashes looks like. */
  function Framed(open: bool, header: seq<byte>, close: bool, body: seq<byte>): seq<byte> {
    [45, 45, 45] + LineEnd(open) + header + [45, 45, 45] + (LineEnd(close) + body)
  }

  lemma SplitOfFramed(open: bool, header: seq<byte>, tail: seq<byte>)
    requires EndsInNewline(header) && NoClosing(header)
    requires tail == [] || tail[0] == 10 || tail[0] == 13
    ensures Split([45, 45, 45] + LineEnd(open) + header + [45, 45, 45] + tail) == Some(Parts(header, BodyOf(tail)))
  {
    var raw := [45, 45, 45] + LineEnd(open) + header + [45, 45, 45] + tail;
    var first := if open then [45, 45, 45, 13] else [45, 45, 45];
    assert raw == Whole(first, Content(header, tail));
    DelimiterExactlyWhen(first);
    SplitOfDecomposed(raw, first, header, tail);
  }

  lemma BodyAfterLineEnd(close: bool, body: seq<byte>)
    ensures BodyOf(LineEnd(close) + body) == body
  {
    var tail := LineEnd(close) + body;
    if close { assert tail[1..][1..] == body; } else { assert tail[1..] == body; }
  }

  /**
   * With LF or CRLF after the opening and the closing dashes, alike or mixed: for every
   * newline-terminated header without a bare delimiter line and every body, splitting
   * returns exactly header and body.
   */
  lemma SplitInvertsLineEnds(header: seq<byte>, body: seq<byte>, open: bool, close: bool)
    requires EndsInNewline(header) && NoClosing(header)
    ensures Split(Framed(open, header, close, body)) == Some(Parts(header, body))
  {
    BodyAfterLineEnd(close, body);
    SplitOfFramed(open, header, LineEnd(close) + body);
  }

  /** A closing line without a newline ends a document without a body. */
  lemma NoNewlineNoBody(header: seq<byte>, rest: seq<byte>)
    requires EndsInNewline(header) && NoClosing(header)
    requires rest == [] || (rest[0] == 13 && (|rest| == 1 || rest[1] != 10))
    ensures Split([45, 45, 45, 10] + header + [45, 45, 45] + rest) == Some(Parts(header, []))
  {
    SplitOfFramed(false, header, rest);
    assert [45, 45, 45, 10] == [45, 45, 45] + LineEnd(false);
  }

  /** The frame is the LF document of the header, which ends in a newline and gains one only if it has none. */
  lemma FrameIsFramed(yaml: seq<byte>, body: seq<byte>)
    ensures Frame(yaml, body) == Framed(false, Terminated(yaml), false, body)
    ensures yaml == [] ==> Terminated(yaml) == []
    ensures yaml != [] ==> EndsInNewline(Terminated(yaml))
    ensures EndsInNewline(yaml) ==> Terminated(yaml) == yaml
    ensures yaml != [] && !EndsInNewline(yaml) ==> Terminated(yaml) == yaml + [10]
  {
    assert DASHES + [NL] + Terminated(yaml) + DASHES + [NL] + body == Framed(false, Terminated(yaml), false, body);
  }
}

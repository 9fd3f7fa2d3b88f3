/** Splitting a byte stream into events: what the incremental splitter yields,
    against the line-by-line reading of the WHATWG HTML standard, section 9.2.6. */
module SseFramingSpec {
  import opened Wrappers

  newtype byte = x: int | 0 <= x < 256

  type Bytes = seq<byte>

  const LF: byte := 10
  const CR: byte := 13
  const SPACE: byte := 32
  const COLON: byte := 58
  const LFLF: Bytes := [LF, LF]
  const CRLFCRLF: Bytes := [CR, LF, CR, LF]
  const EVENT: Bytes := [101, 118, 101, 110, 116]
  const DATA: Bytes := [100, 97, 116, 97]

  datatype Frame = Frame(event: Bytes, data: Bytes)

  // ---- Finding the end of a frame ------------------------------------------------------------

  predicate At(data: Bytes, pattern: Bytes, i: nat) {
    i + |pattern| <= |data| && data[i..i + |pattern|] == pattern
  }

  /** The first place the pattern occurs at or after `from`. */
  function Find(data: Bytes, pattern: Bytes, from: nat): (i: Option<nat>)
    ensures i.Some? ==> from <= i.value && At(data, pattern, i.value)
    ensures forall k :: from <= k && (i.Some? ==> k < i.value) ==> !At(data, pattern, k)
    decreases |data| - from
  {
    if from + |pattern| > |data| then None
    else if At(data, pattern, from) then Some(from)
    else Find(data, pattern, from + 1)
  }

  /** The end of the first frame and the start of the next: whichever
      terminator comes first. */
  function Cut(data: Bytes): (c: Option<(nat, nat)>)
    ensures c.Some? ==> c.value.0 < c.value.1 <= |data|
  {
    var lf, crlf := Find(data, LFLF, 0), Find(data, CRLFCRLF, 0);
    if lf.Some? && (crlf.None? || lf.value < crlf.value) then Some((lf.value, lf.value + 2))
    else if crlf.Some? then Some((crlf.value, crlf.value + 4))
    else None
  }

  /** The split function handed to the scanner: how far to advance, and the
      frame, if one is complete. */
  function SplitFrames(data: Bytes, atEof: bool): (nat, Option<Bytes>) {
    if atEof && data == [] then (0, None)
    else if Cut(data).Some? then (Cut(data).value.1, Some(data[..Cut(data).value.0]))
    else if atEof then (|data|, Some(data))
    else (0, None)
  }

  // ---- Decoding one frame -------------------------------------------------------------------------

  /** The pieces between line feeds: always one more than there are. */
  function SplitLines(raw: Bytes): (lines: seq<Bytes>)
    ensures lines != []
  {
    var i := Find(raw, [LF], 0);
    if i.None? then [raw] else [raw[..i.value]] + SplitLines(raw[i.value + 1..])
  }

  function TrimCr(line: Bytes): Bytes {
    if line != [] && Last(line) == CR then Front(line) else line
  }

  /** Name and value around the first colon, a space after it dropped. */
  function Field(line: Bytes): (Bytes, Bytes) {
    var i := Find(line, [COLON], 0);
    if i.None? then (line, [])
    else
      var value := line[i.value + 1..];
      (line[..i.value], if value != [] && value[0] == SPACE then value[1..] else value)
  }

  predicate Ignored(line: Bytes) { line == [] || line[0] == COLON }

  /** The event name and the data lines collected so far. */
  datatype Fields = Fields(event: Bytes, data: seq<Bytes>)
  {
    function Take(line: Bytes): Fields {
      if Ignored(line) then this
      else if Field(line).0 == EVENT then Fields(Field(line).1, data)
      else if Field(line).0 == DATA then Fields(event, data + [Field(line).1])
      else this
    }
  }

  function TakeAll(f: Fields, lines: seq<Bytes>): Fields
    decreases |lines|
  {
    if lines == [] then f else TakeAll(f.Take(TrimCr(lines[0])), lines[1..])
  }

  function Join(lines: seq<Bytes>): Bytes {
    if lines == [] then [] else if |lines| == 1 then lines[0] else lines[0] + [LF] + Join(lines[1..])
  }

  function Finished(f: Fields): Option<Frame> {
    if f.data == [] then None else Some(Frame(f.event, Join(f.data)))
  }

  /** The frame's event, unless it carries no data. */
  function ParseFrame(raw: Bytes): Option<Frame> { Finished(TakeAll(Fields([], []), SplitLines(raw))) }

  // ---- A whole stream ---------------------------------------------------------------------------------

  datatype Step = Token(raw: Bytes, rest: Bytes) | TooLong | End

  /** The next frame of a stream when at most cap bytes may be buffered. */
  function NextToken(stream: Bytes, cap: nat): (step: Step)
    ensures step.Token? ==> |step.rest| < |stream|
  {
    var c := Cut(stream);
    if stream == [] then End
    else if c.Some? && c.value.1 <= cap then Token(stream[..c.value.0], stream[c.value.1..])
    else if c.None? && |stream| < cap then Token(stream, [])
    else TooLong
  }

  /** The events of a stream, and whether it ended with a frame over the cap. */
  function Scan(stream: Bytes, cap: nat): (seq<Frame>, bool)
    decreases |stream|
  {
    var step := NextToken(stream, cap);
    if step.Token? then
      var (frames, over) := Scan(step.rest, cap);
      var frame := ParseFrame(step.raw);
      (if frame.Some? then [frame.value] + frames else frames, over)
    else ([], step.TooLong?)
  }

  /** The events of a stream when nothing is too long. */
  function Events(stream: Bytes): seq<Frame>
    decreases |stream|
  {
    if stream == [] then []
    else if Cut(stream).None? then Parsed(stream)
    else Parsed(stream[..Cut(stream).value.0]) + Events(stream[Cut(stream).value.1..])
  }

  function Parsed(raw: Bytes): seq<Frame> {
    if ParseFrame(raw).Some? then [ParseFrame(raw).value] else []
  }

  lemma {:induction false} ScanIsEvents(stream: Bytes, cap: nat)
    requires |stream| < cap
    ensures Scan(stream, cap) == (Events(stream), false)
    decreases |stream|
  {
    if stream != [] {
      var step := NextToken(stream, cap);
      ScanIsEvents(step.rest, cap);
      assert Parsed(step.raw) + [] == Parsed(step.raw) && [] + Events(step.rest) == Events(step.rest);
    }
  }

  // ---- Terminators in a growing buffer -------------------------------------------------------------

  lemma AtStays(p: Bytes, q: Bytes, pattern: Bytes, i: nat)
    requires At(p, pattern, i)
    ensures At(p + q, pattern, i)
  {
    assert (p + q)[i..i + |pattern|] == p[i..i + |pattern|];
  }

  lemma AtWithin(p: Bytes, q: Bytes, pattern: Bytes, i: nat)
    requires At(p + q, pattern, i) && i + |pattern| <= |p|
    ensures At(p, pattern, i)
  {
    assert (p + q)[i..i + |pattern|] == p[i..i + |pattern|];
  }

  lemma AtChars(data: Bytes, i: nat)
    ensures At(data, LFLF, i) <==> i + 1 < |data| && data[i] == LF && data[i + 1] == LF
    ensures At(data, CRLFCRLF, i) <==>
              i + 3 < |data| && data[i] == CR && data[i + 1] == LF && data[i + 2] == CR && data[i + 3] == LF
  {
    if i + 2 <= |data| { assert data[i..i + 2] == [data[i], data[i + 1]]; }
    if i + 4 <= |data| { assert data[i..i + 4] == [data[i], data[i + 1], data[i + 2], data[i + 3]]; }
  }

  /** The first place of a pattern in a prefix is its first in the whole. */
  lemma FindStable(p: Bytes, q: Bytes, pattern: Bytes)
    ensures var a, b := Find(p, pattern, 0), Find(p + q, pattern, 0);
            && (a.Some? ==> b == a)
            && (a.None? && b.Some? ==> b.value + |pattern| > |p|)
  {
    var a, b := Find(p, pattern, 0), Find(p + q, pattern, 0);
    if a.Some? { AtStays(p, q, pattern, a.value); }
    if b.Some? && b.value + |pattern| <= |p| { AtWithin(p, q, pattern, b.value); }
  }

  /** The first frame end found in a prefix is the first of the whole stream,
      although a CRLF CRLF terminator may straddle the prefix's end. */
  lemma CutStable(p: Bytes, q: Bytes)
    requires Cut(p).Some?
    ensures Cut(p + q) == Cut(p)
  {
    hide Find, At;
    FindStable(p, q, LFLF);
    FindStable(p, q, CRLFCRLF);
    var lf, crlf := Find(p + q, LFLF, 0), Find(p + q, CRLFCRLF, 0);
    if lf.Some? { AtChars(p + q, lf.value); }
    if crlf.Some? { AtChars(p + q, crlf.value); }
  }

  /** A frame end inside a prefix is found there. */
  lemma CutWithin(s: Bytes, n: nat)
    requires n <= |s| && Cut(s).Some? && Cut(s).value.1 <= n
    ensures Cut(s[..n]).Some?
  {
    assert s == s[..n] + s[n..];
    var lf, crlf := Find(s, LFLF, 0), Find(s, CRLFCRLF, 0);
    if lf.Some? && lf.value + 2 <= n { AtWithin(s[..n], s[n..], LFLF, lf.value); }
    if crlf.Some? && crlf.value + 4 <= n { AtWithin(s[..n], s[n..], CRLFCRLF, crlf.value); }
  }

  // ---- Where the splitter splits ----------------------------------------------------------------------

  /** A blank line follows the line ended by the line feed at k. */
  predicate BlankAfter(data: Bytes, k: nat) {
    k < |data| && data[k] == LF && (LfAt(data, k + 1) || CrLfAt(data, k + 1))
  }

  predicate LfAt(data: Bytes, k: nat) { k < |data| && data[k] == LF }

  predicate CrLfAt(data: Bytes, k: nat) { k + 1 < |data| && data[k] == CR && data[k + 1] == LF }

  predicate FirstBlankAfter(data: Bytes, k: nat) {
    BlankAfter(data, k) && forall j: nat :: j < k ==> !BlankAfter(data, j)
  }

  /** A blank line ended by CRLF after a line ended by a bare line feed. */
  predicate MixedBlank(data: Bytes, k: nat) { CrLfAt(data, k + 1) && !(k > 0 && data[k - 1] == CR) }

  /** Where a frame ends whose last line is ended by the line feed at k, and
      where the next one starts. */
  function BlankCut(data: Bytes, k: nat): (nat, nat)
    requires BlankAfter(data, k)
  {
    if LfAt(data, k + 1) then (k, k + 2) else if k > 0 then (k - 1, k + 3) else (0, k + 3)
  }

  /** The splitter ends a frame at its first blank line if and only if that is
      not a CRLF after a bare line feed: a stream that mixes line endings that
      way is not split there. */
  lemma SplitsAtFirstBlank(data: Bytes, k: nat)
    requires FirstBlankAfter(data, k)
    ensures Cut(data) == Some(BlankCut(data, k)) <==> !MixedBlank(data, k)
    ensures Cut(data).Some? ==> Cut(data).value.1 >= BlankCut(data, k).1
  {
    hide Find, At;
    var lf, crlf := Find(data, LFLF, 0), Find(data, CRLFCRLF, 0);
    AtChars(data, k);
    if k > 0 { AtChars(data, k - 1); }
    if lf.Some? {
      AtChars(data, lf.value);
      assert BlankAfter(data, lf.value);
    }
    if crlf.Some? {
      AtChars(data, crlf.value);
      assert BlankAfter(data, crlf.value + 1);
    }
  }

  /** Without a blank line there is nothing to split. */
  lemma NoBlankNoCut(data: Bytes)
    requires Cut(data).Some?
    ensures exists k :: FirstBlankAfter(data, k)
  {
    var lf, crlf := Find(data, LFLF, 0), Find(data, CRLFCRLF, 0);
    if lf.Some? {
      AtChars(data, lf.value);
      FirstOf(data, lf.value);
    } else {
      AtChars(data, crlf.value);
      FirstOf(data, crlf.value + 1);
    }
  }

  lemma {:induction false} FirstOf(data: Bytes, n: nat)
    requires BlankAfter(data, n)
    ensures exists k :: FirstBlankAfter(data, k)
    decreases n
  {
    if exists j: nat :: j < n && BlankAfter(data, j) {
      var j: nat :| j < n && BlankAfter(data, j);
      FirstOf(data, j);
    } else {
      assert FirstBlankAfter(data, n);
    }
  }
}

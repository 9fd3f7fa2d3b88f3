/** The line-by-line reading of an event stream, section 9.2.6 of the WHATWG HTML
    standard, and when the splitter reads a stream the same way. */
module SseStandard {
  import opened SseFramingSpec
  import opened Wrappers

  // ---- The standard's reading ------------------------------------------------------------------

  /** The first line feed or carriage return. */
  function FirstEnd(stream: Bytes, from: nat): (i: Option<nat>)
    ensures i.Some? ==> from <= i.value < |stream| && (stream[i.value] == LF || stream[i.value] == CR)
    ensures forall k :: from <= k < |stream| && (i.Some? ==> k < i.value) ==> stream[k] != LF && stream[k] != CR
    decreases |stream| - from
  {
    if from >= |stream| then None
    else if stream[from] == LF || stream[from] == CR then Some(from)
    else FirstEnd(stream, from + 1)
  }

  /** The complete lines, each ended by CRLF, LF or CR. */
  function Lines(stream: Bytes): seq<Bytes>
    decreases |stream|
  {
    var e := FirstEnd(stream, 0);
    if e.None? then []
    else [stream[..e.value]] + Lines(stream[e.value + (if CrLfAt(stream, e.value) then 2 else 1)..])
  }

  /** The event type and data buffers, and the events dispatched. */
  datatype Reader = Reader(eventType: Bytes, data: Bytes, events: seq<Frame>)
  {
    function Line(line: Bytes): Reader {
      if line == [] then Dispatch()
      else if line[0] == COLON then this
      else if Field(line).0 == EVENT then this.(eventType := Field(line).1)
      else if Field(line).0 == DATA then this.(data := data + Field(line).1 + [LF])
      else this
    }

    function Dispatch(): Reader {
      Reader([], [], if data == [] then events else events + [Frame(eventType, Front(data))])
    }
  }

  function Read(r: Reader, lines: seq<Bytes>): Reader
    decreases |lines|
  {
    if lines == [] then r else Read(r.Line(lines[0]), lines[1..])
  }

  /** The byte-order mark, of which one is dropped from the start of a stream. */
  const MARK: Bytes := [239, 187, 191]

  predicate Marked(stream: Bytes) { MARK <= stream }

  function Unmarked(stream: Bytes): Bytes { if Marked(stream) then stream[|MARK|..] else stream }

  /** The events dispatched for a decoded stream. */
  function Dispatched(stream: Bytes): seq<Frame> { Read(Reader([], [], []), Lines(stream)).events }

  /** The events the standard dispatches for a stream. */
  function Standard(stream: Bytes): seq<Frame> { Dispatched(Unmarked(stream)) }

  // ---- Lines ---------------------------------------------------------------------------------------

  /** Every carriage return is part of a CRLF. */
  predicate NoLoneCr(s: Bytes) {
    forall k :: 0 <= k < |s| && s[k] == CR ==> k + 1 < |s| && s[k + 1] == LF
  }

  function Trimmed(lines: seq<Bytes>): (r: seq<Bytes>)
    ensures |r| == |lines|
    ensures forall k :: 0 <= k < |lines| ==> r[k] == TrimCr(lines[k])
  {
    seq(|lines|, k requires 0 <= k < |lines| => TrimCr(lines[k]))
  }

  lemma AtOne(s: Bytes, b: byte, i: nat)
    ensures At(s, [b], i) <==> i < |s| && s[i] == b
  {
    if i < |s| { assert s[i..i + 1] == [s[i]]; }
  }

  lemma FindOne(s: Bytes, b: byte)
    ensures var i := Find(s, [b], 0);
            && (i.Some? ==> i.value < |s| && s[i.value] == b && b !in s[..i.value])
            && (i.None? ==> b !in s)
  {
    var i := Find(s, [b], 0);
    forall k: nat | k < |s| ensures At(s, [b], k) <==> s[k] == b { AtOne(s, b, k); }
    if i.Some? { AtOne(s, b, i.value); }
  }

  /** Splitting on line feeds and dropping the returns gives the standard's lines. */
  lemma {:induction false} SameLines(s: Bytes)
    requires NoLoneCr(s)
    ensures Lines(s + [LF]) == Trimmed(SplitLines(s))
    decreases |s|
  {
    hide Find, At, FirstEnd;
    var i := Find(s, [LF], 0);
    FindOne(s, LF);
    if i.None? {
      OneLine(s);
      assert Trimmed([s]) == [TrimCr(s)];
    } else {
      var n := i.value;
      var rest := s[n + 1..];
      FirstLine(s, n);
      SameLines(rest);
      assert Trimmed(SplitLines(s)) == [TrimCr(s[..n])] + Trimmed(SplitLines(rest));
    }
  }

  lemma OneLine(s: Bytes)
    requires NoLoneCr(s) && LF !in s
    ensures Lines(s + [LF]) == [TrimCr(s)]
  {
    var t := s + [LF];
    assert t[|s|] == LF && forall k :: 0 <= k < |s| ==> t[k] == s[k] && s[k] in s;
    forall k | 0 <= k < |s| ensures s[k] != LF && s[k] != CR {
      assert k + 1 < |s| ==> s[k + 1] in s;
    }
    assert FirstEnd(t, 0) == Some(|s|) && t[..|s|] == s && t[|s| + 1..] == [];
    assert Lines(t) == [s] + Lines([]);
  }

  lemma NoLoneCrAfter(s: Bytes, n: nat)
    requires NoLoneCr(s) && n <= |s|
    ensures NoLoneCr(s[n..])
  {
    forall k | 0 <= k < |s[n..]| && s[n..][k] == CR ensures k + 1 < |s[n..]| && s[n..][k + 1] == LF {
      assert s[n + k] == CR;
    }
  }

  /** The text of the first line, without its return, and what follows it. */
  lemma FirstText(s: Bytes, n: nat)
    requires n < |s| && s[n] == LF
    ensures var t := s + [LF];
            t[..if n > 0 && s[n - 1] == CR then n - 1 else n] == TrimCr(s[..n]) && t[n + 1..] == s[n + 1..] + [LF]
  {
  }

  lemma FirstLine(s: Bytes, n: nat)
    requires NoLoneCr(s) && n < |s| && s[n] == LF && LF !in s[..n]
    ensures NoLoneCr(s[n + 1..]) && Lines(s + [LF]) == [TrimCr(s[..n])] + Lines(s[n + 1..] + [LF])
  {
    NoLoneCrAfter(s, n + 1);
    FirstReturn(s, n);
    FirstText(s, n);
    hide FirstEnd, NoLoneCr, CrLfAt, TrimCr;
    var t, e := s + [LF], if n > 0 && s[n - 1] == CR then n - 1 else n;
    assert e + (if CrLfAt(t, e) then 2 else 1) == n + 1;
    assert Lines(t) == [t[..e]] + Lines(t[n + 1..]);
  }

  /** The first line end: the return before the first line feed, if any. */
  lemma FirstReturn(s: Bytes, n: nat)
    requires NoLoneCr(s) && n < |s| && s[n] == LF && LF !in s[..n]
    ensures var t := s + [LF];
            FirstEnd(t, 0) == Some(if n > 0 && s[n - 1] == CR then n - 1 else n)
            && (n > 0 && s[n - 1] == CR ==> CrLfAt(t, n - 1)) && !CrLfAt(t, n)
  {
    var t := s + [LF];
    assert forall k :: 0 <= k < |s| ==> t[k] == s[k];
    forall k | 0 <= k < n ensures s[k] != LF && (s[k] == CR ==> k + 1 == n) {
      assert s[k] in s[..n];
      assert k + 1 < n ==> s[k + 1] in s[..n];
    }
    assert t[n] == s[n] == LF;
  }

  lemma FirstOne(s: Bytes, b: byte, n: nat)
    requires n < |s| && s[n] == b && forall k :: 0 <= k < n ==> s[k] != b
    ensures Find(s, [b], 0) == Some(n)
  {
    var i := Find(s, [b], 0);
    AtOne(s, b, n);
    if i.Some? { AtOne(s, b, i.value); }
  }

  lemma SplitAt(s: Bytes, n: nat)
    requires n < |s| && s[n] == LF && forall k :: 0 <= k < n ==> s[k] != LF
    ensures SplitLines(s) == [s[..n]] + SplitLines(s[n + 1..])
  {
    FirstOne(s, LF, n);
  }

  lemma {:induction false} SplitAppend(a: Bytes, b: Bytes)
    ensures SplitLines(a + [LF] + b) == SplitLines(a) + SplitLines(b)
    decreases |a|
  {
    hide Find, At, SplitLines;
    var s := a + [LF] + b;
    assert s[|a|] == LF && forall k :: 0 <= k < |a| ==> s[k] == a[k];
    if LF !in a {
      NoLf(a);
      SplitAt(s, |a|);
      assert s[..|a|] == a && s[|a| + 1..] == b;
    } else {
      var n := FirstLfOf(a);
      var rest := a[n + 1..];
      SplitAt(a, n);
      SplitAt(s, n);
      assert s[..n] == a[..n] && s[n + 1..] == rest + [LF] + b;
      SplitAppend(rest, b);
      assert [a[..n]] + (SplitLines(rest) + SplitLines(b)) == [a[..n]] + SplitLines(rest) + SplitLines(b);
    }
  }

  lemma FirstLfOf(a: Bytes) returns (n: nat)
    requires LF in a
    ensures n < |a| && a[n] == LF && forall k :: 0 <= k < n ==> a[k] != LF
  {
    FindOne(a, LF);
    n := Find(a, [LF], 0).value;
    assert forall k :: 0 <= k < n ==> a[k] in a[..n];
  }

  // ---- Reading a frame's lines --------------------------------------------------------------------

  /** The data buffer the standard keeps for these data lines. */
  function Buffer(lines: seq<Bytes>): Bytes {
    if lines == [] then [] else Buffer(Front(lines)) + Last(lines) + [LF]
  }

  /** The standard's buffers hold these fields. */
  function Holding(f: Fields, events: seq<Frame>): Reader { Reader(f.event, Buffer(f.data), events) }

  const NO_FIELDS: Fields := Fields([], [])

  lemma {:induction false} BufferJoins(lines: seq<Bytes>)
    requires lines != []
    ensures Buffer(lines) == Join(lines) + [LF]
    decreases |lines|
  {
    if |lines| == 1 {
      assert Front(lines) == [] && [] + lines[0] + [LF] == lines[0] + [LF];
    } else {
      BufferJoins(lines[1..]);
      BufferFront(lines);
      assert lines[0] + [LF] + (Join(lines[1..]) + [LF]) == (lines[0] + [LF] + Join(lines[1..])) + [LF];
    }
  }

  lemma {:induction false} BufferFront(lines: seq<Bytes>)
    requires lines != []
    ensures Buffer(lines) == lines[0] + [LF] + Buffer(lines[1..])
    decreases |lines|
  {
    if |lines| == 1 {
      assert Front(lines) == [] && [] + lines[0] == lines[0];
      assert Buffer(lines[1..]) == [] && lines[0] + [LF] + [] == lines[0] + [LF];
    } else {
      BufferFront(Front(lines));
      var middle := Front(lines)[1..];
      assert middle == Front(lines[1..]) && Last(lines[1..]) == Last(lines);
      assert lines[0] + [LF] + Buffer(middle) + Last(lines) + [LF]
          == lines[0] + [LF] + (Buffer(middle) + Last(lines) + [LF]);
    }
  }

  lemma TakeReads(f: Fields, events: seq<Frame>, line: Bytes)
    requires line != []
    ensures Holding(f, events).Line(line) == Holding(f.Take(line), events)
  {
    hide Field;
    if !Ignored(line) && Field(line).0 == DATA {
      assert Front(f.data + [Field(line).1]) == f.data;
    }
  }

  lemma {:induction false} ReadAppend(r: Reader, a: seq<Bytes>, b: seq<Bytes>)
    ensures Read(r, a + b) == Read(Read(r, a), b)
    decreases |a|
  {
    if a == [] {
      assert a + b == b;
    } else {
      assert (a + b)[1..] == a[1..] + b;
      ReadAppend(r.Line(a[0]), a[1..], b);
    }
  }

  lemma {:induction false} LinesRead(f: Fields, events: seq<Frame>, lines: seq<Bytes>)
    requires forall k :: 0 <= k < |lines| ==> TrimCr(lines[k]) != []
    ensures Read(Holding(f, events), Trimmed(lines)) == Holding(TakeAll(f, lines), events)
    decreases |lines|
  {
    hide Holding, TrimCr, Fields.Take, Reader.Line;
    if lines != [] {
      TakeReads(f, events, TrimCr(lines[0]));
      assert Trimmed(lines)[1..] == Trimmed(lines[1..]) && Trimmed(lines)[0] == TrimCr(lines[0]);
      LinesRead(f.Take(TrimCr(lines[0])), events, lines[1..]);
    }
  }

  /** A blank line before anything is read changes nothing. */
  lemma BlankFirst(events: seq<Frame>)
    ensures Holding(NO_FIELDS, events).Line([]) == Holding(NO_FIELDS, events)
    ensures NO_FIELDS.Take([]) == NO_FIELDS
  {
  }

  lemma FrameRead(events: seq<Frame>, lines: seq<Bytes>)
    requires lines != [] && forall k :: 1 <= k < |lines| ==> TrimCr(lines[k]) != []
    ensures Read(Holding(NO_FIELDS, events), Trimmed(lines)) == Holding(TakeAll(NO_FIELDS, lines), events)
  {
    hide Holding, TrimCr, Reader.Line, Fields.Take;
    if TrimCr(lines[0]) == [] {
      BlankFirst(events);
      assert Trimmed(lines)[1..] == Trimmed(lines[1..]) && Trimmed(lines)[0] == [];
      LinesRead(NO_FIELDS, events, lines[1..]);
    } else {
      LinesRead(NO_FIELDS, events, lines);
    }
  }

  /** The blank line that ends a frame dispatches what the frame parses to. */
  lemma FrameEnds(f: Fields, events: seq<Frame>)
    ensures Holding(f, events).Line([]) ==
              Holding(NO_FIELDS, events + if Finished(f).Some? then [Finished(f).value] else [])
  {
    if f.data == [] {
      assert events + [] == events;
    } else {
      BufferJoins(f.data);
    }
  }

  // ---- Frames without blank lines inside --------------------------------------------------------------

  /** Every line feed is followed by something that starts a line. */
  predicate Tight(x: Bytes) {
    forall k :: 0 <= k < |x| && x[k] == LF ==> k + 1 < |x| && x[k + 1] != LF && x[k + 1] != CR
  }

  lemma TightAfter(x: Bytes, n: nat)
    requires Tight(x) && n <= |x|
    ensures Tight(x[n..])
  {
    forall k | 0 <= k < |x[n..]| && x[n..][k] == LF ensures k + 1 < |x[n..]| && x[n..][k + 1] != LF
        && x[n..][k + 1] != CR {
      assert x[n + k] == LF;
    }
  }

  /** A line that starts with neither line feed nor return is not blank. */
  lemma FirstNotBlank(x: Bytes)
    requires x != [] && x[0] != LF && x[0] != CR
    ensures TrimCr(SplitLines(x)[0]) != []
  {
    var i := Find(x, [LF], 0);
    FindOne(x, LF);
    if i.Some? { assert x[..i.value][0] == x[0]; }
  }

  lemma {:induction false} TightLines(x: Bytes)
    requires Tight(x)
    ensures forall k :: 1 <= k < |SplitLines(x)| ==> TrimCr(SplitLines(x)[k]) != []
    decreases |x|
  {
    hide TrimCr, At, Find;
    var i := Find(x, [LF], 0);
    FindOne(x, LF);
    if i.Some? {
      var n, rest := i.value, x[i.value + 1..];
      assert rest[0] == x[n + 1];
      TightAfter(x, n + 1);
      hide Tight;
      TightLines(rest);
      FirstNotBlank(rest);
      assert SplitLines(x) == [x[..n]] + SplitLines(rest);
    }
  }

  lemma TightRead(events: seq<Frame>, x: Bytes)
    requires Tight(x)
    ensures Read(Holding(NO_FIELDS, events), Trimmed(SplitLines(x)) + [[]]) == Holding(NO_FIELDS, events + Parsed(x))
  {
    hide Find, At, Holding, TrimCr, Reader.Line, Finished;
    TightLines(x);
    FrameRead(events, SplitLines(x));
    ReadAppend(Holding(NO_FIELDS, events), Trimmed(SplitLines(x)), [[]]);
    FrameEnds(TakeAll(NO_FIELDS, SplitLines(x)), events);
    assert Read(Holding(TakeAll(NO_FIELDS, SplitLines(x)), events), [[]])
        == Holding(TakeAll(NO_FIELDS, SplitLines(x)), events).Line([]);
  }

  // ---- The standard and the splitter ---------------------------------------------------------------------

  /** Every return is part of a CRLF and no blank line is a CRLF after a bare
      line feed.  Streams without returns and streams with only CRLF line ends
      are of this kind. */
  ghost predicate Regular(s: Bytes) {
    NoLoneCr(s) && forall k: nat :: BlankAfter(s, k) ==> !MixedBlank(s, k)
  }

  lemma UniformIsRegular(s: Bytes)
    requires CR !in s || (NoLoneCr(s) && forall k :: 0 <= k < |s| && s[k] == LF ==> k > 0 && s[k - 1] == CR)
    ensures Regular(s)
  {
  }

  lemma RegularAfter(s: Bytes, n: nat)
    requires Regular(s) && 0 < n <= |s| && s[n - 1] == LF
    ensures Regular(s[n..])
  {
    NoLoneCrAfter(s, n);
    forall k: nat | BlankAfter(s[n..], k) ensures !MixedBlank(s[n..], k) {
      assert BlankAfter(s, n + k);
    }
  }

  /** No blank line follows a line feed within the first n bytes. */
  lemma TightBefore(s: Bytes, n: nat)
    requires NoLoneCr(s) && n < |s| && (s[n] == LF || CrLfAt(s, n))
    requires forall k: nat :: k < n ==> !BlankAfter(s, k)
    ensures Tight(s[..n])
  {
    forall k | 0 <= k < n && s[k] == LF ensures k + 1 < n && s[k + 1] != LF && s[k + 1] != CR {
      assert !BlankAfter(s, k);
    }
  }

  /** A frame ended by a blank line, in the standard's lines. */
  lemma FrameLines(s: Bytes, k: nat)
    requires NoLoneCr(s) && FirstBlankAfter(s, k) && !MixedBlank(s, k)
    ensures var (end, next) := BlankCut(s, k);
            && end < next <= |s| && Tight(s[..end]) && s[next - 1] == LF
            && Trimmed(SplitLines(s)) == Trimmed(SplitLines(s[..end])) + [[]] + Trimmed(SplitLines(s[next..]))
  {
    hide Find, At, SplitLines, Tight;
    var (end, next) := BlankCut(s, k);
    var x, rest := s[..end], s[next..];
    TightBefore(s, end);
    if LfAt(s, k + 1) {
      Around(s, k);
      LfFrameLines(x, rest);
    } else {
      Around(s, k);
      if end > 0 { assert s[end - 1] != CR; }
      CrLfFrameLines(x, rest);
    }
  }

  lemma Around(s: Bytes, k: nat)
    requires BlankAfter(s, k) && !MixedBlank(s, k)
    ensures LfAt(s, k + 1) ==> s == s[..k] + [LF] + ([] + [LF] + s[k + 2..])
    ensures !LfAt(s, k + 1) ==> k > 0 && s == (s[..k - 1] + [CR]) + [LF] + ([CR] + [LF] + s[k + 3..])
  {
  }

  lemma LfFrameLines(x: Bytes, rest: Bytes)
    ensures Trimmed(SplitLines(x + [LF] + ([] + [LF] + rest)))
            == Trimmed(SplitLines(x)) + [[]] + Trimmed(SplitLines(rest))
  {
    hide Find, At, SplitLines;
    SplitAppend(x, [] + [LF] + rest);
    SplitAppend([], rest);
    NoLf([]);
  }

  lemma CrLfFrameLines(x: Bytes, rest: Bytes)
    requires x != [] ==> Last(x) != CR
    ensures Trimmed(SplitLines((x + [CR]) + [LF] + ([CR] + [LF] + rest)))
            == Trimmed(SplitLines(x)) + [[]] + Trimmed(SplitLines(rest))
  {
    hide Find, At, SplitLines;
    SplitAppend(x + [CR], [CR] + [LF] + rest);
    SplitAppend([CR], rest);
    NoLf([CR]);
    TrimmedReturn(x);
  }

  lemma NoLf(x: Bytes)
    requires LF !in x
    ensures SplitLines(x) == [x]
  {
    FindOne(x, LF);
  }

  lemma {:induction false} TrimmedReturn(x: Bytes)
    requires x != [] ==> Last(x) != CR
    ensures Trimmed(SplitLines(x + [CR])) == Trimmed(SplitLines(x))
    decreases |x|
  {
    hide At, Find;
    var i := Find(x, [LF], 0);
    FindOne(x, LF);
    if i.None? {
      NoLf(x);
      NoLf(x + [CR]);
      assert TrimCr(x + [CR]) == x && TrimCr(x) == x;
    } else {
      var n, rest := i.value, x[i.value + 1..];
      assert x == x[..n] + [LF] + rest && x + [CR] == x[..n] + [LF] + (rest + [CR]);
      TrimmedReturn(rest);
      SplitAppend(x[..n], rest);
      SplitAppend(x[..n], rest + [CR]);
    }
  }

  /** A stream with no blank line: at most its last line feed ends it. */
  lemma LastFrameRead(events: seq<Frame>, s: Bytes)
    requires NoLoneCr(s) && forall k: nat :: !BlankAfter(s, k)
    ensures Read(Holding(NO_FIELDS, events), Trimmed(SplitLines(s)) + [[]]) == Holding(NO_FIELDS, events + Parsed(s))
  {
    if s != [] && Last(s) == LF {
      var y := Front(s);
      assert s == y + [LF] + [];
      NoBlankTight(s, |y|);
      EndedRead(events, y);
    } else {
      assert s[..|s|] == s;
      NoBlankTight(s, |s|);
      TightRead(events, s);
    }
  }

  lemma NoBlankTight(s: Bytes, n: nat)
    requires NoLoneCr(s) && n <= |s| && (forall k: nat :: !BlankAfter(s, k))
    requires n == |s| || n + 1 == |s|
    requires n == |s| ==> s == [] || Last(s) != LF
    requires n < |s| ==> s[n] == LF
    ensures Tight(s[..n])
  {
    forall k | 0 <= k < n && s[k] == LF ensures k + 1 < n && s[k + 1] != LF && s[k + 1] != CR {
      assert BlankAfter(s, k) <==> LfAt(s, k + 1) || CrLfAt(s, k + 1);
    }
  }

  /** One more line feed after a tight frame: one more blank line. */
  lemma EndedRead(events: seq<Frame>, y: Bytes)
    requires Tight(y)
    ensures var s := y + [LF] + [];
            Read(Holding(NO_FIELDS, events), Trimmed(SplitLines(s)) + [[]]) == Holding(NO_FIELDS, events + Parsed(s))
  {
    hide Find, At, SplitLines, Holding, Tight, Reader.Line, Fields.Take;
    var s := y + [LF] + [];
    TightRead(events, y);
    NoLf([]);
    SplitAppend(y, []);
    EndingBlank(SplitLines(y));
    BlankFirst(events + Parsed(y));
    ReadAppend(Holding(NO_FIELDS, events), Trimmed(SplitLines(y)) + [[]], [[]]);
    assert Trimmed(SplitLines(s)) + [[]] == (Trimmed(SplitLines(y)) + [[]]) + [[]];
  }

  /** A blank line adds nothing to a frame. */
  lemma {:induction false} EndingBlank(lines: seq<Bytes>)
    ensures forall f :: TakeAll(f, lines + [[]]) == TakeAll(f, lines)
    decreases |lines|
  {
    forall f ensures TakeAll(f, lines + [[]]) == TakeAll(f, lines) { BlankTaken(f, lines); }
  }

  lemma {:induction false} BlankTaken(f: Fields, lines: seq<Bytes>)
    ensures TakeAll(f, lines + [[]]) == TakeAll(f, lines)
    decreases |lines|
  {
    if lines == [] {
      assert TakeAll(f, [[]]) == TakeAll(f.Take(TrimCr([])), []);
    } else {
      assert (lines + [[]])[1..] == lines[1..] + [[]];
      BlankTaken(f.Take(TrimCr(lines[0])), lines[1..]);
    }
  }

  lemma {:induction false} StreamRead(events: seq<Frame>, s: Bytes)
    requires Regular(s)
    ensures Read(Holding(NO_FIELDS, events), Trimmed(SplitLines(s)) + [[]]) == Holding(NO_FIELDS, events + Events(s))
    decreases |s|
  {
    hide Find, At, SplitLines, Holding, Read, Parsed;
    if exists k: nat :: BlankAfter(s, k) {
      var n: nat :| BlankAfter(s, n);
      FirstOf(s, n);
      var k: nat :| FirstBlankAfter(s, k);
      SplitsAtFirstBlank(s, k);
      FrameLines(s, k);
      var (end, next) := BlankCut(s, k);
      var x, rest := s[..end], s[next..];
      RegularAfter(s, next);
      TightRead(events, x);
      StreamRead(events + Parsed(x), rest);
      var lines, more := Trimmed(SplitLines(x)) + [[]], Trimmed(SplitLines(rest)) + [[]];
      assert Trimmed(SplitLines(s)) + [[]] == lines + more;
      ReadAppend(Holding(NO_FIELDS, events), lines, more);
      assert events + Parsed(x) + Events(rest) == events + Events(s);
    } else {
      if Cut(s).Some? { NoBlankNoCut(s); }
      LastFrameRead(events, s);
      assert s == [] ==> events + Parsed(s) == events + Events(s) by { NothingParsed(); }
    }
  }

  lemma NothingParsed()
    ensures Parsed([]) == []
  {
    NoLf([]);
  }

  /** On every regular stream without a byte-order mark the splitter's events
      are those of the standard's line-by-line reading, with one more blank line
      at the end: a final event that is not terminated is yielded, not
      discarded.  With a mark they are those of the stream after it. */
  lemma RegularStreamsRead(s: Bytes)
    requires Regular(s)
    ensures Events(Unmarked(s)) == Standard(s + LFLF)
    ensures !Marked(s) ==> Events(s) == Standard(s + LFLF)
  {
    hide Events, Dispatched;
    var x := Unmarked(s);
    if Marked(s) { RegularAfterMark(s); }
    RegularDispatched(x);
    assert Marked(s + LFLF) == Marked(s) by { MarkedEarly(s); }
    assert Unmarked(s + LFLF) == x + LFLF;
  }

  lemma MarkedEarly(s: Bytes)
    ensures Marked(s + LFLF) == Marked(s)
  {
    var t := s + LFLF;
    if Marked(t) {
      assert t[0] == 239 && t[1] == 187 && t[2] == 191;
      assert |s| > 2;
      assert s[..3] == MARK;
    }
  }

  lemma RegularDispatched(s: Bytes)
    requires Regular(s)
    ensures Events(s) == Dispatched(s + LFLF)
  {
    hide Find, At, SplitLines, Read, Events, Lines;
    SameStandard(s);
    StreamRead([], s);
    assert Holding(NO_FIELDS, []) == Reader([], [], []) && [] + Events(s) == Events(s);
  }

  lemma RegularAfterMark(s: Bytes)
    requires Regular(s) && Marked(s)
    ensures Regular(s[3..])
  {
    var x := s[3..];
    assert s[2] == MARK[2];
    assert forall k :: 0 <= k < |x| ==> x[k] == s[k + 3];
    forall k: nat | BlankAfter(x, k) ensures !MixedBlank(x, k) {
      assert BlankAfter(s, k + 3);
    }
  }

  /** The splitter keeps the mark in the first line, whose field name is then
      neither event nor data: it reads a marked stream without its first line. */
  lemma MarkedStreamsRead(s: Bytes)
    requires Regular(s) && Marked(s)
    ensures var lines := Trimmed(SplitLines(s[3..])) + [[]];
            && Standard(s + LFLF) == Read(Reader([], [], []), lines).events
            && Events(s) == Read(Reader([], [], []), lines[1..]).events
  {
    hide Find, At, SplitLines, Read, Events, Lines, Reader.Line;
    var x := s[3..];
    assert s == MARK + x;
    RegularStreamsRead(s);
    RegularAfterMark(s);
    RegularDispatched(x);
    SameStandard(x);
    RegularDispatched(s);
    SameStandard(s);
    MarkedSplit(x);
    ReadFirst(SplitLines(s));
    MarkIgnored(TrimCr(SplitLines(x)[0]));
  }

  lemma ReadFirst(lines: seq<Bytes>)
    requires lines != []
    ensures var r, all := Reader([], [], []), Trimmed(lines) + [[]];
            Read(r, all) == Read(r.Line(TrimCr(lines[0])), all[1..])
  {
  }

  lemma MarkedSplit(x: Bytes)
    ensures var l, m := SplitLines(x), SplitLines(MARK + x);
            && |m| == |l| && TrimCr(m[0]) == MARK + TrimCr(l[0]) && m[1..] == l[1..]
            && (Trimmed(m) + [[]])[1..] == (Trimmed(l) + [[]])[1..]
  {
    hide Find, At, SplitLines, TrimCr;
    var i := Find(x, [LF], 0);
    FindOne(x, LF);
    if i.None? {
      NoLf(x);
      NoLf(MARK + x);
      MarkedTrim(x);
    } else {
      var line, rest := x[..i.value], x[i.value + 1..];
      assert MARK + x == (MARK + line) + [LF] + rest && x == line + [LF] + rest;
      NoLf(MARK + line);
      NoLf(line);
      SplitAppend(MARK + line, rest);
      SplitAppend(line, rest);
      MarkedTrim(line);
    }
  }

  lemma MarkedTrim(line: Bytes)
    ensures TrimCr(MARK + line) == MARK + TrimCr(line)
  {
    if line != [] { assert Front(MARK + line) == MARK + Front(line); }
  }

  lemma MarkIgnored(line: Bytes)
    ensures Reader([], [], []).Line(MARK + line) == Reader([], [], [])
  {
    var marked := MARK + line;
    assert marked[0] == 239;
    var i := Find(marked, [COLON], 0);
    FindOne(marked, COLON);
    assert Field(marked).0 == [] || Field(marked).0[0] == 239;
  }

  /** So a marked stream of one event is lost. */
  lemma MarkedEventLost(a: Bytes)
    requires a != [] && a[0] != SPACE && LF !in a && CR !in a
    ensures Events(MARK + DataLine(a) + LFLF) == [] && Standard(MARK + DataLine(a) + LFLF + LFLF) == [Frame([], a)]
  {
    hide Find, At, SplitLines, Events, Standard, Field;
    var s := MARK + DataLine(a) + LFLF;
    var x := DataLine(a) + [LF] + ([] + [LF] + []);
    assert CR !in s && s[3..] == x;
    UniformIsRegular(s);
    MarkedStreamsRead(s);
    NoLf(DataLine(a));
    NoLf([]);
    SplitAppend(DataLine(a), [] + [LF] + []);
    SplitAppend([], []);
    assert Last(DataLine(a)) in DataLine(a);
    var r := Reader([], [], []);
    var lines := [DataLine(a), [], [], []];
    assert Trimmed(SplitLines(x)) + [[]] == lines;
    DataLineRead([], a);
    assert [] + [Frame([], a)] == [Frame([], a)];
    hide Reader.Line, DataLine;
    BlanksRead(r);
    BlanksRead(Reader([], [], [Frame([], a)]));
    assert lines[1..] == [[], [], []] && lines[1..][0] == [] && lines[1..][1..] == [[], []];
    assert Read(r, lines) == Read(r.Line(lines[0]).Line([]), [[], []]);
  }

  lemma BlanksRead(r: Reader)
    requires r.data == [] && r.eventType == []
    ensures Read(r, [[], []]) == r && Read(r, [[], [], []]) == r
  {
    assert r.Line([]) == r;
    hide Reader.Line;
    var one: seq<Bytes>, two: seq<Bytes>, three: seq<Bytes> := [[]], [[], []], [[], [], []];
    assert three[1..] == two && two[1..] == one && one[1..] == [];
    assert Read(r, [[]]) == r;
  }

  // ---- Mixed line endings ------------------------------------------------------------------------------

  function DataLine(value: Bytes): Bytes { DATA + [COLON] + value }

  lemma DataLineTaken(value: Bytes)
    requires value != [] && value[0] != SPACE
    ensures DataLine(value) != [] && DataLine(value)[0] != COLON && Field(DataLine(value)) == (DATA, value)
  {
    var line := DataLine(value);
    assert forall k :: 0 <= k < 4 ==> line[k] == DATA[k] && DATA[k] != COLON;
    FirstOne(line, COLON, 4);
    assert line[..4] == DATA && line[5..] == value;
  }

  /** A line feed and then a CRLF blank line: the standard reads two events, the
      splitter one at most. */
  lemma MixedEndingsMerge(a: Bytes, b: Bytes)
    requires a != [] && a[0] != SPACE && LF !in a && CR !in a && b != [] && b[0] != SPACE && LF !in b && CR !in b
    ensures var s := DataLine(a) + [LF] + ([CR] + [LF] + (DataLine(b) + [LF] + []));
            |Events(s)| <= 1 && Standard(s + LFLF) == [Frame([], a), Frame([], b)]
  {
    hide Lines, SplitLines, Read, Find, At, Field, ParseFrame;
    var s := DataLine(a) + [LF] + ([CR] + [LF] + (DataLine(b) + [LF] + []));
    MixedShape(a, b);
    AllMixedUncut(s);
    MixedLines(a, b);
    SameStandard(s);
    MixedRead(a, b);
    assert (s + LFLF)[0] == 100 != MARK[0];
    assert !Marked(s + LFLF);
    assert [DataLine(a), [], DataLine(b), []] + [[]] == [DataLine(a), [], DataLine(b), [], []];
  }

  lemma MixedShape(a: Bytes, b: Bytes)
    requires LF !in a && CR !in a && LF !in b && CR !in b
    ensures var s := DataLine(a) + [LF] + ([CR] + [LF] + (DataLine(b) + [LF] + []));
            NoLoneCr(s) && forall k: nat :: BlankAfter(s, k) ==> MixedBlank(s, k)
  {
    var x, y := DataLine(a), DataLine(b);
    assert LF !in x && CR !in x && LF !in y && CR !in y && x != [] && y[0] == 100;
    hide DataLine;
    var s := x + [LF] + ([CR] + [LF] + (y + [LF] + []));
    var n := |x|;
    assert s == x + [LF, CR, LF] + y + [LF];
    assert forall k :: 0 <= k < n ==> s[k] in x;
    assert forall k :: n + 3 <= k < n + 3 + |y| ==> s[k] in y;
    assert s[n] == LF && s[n + 1] == CR && s[n + 2] == LF && s[n + 3] == y[0];
  }

  /** A stream whose blank lines are all mixed ones is never split. */
  lemma AllMixedUncut(s: Bytes)
    requires forall k: nat :: BlankAfter(s, k) ==> MixedBlank(s, k)
    ensures Cut(s).None?
  {
    hide Find, At;
    var lf, crlf := Find(s, LFLF, 0), Find(s, CRLFCRLF, 0);
    var i, j := if lf.Some? then lf.value else 0, if crlf.Some? then crlf.value else 0;
    AtChars(s, i);
    AtChars(s, j);
    assert lf.Some? ==> BlankAfter(s, i) && !MixedBlank(s, i);
    assert crlf.Some? ==> BlankAfter(s, j + 1) && !MixedBlank(s, j + 1);
  }

  /** A data line and the blank line after it dispatch one event. */
  lemma DataLineRead(events: seq<Frame>, value: Bytes)
    requires value != [] && value[0] != SPACE
    ensures Reader([], [], events).Line(DataLine(value)).Line([]) == Reader([], [], events + [Frame([], value)])
  {
    DataLineTaken(value);
    hide Field, DataLine;
    assert [] + value + [LF] == value + [LF];
  }

  lemma MixedRead(a: Bytes, b: Bytes)
    requires a != [] && a[0] != SPACE && b != [] && b[0] != SPACE
    ensures Read(Reader([], [], []), [DataLine(a), [], DataLine(b), [], []]).events == [Frame([], a), Frame([], b)]
  {
    var lines := [DataLine(a), [], DataLine(b), [], []];
    var one, two := Reader([], [], [Frame([], a)]), Reader([], [], [Frame([], a), Frame([], b)]);
    DataLineRead([], a);
    DataLineRead([Frame([], a)], b);
    assert [] + [Frame([], a)] == [Frame([], a)] && [Frame([], a)] + [Frame([], b)] == [Frame([], a), Frame([], b)];
    assert two.Line([]) == two;
    hide Reader.Line, DataLine;
    assert lines[1..][0] == [] && lines[1..][1..] == lines[2..] && lines[2..][1..] == lines[3..]
        && lines[3..][1..] == lines[4..];
    assert lines[4..][1..] == [];
    calc {
      Read(Reader([], [], []), lines);
      Read(one, lines[2..]);
      Read(two, lines[4..]);
      two;
    }
  }

  lemma MixedLines(a: Bytes, b: Bytes)
    requires LF !in a && CR !in a && LF !in b && CR !in b
    ensures var s := DataLine(a) + [LF] + ([CR] + [LF] + (DataLine(b) + [LF] + []));
            Trimmed(SplitLines(s)) == [DataLine(a), [], DataLine(b), []]
  {
    hide Find, At, SplitLines;
    var last := DataLine(b) + [LF] + [];
    SplitAppend(DataLine(a), [CR] + [LF] + last);
    SplitAppend([CR], last);
    SplitAppend(DataLine(b), []);
    NoLf(DataLine(a));
    NoLf([CR]);
    NoLf(DataLine(b));
    NoLf([]);
    assert Last(DataLine(a)) in DataLine(a) && Last(DataLine(b)) in DataLine(b);
  }

  lemma SameStandard(s: Bytes)
    requires NoLoneCr(s)
    ensures Dispatched(s + LFLF) == Read(Reader([], [], []), Trimmed(SplitLines(s)) + [[]]).events
  {
    hide Find, At, SplitLines, Read, Lines;
    var t := s + [LF];
    assert s + LFLF == t + [LF];
    assert NoLoneCr(t) by { forall k | 0 <= k < |t| && t[k] == CR
                           ensures k + 1 < |t| && t[k + 1] == LF { assert s[k] == CR; } }
    SameLines(t);
    assert t == s + [LF] + [];
    SplitAppend(s, []);
    NoLf([]);
    assert Trimmed(SplitLines(t)) == Trimmed(SplitLines(s)) + [[]];
  }
}

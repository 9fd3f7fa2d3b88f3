/** Writing events and scanning them again. */
module SseRoundTrip {
  import opened SseFramingSpec
  import opened SseStandard
  import opened Wrappers

  /** The bytes of one written event: an event line, a data line, a blank line. */
  function Wire(f: Frame): Bytes { Text(f) + [LF] + ([] + [LF] + []) }

  function Text(f: Frame): Bytes { EventLine(f.event) + [LF] + DataLineOf(f.data) }

  function EventLine(event: Bytes): Bytes { EVENT + [COLON, SPACE] + event }

  function DataLineOf(data: Bytes): Bytes { DATA + [COLON, SPACE] + data }

  function WireAll(frames: seq<Frame>): Bytes {
    if frames == [] then [] else Wire(frames[0]) + WireAll(frames[1..])
  }

  predicate CleanValue(value: Bytes) { LF !in value && !(value != [] && Last(value) == CR) }

  /** No line feed in either value, and neither ends in a carriage return. */
  predicate Clean(f: Frame) { CleanValue(f.event) && CleanValue(f.data) }

  // ---- One line ------------------------------------------------------------------------------

  lemma NamedField(name: Bytes, value: Bytes)
    requires COLON !in name
    ensures Field(name + [COLON, SPACE] + value) == (name, value)
  {
    var line := name + [COLON, SPACE] + value;
    assert forall k :: 0 <= k < |name| ==> line[k] == name[k] && name[k] in name;
    FirstOne(line, COLON, |name|);
    assert line[..|name|] == name && line[|name| + 1..] == [SPACE] + value && ([SPACE] + value)[1..] == value;
  }

  lemma TrimmedValue(start: Bytes, value: Bytes)
    requires start != [] && Last(start) != CR
    ensures TrimCr(start + value) == start + TrimCr(value)
  {
    if value == [] {
      assert start + value == start;
    } else {
      assert Front(start + value) == start + Front(value);
    }
  }

  lemma EventTaken(f: Fields, value: Bytes)
    ensures f.Take(TrimCr(EventLine(value))) == Fields(TrimCr(value), f.data)
  {
    TrimmedValue(EVENT + [COLON, SPACE], value);
    NamedField(EVENT, TrimCr(value));
    assert EventLine(TrimCr(value))[0] == 101;
  }

  lemma DataTaken(f: Fields, value: Bytes)
    ensures f.Take(TrimCr(DataLineOf(value))) == Fields(f.event, f.data + [TrimCr(value)])
  {
    TrimmedValue(DATA + [COLON, SPACE], value);
    NamedField(DATA, TrimCr(value));
    assert DataLineOf(TrimCr(value))[0] == 100 && DATA != EVENT;
  }

  // ---- One event without line feeds ---------------------------------------------------------------

  /** Where the line feeds of a written event are when its event name has none. */
  lemma TextShape(f: Frame, rest: Bytes)
    requires LF !in f.event
    ensures var s := Wire(f) + rest;
            var n, t := |EventLine(f.event)|, |Text(f)|;
            && n + 1 < t && t + 1 < |s| && s[n] == LF && s[n + 1] == 100
            && (forall k :: 0 <= k < n ==> s[k] != LF)
            && s[t] == LF && s[t + 1] == LF && s[..t] == Text(f) && s[t + 2..] == rest
            && t == n + 7 + |f.data| && s[t - |f.data| - 1] == SPACE
            && (forall k :: n < k < t - |f.data| ==> s[k] != LF)
            && (forall k :: t - |f.data| <= k < t ==> s[k] == f.data[k - (t - |f.data|)])
  {
    var s := Wire(f) + rest;
    var e, d := EventLine(f.event), DataLineOf(f.data);
    LineShape(f);
    hide EventLine, DataLineOf;
    var n, t := |e|, |Text(f)|;
    assert s == e + [LF] + d + LFLF + rest;
    assert forall k :: 0 <= k < n ==> s[k] == e[k] && e[k] in e;
    assert forall k :: n < k < t ==> s[k] == d[k - n - 1];
    assert s[..t] == Text(f) && s[t + 2..] == rest;
  }

  /** The two lines of a written event. */
  lemma LineShape(f: Frame)
    requires LF !in f.event
    ensures var e, d := EventLine(f.event), DataLineOf(f.data);
            && LF !in e && |d| == 6 + |f.data| && d[0] == 100 && d[5] == SPACE
            && (forall k :: 0 <= k < 6 ==> d[k] != LF) && (forall k :: 6 <= k < |d| ==> d[k] == f.data[k - 6])
  {
    var e := EventLine(f.event);
    forall k | 0 <= k < |e| ensures e[k] != LF {
      if k >= 7 { assert e[k] == f.event[k - 7] && f.event[k - 7] in f.event; }
    }
  }

  lemma ParsedText(f: Frame)
    requires LF !in f.event && LF !in f.data
    ensures Parsed(Text(f)) == [Frame(TrimCr(f.event), TrimCr(f.data))]
  {
    hide Find, At, SplitLines, TrimCr, Field;
    SplitAppend(EventLine(f.event), DataLineOf(f.data));
    NoLf(EventLine(f.event));
    NoLf(DataLineOf(f.data));
    EventTaken(NO_FIELDS, f.event);
    DataTaken(Fields(TrimCr(f.event), []), f.data);
    var lines := [EventLine(f.event), DataLineOf(f.data)];
    assert [lines[0]] + [lines[1]] == lines;
    assert SplitLines(Text(f)) == lines;
    assert lines[1..] == [lines[1]];
    assert lines[1..][1..] == [];
    var named := Fields(TrimCr(f.event), []);
    assert [] + [TrimCr(f.data)] == [TrimCr(f.data)];
    assert TakeAll(NO_FIELDS, lines) == TakeAll(named, [lines[1]]) == TakeAll(named.Take(TrimCr(lines[1])), []);
  }

  /** Without line feeds inside, one event comes back, its values without one
      carriage return at their end. */
  lemma PlainEvent(f: Frame, rest: Bytes)
    requires LF !in f.event && LF !in f.data
    ensures Events(Wire(f) + rest) == [Frame(TrimCr(f.event), TrimCr(f.data))] + Events(rest)
  {
    hide Find, At, Wire, Text, ParseFrame, Parsed;
    var s := Wire(f) + rest;
    var t := |Text(f)|;
    TextShape(f, rest);
    assert forall k :: 0 <= k < |f.data| ==> f.data[k] in f.data;
    assert forall k :: 0 <= k < t && s[k] == LF ==> k == |EventLine(f.event)|;
    assert FirstBlankAfter(s, t);
    SplitsAtFirstBlank(s, t);
    ParsedText(f);
  }

  lemma CleanTrim(value: Bytes)
    requires LF !in value
    ensures TrimCr(value) == value <==> CleanValue(value)
  {
  }

  // ---- Values with line feeds -----------------------------------------------------------------------

  /** No event name that is read has a line feed in it. */
  lemma {:induction false} NamesOneLine(stream: Bytes)
    ensures forall f <- Events(stream) :: LF !in f.event
    decreases |stream|
  {
    if stream != [] {
      var end := if Cut(stream).Some? then Cut(stream).value.0 else |stream|;
      PiecesOneLine(stream[..end]);
      NamesTaken(NO_FIELDS, SplitLines(stream[..end]));
      assert stream[..|stream|] == stream;
      if Cut(stream).Some? { NamesOneLine(stream[Cut(stream).value.1..]); }
    }
  }

  lemma {:induction false} PiecesOneLine(raw: Bytes)
    ensures forall line <- SplitLines(raw) :: LF !in line
    decreases |raw|
  {
    FindOne(raw, LF);
    var i := Find(raw, [LF], 0);
    if i.Some? { PiecesOneLine(raw[i.value + 1..]); }
  }

  lemma FieldWithin(line: Bytes)
    ensures LF !in line ==> LF !in Field(line).1
    ensures |Field(line).0| + |Field(line).1| <= |line|
    ensures Field(line).0 == DATA ==> |Field(line).1| <= |line|
    ensures |TrimCr(line)| <= |line| && (LF !in line ==> LF !in TrimCr(line))
  {
  }

  lemma {:induction false} NamesTaken(f: Fields, lines: seq<Bytes>)
    requires LF !in f.event && forall line <- lines :: LF !in line
    ensures LF !in TakeAll(f, lines).event
    decreases |lines|
  {
    hide Field, TrimCr;
    if lines != [] {
      FieldWithin(lines[0]);
      FieldWithin(TrimCr(lines[0]));
      NamesTaken(f.Take(TrimCr(lines[0])), lines[1..]);
    }
  }

  function Total(lines: seq<Bytes>): nat {
    if lines == [] then 0 else |lines[0]| + 1 + Total(lines[1..])
  }

  lemma {:induction false} TotalSplit(raw: Bytes)
    ensures Total(SplitLines(raw)) == |raw| + 1
    decreases |raw|
  {
    var i := Find(raw, [LF], 0);
    if i.Some? {
      TotalSplit(raw[i.value + 1..]);
      assert SplitLines(raw)[1..] == SplitLines(raw[i.value + 1..]);
    }
  }

  /** Every further line, a data line or not, gives less data than it takes. */
  lemma {:induction false} DataShrinks(f: Fields, lines: seq<Bytes>)
    ensures f.data != [] ==> TakeAll(f, lines).data != []
    ensures |Buffer(TakeAll(f, lines).data)| + |lines| <= |Buffer(f.data)| + Total(lines)
    decreases |lines|
  {
    hide Field, TrimCr;
    if lines != [] {
      var line := TrimCr(lines[0]);
      FieldWithin(lines[0]);
      FieldWithin(line);
      assert Front(f.data + [Field(line).1]) == f.data;
      DataShrinks(f.Take(line), lines[1..]);
    }
  }

  /** A frame cut inside the data keeps its event name and gives less data. */
  lemma ShorterData(f: Frame, m: nat)
    requires LF !in f.event && m <= |f.data| && (m == |f.data| ==> LF in f.data)
    ensures var raw := EventLine(f.event) + [LF] + DataLineOf(f.data[..m]);
            ParseFrame(raw).Some? && |ParseFrame(raw).value.data| < |f.data|
  {
    hide Find, At, SplitLines, TrimCr, Field, Fields.Take, Join;
    var d := f.data[..m];
    var raw := EventLine(f.event) + [LF] + DataLineOf(d);
    SplitAppend(EventLine(f.event), DataLineOf(d));
    NoLf(EventLine(f.event));
    EventTaken(NO_FIELDS, f.event);
    var named := Fields(TrimCr(f.event), []);
    var first, more := DataFirst(d);
    DataTaken(named, first);
    var got := Fields(TrimCr(f.event), [TrimCr(first)]);
    assert [] + [TrimCr(first)] == [TrimCr(first)];
    assert [DataLineOf(first)] + more == [DataLineOf(first)] + more;
    var lines := [EventLine(f.event)] + ([DataLineOf(first)] + more);
    assert SplitLines(raw) == lines;
    assert lines[1..] == [DataLineOf(first)] + more && lines[1..][1..] == more;
    assert TakeAll(NO_FIELDS, lines) == TakeAll(named, lines[1..]) == TakeAll(got, more);
    DataShrinks(got, more);
    FieldWithin(first);
    assert Front([TrimCr(first)]) == [] && Buffer([]) == [];
    assert |Buffer([TrimCr(first)])| == |TrimCr(first)| + 1;
    BufferJoins(TakeAll(got, more).data);
  }

  /** The first line of a data line and the lines after it. */
  lemma DataFirst(d: Bytes) returns (first: Bytes, more: seq<Bytes>)
    ensures SplitLines(DataLineOf(d)) == [DataLineOf(first)] + more
    ensures |first| + 1 + Total(more) == |d| + 1 && (LF in d ==> more != [])
  {
    hide Find, At, SplitLines;
    if LF in d {
      var n := FirstLfOf(d);
      first, more := d[..n], SplitLines(d[n + 1..]);
      TotalSplit(d[n + 1..]);
      NoLf(DataLineOf(first));
      SplitAppend(DataLineOf(first), d[n + 1..]);
      assert DataLineOf(d) == DataLineOf(first) + [LF] + d[n + 1..];
    } else {
      first, more := d, [];
      NoLf(DataLineOf(d));
      assert [DataLineOf(d)] + [] == [DataLineOf(d)];
    }
  }

  /** Data with a line feed in it is read shorter than it was written. */
  lemma SplitData(f: Frame, rest: Bytes)
    requires LF !in f.event && LF in f.data
    ensures var read := Events(Wire(f) + rest); read != [] && |read[0].data| < |f.data|
  {
    hide Find, At, Wire, Text, ParseFrame;
    var s := Wire(f) + rest;
    var m := CutInData(f, rest);
    ShorterData(f, m);
  }

  /** The first frame ends inside the data, or at its end. */
  lemma CutInData(f: Frame, rest: Bytes) returns (m: nat)
    requires LF !in f.event
    ensures m <= |f.data|
    ensures var s := Wire(f) + rest;
            s != [] && Cut(s).Some? && s[..Cut(s).value.0] == EventLine(f.event) + [LF] + DataLineOf(f.data[..m])
  {
    hide Find, At, Wire, EventLine;
    var s := Wire(f) + rest;
    var n, t := |EventLine(f.event)|, |Text(f)|;
    TextShape(f, rest);
    CutEarly(s, t);
    var end := Cut(s).value.0;
    CutAfter(s, t - |f.data|);
    m := end - (t - |f.data|);
    assert Text(f)[..end] == EventLine(f.event) + [LF] + DataLineOf(f.data[..m]);
  }

  /** A blank line at t: the first frame ends there or before. */
  lemma CutEarly(s: Bytes, t: nat)
    requires t + 1 < |s| && s[t] == LF && s[t + 1] == LF
    ensures Cut(s).Some? && Cut(s).value.0 <= t
  {
    AtChars(s, t);
    var lf, crlf := Find(s, LFLF, 0), Find(s, CRLFCRLF, 0);
    assert lf.Some? && lf.value <= t;
  }

  /** Nothing before p can end a frame when every line feed before it starts a
      line and what precedes p is no return. */
  lemma CutAfter(s: Bytes, p: nat)
    requires Cut(s).Some? && 0 < p <= |s| && s[p - 1] != CR && s[p - 1] != LF
    requires forall k: nat :: k < p - 1 && s[k] == LF ==> s[k + 1] != LF && s[k + 1] != CR
    ensures Cut(s).value.0 >= p
  {
    hide Find, At;
    var lf, crlf := Find(s, LFLF, 0), Find(s, CRLFCRLF, 0);
    if lf.Some? { AtChars(s, lf.value); }
    if crlf.Some? { AtChars(s, crlf.value); }
  }

  // ---- The round trip --------------------------------------------------------------------------------

  /** One event at the start of a stream comes back as it was written if and
      only if its values have no line feed and do not end in a return. */
  lemma FirstComesBack(f: Frame, rest: Bytes)
    ensures var read := Events(Wire(f) + rest);
            && (Clean(f) ==> read == [f] + Events(rest))
            && (!Clean(f) ==> read == [] || read[0] != f)
  {
    hide Find, At, Events, Wire;
    if LF in f.event {
      NamesOneLine(Wire(f) + rest);
    } else if LF in f.data {
      SplitData(f, rest);
    } else {
      PlainEvent(f, rest);
      CleanTrim(f.event);
      CleanTrim(f.data);
    }
  }

  /** Scanning written events returns exactly them, empty and space-leading
      values included, if and only if no value has a line feed in it or ends in
      a carriage return. */
  lemma {:induction false} FramingRoundTrip(frames: seq<Frame>)
    ensures Events(WireAll(frames)) == frames <==> forall f <- frames :: Clean(f)
    decreases |frames|
  {
    hide Wire, Clean;
    if frames == [] {
      assert Events([]) == [];
    } else {
      hide Events;
      var f, rest := frames[0], frames[1..];
      FirstComesBack(f, WireAll(rest));
      FramingRoundTrip(rest);
      assert frames == [f] + rest;
      var read := Events(WireAll(frames));
      if Clean(f) {
        assert read == [f] + Events(WireAll(rest));
        assert read[1..] == Events(WireAll(rest));
      }
    }
  }

  // ---- The end of a stream ------------------------------------------------------------------------------

  const DONE: Bytes := [91, 68, 79, 78, 69, 93]
  const SENTINEL: Bytes := DataLineOf(DONE) + LFLF

  lemma SentinelCut()
    ensures Cut(SENTINEL) == Some((12, 14)) && SENTINEL[..12] == DataLineOf(DONE) && SENTINEL[14..] == []
    ensures LF !in DataLineOf(DONE) && |SENTINEL| == 14
  {
    var lf, crlf := Find(SENTINEL, LFLF, 0), Find(SENTINEL, CRLFCRLF, 0);
    assert DATA + [COLON, SPACE] + DONE == [100, 97, 116, 97, 58, 32, 91, 68, 79, 78, 69, 93];
    AtChars(SENTINEL, 12);
    if lf.Some? { AtChars(SENTINEL, lf.value); }
    if crlf.Some? { AtChars(SENTINEL, crlf.value); }
  }

  /** The sentinel alone is one frame without an event name. */
  lemma SentinelRead()
    ensures Events(SENTINEL) == [Frame([], DONE)]
  {
    hide Find, At, SplitLines, TrimCr, Field, Fields.Take;
    SentinelCut();
    NoLf(DataLineOf(DONE));
    DataTaken(NO_FIELDS, DONE);
    CleanTrim(DONE);
    var f := NO_FIELDS.Take(TrimCr(DataLineOf(DONE)));
    assert SplitLines(DataLineOf(DONE))[1..] == [] && TakeAll(f, []) == f;
    assert [] + [DONE] == [DONE] && ParseFrame(DataLineOf(DONE)) == Some(Frame([], DONE));
    assert Events([]) == [] && [Frame([], DONE)] + [] == [Frame([], DONE)];
  }

  /** Scanning written events and the sentinel after them returns exactly the
      events and then one frame with the sentinel's data, under the same
      condition. */
  lemma {:induction false} SentinelComesBack(frames: seq<Frame>)
    ensures Events(WireAll(frames) + SENTINEL) == frames + [Frame([], DONE)] <==> forall f <- frames :: Clean(f)
    decreases |frames|
  {
    hide Wire, Clean, Events;
    var end := [Frame([], DONE)];
    if frames == [] {
      assert [] + SENTINEL == SENTINEL && [] + end == end;
      SentinelRead();
    } else {
      var f, rest := frames[0], frames[1..];
      FirstComesBack(f, WireAll(rest) + SENTINEL);
      SentinelComesBack(rest);
      assert WireAll(frames) + SENTINEL == Wire(f) + (WireAll(rest) + SENTINEL);
      assert frames == [f] + rest && frames + end == [f] + (rest + end);
      var read := Events(WireAll(frames) + SENTINEL);
      if Clean(f) {
        assert read == [f] + Events(WireAll(rest) + SENTINEL);
        assert read[1..] == Events(WireAll(rest) + SENTINEL) && (frames + end)[1..] == rest + end;
      } else {
        assert (frames + end)[0] == f;
      }
    }
  }
}

/** The stream writer and the incremental scanner: bytes arrive in chunks of any
    size, frames come out as if the whole stream had been split at once. */
module SseFraming {
  import opened Spec = SseFramingSpec
  import opened SseRoundTrip
  import opened Wrappers

  // ---- Writing -----------------------------------------------------------------------------------

  class Writer {
    var out: Bytes

    constructor ()
      ensures out == []
    {
      out := [];
    }

    /** One event line, one data line and a blank line. */
    method WriteEvent(event: Bytes, data: Bytes)
      modifies this
      ensures out == old(out) + Wire(Frame(event, data))
    {
      var buf: Bytes := EVENT + [COLON, SPACE];
      buf := buf + event;
      buf := buf + [LF] + DATA + [COLON, SPACE];
      buf := buf + data;
      buf := buf + LFLF;
      assert buf == Wire(Frame(event, data));
      out := out + buf;
    }

    /** The sentinel that ends a stream: whatever events were written before it
        are scanned back, and then one frame with its data, if they were clean. */
    method WriteDone()
      modifies this
      ensures out == old(out) + SENTINEL
      ensures forall frames :: old(out) == WireAll(frames) ==>
                (Events(out) == frames + [Frame([], DONE)] <==> forall f <- frames :: Clean(f))
    {
      ghost var before := out;
      out := out + (DATA + [COLON, SPACE] + DONE + LFLF);
      assert out == before + SENTINEL;
      forall frames | before == WireAll(frames)
        ensures Events(out) == frames + [Frame([], DONE)] <==> forall f <- frames :: Clean(f)
      {
        SentinelComesBack(frames);
      }
    }

    /** The events of one stream, in order. */
    method WriteEvents(frames: seq<Frame>)
      modifies this
      ensures out == old(out) + WireAll(frames)
    {
      hide Wire;
      var k := 0;
      while k < |frames|
        invariant 0 <= k <= |frames| && out + WireAll(frames[k..]) == old(out) + WireAll(frames)
      {
        assert frames[k..][0] == frames[k] && frames[k..][1..] == frames[k + 1..];
        ghost var before := out;
        WriteEvent(frames[k].event, frames[k].data);
        assert before + (Wire(frames[k]) + WireAll(frames[k + 1..])) == out + WireAll(frames[k + 1..]);
        k := k + 1;
      }
      assert out + [] == out;
    }
  }

  /** A list of events is written as bytes that scan back to exactly that list
      when its values are clean; with the sentinel, to the list and its frame. */
  method WriteAndScan(frames: seq<Frame>) returns (open: Bytes, ended: Bytes)
    ensures open == WireAll(frames) && ended == WireAll(frames) + SENTINEL
    ensures Events(open) == frames <==> forall f <- frames :: Clean(f)
    ensures Events(ended) == frames + [Frame([], DONE)] <==> forall f <- frames :: Clean(f)
  {
    hide Events, WireAll, Clean;
    var w := new Writer();
    w.WriteEvents(frames);
    assert [] + WireAll(frames) == WireAll(frames);
    open := w.out;
    FramingRoundTrip(frames);
    w.WriteDone();
    ended := w.out;
  }

  // ---- Reading -----------------------------------------------------------------------------------

  function Concat(chunks: seq<Bytes>): Bytes {
    if chunks == [] then [] else chunks[0] + Concat(chunks[1..])
  }

  /** A connection that hands out its bytes in chunks, as much of one as asked. */
  class Reader {
    var chunks: seq<Bytes>

    constructor (chunks: seq<Bytes>)
      requires forall c <- chunks :: c != []
      ensures this.chunks == chunks && Valid()
    {
      this.chunks := chunks;
    }

    predicate Valid()
      reads this
    {
      forall c <- chunks :: c != []
    }

    method Read(space: nat) returns (got: Bytes)
      requires Valid() && space > 0
      modifies this
      ensures Valid() && |got| <= space && Concat(old(chunks)) == got + Concat(chunks)
      ensures got == [] <==> old(chunks) == []
      ensures got == [] ==> chunks == []
    {
      if chunks == [] { return []; }
      var first := chunks[0];
      assert first in chunks && forall c <- chunks[1..] :: c in chunks;
      if |first| <= space {
        got, chunks := first, chunks[1..];
      } else {
        got, chunks := first[..space], [first[space..]] + chunks[1..];
        assert chunks[1..] == old(chunks)[1..] && first == got + first[space..];
      }
    }
  }

  /** A frame found in the buffer is the stream's next. */
  lemma BufferedToken(buf: Bytes, later: Bytes, atEof: bool, cap: nat)
    requires |buf| <= cap && (atEof ==> later == [] && |buf| < cap) && (buf != [] || atEof)
    ensures var (advance, frame) := SplitFrames(buf, atEof);
            && advance <= |buf|
            && (frame.Some? ==> NextToken(buf + later, cap) == Token(frame.value, buf[advance..] + later))
            && (frame.None? ==> if atEof then buf + later == [] && NextToken(buf + later, cap).End? else Cut(buf).None?)
  {
    hide Find, At;
    var s := buf + later;
    if Cut(buf).Some? {
      hide Cut;
      CutStable(buf, later);
      var (end, next) := Cut(buf).value;
      assert s[..end] == buf[..end] && s[next..] == buf[next..] + later;
    } else if atEof {
      assert s == buf && buf[|buf|..] + later == [];
    }
  }

  /** A buffer full of an unfinished frame: the frame is too long. */
  lemma FullBuffer(buf: Bytes, later: Bytes)
    requires buf != [] && Cut(buf).None?
    ensures NextToken(buf + later, |buf|).TooLong?
  {
    var s := buf + later;
    assert s[..|buf|] == buf;
    if Cut(s).Some? && Cut(s).value.1 <= |buf| { CutWithin(s, |buf|); }
  }

  class Scanner {
    const reader: Reader
    const cap: nat
    var buf: Bytes
    var atEof: bool
    var over: bool

    ghost function Remaining(): Bytes
      reads this, reader
    {
      buf + Concat(reader.chunks)
    }

    ghost predicate Valid()
      reads this, reader
    {
      reader.Valid() && |buf| <= cap && 0 < cap && (atEof ==> reader.chunks == [] && |buf| < cap)
    }

    constructor (reader: Reader, cap: nat)
      requires reader.Valid() && cap > 0
      ensures Valid() && this.reader == reader && this.cap == cap && !over && Remaining() == Concat(reader.chunks)
    {
      this.reader, this.cap, buf, atEof, over := reader, cap, [], false, false;
    }

    /** The next token: read until one is complete, the stream ends, or the
        buffer is full. */
    method Scan() returns (token: Option<Bytes>)
      requires Valid() && !over
      modifies this, reader
      ensures Valid()
      ensures var step := NextToken(old(Remaining()), cap);
              && over == step.TooLong?
              && (step.Token? ==> token == Some(step.raw) && Remaining() == step.rest)
              && (!step.Token? ==> token.None?)
              && (step.End? ==> Remaining() == [])
    {
      hide SplitFrames, NextToken, Cut;
      ghost var stream := Remaining();
      while true
        invariant Valid() && !over && Remaining() == stream
        decreases !atEof, |Concat(reader.chunks)|
      {
        ghost var later := Concat(reader.chunks);
        if buf != [] || atEof {
          var (advance, frame) := SplitFrames(buf, atEof);
          BufferedToken(buf, later, atEof, cap);
          if frame.Some? {
            buf := buf[advance..];
            return frame;
          }
        }
        if atEof { return None; }
        if |buf| == cap {
          FullBuffer(buf, later);
          over := true;
          return None;
        }
        var got := reader.Read(cap - |buf|);
        assert buf + later == buf + got + Concat(reader.chunks);
        buf := buf + got;
        atEof := got == [];
      }
    }

    /** The next frame that carries data; none at the end or at a frame over the cap. */
    method Next() returns (frame: Option<Frame>)
      requires Valid() && !over
      modifies this, reader
      ensures Valid()
      ensures var (frames, tooLong) := Spec.Scan(old(Remaining()), cap);
              if frame.None? then frames == [] && tooLong == over
              else !over && (frames, tooLong) == ([frame.value] + Spec.Scan(Remaining(), cap).0,
                                                  Spec.Scan(Remaining(), cap).1)
    {
      ghost var stream := Remaining();
      while true
        invariant Valid() && !over && Spec.Scan(Remaining(), cap) == Spec.Scan(stream, cap)
        decreases |Remaining()|
      {
        var token := Scan();
        if token.None? { return None; }
        frame := Decode(token.value);
        if frame.Some? { return; }
      }
    }
  }

  /** Decode the lines of one frame. */
  method Decode(raw: Bytes) returns (frame: Option<Frame>)
    ensures frame == ParseFrame(raw)
  {
    var event: Bytes, data: seq<Bytes> := [], [];
    var lines := SplitLines(raw);
    var k := 0;
    while k < |lines|
      invariant 0 <= k <= |lines|
      invariant TakeAll(Fields(event, data), lines[k..]) == TakeAll(Fields([], []), lines)
    {
      var line := TrimCr(lines[k]);
      assert lines[k..][0] == lines[k] && lines[k..][1..] == lines[k + 1..];
      k := k + 1;
      if line == [] || line[0] == COLON { continue; }
      var (field, value) := Field(line);
      if field == EVENT {
        event := value;
      } else if field == DATA {
        data := data + [value];
      }
    }
    frame := if data == [] then None else Some(Frame(event, Join(data)));
  }

  /** Every way of cutting a stream into chunks gives the same frames: those of
      splitting the whole stream at once. */
  method ScanChunks(chunks: seq<Bytes>, cap: nat) returns (frames: seq<Frame>, over: bool)
    requires cap > 0 && forall c <- chunks :: c != []
    ensures (frames, over) == Spec.Scan(Concat(chunks), cap)
    ensures |Concat(chunks)| < cap ==> frames == Events(Concat(chunks)) && !over
  {
    hide NextToken, ParseFrame, Events;
    var reader := new Reader(chunks);
    var scanner := new Scanner(reader, cap);
    frames := [];
    if |Concat(chunks)| < cap { ScanIsEvents(Concat(chunks), cap); }
    hide Spec.Scan;
    ghost var whole := Spec.Scan(Concat(chunks), cap);
    assert [] + whole.0 == whole.0;
    while true
      invariant fresh(scanner) && fresh(reader) && scanner.reader == reader && scanner.cap == cap
      invariant scanner.Valid() && !scanner.over
      invariant frames + Spec.Scan(scanner.Remaining(), cap).0 == whole.0
                && Spec.Scan(scanner.Remaining(), cap).1 == whole.1
      decreases |Spec.Scan(scanner.Remaining(), cap).0|
    {
      ghost var left := Spec.Scan(scanner.Remaining(), cap);
      var frame := scanner.Next();
      if frame.None? {
        over := scanner.over;
        assert frames + [] == frames;
        return;
      }
      assert frames + left.0 == (frames + [frame.value]) + Spec.Scan(scanner.Remaining(), cap).0;
      frames := frames + [frame.value];
    }
  }
}

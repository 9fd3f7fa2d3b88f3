/** Every event of a run stays true: it names the item its index stands for, and
    what it says is over is in the output just as it said. */
module EventsTrue {
  import opened EmitterSpec
  import opened Types
  import opened Wrappers

  /** The writer an item is still being written by, if any. */
  type Pen = Option<Writer>

  /** The parts of a message that are finished: all but the open one. */
  function ClosedParts(m: Item, pen: Pen): seq<Part>
    requires m.Message?
  {
    if pen.Some? && pen.value.MessageWriter? && pen.value.partOpen && m.content != [] then Front(m.content)
    else m.content
  }

  function ClosedSummary(r: Item, pen: Pen): seq<Part>
    requires r.Reasoning?
  {
    if pen.Some? && pen.value.ReasoningWriter? && pen.value.summaryOpen && r.summary != [] then Front(r.summary)
    else r.summary
  }

  predicate Blank(part: Part) { part == OutputText("", [], []) || part == Refusal("") }

  /** What an event about an item says holds of the item. */
  predicate TrueOf(item: Item, pen: Pen, ev: Event) {
    && (ev.Content() ==> ev.itemId == ItemId(item))
    && match ev
       case ItemAdded(_, added) => SameItem(added, item)
       case ItemDone(_, done) => pen.None? && item == done
       case PartAdded(_, _, c, part) =>
         item.Message? && 0 <= c < |item.content| && Blank(part) && SameKind(part, item.content[c])
       case PartDone(_, _, c, part) =>
         item.Message? && 0 <= c < |ClosedParts(item, pen)| && ClosedParts(item, pen)[c] == part
       case TextDelta(_, _, c, _, logprobs) =>
         item.Message? && 0 <= c < |item.content| && item.content[c].OutputText? && logprobs == []
       case TextDone(_, _, c, text, logprobs) =>
         && item.Message? && 0 <= c < |ClosedParts(item, pen)| && ClosedParts(item, pen)[c].OutputText?
         && ClosedParts(item, pen)[c].text == text
         && logprobs == (if ClosedParts(item, pen)[c].logprobs == [] then None
                         else Some(ClosedParts(item, pen)[c].logprobs))
       case AnnotationAdded(_, _, c, k, a) =>
         && item.Message? && 0 <= c < |item.content| && item.content[c].OutputText?
         && 0 <= k < |item.content[c].annotations| && item.content[c].annotations[k] == a
       case RefusalDelta(_, _, c, _) => item.Message? && 0 <= c < |item.content| && item.content[c].Refusal?
       case RefusalDone(_, _, c, text) =>
         item.Message? && 0 <= c < |ClosedParts(item, pen)| && ClosedParts(item, pen)[c] == Refusal(text)
       case ArgumentsDelta(_, _, _) => item.FunctionCall?
       case ArgumentsDone(_, _, text) => item.FunctionCall? && pen.None? && item.arguments == text
       case SummaryAdded(_, _, s, part) => item.Reasoning? && 0 <= s < |item.summary| && part == SummaryText("")
       case SummaryDelta(_, _, s, _) => item.Reasoning? && 0 <= s < |item.summary|
       case SummaryTextDone(_, _, s, text) =>
         item.Reasoning? && 0 <= s < |ClosedSummary(item, pen)| && ClosedSummary(item, pen)[s] == SummaryText(text)
       case SummaryDone(_, _, s, part) =>
         item.Reasoning? && 0 <= s < |ClosedSummary(item, pen)| && ClosedSummary(item, pen)[s] == part
       case ReasoningDelta(_, _, c, _) => item.Reasoning? && c == 0
       case ReasoningDone(_, _, c, text) =>
         item.Reasoning? && pen.None? && c == 0 && item.content == [ReasoningText(text)]
       case _ => false
  }

  /** How an item may go on: what is finished stays, an item no longer being
      written stays as it is. */
  predicate GoesOn(a: Item, pa: Pen, b: Item, pb: Pen) {
    && SameItem(b, a) && (pa.None? ==> b == a && pb.None?)
    && (a.Message? ==>
          && b.Message? && ClosedParts(a, pa) <= ClosedParts(b, pb) && |a.content| <= |b.content|
          && forall c :: 0 <= c < |a.content| ==>
               && (a.content[c].OutputText? ==>
                     b.content[c].OutputText? && a.content[c].annotations <= b.content[c].annotations)
               && (a.content[c].Refusal? ==> b.content[c].Refusal?))
    && (a.FunctionCall? ==> b.FunctionCall?)
    && (a.Reasoning? ==>
          && b.Reasoning? && ClosedSummary(a, pa) <= ClosedSummary(b, pb) && |a.summary| <= |b.summary|)
  }

  lemma StaysTrue(a: Item, pa: Pen, b: Item, pb: Pen, ev: Event)
    requires TrueOf(a, pa, ev) && GoesOn(a, pa, b, pb)
    ensures TrueOf(b, pb, ev)
  {
  }

  lemma GoesOnAgain(a: Item, pa: Pen, b: Item, pb: Pen, c: Item, pc: Pen)
    requires GoesOn(a, pa, b, pb) && GoesOn(b, pb, c, pc)
    ensures GoesOn(a, pa, c, pc)
  {
  }

  // ---- One writer call ------------------------------------------------------------------------------------

  function PenOf(w: Writer): Pen { if w.closed then None else Some(w) }

  /** A call on an open writer goes on with its item, and all it sends is true. */
  ghost predicate TellsTrue(item: Item, w: Writer, l: Local) {
    && GoesOn(item, PenOf(w), l.item, PenOf(l.writer))
    && forall ev <- l.events :: OnItem(ev) && ev.outputIndex == w.index && TrueOf(l.item, PenOf(l.writer), ev)
  }

  predicate OnItem(ev: Event) { ev.Content() || ev.ItemAdded? || ev.ItemDone? }

  /** Two pieces of work on one item. */
  lemma BothTrue(item: Item, w: Writer, a: Local, b: Local, both: Local)
    requires TellsTrue(item, w, a) && TellsTrue(a.item, a.writer, b) && a.writer.index == w.index
    requires both.item == b.item && both.writer == b.writer && both.events == a.events + b.events
    ensures TellsTrue(item, w, both)
  {
    hide GoesOn, TrueOf;
    GoesOnAgain(item, PenOf(w), a.item, PenOf(a.writer), b.item, PenOf(b.writer));
    forall ev | ev in a.events ensures TrueOf(b.item, PenOf(b.writer), ev) {
      StaysTrue(a.item, PenOf(a.writer), b.item, PenOf(b.writer), ev);
    }
  }

  lemma ClosePartTrue(m: Item, w: Writer)
    requires w.MessageWriter? && !w.closed && Attached(m, w)
    ensures TellsTrue(m, w, ClosePart(m, w))
  {
  }

  lemma OpenPartTrue(m: Item, w: Writer, blank: Part)
    requires w.MessageWriter? && !w.closed && !w.partOpen && Attached(m, w) && Blank(blank)
    ensures TellsTrue(m, w, OpenPart(m, w, blank))
  {
  }

  lemma EnsurePartTrue(m: Item, w: Writer, blank: Part)
    requires w.MessageWriter? && !w.closed && Attached(m, w) && Blank(blank)
    ensures TellsTrue(m, w, EnsurePart(m, w, blank))
  {
    if w.partOpen && SameKind(Last(m.content), blank) {
    } else {
      var closed := ClosePart(m, w);
      ClosePartTrue(m, w);
      OpenPartTrue(m, closed.writer, blank);
      hide TellsTrue, ClosePart, OpenPart;
      BothTrue(m, w, closed, OpenPart(m, closed.writer, blank), EnsurePart(m, w, blank));
    }
  }

  /** The open part grows: its text, its annotations or its logprobs. */
  lemma PartWriteTrue(m: Item, w: Writer, part: Part, events: seq<Event>)
    requires w.MessageWriter? && !w.closed && w.partOpen && Attached(m, w)
    requires SameKind(part, Last(m.content))
    requires part.OutputText? ==> Last(m.content).annotations <= part.annotations
    requires forall ev <- events :: OnItem(ev) && ev.outputIndex == w.index
    requires forall ev <- events :: TrueOf(WithContent(m, ReplaceLast(m.content, part)), Some(w), ev)
    ensures TellsTrue(m, w, Local(WithContent(m, ReplaceLast(m.content, part)), w, events, Ok))
  {
    hide TrueOf;
    assert Front(ReplaceLast(m.content, part)) == Front(m.content);
  }

  predicate PartCall(part: Part, call: WriterCall) {
    if call.Refuse? then part.Refusal? else (call.Text? || call.AddAnnotation? || call.AddLogprobs?) && part.OutputText?
  }

  function NextPart(part: Part, call: WriterCall): Part
    requires PartCall(part, call)
  {
    match call
    case Text(delta) => OutputText(part.text + delta, part.annotations, part.logprobs)
    case Refuse(delta) => Refusal(part.refusal + delta)
    case AddAnnotation(a) => OutputText(part.text, part.annotations + [a], part.logprobs)
    case AddLogprobs(logprobs) => OutputText(part.text, part.annotations, part.logprobs + logprobs)
  }

  function PartEvents(id: string, index: nat, c: nat, part: Part, call: WriterCall): seq<Event>
    requires PartCall(part, call)
  {
    match call
    case Text(delta) => [TextDelta(id, index, c, delta, [])]
    case Refuse(delta) => [RefusalDelta(id, index, c, delta)]
    case AddAnnotation(a) => [AnnotationAdded(id, index, c, |part.annotations|, a)]
    case AddLogprobs(_) => []
  }

  function PartWritten(m: Item, w: Writer, call: WriterCall): Local
    requires m.Message? && m.content != [] && PartCall(Last(m.content), call)
  {
    Local(WithContent(m, ReplaceLast(m.content, NextPart(Last(m.content), call))), w,
          PartEvents(m.id, w.index, |m.content| - 1, Last(m.content), call), Ok)
  }

  lemma PartWrittenTrue(m: Item, w: Writer, call: WriterCall)
    requires w.MessageWriter? && !w.closed && w.partOpen && Attached(m, w) && PartCall(Last(m.content), call)
    ensures TellsTrue(m, w, PartWritten(m, w, call))
  {
    var next := NextPart(Last(m.content), call);
    var more := PartWritten(m, w, call);
    assert more.item.content[|m.content| - 1] == next;
    PartWriteTrue(m, w, next, more.events);
  }

  lemma MessageTrue(m: Item, w: Writer, call: WriterCall)
    requires w.MessageWriter? && !w.closed && Attached(m, w) && WriterAllows(w, call) && !call.CloseWriter?
    ensures TellsTrue(m, w, Perform(m, w, call))
  {
    hide TellsTrue;
    var blank := if call.Refuse? then Refusal("") else OutputText("", [], []);
    EnsurePartTrue(m, w, blank);
    EnsurePartFits(m, w, blank);
    var l := EnsurePart(m, w, blank);
    PartWrittenTrue(l.item, l.writer, call);
    hide EnsurePart;
    PerformIsWritten(m, w, call, blank);
    BothTrue(m, w, l, PartWritten(l.item, l.writer, call), Perform(m, w, call));
  }

  lemma PerformIsWritten(m: Item, w: Writer, call: WriterCall, blank: Part)
    requires w.MessageWriter? && !w.closed && Attached(m, w) && WriterAllows(w, call) && !call.CloseWriter?
    requires blank == if call.Refuse? then Refusal("") else OutputText("", [], [])
    ensures var l, p := EnsurePart(m, w, blank), Perform(m, w, call);
            && l.item.Message? && l.item.content != [] && PartCall(Last(l.item.content), call)
            && p.item == PartWritten(l.item, l.writer, call).item && p.writer == l.writer
            && p.events == l.events + PartWritten(l.item, l.writer, call).events
  {
    EnsurePartFits(m, w, blank);
    hide EnsurePart;
    assert EnsurePart(m, w, blank).events + [] == EnsurePart(m, w, blank).events;
  }

  // ---- Calls and reasoning -----------------------------------------------------------------------------------

  lemma CallTrue(call: Item, w: Writer, c: WriterCall)
    requires w.CallWriter? && !w.closed && Attached(call, w) && WriterAllows(w, c) && !c.CloseWriter?
    ensures TellsTrue(call, w, Perform(call, w, c))
  {
  }

  lemma OpenSummaryTrue(r: Item, w: Writer)
    requires w.ReasoningWriter? && !w.closed && Attached(r, w)
    ensures TellsTrue(r, w, OpenSummary(r, w))
  {
    if !w.summaryOpen { assert Front(OpenSummary(r, w).item.summary) == r.summary; }
  }

  lemma SummaryDeltaTrue(r: Item, w: Writer, delta: string)
    requires w.ReasoningWriter? && !w.closed && Attached(r, w) && w.summaryOpen
    ensures TellsTrue(r, w, WriteSummary(r, w, delta))
  {
    assert Front(WriteSummary(r, w, delta).item.summary) == Front(r.summary);
  }

  /** Opening a summary and then writing into it is writing into it. */
  lemma SummaryInTwo(r: Item, w: Writer, delta: string)
    requires w.ReasoningWriter? && !w.closed && Attached(r, w)
    ensures var o := OpenSummary(r, w);
            && Attached(o.item, o.writer) && o.writer.ReasoningWriter? && !o.writer.closed && o.writer.summaryOpen
            && o.writer.index == w.index
            && var more, all := WriteSummary(o.item, o.writer, delta), WriteSummary(r, w, delta);
            && all.item == more.item && all.writer == more.writer && all.events == o.events + more.events
  {
  }

  lemma SummaryTrue(r: Item, w: Writer, delta: string)
    requires w.ReasoningWriter? && !w.closed && Attached(r, w)
    ensures TellsTrue(r, w, WriteSummary(r, w, delta))
  {
    hide TellsTrue, WriteSummary, OpenSummary, Attached;
    SummaryInTwo(r, w, delta);
    OpenSummaryTrue(r, w);
    var o := OpenSummary(r, w);
    SummaryDeltaTrue(o.item, o.writer, delta);
    BothTrue(r, w, o, WriteSummary(o.item, o.writer, delta), WriteSummary(r, w, delta));
  }

  lemma EndSummaryTrue(r: Item, w: Writer)
    requires w.ReasoningWriter? && !w.closed && Attached(r, w)
    ensures TellsTrue(r, w, EndSummary(r, w))
  {
  }

  lemma ReasoningTrue(r: Item, w: Writer, call: WriterCall)
    requires w.ReasoningWriter? && !w.closed && Attached(r, w) && WriterAllows(w, call) && !call.CloseWriter?
    ensures TellsTrue(r, w, Perform(r, w, call))
  {
    match call
    case Summarize(delta) => SummaryTrue(r, w, delta);
    case CloseSummary => EndSummaryTrue(r, w);
    case Reason(_) =>
    case Encrypt(_) =>
  }

  // ---- Closing -------------------------------------------------------------------------------------------------

  /** The end of an item, once nothing in it is open. */
  lemma EndTrue(item: Item, w: Writer, l: Local)
    requires Attached(item, w) && !w.closed && (w.MessageWriter? ==> !w.partOpen)
             && (w.ReasoningWriter? ==> !w.summaryOpen)
    requires l.item == FinalForm(item) && l.writer.closed
    requires forall ev <- l.events :: ev == ItemDone(w.index, FinalForm(item)) || EndsInside(item, w, ev)
    ensures TellsTrue(item, w, l)
  {
  }

  predicate EndsInside(item: Item, w: Writer, ev: Event) {
    || (w.CallWriter? && item.FunctionCall? && ev == ArgumentsDone(item.id, w.index, item.arguments))
    || (w.ReasoningWriter? && w.textOpen && item.Reasoning? && |item.content| == 1 && item.content[0].ReasoningText?
        && ev == ReasoningDone(item.id, w.index, 0, item.content[0].text))
  }

  lemma CloseMessageTrue(m: Item, w: Writer)
    requires w.MessageWriter? && !w.closed && Attached(m, w)
    ensures TellsTrue(m, w, Close(m, w))
  {
    ClosePartTrue(m, w);
    var a := ClosePart(m, w);
    var b := Local(FinalForm(m), Shut(a.writer), [ItemDone(w.index, FinalForm(m))], Ok);
    EndTrue(m, a.writer, b);
    hide TellsTrue, ClosePart, FinalForm;
    BothTrue(m, w, a, b, Close(m, w));
  }

  lemma CloseCallTrue(call: Item, w: Writer)
    requires w.CallWriter? && !w.closed && Attached(call, w)
    ensures TellsTrue(call, w, Close(call, w))
  {
    EndTrue(call, w, Close(call, w));
  }

  lemma CloseReasoningTrue(r: Item, w: Writer)
    requires w.ReasoningWriter? && !w.closed && Attached(r, w)
    ensures TellsTrue(r, w, Close(r, w))
  {
    EndSummaryTrue(r, w);
    var a := EndSummary(r, w);
    var inside := if w.textOpen then [ReasoningDone(r.id, w.index, 0, r.content[0].text)] else [];
    var done := ItemDone(w.index, FinalForm(r));
    var b := Local(FinalForm(r), Close(r, w).writer, inside + [done], Ok);
    EndTrue(r, a.writer, b);
    hide TellsTrue, FinalForm, TrueOf, GoesOn;
    assert a.events + (inside + [done]) == a.events + inside + [done] && a.events + [] == a.events;
    BothTrue(r, w, a, b, Close(r, w));
  }

  lemma WriterTrue(item: Item, w: Writer, call: WriterCall)
    requires !w.closed && Attached(item, w) && WriterAllows(w, call)
    ensures TellsTrue(item, w, Perform(item, w, call))
  {
    hide TellsTrue;
    match w
    case MessageWriter(_, _, _) =>
      if call.CloseWriter? { CloseMessageTrue(item, w); } else { MessageTrue(item, w, call); }
    case CallWriter(_, _) =>
      if call.CloseWriter? { CloseCallTrue(item, w); } else { CallTrue(item, w, call); }
    case ReasoningWriter(_, _, _, _, _) =>
      if call.CloseWriter? { CloseReasoningTrue(item, w); } else { ReasoningTrue(item, w, call); }
  }

  // ---- The whole record ------------------------------------------------------------------------------------------

  function PenAt(e: Producer, p: nat): Pen { if LiveAt(e, p) then Some(e.writers[e.Live().value]) else None }

  /** What an event says holds of the output; a snapshot is of this response,
      lists nothing at the start and everything at the end. */
  predicate EventTrue(e: Producer, ev: Event) {
    if OnItem(ev) then
      0 <= ev.outputIndex < |e.resp.output| && TrueOf(e.resp.output[ev.outputIndex], PenAt(e, ev.outputIndex), ev)
    else
      && ev.Snapshot? && ev.response.Some?
      && ev.response.value.id == e.resp.id && ev.response.value.previousId == e.resp.previousId
      && (ev.kind == Created || ev.kind == Started || (ev.kind.Terminal() && e.terminal))
      && ev.response.value.output == if ev.kind.Terminal() then e.resp.output else []
  }

  ghost predicate AllTrue(e: Producer) { forall ev <- e.sent :: EventTrue(e, ev) }

  ghost predicate Continues(e: Producer, d: Producer) {
    && |e.resp.output| <= |d.resp.output|
    && (forall p :: 0 <= p < |e.resp.output| ==> GoesOn(e.resp.output[p], PenAt(e, p), d.resp.output[p], PenAt(d, p)))
    && d.resp.id == e.resp.id && d.resp.previousId == e.resp.previousId
    && (e.terminal ==> d.terminal && d.resp.output == e.resp.output)
  }

  /** One step goes on with every item, and what it sends is true. */
  ghost predicate Steps(e: Producer, d: Producer, events: seq<Event>) {
    Continues(e, d) && d.sent == e.sent + events && forall ev <- events :: EventTrue(d, ev)
  }

  lemma StepTrue(e: Producer, d: Producer, events: seq<Event>)
    requires AllTrue(e) && Steps(e, d, events)
    ensures AllTrue(d)
  {
    hide TrueOf, GoesOn, PenAt;
    forall ev | ev in d.sent ensures EventTrue(d, ev) {
      if ev in e.sent { EventStays(e, d, ev); }
    }
  }

  lemma EventStays(e: Producer, d: Producer, ev: Event)
    requires Continues(e, d) && EventTrue(e, ev)
    ensures EventTrue(d, ev)
  {
    hide TrueOf, GoesOn, PenAt;
    if OnItem(ev) {
      var p := ev.outputIndex;
      StaysTrue(e.resp.output[p], PenAt(e, p), d.resp.output[p], PenAt(d, p), ev);
    }
  }

  lemma SameGoesOn(item: Item, pen: Pen)
    ensures GoesOn(item, pen, item, pen)
  {
  }

  lemma ApplyTrue(e: Producer, h: nat, l: Local)
    requires e.Sound() && h < |e.writers| && e.WriterSound(h) && !e.writers[h].closed
    requires l.writer.index == e.writers[h].index && TellsTrue(e.ItemOf(h), e.writers[h], l)
    ensures Steps(e, e.Apply(h, l), l.events)
  {
    hide TrueOf, GoesOn;
    var d, n := e.Apply(h, l), e.writers[h].index;
    assert PenAt(e, n) == Some(e.writers[h]) && PenAt(d, n) == PenOf(l.writer);
    assert !e.terminal;
    forall p | 0 <= p < |e.resp.output| && p != n ensures PenAt(e, p).None? && PenAt(d, p).None? {}
    forall p | 0 <= p < |e.resp.output| && p != n
      ensures GoesOn(e.resp.output[p], PenAt(e, p), d.resp.output[p], PenAt(d, p))
    {
      SameGoesOn(e.resp.output[p], None);
    }
    forall ev | ev in l.events ensures EventTrue(d, ev) { assert ev.outputIndex == n; }
  }

  lemma WriteAllTrue(e: Producer, h: nat, call: WriterCall)
    requires e.Sound() && AllTrue(e) && e.Allows(Write(h, call))
    ensures AllTrue(e.Do(Write(h, call)))
  {
    assert e.WriterSound(h);
    var l := Perform(e.ItemOf(h), e.writers[h], call);
    PerformFits(e.ItemOf(h), e.writers[h], call);
    if e.writers[h].closed {
      assert e.Do(Write(h, call)) == e;
    } else {
      WriterTrue(e.ItemOf(h), e.writers[h], call);
      hide Perform, TellsTrue, AllTrue, Steps;
      ApplyTrue(e, h, l);
      StepTrue(e, e.Apply(h, l), l.events);
    }
  }

  lemma StartTrue(e: Producer)
    requires e.Sound() && AllTrue(e)
    ensures AllTrue(e.EnsureStarted())
  {
    hide TrueOf, GoesOn;
    var d := e.EnsureStarted();
    assert forall p :: PenAt(d, p) == PenAt(e, p);
    if !e.started { assert d.resp.output == []; }
  }

  lemma CloseOpenTrue(e: Producer)
    requires e.Sound() && AllTrue(e)
    ensures AllTrue(e.CloseOpen()) && e.CloseOpen().Live().None? && e.CloseOpen().resp.id == e.resp.id
  {
    hide TrueOf, GoesOn, Close, AllTrue;
    if e.open.Some? {
      var h := e.open.value;
      assert e.WriterSound(h);
      var item, w := e.ItemOf(h), e.writers[h];
      var l := Close(item, w);
      if w.closed {
        ClosedSays(item, w);
        assert e.Apply(h, l) == e;
      } else {
        WriterTrue(item, w, CloseWriter);
        CloseFits(item, w);
        ApplyTrue(e, h, l);
        StepTrue(e, e.Apply(h, l), l.events);
      }
      ForgotTrue(e.Apply(h, l), h);
    }
  }

  lemma ClosedSays(item: Item, w: Writer)
    requires w.closed
    ensures Close(item, w) == Same(item, w, Ok)
  {
  }

  /** Nothing is being written: forgetting the writer changes nothing. */
  lemma ForgotTrue(e: Producer, h: nat)
    requires AllTrue(e) && h < |e.writers| && e.writers[h].closed && e.open == Some(h)
    ensures AllTrue(e.(open := None)) && e.(open := None).Live().None?
  {
    hide TrueOf;
    assert forall p :: PenAt(e.(open := None), p) == PenAt(e, p);
  }

  /** A new item at the end, being written or not, and what is said of it. */
  lemma AppendTrue(c: Producer, d: Producer, item: Item, events: seq<Event>)
    requires AllTrue(c) && c.Live().None? && !c.terminal
    requires d.resp == c.resp.(output := c.resp.output + [item]) && d.sent == c.sent + events
    requires forall p :: 0 <= p < |c.resp.output| ==> PenAt(d, p).None?
    requires forall ev <- events ::
               OnItem(ev) && ev.outputIndex == |c.resp.output| && TrueOf(item, PenAt(d, |c.resp.output|), ev)
    ensures AllTrue(d)
  {
    hide TrueOf, GoesOn;
    forall p | 0 <= p < |c.resp.output|
      ensures GoesOn(c.resp.output[p], PenAt(c, p), d.resp.output[p], PenAt(d, p))
    {
      assert PenAt(c, p).None?;
      SameGoesOn(c.resp.output[p], None);
    }
    StepTrue(c, d, events);
  }

  lemma OpenWithTrue(e: Producer, item: Item, w: Writer)
    requires e.Sound() && AllTrue(e) && !e.terminal && !w.closed && w.index == |e.resp.output| && !item.NilItem?
    ensures AllTrue(e.OpenWith(item, w))
  {
    hide TrueOf, AllTrue;
    StartTrue(e);
    CloseOpenTrue(e.EnsureStarted());
    var c, d := e.EnsureStarted().CloseOpen(), e.OpenWith(item, w);
    AddedTrue(item, PenAt(d, |e.resp.output|), |e.resp.output|);
    AppendTrue(c, d, item, [ItemAdded(|e.resp.output|, item)]);
  }

  lemma AddedTrue(item: Item, pen: Pen, n: nat)
    ensures TrueOf(item, pen, ItemAdded(n, item))
  {
  }

  lemma EmitTrue(e: Producer, item: Item)
    requires e.Sound() && AllTrue(e) && !e.terminal && !item.NilItem?
    ensures AllTrue(e.Do(EmitItem(item)))
  {
    hide TrueOf, AllTrue, FinalForm;
    StartTrue(e);
    CloseOpenTrue(e.EnsureStarted());
    EmitShape(e, item);
    var n, c, d := |e.resp.output|, e.EnsureStarted().CloseOpen(), e.Do(EmitItem(item));
    var final := FinalForm(item);
    BothSaid(item, final, n);
    assert d.resp.output == c.resp.output + [final];
    assert d.sent == c.sent + [ItemAdded(n, item), ItemDone(n, final)];
    assert PenAt(d, n).None?;
    AppendTrue(c, d, final, [ItemAdded(n, item), ItemDone(n, final)]);
  }

  lemma BothSaid(item: Item, final: Item, n: nat)
    requires SameItem(final, item)
    ensures TrueOf(final, None, ItemAdded(n, item)) && TrueOf(final, None, ItemDone(n, final))
  {
  }

  /** Marking the open item changes its status only. */
  lemma MarkTrue(e: Producer)
    requires e.Sound() && AllTrue(e) && !e.terminal
    ensures AllTrue(e.MarkOpenIncomplete())
  {
    var m := e.MarkOpenIncomplete();
    hide TrueOf, GoesOn;
    if e.Live().Some? { assert e.WriterSound(e.Live().value); }
    assert forall p :: PenAt(m, p) == PenAt(e, p);
    forall p | 0 <= p < |e.resp.output|
      ensures GoesOn(e.resp.output[p], PenAt(e, p), m.resp.output[p], PenAt(m, p))
    {
      SameGoesOn(e.resp.output[p], PenAt(e, p));
      if LiveAt(e, p) {
        StatusGoesOn(e.resp.output[p], PenAt(e, p));
      }
    }
    assert m.sent == e.sent + [];
    StepTrue(e, m, []);
  }

  lemma StatusGoesOn(item: Item, pen: Pen)
    requires pen.Some?
    ensures GoesOn(item, pen, WithStatus(item, Incomplete), pen)
  {
  }

  lemma FinishTrue(e: Producer, kind: SnapshotKind, final: Response)
    requires AllTrue(e) && e.Live().None? && !e.terminal && kind.Terminal()
    requires final.output == e.resp.output && final.id == e.resp.id && final.previousId == e.resp.previousId
    ensures AllTrue(e.Finish(kind, final))
  {
    hide TrueOf, GoesOn;
    var d := e.Finish(kind, final);
    assert forall p :: PenAt(d, p).None? && PenAt(e, p).None?;
    forall p | 0 <= p < |e.resp.output|
      ensures GoesOn(e.resp.output[p], PenAt(e, p), d.resp.output[p], PenAt(d, p))
    {
      SameGoesOn(e.resp.output[p], None);
    }
    StepTrue(e, d, [Snapshot(kind, Some(final))]);
  }

  lemma DetailsTrue(e: Producer, details: string)
    requires e.Sound() && AllTrue(e)
    ensures AllTrue(e.Do(SetDetails(details)))
  {
    hide TrueOf;
    assert forall p :: PenAt(e.Do(SetDetails(details)), p) == PenAt(e, p);
  }

  lemma CompleteTrue(e: Producer)
    requires e.Sound() && AllTrue(e) && !e.terminal
    ensures AllTrue(e.Do(CompleteStream))
  {
    hide AllTrue, Producer.EnsureStarted, Producer.CloseOpen;
    StartTrue(e);
    CloseOpenTrue(e.EnsureStarted());
    var c := e.EnsureStarted().CloseOpen();
    FinishTrue(c, Finished, c.resp.Complete());
  }

  lemma StopTrue(e: Producer, reason: string)
    requires e.Sound() && AllTrue(e) && !e.terminal
    ensures AllTrue(e.Do(StopStream(reason)))
  {
    hide AllTrue, Producer.MarkOpenIncomplete, Producer.EnsureStarted, Producer.CloseOpen;
    MarkTrue(e);
    var m := e.MarkOpenIncomplete();
    StartTrue(m);
    CloseOpenTrue(m.EnsureStarted());
    var c := m.EnsureStarted().CloseOpen();
    FinishTrue(c, Stopped, c.resp.MarkIncomplete(reason));
  }

  lemma DoTrue(e: Producer, call: Call)
    requires e.Sound() && AllTrue(e) && e.Allows(call)
    ensures AllTrue(e.Do(call))
  {
    hide AllTrue;
    match call
    case StartStream => StartTrue(e);
    case SetDetails(details) => DetailsTrue(e, details);
    case Write(h, c) => WriteAllTrue(e, h, c);
    case OpenMessage(id, phase) =>
      if !e.terminal {
        OpenWithTrue(e, Message(id, InProgress, "assistant", phase, []), MessageWriter(|e.resp.output|, false, false));
      }
    case OpenCall(id, callId, name) =>
      if !e.terminal {
        OpenWithTrue(e, FunctionCall(id, InProgress, callId, name, ""), CallWriter(|e.resp.output|, false));
      }
    case OpenReasoning(id) =>
      if !e.terminal {
        OpenWithTrue(e, Reasoning(id, InProgress, [], [], ""),
                     ReasoningWriter(|e.resp.output|, false, false, false, false));
      }
    case EmitItem(item) => if !e.terminal { EmitTrue(e, item); }
    case CompleteStream => if !e.terminal { CompleteTrue(e); }
    case StopStream(reason) => if !e.terminal { StopTrue(e, reason); }
  }

  lemma {:induction false} RunTrue(e: Producer, calls: seq<Call>)
    requires e.Sound() && AllTrue(e) && AllowsAll(e, calls)
    ensures AllTrue(DoAll(e, calls))
    decreases |calls|
  {
    hide AllTrue, Producer.Do, Producer.Sound;
    if calls != [] {
      DoSound(e, calls[0]);
      DoTrue(e, calls[0]);
      RunTrue(e.Do(calls[0]), calls[1..]);
    }
  }

  /** After every run of calls every event sent is true of the output: it names
      the item at its index, what it finished is there as it said, and the
      snapshots are those of this response. */
  lemma EveryEventTrue(resp: Response, calls: seq<Call>)
    requires Fresh(resp) && (NewSound(resp); AllowsAll(NewProducer(resp), calls))
    ensures (NewSound(resp); forall ev <- DoAll(NewProducer(resp), calls).sent ::
               EventTrue(DoAll(NewProducer(resp), calls), ev))
  {
    NewSound(resp);
    RunTrue(NewProducer(resp), calls);
  }
}

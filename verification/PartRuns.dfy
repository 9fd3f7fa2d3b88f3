/** How what is written is cut into parts: not by the deltas it comes in, only
    by a change of kind or by ending a summary; and what every call answers. */
module PartRuns {
  import opened EmitterSpec
  import opened Types
  import opened Wrappers

  // ---- Deltas do not matter ----------------------------------------------------------------

  datatype Kind = OfText | OfRefusal | OfArguments | OfSummary | OfReasoning

  function Delta(kind: Kind, delta: string): WriterCall {
    match kind
    case OfText => Text(delta)
    case OfRefusal => Refuse(delta)
    case OfArguments => Arguments(delta)
    case OfSummary => Summarize(delta)
    case OfReasoning => Reason(delta)
  }

  lemma DeltasMergeLocally(item: Item, w: Writer, kind: Kind, a: string, b: string)
    requires WriterAllows(w, Delta(kind, a)) && !w.closed && Attached(item, w)
    ensures var l := Perform(item, w, Delta(kind, a));
            && Attached(l.item, l.writer) && !l.writer.closed
            && var m, n := Perform(l.item, l.writer, Delta(kind, b)), Perform(item, w, Delta(kind, a + b));
               m.item == n.item && m.writer == n.writer
  {
    match kind
    case OfText => MessageDeltas(item, w, OutputText("", [], []), a, b);
    case OfRefusal => MessageDeltas(item, w, Refusal(""), a, b);
    case OfArguments => assert item.arguments + a + b == item.arguments + (a + b);
    case OfSummary => SummaryDeltas(item, w, a, b);
    case OfReasoning =>
      var before := if w.textOpen then item.content[0].text else "";
      assert before + a + b == before + (a + b);
  }

  lemma SummaryDeltas(r: Item, w: Writer, a: string, b: string)
    requires w.ReasoningWriter? && !w.closed && Attached(r, w)
    ensures var l := WriteSummary(r, w, a);
            && Attached(l.item, l.writer) && !l.writer.closed
            && var m, n := WriteSummary(l.item, l.writer, b), WriteSummary(r, w, a + b);
               m.item == n.item && m.writer == n.writer
  {
    var l := OpenSummary(r, w);
    var text := Last(l.item.summary).text;
    assert text + a + b == text + (a + b);
  }

  lemma MessageDeltas(m: Item, w: Writer, blank: Part, a: string, b: string)
    requires w.MessageWriter? && !w.closed && Attached(m, w)
             && (blank == OutputText("", [], []) || blank == Refusal(""))
    ensures var kind := if blank.OutputText? then OfText else OfRefusal;
            var l := Perform(m, w, Delta(kind, a));
            && Attached(l.item, l.writer) && !l.writer.closed && l.writer.MessageWriter?
            && var x, y := Perform(l.item, l.writer, Delta(kind, b)), Perform(m, w, Delta(kind, a + b));
               x.item == y.item && x.writer == y.writer
  {
    hide EnsurePart, ClosePart;
    EnsurePartFits(m, w, blank);
    var l := EnsurePart(m, w, blank);
    var kind := if blank.OutputText? then OfText else OfRefusal;
    var first := Perform(m, w, Delta(kind, a));
    assert first.writer == l.writer && SameKind(Last(first.item.content), blank);
    EnsuredAlready(first.item, first.writer, blank);
    var part := Last(l.item.content);
    if blank.OutputText? {
      assert part.text + a + b == part.text + (a + b);
    } else {
      assert part.refusal + a + b == part.refusal + (a + b);
    }
    ReplacedTwice(l.item.content, Last(first.item.content), Last(Perform(m, w, Delta(kind, a + b)).item.content));
  }

  lemma EnsuredAlready(m: Item, w: Writer, blank: Part)
    requires w.MessageWriter? && Attached(m, w) && w.partOpen && (blank.OutputText? || blank.Refusal?)
    requires SameKind(Last(m.content), blank)
    ensures EnsurePart(m, w, blank) == Same(m, w, Ok)
  {
  }

  lemma ReplacedTwice(parts: seq<Part>, once: Part, part: Part)
    requires parts != []
    ensures ReplaceLast(ReplaceLast(parts, once), part) == ReplaceLast(parts, part)
  {
  }

  /** Writing two deltas of a kind leaves the output and the writers as writing
      them as one does, on a live writer, a closed one, or a stale one. */
  lemma DeltasMerge(e: Producer, h: nat, kind: Kind, a: string, b: string)
    requires e.Sound() && e.Allows(Write(h, Delta(kind, a)))
    ensures var d := e.Do(Write(h, Delta(kind, a)));
            && d.Sound() && d.Allows(Write(h, Delta(kind, b))) && e.Allows(Write(h, Delta(kind, a + b)))
            && var two, one := d.Do(Write(h, Delta(kind, b))), e.Do(Write(h, Delta(kind, a + b)));
               two.resp == one.resp && two.writers == one.writers
  {
    hide Producer.Sound, Producer.Do, Attached, Perform, Delta, WriterAllows;
    DoSound(e, Write(h, Delta(kind, a)));
    WriteIs(e, h, Delta(kind, a));
    var d, w := e.Do(Write(h, Delta(kind, a))), e.writers[h];
    DeltaAllowed(w, kind, a, b);
    DeltaAllowed(w, kind, a, a + b);
    if w.closed {
      NoSummary(e, h);
      ClosedSame(e.ItemOf(h), w, kind, a);
      ClosedSame(e.ItemOf(h), w, kind, b);
      ClosedSame(e.ItemOf(h), w, kind, a + b);
    } else {
      LiveAttached(e, h);
      DeltaFits(e.ItemOf(h), w, kind, a, b);
      DeltasMergeLocally(e.ItemOf(h), w, kind, a, b);
    }
    WriteIs(d, h, Delta(kind, b));
    WriteIs(e, h, Delta(kind, a + b));
  }

  lemma DeltaAllowed(w: Writer, kind: Kind, a: string, b: string)
    requires WriterAllows(w, Delta(kind, a))
    ensures WriterAllows(w, Delta(kind, b))
  {
  }

  lemma NoSummary(e: Producer, h: nat)
    requires e.Sound() && h < |e.writers|
    ensures e.writers[h].ReasoningWriter? && e.writers[h].summaryOpen ==> !e.writers[h].closed
  {
    assert e.WriterSound(h);
  }

  /** A write puts its item and writer in place of those it had. */
  lemma WriteIs(e: Producer, h: nat, c: WriterCall)
    requires e.Sound() && e.Allows(Write(h, c))
    ensures e.WriterSound(h)
    ensures var d, l := e.Do(Write(h, c)), Perform(e.ItemOf(h), e.writers[h], c);
            && d.resp == e.resp.(output := e.resp.output[e.writers[h].index := l.item])
            && d.writers == e.writers[h := l.writer]
  {
    assert e.WriterSound(h);
  }

  lemma ClosedSame(item: Item, w: Writer, kind: Kind, a: string)
    requires w.closed && WriterAllows(w, Delta(kind, a)) && (w.ReasoningWriter? && w.summaryOpen ==> !w.closed)
    ensures var l := Perform(item, w, Delta(kind, a)); l.item == item && l.writer == w
  {
  }

  lemma DeltaFits(item: Item, w: Writer, kind: Kind, a: string, b: string)
    requires WriterAllows(w, Delta(kind, a)) && !w.closed && Attached(item, w)
    ensures var l := Perform(item, w, Delta(kind, a));
            && l.writer.index == w.index && WriterAllows(l.writer, Delta(kind, b)) && !l.writer.closed
            && Attached(l.item, l.writer)
  {
    PerformFits(item, w, Delta(kind, a));
  }

  // ---- Ending a summary ---------------------------------------------------------------------

  /** Ending a summary between two deltas makes two parts of them: the first as
      it was, the second of its own, at the end of the list. */
  lemma SummariesSplit(e: Producer, h: nat, a: string, b: string)
    requires e.Sound() && e.Allows(Write(h, Summarize(a))) && !e.writers[h].closed
    ensures var d := e.Do(Write(h, Summarize(a)));
            && d.Sound() && d.Allows(Write(h, CloseSummary))
            && var f := d.Do(Write(h, CloseSummary));
            && f.Sound() && f.Allows(Write(h, Summarize(b))) && d.WriterSound(h) && f.WriterSound(h)
            && var g := f.Do(Write(h, Summarize(b)));
            && g.WriterSound(h) && d.ItemOf(h).Reasoning? && g.ItemOf(h).Reasoning?
            && g.ItemOf(h).summary == d.ItemOf(h).summary + [SummaryText(b)]
            && g.ItemOf(h).content == d.ItemOf(h).content
  {
    hide Producer.Sound, Producer.Do, Attached, Perform;
    var w, item := e.writers[h], (WriteIs(e, h, Summarize(a)); e.ItemOf(h));
    LiveAttached(e, h);
    SplitLocally(item, w, a, b);
    var d := e.Do(Write(h, Summarize(a)));
    DoSound(e, Write(h, Summarize(a)));
    WriteIs(d, h, CloseSummary);
    var f := d.Do(Write(h, CloseSummary));
    DoSound(d, Write(h, CloseSummary));
    WriteIs(f, h, Summarize(b));
    var g := f.Do(Write(h, Summarize(b)));
    DoSound(f, Write(h, Summarize(b)));
    WriteIs(g, h, CloseSummary);
  }

  lemma LiveAttached(e: Producer, h: nat)
    requires e.Sound() && h < |e.writers| && !e.writers[h].closed
    ensures e.writers[h].index < |e.resp.output| && Attached(e.ItemOf(h), e.writers[h])
  {
    assert e.WriterSound(h);
  }

  lemma SplitLocally(r: Item, w: Writer, a: string, b: string)
    requires w.ReasoningWriter? && !w.closed && Attached(r, w)
    ensures var l := Perform(r, w, Summarize(a));
            && Attached(l.item, l.writer) && !l.writer.closed && l.writer.ReasoningWriter? && l.writer.index == w.index
            && var m := Perform(l.item, l.writer, CloseSummary);
            && Attached(m.item, m.writer) && !m.writer.closed && m.writer.ReasoningWriter? && m.writer.index == w.index
            && var n := Perform(m.item, m.writer, Summarize(b));
            && n.writer.index == w.index && !n.writer.closed && n.writer.ReasoningWriter?
            && n.item.Reasoning? && l.item.Reasoning? && n.item.summary == l.item.summary + [SummaryText(b)]
            && n.item.content == l.item.content
  {
    hide Perform, Attached;
    StartsSummary(r, w, a);
    var l := Perform(r, w, Summarize(a));
    EndsSummary(l.item, l.writer);
    var m := Perform(l.item, l.writer, CloseSummary);
    StartsSummary(m.item, m.writer, b);
  }

  /** Writing a summary delta on a live writer; with no part open it starts one. */
  lemma StartsSummary(r: Item, w: Writer, delta: string)
    requires w.ReasoningWriter? && !w.closed && Attached(r, w)
    ensures var l := Perform(r, w, Summarize(delta));
            && Attached(l.item, l.writer) && !l.writer.closed && l.writer.ReasoningWriter? && l.writer.index == w.index
            && r.Reasoning? && l.item.Reasoning? && l.writer.summaryOpen && l.item.content == r.content
            && (!w.summaryOpen ==> l.item.summary == r.summary + [SummaryText(delta)])
  {
    var l := WriteSummary(r, w, delta);
    if !w.summaryOpen {
      var blank := r.summary + [SummaryText("")];
      assert "" + delta == delta && blank[|blank| - 1 := SummaryText(delta)] == r.summary + [SummaryText(delta)];
    }
  }

  lemma EndsSummary(r: Item, w: Writer)
    requires w.ReasoningWriter? && !w.closed && Attached(r, w)
    ensures var l := Perform(r, w, CloseSummary);
            && l.item == r && Attached(r, l.writer) && l.writer.ReasoningWriter? && !l.writer.closed
            && l.writer.index == w.index && !l.writer.summaryOpen
  {
  }

  // ---- Parts of a message ------------------------------------------------------------------------

  /** Text parts and refusal parts in turn. */
  predicate InTurn(parts: seq<Part>) {
    && (forall j :: 0 <= j < |parts| ==> parts[j].OutputText? || parts[j].Refusal?)
    && forall j :: 0 <= j < |parts| - 1 ==> parts[j].OutputText? != parts[j + 1].OutputText?
  }

  /** A message being written, its last part open until it is closed. */
  predicate Shaped(item: Item, w: Writer) {
    w.MessageWriter? ==>
      item.Message? && InTurn(item.content) && (!w.closed && item.content != [] ==> w.partOpen)
  }

  ghost predicate AllShaped(e: Producer) {
    && (forall h, k :: 0 <= h < k < |e.writers| ==> e.writers[h].index < e.writers[k].index)
    && forall h :: 0 <= h < |e.writers| ==>
         e.writers[h].index < |e.resp.output| && Shaped(e.ItemOf(h), e.writers[h])
  }

  lemma EnsuredShape(m: Item, w: Writer, blank: Part)
    requires w.MessageWriter? && !w.closed && Attached(m, w) && Shaped(m, w) && (blank.OutputText? || blank.Refusal?)
    ensures var l := EnsurePart(m, w, blank);
            && l.item.Message? && InTurn(l.item.content) && l.item.content != []
            && SameKind(Last(l.item.content), blank)
  {
  }

  lemma WriteShaped(item: Item, w: Writer, call: WriterCall)
    requires WriterAllows(w, call) && !w.closed && Attached(item, w) && Shaped(item, w) && !item.NilItem?
    ensures var l := Perform(item, w, call); Shaped(l.item, l.writer) && l.writer.index == w.index
  {
    if !w.MessageWriter? {
      PerformFits(item, w, call);
      OtherShaped(item, w, call);
    } else if call.CloseWriter? {
      MessageClosedShaped(item, w);
    } else {
      MessageWrittenShaped(item, w, call);
    }
  }

  lemma OtherShaped(item: Item, w: Writer, call: WriterCall)
    requires WriterAllows(w, call) && !w.closed && Attached(item, w) && !w.MessageWriter?
    ensures !Perform(item, w, call).writer.MessageWriter?
  {
  }

  lemma MessageClosedShaped(m: Item, w: Writer)
    requires w.MessageWriter? && !w.closed && Attached(m, w) && Shaped(m, w)
    ensures var l := Close(m, w); Shaped(l.item, l.writer) && l.writer.index == w.index
  {
  }

  lemma MessageWrittenShaped(m: Item, w: Writer, call: WriterCall)
    requires w.MessageWriter? && WriterAllows(w, call) && !w.closed && Attached(m, w) && Shaped(m, w)
             && !call.CloseWriter?
    ensures var l := Perform(m, w, call); Shaped(l.item, l.writer) && l.writer.index == w.index
  {
    hide EnsurePart, InTurn;
    var blank := if call.Refuse? then Refusal("") else OutputText("", [], []);
    EnsuredShape(m, w, blank);
    EnsurePartFits(m, w, blank);
    var e, l := EnsurePart(m, w, blank), Perform(m, w, call);
    assert l.writer == e.writer && |l.item.content| == |e.item.content| && SameKind(Last(l.item.content), blank);
    LastKind(e.item.content, l.item.content);
  }

  lemma LastKind(parts: seq<Part>, after: seq<Part>)
    requires InTurn(parts) && parts != [] && |after| == |parts| && Front(after) == Front(parts)
    requires SameKind(Last(after), Last(parts))
    ensures InTurn(after)
  {
    assert forall j :: 0 <= j < |parts| - 1 ==> after[j] == Front(after)[j] && parts[j] == Front(parts)[j];
  }

  lemma ApplyShaped(e: Producer, h: nat, l: Local)
    requires AllShaped(e) && h < |e.writers| && l.writer.index == e.writers[h].index && Shaped(l.item, l.writer)
    ensures AllShaped(e.Apply(h, l))
  {
    hide Shaped;
    var d := e.Apply(h, l);
    forall k | 0 <= k < |d.writers| ensures d.writers[k].index < |d.resp.output| && Shaped(d.ItemOf(k), d.writers[k]) {
      if k != h { assert d.writers[k].index != d.writers[h].index; }
    }
  }

  lemma CallShaped(e: Producer, h: nat, c: WriterCall)
    requires e.Sound() && AllShaped(e) && e.Allows(Write(h, c))
    ensures e.WriterSound(h)
    ensures AllShaped(e.Apply(h, Perform(e.ItemOf(h), e.writers[h], c)))
  {
    assert e.WriterSound(h);
    PerformFits(e.ItemOf(h), e.writers[h], c);
    if !e.writers[h].closed { WriteShaped(e.ItemOf(h), e.writers[h], c); }
    hide Perform, Producer.Sound, Attached;
    ApplyShaped(e, h, Perform(e.ItemOf(h), e.writers[h], c));
  }

  lemma ClosedShaped(e: Producer)
    requires e.Sound() && AllShaped(e)
    ensures AllShaped(e.CloseOpen()) && AllShaped(e.EnsureStarted())
    ensures AllShaped(e.EnsureStarted().CloseOpen())
  {
    hide AllShaped;
    StartedShaped(e);
    CloseShaped(e);
    CloseShaped(e.EnsureStarted());
  }

  lemma StartedShaped(e: Producer)
    requires e.Sound() && AllShaped(e)
    ensures AllShaped(e.EnsureStarted())
  {
  }

  lemma CloseShaped(e: Producer)
    requires e.Sound() && AllShaped(e)
    ensures AllShaped(e.CloseOpen())
  {
    hide AllShaped, Attached, Close;
    if e.open.Some? {
      CallShaped(e, e.open.value, CloseWriter);
      KeepsShaped(e.Apply(e.open.value, Perform(e.ItemOf(e.open.value), e.writers[e.open.value], CloseWriter)),
                  e.CloseOpen());
    }
  }

  lemma OpenedShaped(e: Producer, item: Item, w: Writer)
    requires e.Sound() && AllShaped(e) && w.index == |e.resp.output| && Shaped(item, w)
    ensures AllShaped(e.OpenWith(item, w))
  {
    hide Shaped, Producer.CloseOpen, Producer.EnsureStarted, Producer.Sound;
    ClosedShaped(e);
    var d, f := e.EnsureStarted().CloseOpen(), e.OpenWith(item, w);
    assert |d.resp.output| == |e.resp.output| && f.writers == d.writers + [w]
        && f.resp.output == d.resp.output + [item];
    forall h | 0 <= h < |f.writers| ensures f.writers[h].index < |f.resp.output| && Shaped(f.ItemOf(h), f.writers[h]) {
      if h < |d.writers| { assert f.ItemOf(h) == d.ItemOf(h); }
    }
  }

  lemma EmittedShaped(e: Producer, item: Item)
    requires e.Sound() && AllShaped(e)
    ensures AllShaped(e.OpenItem(item).CloseDirect(|e.resp.output|))
  {
    hide Shaped, FinalForm, Producer.CloseOpen, Producer.EnsureStarted, Producer.Sound;
    ClosedShaped(e);
    var d, f := e.EnsureStarted().CloseOpen(), e.OpenItem(item).CloseDirect(|e.resp.output|);
    assert |d.resp.output| == |e.resp.output| && f.writers == d.writers;
    forall h | 0 <= h < |f.writers| ensures f.writers[h].index < |f.resp.output| && Shaped(f.ItemOf(h), f.writers[h]) {
      assert f.ItemOf(h) == d.ItemOf(h);
    }
  }

  lemma MarkedShaped(e: Producer)
    requires e.Sound() && AllShaped(e)
    ensures AllShaped(e.MarkOpenIncomplete())
  {
    if e.Live().Some? {
      var h := e.Live().value;
      LiveAttached(e, h);
      ApplyShaped(e, h, Local(WithStatus(e.ItemOf(h), Incomplete), e.writers[h], [], Ok));
    }
  }

  lemma DoShaped(e: Producer, call: Call)
    requires e.Sound() && AllShaped(e) && e.Allows(call)
    ensures AllShaped(e.Do(call))
  {
    hide AllShaped, Producer.Sound, Producer.CloseOpen, Producer.EnsureStarted, Producer.MarkOpenIncomplete, Perform;
    hide Producer.OpenWith, Producer.OpenItem;
    match call
    case StartStream => StartedShaped(e);
    case SetDetails(details) => KeepsShaped(e, e.Do(call));
    case Write(h, c) => CallShaped(e, h, c);
    case OpenMessage(id, phase) =>
      OpenedShaped(e, Message(id, InProgress, "assistant", phase, []), MessageWriter(|e.resp.output|, false, false));
    case OpenCall(id, callId, name) =>
      OpenedShaped(e, FunctionCall(id, InProgress, callId, name, ""), CallWriter(|e.resp.output|, false));
    case OpenReasoning(id) =>
      OpenedShaped(e, Reasoning(id, InProgress, [], [], ""),
                   ReasoningWriter(|e.resp.output|, false, false, false, false));
    case EmitItem(item) => EmittedShaped(e, item);
    case CompleteStream =>
      ClosedShaped(e);
      if !e.terminal { KeepsShaped(e.EnsureStarted().CloseOpen(), e.Do(call)); }
    case StopStream(reason) =>
      MarkedShaped(e);
      ClosedShaped(e.MarkOpenIncomplete());
      if !e.terminal { KeepsShaped(e.MarkOpenIncomplete().EnsureStarted().CloseOpen(), e.Do(call)); }
  }

  lemma KeepsShaped(e: Producer, d: Producer)
    requires AllShaped(e) && (d == e || (d.writers == e.writers && d.resp.output == e.resp.output))
    ensures AllShaped(d)
  {
    assert forall h :: 0 <= h < |d.writers| && d.writers[h].index < |d.resp.output| ==> d.ItemOf(h) == e.ItemOf(h);
  }

  lemma {:induction false} RunShaped(e: Producer, calls: seq<Call>)
    requires e.Sound() && AllShaped(e) && AllowsAll(e, calls)
    ensures AllShaped(DoAll(e, calls))
    decreases |calls|
  {
    hide AllShaped, Producer.Do, Producer.Sound;
    if calls != [] {
      DoSound(e, calls[0]);
      DoShaped(e, calls[0]);
      RunShaped(e.Do(calls[0]), calls[1..]);
    }
  }

  /** In every run every message that was written through a writer has its text
      and its refusals in turn: a part ends only where the other kind begins. */
  lemma MessagesAlternate(resp: Response, calls: seq<Call>)
    requires Fresh(resp) && (NewSound(resp); AllowsAll(NewProducer(resp), calls))
    ensures var e := (NewSound(resp); DoAll(NewProducer(resp), calls));
            forall h :: 0 <= h < |e.writers| && e.writers[h].MessageWriter? ==>
              && e.writers[h].index < |e.resp.output|
              && e.ItemOf(h).Message? && InTurn(e.ItemOf(h).content)
  {
    NewSound(resp);
    RunShaped(NewProducer(resp), calls);
  }

  // ---- Payloads, details and answers -----------------------------------------------------------------

  /** The encrypted payload of a reasoning item is the one set last. */
  lemma PayloadKept(e: Producer, h: nat, c: WriterCall)
    requires e.Sound() && e.Allows(Write(h, c)) && e.writers[h].ReasoningWriter? && !e.writers[h].closed
    ensures e.WriterSound(h) && e.Do(Write(h, c)).Sound() && e.Do(Write(h, c)).WriterSound(h)
    ensures e.ItemOf(h).Reasoning? && e.Do(Write(h, c)).ItemOf(h).Reasoning?
    ensures e.Do(Write(h, c)).ItemOf(h).encrypted == if c.Encrypt? then c.payload else e.ItemOf(h).encrypted
  {
    hide Producer.Sound, Producer.Do, Attached, Perform;
    WriteIs(e, h, c);
    LiveAttached(e, h);
    PayloadLocally(e.ItemOf(h), e.writers[h], c);
    DoSound(e, Write(h, c));
    WriteIs(e.Do(Write(h, c)), h, CloseWriter);
  }

  lemma PayloadLocally(r: Item, w: Writer, c: WriterCall)
    requires WriterAllows(w, c) && w.ReasoningWriter? && !w.closed && Attached(r, w)
    ensures var l := Perform(r, w, c);
            && r.Reasoning? && l.item.Reasoning? && l.writer.index == w.index && l.writer.ReasoningWriter?
            && l.item.encrypted == if c.Encrypt? then c.payload else r.encrypted
  {
  }

  function LastDetails(before: string, calls: seq<Call>): string {
    if calls == [] then before
    else if Last(calls).SetDetails? then Last(calls).details else LastDetails(before, Front(calls))
  }

  /** The details an adapter set last are those of the response, whatever other
      calls came after. */
  lemma {:induction false} DetailsKept(e: Producer, calls: seq<Call>)
    requires e.Sound() && AllowsAll(e, calls)
    ensures DoAll(e, calls).resp.details == LastDetails(e.resp.details, calls)
    decreases |calls|
  {
    hide Producer.Do, Producer.Sound;
    if calls != [] {
      DoSound(e, calls[0]);
      DetailsStep(e, calls[0]);
      DetailsKept(e.Do(calls[0]), calls[1..]);
      LastDetailsFirst(e.resp.details, calls);
    }
  }

  lemma {:induction false} LastDetailsFirst(before: string, calls: seq<Call>)
    requires calls != []
    ensures LastDetails(before, calls)
            == LastDetails(if calls[0].SetDetails? then calls[0].details else before, calls[1..])
    decreases |calls|
  {
    if |calls| > 1 {
      LastDetailsFirst(before, Front(calls));
      assert Front(calls)[1..] == Front(calls[1..]) && Front(calls)[0] == calls[0];
    } else {
      assert Front(calls) == [] && calls[1..] == [];
    }
  }

  lemma DetailsStep(e: Producer, call: Call)
    requires e.Sound() && e.Allows(call)
    ensures e.Do(call).resp.details == if call.SetDetails? then call.details else e.resp.details
  {
    if call.Write? { assert e.WriterSound(call.handle); }
  }

  /** The calls that are refused on a closed writer. */
  predicate NeedsOpenWriter(c: WriterCall) { !c.CloseWriter? && !c.CloseSummary? && !c.Encrypt? }

  /** The calls that are refused after the end. */
  predicate NeedsOpenStream(call: Call) {
    call.OpenMessage? || call.OpenCall? || call.OpenReasoning? || call.EmitItem? || call.CompleteStream?
        || call.StopStream?
  }

  /** What every call answers: opening, adding or ending after the end is refused
      as that, writing through a closed writer as that, and nothing else is
      refused; a refused call changes nothing. */
  lemma AnsweredExactly(e: Producer, call: Call)
    requires e.Sound() && e.Allows(call)
    ensures e.OutcomeOf(call).TerminalSent? <==> e.terminal && NeedsOpenStream(call)
    ensures e.OutcomeOf(call).WriterClosed? <==>
              call.Write? && e.writers[call.handle].closed && NeedsOpenWriter(call.call)
    ensures !e.OutcomeOf(call).TextFinished?
    ensures !e.OutcomeOf(call).Ok? ==> e.Do(call) == e
  {
    if call.Write? {
      assert e.WriterSound(call.handle);
      hide Producer.Sound;
      AnsweredLocally(e.ItemOf(call.handle), e.writers[call.handle], call.call);
      var l := Perform(e.ItemOf(call.handle), e.writers[call.handle], call.call);
      if !l.outcome.Ok? {
        assert e.resp.output[e.writers[call.handle].index := l.item] == e.resp.output;
        assert e.writers[call.handle := l.writer] == e.writers && e.sent + [] == e.sent;
      }
    }
  }

  lemma AnsweredLocally(item: Item, w: Writer, c: WriterCall)
    requires WriterAllows(w, c) && (w.closed || Attached(item, w))
    requires w.ReasoningWriter? && w.summaryOpen ==> !w.closed
    ensures var l := Perform(item, w, c);
            && (l.outcome.WriterClosed? <==> w.closed && NeedsOpenWriter(c))
            && (l.outcome.Ok? <==> !(w.closed && NeedsOpenWriter(c)))
            && (!l.outcome.Ok? ==> l == Local(item, w, [], l.outcome))
  {
  }
}

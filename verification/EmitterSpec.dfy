/** The producer of the lifecycle as a state machine on values: the emitter, the
    writers it has handed out, and the events it has sent over a sink that
    never fails. */
module EmitterSpec {
  import opened Types
  import opened Wrappers

  /** The state of one writer: the output index of its item and what is open
      inside it.  The content itself is the item's. */
  datatype Writer =
    | MessageWriter(index: nat, closed: bool, partOpen: bool)
    | CallWriter(index: nat, closed: bool)
    | ReasoningWriter(index: nat, closed: bool, summaryOpen: bool, textOpen: bool, textDone: bool)

  datatype Outcome = Ok | TerminalSent | WriterClosed | TextFinished

  /** What one writer call does: the item and the writer after it, the events
      it sends, and the error it returns. */
  datatype Local = Local(item: Item, writer: Writer, events: seq<Event>, outcome: Outcome)
  {
    function Emit(ev: Event): Local { this.(events := events + [ev]) }
  }

  function Same(item: Item, w: Writer, outcome: Outcome): Local { Local(item, w, [], outcome) }

  function ReplaceLast<T>(s: seq<T>, x: T): (r: seq<T>)
    requires s != []
    ensures |r| == |s| && Last(r) == x && r[..|s| - 1] == s[..|s| - 1]
  {
    s[|s| - 1 := x]
  }

  /** The writer and its item fit: an open part is the last one of its list. */
  predicate Attached(item: Item, w: Writer) {
    match w
    case MessageWriter(_, _, partOpen) =>
      item.Message? && (partOpen ==>
          item.content != [] && (Last(item.content).OutputText? || Last(item.content).Refusal?))
    case CallWriter(_, _) => item.FunctionCall?
    case ReasoningWriter(_, _, summaryOpen, textOpen, textDone) =>
      && item.Reasoning? && !textDone
      && (summaryOpen ==> item.summary != [] && Last(item.summary).SummaryText?)
      && (textOpen ==> |item.content| == 1 && item.content[0].ReasoningText?)
      && (!textOpen ==> item.content == [])
  }

  function WithContent(m: Item, content: seq<Part>): Item
    requires m.Message?
  {
    Message(m.id, m.status, m.role, m.phase, content)
  }

  function WithStatus(item: Item, status: Status): Item {
    match item
    case Message(id, _, role, phase, content) => Message(id, status, role, phase, content)
    case FunctionCall(id, _, callId, name, arguments) => FunctionCall(id, status, callId, name, arguments)
    case FunctionCallOutput(id, _, callId, output) => FunctionCallOutput(id, status, callId, output)
    case Reasoning(id, _, summary, content, encrypted) => Reasoning(id, status, summary, content, encrypted)
    case Compaction(id, _, encrypted) => Compaction(id, status, encrypted)
    case UnknownItem(t, id, _, payload) => UnknownItem(t, id, status, payload)
    case _ => item
  }

  /** The final form output_item.done carries: an unset or running status
      becomes completed. */
  function FinalForm(item: Item): Item {
    if StatusOf(item).Unset? || StatusOf(item).InProgress? then WithStatus(item, Completed) else item
  }

  // ---- Message writers ---------------------------------------------------------------

  function OpenPart(m: Item, w: Writer, part: Part): Local
    requires m.Message? && w.MessageWriter?
  {
    Local(WithContent(m, m.content + [part]), MessageWriter(w.index, w.closed, true),
          [PartAdded(m.id, w.index, |m.content|, part)], Ok)
  }

  /** The done of the open part's kind, then the done of the part. */
  function ClosePart(m: Item, w: Writer): Local
    requires w.MessageWriter? && Attached(m, w)
  {
    if !w.partOpen then Same(m, w, Ok)
    else
      var c := |m.content| - 1;
      var part := m.content[c];
      var kindDone := if part.OutputText? then TextDone(m.id, w.index, c, part.text,
                                                        if part.logprobs == [] then None else Some(part.logprobs))
                      else RefusalDone(m.id, w.index, c, part.refusal);
      Local(m, MessageWriter(w.index, w.closed, false), [kindDone, PartDone(m.id, w.index, c, part)], Ok)
  }

  predicate SameKind(a: Part, b: Part) {
    (a.OutputText? && b.OutputText?) || (a.Refusal? && b.Refusal?)
  }

  /** Make the open part one of the wanted kind, closing another. */
  function EnsurePart(m: Item, w: Writer, blank: Part): Local
    requires w.MessageWriter? && Attached(m, w) && (blank.OutputText? || blank.Refusal?)
  {
    if w.partOpen && SameKind(Last(m.content), blank) then Same(m, w, Ok)
    else
      var closed := ClosePart(m, w);
      var added := OpenPart(m, closed.writer, blank);
      added.(events := closed.events + added.events)
  }

  function TextPart(m: Item, w: Writer): Local
    requires w.MessageWriter? && Attached(m, w)
  {
    EnsurePart(m, w, OutputText("", [], []))
  }

  function SetLastPart(l: Local, part: Part): Local
    requires l.item.Message? && l.item.content != []
  {
    l.(item := WithContent(l.item, ReplaceLast(l.item.content, part)))
  }

  function WriteText(m: Item, w: Writer, delta: string): Local
    requires w.MessageWriter? && (w.closed || Attached(m, w))
  {
    if w.closed then Same(m, w, WriterClosed)
    else
      var l := TextPart(m, w);
      var part := Last(l.item.content);
      SetLastPart(l, OutputText(part.text + delta, part.annotations, part.logprobs))
      .Emit(TextDelta(m.id, w.index, |l.item.content| - 1, delta, []))
  }

  function WriteAnnotation(m: Item, w: Writer, a: Annotation): Local
    requires w.MessageWriter? && (w.closed || Attached(m, w))
  {
    if w.closed then Same(m, w, WriterClosed)
    else
      var l := TextPart(m, w);
      var part := Last(l.item.content);
      SetLastPart(l, OutputText(part.text, part.annotations + [a], part.logprobs))
      .Emit(AnnotationAdded(m.id, w.index, |l.item.content| - 1, |part.annotations|, a))
  }

  function WriteLogprobs(m: Item, w: Writer, logprobs: seq<Logprob>): Local
    requires w.MessageWriter? && (w.closed || Attached(m, w))
  {
    if w.closed then Same(m, w, WriterClosed)
    else
      var l := TextPart(m, w);
      var part := Last(l.item.content);
      SetLastPart(l, OutputText(part.text, part.annotations, part.logprobs + logprobs))
  }

  function WriteRefusal(m: Item, w: Writer, delta: string): Local
    requires w.MessageWriter? && (w.closed || Attached(m, w))
  {
    if w.closed then Same(m, w, WriterClosed)
    else
      var l := EnsurePart(m, w, Refusal(""));
      var part := Last(l.item.content);
      SetLastPart(l, Refusal(part.refusal + delta))
      .Emit(RefusalDelta(m.id, w.index, |l.item.content| - 1, delta))
  }

  // ---- Function call writers ---------------------------------------------------------

  function WriteArguments(call: Item, w: Writer, delta: string): Local
    requires w.CallWriter? && (w.closed || Attached(call, w))
  {
    if w.closed then Same(call, w, WriterClosed)
    else
      Local(FunctionCall(call.id, call.status, call.callId, call.name, call.arguments + delta), w,
            [ArgumentsDelta(call.id, w.index, delta)], Ok)
  }

  // ---- Reasoning writers ----------------------------------------------------------------

  function OpenSummary(r: Item, w: Writer): Local
    requires w.ReasoningWriter? && Attached(r, w)
  {
    if w.summaryOpen then Same(r, w, Ok)
    else
      Local(Reasoning(r.id, r.status, r.summary + [SummaryText("")], r.content, r.encrypted),
            ReasoningWriter(w.index, w.closed, true, w.textOpen, w.textDone),
            [SummaryAdded(r.id, w.index, |r.summary|, SummaryText(""))], Ok)
  }

  function WriteSummary(r: Item, w: Writer, delta: string): Local
    requires w.ReasoningWriter? && (w.closed || Attached(r, w))
  {
    if w.closed then Same(r, w, WriterClosed)
    else
      var l := OpenSummary(r, w);
      var part := Last(l.item.summary);
      l.(item := Reasoning(r.id, r.status, ReplaceLast(l.item.summary, SummaryText(part.text + delta)), r.content,
                           r.encrypted))
      .Emit(SummaryDelta(r.id, w.index, |l.item.summary| - 1, delta))
  }

  /** Closing the open summary part has no closed check: a closed writer has
      none open. */
  function EndSummary(r: Item, w: Writer): Local
    requires w.ReasoningWriter? && (w.summaryOpen ==> Attached(r, w))
  {
    if !w.summaryOpen then Same(r, w, Ok)
    else
      var s := |r.summary| - 1;
      Local(r, ReasoningWriter(w.index, w.closed, false, w.textOpen, w.textDone),
            [SummaryTextDone(r.id, w.index, s, r.summary[s].text), SummaryDone(r.id, w.index, s, r.summary[s])], Ok)
  }

  function WriteReasoning(r: Item, w: Writer, delta: string): Local
    requires w.ReasoningWriter? && (w.closed || Attached(r, w))
  {
    if w.closed then Same(r, w, WriterClosed)
    else if w.textDone then Same(r, w, TextFinished)
    else
      var before := if w.textOpen then r.content[0].text else "";
      Local(Reasoning(r.id, r.status, r.summary, [ReasoningText(before + delta)], r.encrypted),
            ReasoningWriter(w.index, w.closed, w.summaryOpen, true, w.textDone),
            [ReasoningDelta(r.id, w.index, 0, delta)], Ok)
  }

  /** Sets the payload without a closed check and without an event. */
  function SetEncrypted(r: Item, w: Writer, s: string): Local
    requires w.ReasoningWriter? && r.Reasoning?
  {
    Same(Reasoning(r.id, r.status, r.summary, r.content, s), w, Ok)
  }

  // ---- Closing -----------------------------------------------------------------------------

  /** The events that finish what is open inside the item. */
  function CloseInside(item: Item, w: Writer): Local
    requires Attached(item, w)
  {
    match w
    case MessageWriter(_, _, _) => ClosePart(item, w)
    case CallWriter(index, _) => Same(item, w, Ok).Emit(ArgumentsDone(item.id, index, item.arguments))
    case ReasoningWriter(index, closed, _, textOpen, _) =>
      var l := EndSummary(item, w);
      if textOpen
      then l.(writer := ReasoningWriter(index, closed, false, true, true)).Emit(ReasoningDone(item.id, index, 0,
          item.content[0].text))
      else l
  }

  function Shut(w: Writer): Writer {
    match w
    case MessageWriter(i, _, p) => MessageWriter(i, true, p)
    case CallWriter(i, _) => CallWriter(i, true)
    case ReasoningWriter(i, _, s, t, d) => ReasoningWriter(i, true, s, t, d)
  }

  function Close(item: Item, w: Writer): Local
    requires w.closed || Attached(item, w)
  {
    if w.closed then Same(item, w, Ok)
    else
      var l := CloseInside(item, w);
      Local(FinalForm(l.item), Shut(l.writer), l.events + [ItemDone(w.index, FinalForm(l.item))], Ok)
  }

  // ---- Calls ----------------------------------------------------------------------------------

  datatype WriterCall =
    | Text(delta: string)
    | AddAnnotation(annotation: Annotation)
    | AddLogprobs(logprobs: seq<Logprob>)
    | Refuse(delta: string)
    | Arguments(delta: string)
    | Summarize(delta: string)
    | CloseSummary
    | Reason(delta: string)
    | Encrypt(payload: string)
    | CloseWriter

  datatype Call =
    | StartStream
    | OpenMessage(id: string, phase: string)
    | OpenCall(id: string, callId: string, name: string)
    | OpenReasoning(id: string)
    | EmitItem(item: Item)
    | SetDetails(details: string)
    | CompleteStream
    | StopStream(reason: string)
    | Write(handle: nat, call: WriterCall)

  /** The call exists on a writer of this kind. */
  predicate Offers(w: Writer, call: WriterCall) {
    match call
    case CloseWriter => true
    case Arguments(_) => w.CallWriter?
    case Text(_) => w.MessageWriter?
    case AddAnnotation(_) => w.MessageWriter?
    case AddLogprobs(_) => w.MessageWriter?
    case Refuse(_) => w.MessageWriter?
    case _ => w.ReasoningWriter?
  }

  /** What the source asks of its callers: an annotation or an item is not nil,
      and EncryptedContent is not called on a closed writer. */
  predicate WriterAllows(w: Writer, call: WriterCall) {
    && Offers(w, call)
    && (call.AddAnnotation? ==> !call.annotation.NilAnnotation?)
    && (call.Encrypt? ==> !w.closed)
  }

  function Perform(item: Item, w: Writer, call: WriterCall): Local
    requires WriterAllows(w, call) && (w.closed || Attached(item, w))
    requires w.ReasoningWriter? && w.summaryOpen ==> !w.closed
  {
    match call
    case Text(delta) => WriteText(item, w, delta)
    case AddAnnotation(a) => WriteAnnotation(item, w, a)
    case AddLogprobs(logprobs) => WriteLogprobs(item, w, logprobs)
    case Refuse(delta) => WriteRefusal(item, w, delta)
    case Arguments(delta) => WriteArguments(item, w, delta)
    case Summarize(delta) => WriteSummary(item, w, delta)
    case CloseSummary => EndSummary(item, w)
    case Reason(delta) => WriteReasoning(item, w, delta)
    case Encrypt(payload) => SetEncrypted(item, w, payload)
    case CloseWriter => Close(item, w)
  }

  /** The emitter: open is the writer it will close before opening the next
      item, writers all it has ever returned, sent what the sink recorded. */
  datatype Producer = Producer(started: bool, terminal: bool, resp: Response, open: Option<nat>,
                               writers: seq<Writer>, sent: seq<Event>)
  {
    /** Only the writer to be closed next may be open, and its item is the last. */
    ghost predicate Sound() {
      && (started ==> |sent| >= 2)
      && (!started ==> sent == [] && resp.output == [] && writers == [] && !terminal)
      && (!terminal ==> !resp.status.Terminal())
      && (open.Some? ==> open.value < |writers|)
      && (terminal ==> open.None?)
      && (forall p :: 0 <= p < |resp.output| ==> !resp.output[p].NilItem?)
      && (forall h :: 0 <= h < |writers| ==> WriterSound(h))
    }

    ghost predicate WriterSound(h: nat)
      requires h < |writers|
    {
      var w := writers[h];
      && w.index < |resp.output|
      && (!w.closed ==> open == Some(h) && w.index == |resp.output| - 1 && Attached(resp.output[w.index], w))
      && (w.ReasoningWriter? && w.summaryOpen ==> !w.closed)
    }

    /** The writer whose item is open, if any. */
    function Live(): Option<nat> {
      if open.Some? && open.value < |writers| && !writers[open.value].closed then open else None
    }

    function ItemOf(h: nat): Item
      requires h < |writers| && writers[h].index < |resp.output|
    {
      resp.output[writers[h].index]
    }

    function Send(ev: Event): Producer { this.(sent := sent + [ev]) }

    /** Take over what a writer call did. */
    function Apply(h: nat, l: Local): Producer
      requires h < |writers| && writers[h].index < |resp.output|
    {
      this.(resp := resp.(output := resp.output[writers[h].index := l.item]),
            writers := writers[h := l.writer],
            sent := sent + l.events)
    }

    function EnsureStarted(): (e: Producer)
      requires Sound()
      ensures e.Sound() && e.started && e.resp == resp && e.writers == writers && e.open == open
              && e.terminal == terminal
    {
      if started then this
      else this.(started := true, sent := sent + [Snapshot(Created, Some(resp)), Snapshot(Started, Some(resp))])
    }

    function CloseOpen(): (e: Producer)
      requires Sound()
      ensures e.Sound() && e.open.None? && e.started == started && e.terminal == terminal
      ensures |e.resp.output| == |resp.output| && |e.writers| == |writers|
    {
      if open.None? then this
      else
        assert WriterSound(open.value);
        var e := this.(open := None).Apply(open.value, Close(ItemOf(open.value), writers[open.value]));
        assert e.Sound() by {
          forall h | 0 <= h < |writers| ensures e.WriterSound(h) { assert WriterSound(h); }
        }
        e
    }

    function OpenItem(item: Item): (e: Producer)
      requires Sound()
      ensures |e.resp.output| == |resp.output| + 1
    {
      var e := EnsureStarted().CloseOpen();
      e.(resp := e.resp.(output := e.resp.output + [item])).Send(ItemAdded(|e.resp.output|, item))
    }

    function OpenWith(item: Item, w: Writer): Producer
      requires Sound()
    {
      var e := OpenItem(item);
      e.(writers := e.writers + [w], open := Some(|e.writers|))
    }

    function CloseDirect(index: nat): Producer
      requires index < |resp.output|
    {
      var item := FinalForm(resp.output[index]);
      this.(resp := resp.(output := resp.output[index := item])).Send(ItemDone(index, item))
    }

    /** Mark the open item incomplete before it is closed. */
    function MarkOpenIncomplete(): (e: Producer)
      requires Sound()
      ensures e.Sound() && e.writers == writers && e.open == open && e.terminal == terminal && e.sent == sent
    {
      if Live().None? then this
      else
        var h := Live().value;
        assert WriterSound(h);
        var e := this.(resp := resp.(output := resp.output[writers[h].index := WithStatus(ItemOf(h), Incomplete)]));
        assert e.Sound() by {
          forall k | 0 <= k < |writers| ensures e.WriterSound(k) { assert WriterSound(k); }
        }
        e
    }

    predicate Allows(call: Call) {
      match call
      case Write(h, c) => h < |writers| && WriterAllows(writers[h], c)
      case EmitItem(item) => !item.NilItem?
      case _ => true
    }

    function OutcomeOf(call: Call): Outcome
      requires Sound() && Allows(call)
    {
      match call
      case StartStream => Ok
      case SetDetails(_) => Ok
      case Write(h, c) =>
        assert WriterSound(h);
        Perform(ItemOf(h), writers[h], c).outcome
      case _ => if terminal then TerminalSent else Ok
    }

    /** One adapter call. */
    function Do(call: Call): (e: Producer)
      requires Sound() && Allows(call)
    {
      match call
      case StartStream => EnsureStarted()
      case SetDetails(details) => this.(resp := resp.(details := details))
      case Write(h, c) =>
        assert WriterSound(h);
        Apply(h, Perform(ItemOf(h), writers[h], c))
      case OpenMessage(id, phase) =>
        if terminal then this
        else OpenWith(Message(id, InProgress, "assistant", phase, []), MessageWriter(|resp.output|, false, false))
      case OpenCall(id, callId, name) =>
        if terminal then this
        else OpenWith(FunctionCall(id, InProgress, callId, name, ""), CallWriter(|resp.output|, false))
      case OpenReasoning(id) =>
        if terminal then this
        else OpenWith(Reasoning(id, InProgress, [], [], ""), ReasoningWriter(|resp.output|, false, false, false, false))
      case EmitItem(item) =>
        if terminal then this else OpenItem(item).CloseDirect(|resp.output|)
      case CompleteStream =>
        if terminal then this
        else
          var e := EnsureStarted().CloseOpen();
          e.Finish(Finished, e.resp.Complete())
      case StopStream(reason) =>
        if terminal then this
        else
          var e := MarkOpenIncomplete().EnsureStarted().CloseOpen();
          e.Finish(Stopped, e.resp.MarkIncomplete(reason))
    }

    /** Send the terminal event with the final snapshot. */
    function Finish(kind: SnapshotKind, final: Response): Producer {
      this.(resp := final, terminal := true).Send(Snapshot(kind, Some(final)))
    }
  }

  /** Item p is the one still being written. */
  predicate LiveAt(e: Producer, p: nat) {
    e.Live().Some? && e.writers[e.Live().value].index == p
  }

  /** NewEmitter over a response that lists nothing yet. */
  function NewProducer(resp: Response): Producer {
    Producer(false, false, resp.(status := if resp.status.RUnset? then RInProgress else resp.status), None, [], [])
  }

  // ---- Every run of calls keeps the producer sound ---------------------------------------------

  /** What a writer call leaves: the same item by type and id, and a writer at
      the same index that is closed or fits its item. */
  ghost predicate Fitting(item: Item, w: Writer, l: Local, closes: bool) {
    && l.writer.index == w.index && SameItem(l.item, item) && !l.item.NilItem?
    && (w.closed ==> l.writer == w && l.item == item && l.events == [])
    && (!w.closed ==> l.writer.closed == closes)
    && (!l.writer.closed ==> Attached(l.item, l.writer))
    && (l.writer.ReasoningWriter? && l.writer.summaryOpen ==> !l.writer.closed)
  }

  lemma EnsurePartFits(m: Item, w: Writer, blank: Part)
    requires w.MessageWriter? && Attached(m, w) && (blank.OutputText? || blank.Refusal?)
    ensures var l := EnsurePart(m, w, blank);
            && l.item.Message? && Attached(l.item, l.writer) && l.writer == MessageWriter(w.index, w.closed, true)
            && SameItem(l.item, m) && SameKind(Last(l.item.content), blank)
  {
  }

  /** Writing into the ensured part keeps the writer fitting. */
  lemma PartWriteFits(m: Item, w: Writer, blank: Part, l: Local)
    requires w.MessageWriter? && Attached(m, w) && !w.closed && (blank.OutputText? || blank.Refusal?)
    requires var p := EnsurePart(m, w, blank);
             && l.writer == p.writer && l.item.Message? && SameItem(l.item, p.item)
             && l.item.content != [] && SameKind(Last(l.item.content), blank)
    ensures Fitting(m, w, l, false)
  {
    EnsurePartFits(m, w, blank);
  }

  lemma PerformFits(item: Item, w: Writer, call: WriterCall)
    requires WriterAllows(w, call) && (w.closed || Attached(item, w)) && !item.NilItem?
    requires w.ReasoningWriter? && w.summaryOpen ==> !w.closed
    ensures Fitting(item, w, Perform(item, w, call), call.CloseWriter?)
  {
    if !w.closed {
      match w
      case CallWriter(_, _) => CallFits(item, w, call);
      case ReasoningWriter(_, _, _, _, _) => ReasoningFits(item, w, call);
      case MessageWriter(_, _, _) =>
        var l := Perform(item, w, call);
        EnsurePartFits(item, w, OutputText("", [], []));
        EnsurePartFits(item, w, Refusal(""));
        if call.CloseWriter? { CloseFits(item, w); }
        else { PartWriteFits(item, w, if call.Refuse? then Refusal("") else OutputText("", [], []), l); }
    }
  }

  lemma CallFits(item: Item, w: Writer, call: WriterCall)
    requires WriterAllows(w, call) && w.CallWriter? && !w.closed && Attached(item, w)
    ensures Fitting(item, w, Perform(item, w, call), call.CloseWriter?)
  {
  }

  lemma ReasoningFits(item: Item, w: Writer, call: WriterCall)
    requires WriterAllows(w, call) && w.ReasoningWriter? && !w.closed && Attached(item, w)
    ensures Fitting(item, w, Perform(item, w, call), call.CloseWriter?)
  {
    if call.CloseWriter? { CloseFits(item, w); }
  }

  lemma CloseFits(item: Item, w: Writer)
    requires Attached(item, w) && !w.closed
    ensures Fitting(item, w, Close(item, w), true)
  {
    match w
    case MessageWriter(_, _, _) =>
    case CallWriter(_, _) =>
    case ReasoningWriter(_, _, _, _, _) =>
  }

  lemma ApplySound(e: Producer, h: nat, call: WriterCall)
    requires e.Sound() && h < |e.writers| && WriterAllows(e.writers[h], call)
    ensures e.Do(Write(h, call)).Sound()
  {
    assert e.WriterSound(h);
    PerformFits(e.ItemOf(h), e.writers[h], call);
    var d := e.Do(Write(h, call));
    forall k | 0 <= k < |d.writers| ensures d.WriterSound(k) {
      assert e.WriterSound(k);
    }
  }

  lemma OpenItemSound(e: Producer, item: Item)
    requires e.Sound() && !item.NilItem? && !e.terminal
    ensures e.OpenItem(item).Sound() && e.OpenItem(item).open.None?
  {
    var d := e.EnsureStarted().CloseOpen();
    var f := e.OpenItem(item);
    forall k | 0 <= k < |f.writers| ensures f.WriterSound(k) {
      assert d.WriterSound(k);
    }
  }

  lemma OpenWithSound(e: Producer, item: Item, w: Writer)
    requires e.Sound() && !item.NilItem? && !e.terminal
    requires !w.closed && w.index == |e.resp.output| && Attached(item, w)
    ensures e.OpenWith(item, w).Sound()
  {
    OpenItemSound(e, item);
    var d := e.OpenItem(item);
    var f := e.OpenWith(item, w);
    forall k | 0 <= k < |f.writers| ensures f.WriterSound(k) {
      if k < |d.writers| { assert d.WriterSound(k); }
    }
  }

  lemma DoSound(e: Producer, call: Call)
    requires e.Sound() && e.Allows(call)
    ensures e.Do(call).Sound()
  {
    match call
    case StartStream =>
    case SetDetails(_) =>
      var d := e.Do(call);
      forall k | 0 <= k < |d.writers| ensures d.WriterSound(k) { assert e.WriterSound(k); }
    case Write(h, c) => ApplySound(e, h, c);
    case OpenMessage(id, phase) =>
      if !e.terminal {
        OpenWithSound(e, Message(id, InProgress, "assistant", phase, []), MessageWriter(|e.resp.output|, false, false));
      }
    case OpenCall(id, callId, name) =>
      if !e.terminal {
        OpenWithSound(e, FunctionCall(id, InProgress, callId, name, ""), CallWriter(|e.resp.output|, false));
      }
    case OpenReasoning(id) =>
      if !e.terminal {
        OpenWithSound(e, Reasoning(id, InProgress, [], [], ""),
                      ReasoningWriter(|e.resp.output|, false, false, false, false));
      }
    case EmitItem(item) =>
      if !e.terminal {
        OpenItemSound(e, item);
        var d, f := e.OpenItem(item), e.Do(call);
        forall k | 0 <= k < |f.writers| ensures f.WriterSound(k) { assert d.WriterSound(k); }
      }
    case CompleteStream => if !e.terminal { FinishSound(e.EnsureStarted().CloseOpen(), e.Do(call)); }
    case StopStream(_) => if !e.terminal {
      FinishSound(e.MarkOpenIncomplete().EnsureStarted().CloseOpen(), e.Do(call));
    }
  }

  lemma FinishSound(d: Producer, f: Producer)
    requires d.Sound() && d.open.None? && d.started && f.started && f.terminal && f.open.None?
    requires f.writers == d.writers && f.resp.output == d.resp.output && d.sent <= f.sent
    ensures f.Sound()
  {
    forall k | 0 <= k < |f.writers| ensures f.WriterSound(k) { assert d.WriterSound(k); }
  }

  /** Every call of the run is one the source allows where it is made. */
  ghost predicate AllowsAll(e: Producer, calls: seq<Call>)
    requires e.Sound()
    decreases |calls|
  {
    calls == [] || (e.Allows(calls[0]) && (DoSound(e, calls[0]); AllowsAll(e.Do(calls[0]), calls[1..])))
  }

  /** The producer after a run of calls. */
  ghost function DoAll(e: Producer, calls: seq<Call>): (d: Producer)
    requires e.Sound() && AllowsAll(e, calls)
    ensures d.Sound()
    decreases |calls|
  {
    if calls == [] then e
    else
      DoSound(e, calls[0]);
      DoAll(e.Do(calls[0]), calls[1..])
  }

  /** The response an adapter hands to NewEmitter: nothing listed, not ended. */
  predicate Fresh(resp: Response) {
    resp.output == [] && !resp.status.Terminal()
  }

  lemma NewSound(resp: Response)
    requires Fresh(resp)
    ensures NewProducer(resp).Sound()
  {
  }

  // ---- What an adapter's decoder relies on ----------------------------------------------------------

  /** Writing to an open writer keeps its kind and closes it only when asked. */
  lemma WriteKeeps(e: Producer, h: nat, call: WriterCall)
    requires e.Sound() && h < |e.writers| && !e.writers[h].closed && WriterAllows(e.writers[h], call)
    ensures var d := e.Do(Write(h, call));
            && d.Sound() && d.terminal == e.terminal && |d.writers| == |e.writers| && |d.resp.output| == |e.resp.output|
            && d.writers[h].closed == call.CloseWriter?
            && d.writers[h].MessageWriter? == e.writers[h].MessageWriter?
            && d.writers[h].ReasoningWriter? == e.writers[h].ReasoningWriter?
            && d.writers[h].CallWriter? == e.writers[h].CallWriter?
  {
    assert e.WriterSound(h);
    PerformFits(e.ItemOf(h), e.writers[h], call);
    DoSound(e, Write(h, call));
  }

  /** Closing what is open loses no item and no writer. */
  lemma OpenKeeps(e: Producer)
    requires e.Sound() && !e.terminal
    ensures var d := e.EnsureStarted().CloseOpen();
              |d.resp.output| == |e.resp.output| && |d.writers| == |e.writers| && !d.terminal
  {
  }

  /** An item emitted whole is the opened one, closed at once. */
  lemma EmitShape(e: Producer, item: Item)
    requires e.Sound() && !e.terminal && !item.NilItem?
    ensures var n, o, d := |e.resp.output|, e.OpenItem(item), e.Do(EmitItem(item));
            && d.Sound() && !d.terminal && d.Live().None? && |o.resp.output| == n + 1
            && d.sent == o.sent + [ItemDone(n, FinalForm(item))] && d.resp.output == o.resp.output[n := FinalForm(item)]
            && SameItem(FinalForm(item), item) && !FinalForm(item).NilItem?
  {
    DoSound(e, EmitItem(item));
    OpenItemSound(e, item);
  }
}

/** The status every item ends with: completed when it was finished, incomplete
    when the answer was cut off while it was open. */
module ItemStatus {
  import opened BareItems
  import opened EmitterSpec
  import opened Types
  import opened Wrappers

  /** The kinds of items that have a status at all. */
  predicate HasStatus(item: Item) { !item.NilItem? && !item.ItemReference? && !item.RegisteredItem? }

  predicate Running(s: Status) { s.Unset? || s.InProgress? }

  /** An item being written is in progress, every other is at its end. */
  ghost predicate Settled(e: Producer) {
    forall p :: 0 <= p < |e.resp.output| ==>
      if LiveAt(e, p) then HasStatus(e.resp.output[p]) && StatusOf(e.resp.output[p]).InProgress?
      else HasStatus(e.resp.output[p]) ==> !Running(StatusOf(e.resp.output[p]))
  }

  // ---- One writer ----------------------------------------------------------------------------------

  lemma FinalStatus(item: Item)
    ensures HasStatus(item) ==>
              StatusOf(FinalForm(item)) == if Running(StatusOf(item)) then Completed else StatusOf(item)
    ensures HasStatus(FinalForm(item)) == HasStatus(item)
  {
  }

  /** A writer call keeps its item's status; closing ends it. */
  lemma WriterStatus(item: Item, w: Writer, call: WriterCall)
    requires WriterAllows(w, call) && !w.closed && Attached(item, w)
    ensures var l := Perform(item, w, call);
            && HasStatus(item) && HasStatus(l.item) && l.writer.closed == call.CloseWriter?
            && StatusOf(l.item) == if call.CloseWriter? && Running(StatusOf(item)) then Completed else StatusOf(item)
  {
    match w
    case MessageWriter(_, _, _) => MessageStatus(item, w, call);
    case CallWriter(_, _) =>
    case ReasoningWriter(_, _, _, _, _) => ReasoningStatus(item, w, call);
  }

  lemma MessageStatus(m: Item, w: Writer, call: WriterCall)
    requires w.MessageWriter? && WriterAllows(w, call) && !w.closed && Attached(m, w)
    ensures var l := Perform(m, w, call);
            && l.item.Message? && l.writer.closed == call.CloseWriter?
            && StatusOf(l.item) == if call.CloseWriter? && Running(StatusOf(m)) then Completed else StatusOf(m)
  {
    EnsurePartFits(m, w, OutputText("", [], []));
    EnsurePartFits(m, w, Refusal(""));
    PartStatus(m, w, OutputText("", [], []));
    PartStatus(m, w, Refusal(""));
  }

  lemma PartStatus(m: Item, w: Writer, blank: Part)
    requires w.MessageWriter? && Attached(m, w) && (blank.OutputText? || blank.Refusal?)
    ensures EnsurePart(m, w, blank).item.Message? && EnsurePart(m, w, blank).item.status == m.status
  {
  }

  lemma ReasoningStatus(r: Item, w: Writer, call: WriterCall)
    requires w.ReasoningWriter? && WriterAllows(w, call) && !w.closed && Attached(r, w)
    ensures var l := Perform(r, w, call);
            && l.item.Reasoning? && l.writer.closed == call.CloseWriter?
            && StatusOf(l.item) == if call.CloseWriter? && Running(StatusOf(r)) then Completed else StatusOf(r)
  {
  }

  /** What is done last carries the item as it then is. */
  lemma CloseTells(item: Item, w: Writer)
    requires !w.closed && Attached(item, w)
    ensures var l := Close(item, w); l.events != [] && Last(l.events) == ItemDone(w.index, l.item)
  {
  }

  // ---- Closing, however it comes about ----------------------------------------------------------------

  /** Closing the open item completes it and nothing else. */
  lemma CloseOpenStatus(e: Producer)
    requires e.Sound()
    ensures var d := e.CloseOpen();
            && |d.resp.output| == |e.resp.output| && d.resp == e.resp.(output := d.resp.output) && d.Live().None?
            && (forall p :: 0 <= p < |e.resp.output| && !LiveAt(e, p) ==> d.resp.output[p] == e.resp.output[p])
            && (forall p :: 0 <= p < |e.resp.output| && LiveAt(e, p) ==>
                  && HasStatus(e.resp.output[p]) && d.sent != [] && Last(d.sent) == ItemDone(p, d.resp.output[p])
                  && StatusOf(d.resp.output[p]) ==
                       if Running(StatusOf(e.resp.output[p])) then Completed else StatusOf(e.resp.output[p]))
  {
    hide Close;
    if e.open.Some? {
      var h := e.open.value;
      assert e.WriterSound(h);
      if e.writers[h].closed {
        ClosedClose(e.ItemOf(h), e.writers[h]);
      } else {
        WriterStatus(e.ItemOf(h), e.writers[h], CloseWriter);
        CloseTells(e.ItemOf(h), e.writers[h]);
        CloseFits(e.ItemOf(h), e.writers[h]);
      }
    }
  }

  lemma ClosedClose(item: Item, w: Writer)
    requires w.closed
    ensures Close(item, w) == Same(item, w, Ok)
  {
  }

  lemma MarkStatus(e: Producer)
    requires e.Sound()
    ensures var m := e.MarkOpenIncomplete();
            && |m.resp.output| == |e.resp.output| && m.resp == e.resp.(output := m.resp.output)
            && m.sent == e.sent && m.Live() == e.Live()
            && (forall p :: LiveAt(m, p) == LiveAt(e, p))
            && (forall p :: 0 <= p < |e.resp.output| && !LiveAt(e, p) ==> m.resp.output[p] == e.resp.output[p])
            && (forall p :: 0 <= p < |e.resp.output| && LiveAt(e, p) ==>
                  HasStatus(m.resp.output[p]) && StatusOf(m.resp.output[p]).Incomplete?)
  {
    if e.Live().Some? { assert e.WriterSound(e.Live().value); }
  }

  lemma StartStatus(e: Producer)
    requires e.Sound()
    ensures var d := e.EnsureStarted();
            d.resp == e.resp && d.Live() == e.Live() && forall p :: LiveAt(d, p) == LiveAt(e, p)
  {
  }

  // ---- The two ends of a stream ------------------------------------------------------------------------

  /** The last two events of an end: the done of the item still open, if there
      is one, and the terminal snapshot. */
  ghost predicate EndsWith(e: Producer, d: Producer, kind: SnapshotKind) {
    && d.terminal && d.sent != [] && Last(d.sent) == Snapshot(kind, Some(d.resp))
    && |d.resp.output| == |e.resp.output|
    && (forall p :: 0 <= p < |e.resp.output| && LiveAt(e, p) ==>
          Front(d.sent) != [] && Last(Front(d.sent)) == ItemDone(p, d.resp.output[p]))
    && (forall p :: 0 <= p < |e.resp.output| && !LiveAt(e, p) ==> d.resp.output[p] == e.resp.output[p])
  }

  /** Cutting an answer off marks the item still being written incomplete, in
      its output_item.done and in the terminal snapshot, gives the reason, and
      leaves every other item as it was.  Nothing but the status of the marked
      item changes. */
  lemma StopMarks(e: Producer, reason: string)
    requires e.Sound() && !e.terminal
    ensures var d := e.Do(StopStream(reason));
            && EndsWith(e, d, Stopped)
            && d.resp == e.resp.(output := d.resp.output, status := RIncomplete, reason := Some(reason))
            && BareAll(d.resp.output) == BareAll(e.resp.output)
            && forall p :: 0 <= p < |e.resp.output| && LiveAt(e, p) ==> StatusOf(d.resp.output[p]) == Incomplete
  {
    hide Producer.MarkOpenIncomplete, Producer.EnsureStarted, Producer.CloseOpen, Producer.Live, LiveAt;
    EndedBare(e, StopStream(reason));
    MarkStatus(e);
    var m := e.MarkOpenIncomplete();
    StartStatus(m);
    CloseOpenStatus(m.EnsureStarted());
    FrontOf(m.EnsureStarted().CloseOpen().sent, e.Do(StopStream(reason)).sent);
  }

  /** Completing an answer completes the item still being written. */
  lemma CompleteFinishes(e: Producer)
    requires e.Sound() && !e.terminal
    ensures var d := e.Do(CompleteStream);
            && EndsWith(e, d, Finished) && d.resp == e.resp.(output := d.resp.output, status := RCompleted)
            && BareAll(d.resp.output) == BareAll(e.resp.output)
            && forall p :: 0 <= p < |e.resp.output| && LiveAt(e, p) && Running(StatusOf(e.resp.output[p])) ==>
                 StatusOf(d.resp.output[p]) == Completed
  {
    hide Producer.EnsureStarted, Producer.CloseOpen, Producer.Live, LiveAt;
    EndedBare(e, CompleteStream);
    StartStatus(e);
    CloseOpenStatus(e.EnsureStarted());
    FrontOf(e.EnsureStarted().CloseOpen().sent, e.Do(CompleteStream).sent);
  }

  lemma FrontOf(a: seq<Event>, b: seq<Event>)
    requires b != [] && b == a + [Last(b)]
    ensures Front(b) == a
  {
  }

  /** Closing a writer completes its item, in its output_item.done, which is
      the last event sent, and in the list. */
  lemma CloseCompletes(e: Producer, h: nat)
    requires e.Sound() && h < |e.writers| && !e.writers[h].closed
    ensures var d, p := e.Do(Write(h, CloseWriter)), e.writers[h].index;
            && p < |e.resp.output| == |d.resp.output| && d.sent != [] && Last(d.sent) == ItemDone(p, d.resp.output[p])
            && (Running(StatusOf(e.resp.output[p])) ==> StatusOf(d.resp.output[p]) == Completed)
            && forall q :: 0 <= q < |e.resp.output| && q != p ==> d.resp.output[q] == e.resp.output[q]
  {
    assert e.WriterSound(h);
    WriterStatus(e.ItemOf(h), e.writers[h], CloseWriter);
    CloseTells(e.ItemOf(h), e.writers[h]);
    CloseFits(e.ItemOf(h), e.writers[h]);
    hide Close;
  }

  // ---- Every run -----------------------------------------------------------------------------------------

  lemma WriteSettled(e: Producer, h: nat, call: WriterCall)
    requires e.Sound() && Settled(e) && e.Allows(Write(h, call))
    ensures Settled(e.Do(Write(h, call)))
  {
    assert e.WriterSound(h);
    var d := e.Do(Write(h, call));
    if e.writers[h].closed {
      ClosedStays(e, h, call);
    } else {
      WriterStatus(e.ItemOf(h), e.writers[h], call);
      PerformFits(e.ItemOf(h), e.writers[h], call);
      hide Perform;
      OpenSettled(e, h, Perform(e.ItemOf(h), e.writers[h], call));
    }
  }

  lemma ClosedStays(e: Producer, h: nat, call: WriterCall)
    requires e.Sound() && e.Allows(Write(h, call)) && e.writers[h].closed
    ensures e.Do(Write(h, call)) == e
  {
    assert e.WriterSound(h);
    PerformFits(e.ItemOf(h), e.writers[h], call);
  }

  lemma OpenSettled(e: Producer, h: nat, l: Local)
    requires e.Sound() && Settled(e) && h < |e.writers| && e.WriterSound(h) && !e.writers[h].closed
    requires HasStatus(l.item) && l.writer.index == e.writers[h].index
    requires StatusOf(l.item) == if l.writer.closed && Running(StatusOf(e.ItemOf(h))) then Completed
             else StatusOf(e.ItemOf(h))
    ensures Settled(e.Apply(h, l))
  {
    assert LiveAt(e, e.writers[h].index);
  }

  lemma StartSettled(e: Producer)
    requires e.Sound() && Settled(e)
    ensures Settled(e.EnsureStarted())
  {
    hide Producer.EnsureStarted;
    StartStatus(e);
  }

  lemma CloseOpenSettled(e: Producer)
    requires e.Sound() && Settled(e)
    ensures Settled(e.CloseOpen()) && e.CloseOpen().Live().None?
  {
    hide Producer.CloseOpen, Producer.Sound;
    CloseOpenStatus(e);
    var d := e.CloseOpen();
    assert forall p :: !LiveAt(d, p);
    forall p | 0 <= p < |e.resp.output| ensures HasStatus(d.resp.output[p]) ==> !Running(StatusOf(d.resp.output[p])) {
      assert LiveAt(e, p) || d.resp.output[p] == e.resp.output[p];
    }
  }

  /** Everything announced before a new item is at its end. */
  lemma OpenItemSettled(e: Producer, item: Item)
    requires e.Sound() && Settled(e)
    ensures var d, n := e.OpenItem(item), |e.resp.output|;
            && d.resp.output[n] == item && d.Live().None?
            && forall p :: 0 <= p < n && HasStatus(d.resp.output[p]) ==> !Running(StatusOf(d.resp.output[p]))
  {
    StartSettled(e);
    CloseOpenSettled(e.EnsureStarted());
    assert forall p :: !LiveAt(e.EnsureStarted().CloseOpen(), p);
  }

  lemma OpenWithSettled(e: Producer, item: Item, w: Writer)
    requires e.Sound() && Settled(e) && !w.closed && w.index == |e.resp.output|
    requires HasStatus(item) && StatusOf(item).InProgress?
    ensures Settled(e.OpenWith(item, w))
  {
    OpenItemSettled(e, item);
    hide Producer.OpenItem;
  }

  lemma EmitSettled(e: Producer, item: Item)
    requires e.Sound() && Settled(e) && !e.terminal && !item.NilItem?
    ensures Settled(e.Do(EmitItem(item)))
  {
    hide Producer.OpenItem, Producer.Do, Producer.Sound, FinalForm;
    OpenItemSettled(e, item);
    EmitShape(e, item);
    FinalStatus(item);
  }

  /** The item still being written, if any, is at its end when the stream ends. */
  lemma EndSettled(e: Producer, d: Producer, kind: SnapshotKind)
    requires Settled(e) && EndsWith(e, d, kind) && d.Live().None?
    requires forall p :: 0 <= p < |e.resp.output| && LiveAt(e, p) ==> !Running(StatusOf(d.resp.output[p]))
    ensures Settled(d)
  {
    assert forall p :: !LiveAt(d, p);
    forall p | 0 <= p < |d.resp.output| ensures HasStatus(d.resp.output[p]) ==> !Running(StatusOf(d.resp.output[p])) {
      assert LiveAt(e, p) || d.resp.output[p] == e.resp.output[p];
    }
  }

  lemma DoSettled(e: Producer, call: Call)
    requires e.Sound() && Settled(e) && e.Allows(call)
    ensures Settled(e.Do(call))
  {
    hide Settled;
    match call
    case StartStream => StartSettled(e);
    case SetDetails(details) => DetailsSettled(e, details);
    case Write(h, c) => WriteSettled(e, h, c);
    case OpenMessage(id, phase) =>
      if !e.terminal {
        OpenWithSettled(e, Message(id, InProgress, "assistant", phase, []),
                        MessageWriter(|e.resp.output|, false, false));
      }
    case OpenCall(id, callId, name) =>
      if !e.terminal {
        OpenWithSettled(e, FunctionCall(id, InProgress, callId, name, ""), CallWriter(|e.resp.output|, false));
      }
    case OpenReasoning(id) =>
      if !e.terminal {
        OpenWithSettled(e, Reasoning(id, InProgress, [], [], ""),
                        ReasoningWriter(|e.resp.output|, false, false, false, false));
      }
    case EmitItem(item) => if !e.terminal { EmitSettled(e, item); }
    case CompleteStream => if !e.terminal { CompleteSettled(e); }
    case StopStream(reason) => if !e.terminal { StopSettled(e, reason); }
  }

  lemma DetailsSettled(e: Producer, details: string)
    requires e.Sound() && Settled(e)
    ensures Settled(e.Do(SetDetails(details)))
  {
    assert forall p :: LiveAt(e.Do(SetDetails(details)), p) == LiveAt(e, p);
  }

  lemma CompleteSettled(e: Producer)
    requires e.Sound() && Settled(e) && !e.terminal
    ensures Settled(e.Do(CompleteStream))
  {
    CompleteFinishes(e);
    CompleteDead(e);
    hide Producer.Do, Producer.Sound, Producer.Live;
    EndSettled(e, e.Do(CompleteStream), Finished);
  }

  lemma StopSettled(e: Producer, reason: string)
    requires e.Sound() && Settled(e) && !e.terminal
    ensures Settled(e.Do(StopStream(reason)))
  {
    StopMarks(e, reason);
    StopDead(e, reason);
    hide Producer.Do, Producer.Sound, Producer.Live;
    EndSettled(e, e.Do(StopStream(reason)), Stopped);
  }

  lemma CompleteDead(e: Producer)
    requires e.Sound() && !e.terminal
    ensures e.Do(CompleteStream).Live().None?
  {
  }

  lemma StopDead(e: Producer, reason: string)
    requires e.Sound() && !e.terminal
    ensures e.Do(StopStream(reason)).Live().None?
  {
  }

  lemma {:induction false} RunSettled(e: Producer, calls: seq<Call>)
    requires e.Sound() && Settled(e) && AllowsAll(e, calls)
    ensures Settled(DoAll(e, calls))
    decreases |calls|
  {
    hide Settled, Producer.Do, Producer.Sound;
    if calls != [] {
      DoSound(e, calls[0]);
      DoSettled(e, calls[0]);
      RunSettled(e.Do(calls[0]), calls[1..]);
    }
  }

  /** After every run of calls, the item being written is in progress and no
      other item that has a status is: once the stream has ended, none. */
  lemma EveryItemSettles(resp: Response, calls: seq<Call>)
    requires Fresh(resp) && (NewSound(resp); AllowsAll(NewProducer(resp), calls))
    ensures var e := (NewSound(resp); DoAll(NewProducer(resp), calls));
            && Settled(e)
            && (e.terminal ==> forall p :: 0 <= p < |e.resp.output| && HasStatus(e.resp.output[p]) ==>
                  !Running(StatusOf(e.resp.output[p])))
  {
    NewSound(resp);
    RunSettled(NewProducer(resp), calls);
    var e := DoAll(NewProducer(resp), calls);
    if e.terminal { assert e.Live().None? && forall p :: !LiveAt(e, p); }
  }
}

/** The terminal response lists exactly the items that output_item.done carried,
    in order: each item in its final form. */
module FinalItems {
  import opened EmitterSpec
  import opened Types
  import opened Wrappers

  /** The items of the done events, in order. */
  function DoneItems(events: seq<Event>): seq<Item> {
    if events == [] then []
    else DoneItems(Front(events)) + if Last(events).ItemDone? then [Last(events).item] else []
  }

  lemma {:induction false} DoneSplit(a: seq<Event>, b: seq<Event>)
    ensures DoneItems(a + b) == DoneItems(a) + DoneItems(b)
    decreases |b|
  {
    if b == [] {
      assert a + b == a;
    } else {
      DoneSplit(a, Front(b));
      assert Front(a + b) == a + Front(b) && Last(a + b) == Last(b);
    }
  }

  lemma {:induction false} NoneDone(events: seq<Event>)
    requires forall ev <- events :: !ev.ItemDone?
    ensures DoneItems(events) == []
  {
    if events != [] {
      assert Last(events) in events && forall ev <- Front(events) :: ev in events;
      NoneDone(Front(events));
    }
  }

  lemma OneDone(events: seq<Event>, ev: Event)
    ensures DoneItems(events + [ev]) == DoneItems(events) + if ev.ItemDone? then [ev.item] else []
  {
    assert Front(events + [ev]) == events;
  }

  /** While an item is open it is the one not yet done; once the stream has
      ended the last event is the terminal snapshot, listing them all. */
  ghost predicate Told(e: Producer) {
    && DoneItems(e.sent) == (if e.Live().Some? && e.resp.output != [] then Front(e.resp.output) else e.resp.output)
    && (e.terminal ==>
          && e.sent != [] && Last(e.sent).Terminal() && Last(e.sent).response.Some?
          && Last(e.sent).response.value.output == e.resp.output)
  }

  // ---- One writer ----------------------------------------------------------------------------------

  lemma MessageTells(m: Item, w: Writer, call: WriterCall)
    requires w.MessageWriter? && !w.closed && Attached(m, w) && WriterAllows(w, call) && !call.CloseWriter?
    ensures var l := Perform(m, w, call); !l.writer.closed && forall ev <- l.events :: !ev.ItemDone?
  {
    PartTells(m, w, OutputText("", [], []));
    PartTells(m, w, Refusal(""));
    hide EnsurePart;
    EnsurePartFits(m, w, OutputText("", [], []));
    EnsurePartFits(m, w, Refusal(""));
  }

  lemma PartTells(m: Item, w: Writer, blank: Part)
    requires w.MessageWriter? && Attached(m, w) && (blank.OutputText? || blank.Refusal?)
    ensures forall ev <- EnsurePart(m, w, blank).events :: !ev.ItemDone?
  {
  }

  lemma CallTells(call: Item, w: Writer, c: WriterCall)
    requires w.CallWriter? && !w.closed && Attached(call, w) && WriterAllows(w, c) && !c.CloseWriter?
    ensures var l := Perform(call, w, c); !l.writer.closed && forall ev <- l.events :: !ev.ItemDone?
  {
  }

  lemma ReasoningTells(r: Item, w: Writer, call: WriterCall)
    requires w.ReasoningWriter? && !w.closed && Attached(r, w) && WriterAllows(w, call) && !call.CloseWriter?
    ensures var l := Perform(r, w, call); !l.writer.closed && forall ev <- l.events :: !ev.ItemDone?
  {
  }

  lemma ClosedTells(item: Item, w: Writer, call: WriterCall)
    requires w.closed && WriterAllows(w, call) && (w.ReasoningWriter? ==> !w.summaryOpen)
    ensures var l := Perform(item, w, call); l.events == [] && l.writer == w && l.item == item
  {
  }

  /** Only closing an open writer sends a done, of the item as it then is. */
  lemma WriterDone(item: Item, w: Writer, call: WriterCall)
    requires WriterAllows(w, call) && !w.closed && Attached(item, w)
    ensures var l := Perform(item, w, call);
            l.writer.closed == call.CloseWriter? && DoneItems(l.events) == if l.writer.closed then [l.item] else []
  {
    if call.CloseWriter? {
      CloseDone(item, w);
    } else {
      WriterTells(item, w, call);
      NoneDone(Perform(item, w, call).events);
    }
  }

  lemma WriterTells(item: Item, w: Writer, call: WriterCall)
    requires WriterAllows(w, call) && !w.closed && Attached(item, w) && !call.CloseWriter?
    ensures var l := Perform(item, w, call); !l.writer.closed && forall ev <- l.events :: !ev.ItemDone?
  {
    hide Perform;
    match w
    case MessageWriter(_, _, _) => MessageTells(item, w, call);
    case CallWriter(_, _) => CallTells(item, w, call);
    case ReasoningWriter(_, _, _, _, _) => ReasoningTells(item, w, call);
  }

  lemma CloseDone(item: Item, w: Writer)
    requires !w.closed && Attached(item, w)
    ensures DoneItems(Close(item, w).events) == [Close(item, w).item] && Close(item, w).writer.closed
  {
    InsideTells(item, w);
    hide CloseInside, FinalForm;
    var l := CloseInside(item, w);
    NoneDone(l.events);
    OneDone(l.events, ItemDone(w.index, FinalForm(l.item)));
    assert [] + [FinalForm(l.item)] == [FinalForm(l.item)];
  }

  lemma InsideTells(item: Item, w: Writer)
    requires !w.closed && Attached(item, w)
    ensures forall ev <- CloseInside(item, w).events :: !ev.ItemDone?
  {
  }

  // ---- One call ------------------------------------------------------------------------------------

  lemma WriteTold(e: Producer, h: nat, call: WriterCall)
    requires e.Sound() && Told(e) && e.Allows(Write(h, call))
    ensures Told(e.Do(Write(h, call)))
  {
    assert e.WriterSound(h);
    if e.writers[h].closed {
      ClosedTells(e.ItemOf(h), e.writers[h], call);
    } else {
      WriterDone(e.ItemOf(h), e.writers[h], call);
    }
    hide Perform, Told, DoneItems;
    ApplyTold(e, h, Perform(e.ItemOf(h), e.writers[h], call));
  }

  lemma ApplyTold(e: Producer, h: nat, l: Local)
    requires e.Sound() && Told(e) && h < |e.writers| && e.WriterSound(h)
    requires e.writers[h].closed ==> l.events == [] && l.writer == e.writers[h] && l.item == e.ItemOf(h)
    requires !e.writers[h].closed ==> DoneItems(l.events) == if l.writer.closed then [l.item] else []
    ensures Told(e.Apply(h, l))
  {
    hide Producer.Sound, DoneItems;
    DoneSplit(e.sent, l.events);
    if e.writers[h].closed {
      assert e.Apply(h, l) == e;
    } else {
      NotEnded(e, h);
      OpenApplied(e, h, l);
    }
  }

  lemma NotEnded(e: Producer, h: nat)
    requires e.Sound() && h < |e.writers| && !e.writers[h].closed && e.WriterSound(h)
    ensures !e.terminal && e.Live() == Some(h) && e.writers[h].index == |e.resp.output| - 1
  {
  }

  lemma OpenApplied(e: Producer, h: nat, l: Local)
    requires Told(e) && !e.terminal && h < |e.writers| && e.Live() == Some(h)
             && e.writers[h].index == |e.resp.output| - 1
    requires DoneItems(e.sent + l.events) == DoneItems(e.sent) + if l.writer.closed then [l.item] else []
    ensures Told(e.Apply(h, l))
  {
    hide DoneItems;
    assert e.Apply(h, l).resp.output == Front(e.resp.output) + [l.item];
  }

  lemma StartTold(e: Producer)
    requires e.Sound() && Told(e)
    ensures Told(e.EnsureStarted())
  {
    if !e.started {
      var evs := [Snapshot(Created, Some(e.resp)), Snapshot(Started, Some(e.resp))];
      DoneSplit(e.sent, evs);
      NoneDone(evs);
    }
  }

  lemma CloseOpenTold(e: Producer)
    requires e.Sound() && Told(e) && !e.terminal
    ensures Told(e.CloseOpen()) && e.CloseOpen().Live().None? && !e.CloseOpen().terminal
  {
    hide Told, DoneItems, Close;
    if e.open.Some? {
      var h := e.open.value;
      assert e.WriterSound(h);
      var l := Close(e.ItemOf(h), e.writers[h]);
      if e.writers[h].closed {
        ClosedTells(e.ItemOf(h), e.writers[h], CloseWriter);
      } else {
        CloseDone(e.ItemOf(h), e.writers[h]);
      }
      ApplyTold(e, h, l);
      Forgotten(e.Apply(h, l), h);
    }
  }

  /** Forgetting a closed writer changes nothing told. */
  lemma Forgotten(e: Producer, h: nat)
    requires Told(e) && h < |e.writers| && e.writers[h].closed && e.open == Some(h)
    ensures Told(e.(open := None)) && e.(open := None).Live().None?
  {
    hide DoneItems;
  }

  /** A new item is announced and not yet done. */
  lemma OpenItemTold(e: Producer, item: Item)
    requires e.Sound() && Told(e) && !e.terminal
    ensures var o := e.OpenItem(item); o.resp.output != [] && DoneItems(o.sent) == Front(o.resp.output) && !o.terminal
  {
    StartTold(e);
    CloseOpenTold(e.EnsureStarted());
    var c := e.EnsureStarted().CloseOpen();
    OneDone(c.sent, ItemAdded(|c.resp.output|, item));
  }

  lemma OpenWithTold(e: Producer, item: Item, w: Writer)
    requires e.Sound() && Told(e) && !e.terminal && !w.closed
    ensures Told(e.OpenWith(item, w))
  {
    OpenItemTold(e, item);
  }

  lemma EmitTold(e: Producer, item: Item)
    requires e.Sound() && Told(e) && !e.terminal && !item.NilItem?
    ensures Told(e.Do(EmitItem(item)))
  {
    hide Producer.OpenItem, Producer.Do, Producer.Sound, Producer.Live, DoneItems, FinalForm;
    OpenItemTold(e, item);
    EmitShape(e, item);
    var o, n := e.OpenItem(item), |e.resp.output|;
    OneDone(o.sent, ItemDone(n, FinalForm(item)));
    assert o.resp.output[n := FinalForm(item)] == Front(o.resp.output) + [FinalForm(item)];
  }

  lemma EndTold(e: Producer, kind: SnapshotKind, final: Response)
    requires Told(e) && e.Live().None? && kind.Terminal() && final.output == e.resp.output
    ensures Told(e.Finish(kind, final))
  {
    OneDone(e.sent, Snapshot(kind, Some(final)));
  }

  lemma MarkTold(e: Producer)
    requires e.Sound() && Told(e)
    ensures Told(e.MarkOpenIncomplete())
  {
    if e.Live().Some? { assert e.WriterSound(e.Live().value); }
  }

  lemma DoTold(e: Producer, call: Call)
    requires e.Sound() && Told(e) && e.Allows(call)
    ensures Told(e.Do(call))
  {
    hide Told;
    match call
    case StartStream => StartTold(e);
    case SetDetails(details) => DetailsTold(e, details);
    case Write(h, c) => WriteTold(e, h, c);
    case OpenMessage(id, phase) =>
      if !e.terminal {
        OpenWithTold(e, Message(id, InProgress, "assistant", phase, []), MessageWriter(|e.resp.output|, false, false));
      }
    case OpenCall(id, callId, name) =>
      if !e.terminal {
        OpenWithTold(e, FunctionCall(id, InProgress, callId, name, ""), CallWriter(|e.resp.output|, false));
      }
    case OpenReasoning(id) =>
      if !e.terminal {
        OpenWithTold(e, Reasoning(id, InProgress, [], [], ""),
                     ReasoningWriter(|e.resp.output|, false, false, false, false));
      }
    case EmitItem(item) => if !e.terminal { EmitTold(e, item); }
    case CompleteStream => if !e.terminal { CompleteTold(e); }
    case StopStream(reason) => if !e.terminal { StopTold(e, reason); }
  }

  lemma DetailsTold(e: Producer, details: string)
    requires e.Sound() && Told(e)
    ensures Told(e.Do(SetDetails(details)))
  {
  }

  lemma CompleteTold(e: Producer)
    requires e.Sound() && Told(e) && !e.terminal
    ensures Told(e.Do(CompleteStream))
  {
    hide Producer.EnsureStarted, Producer.CloseOpen, Producer.Sound, Producer.Live, Told;
    StartTold(e);
    CloseOpenTold(e.EnsureStarted());
    var c := e.EnsureStarted().CloseOpen();
    EndTold(c, Finished, c.resp.Complete());
  }

  lemma StopTold(e: Producer, reason: string)
    requires e.Sound() && Told(e) && !e.terminal
    ensures Told(e.Do(StopStream(reason)))
  {
    hide Producer.MarkOpenIncomplete, Producer.EnsureStarted, Producer.CloseOpen, Producer.Sound, Producer.Live, Told;
    MarkTold(e);
    var m := e.MarkOpenIncomplete();
    StartTold(m);
    CloseOpenTold(m.EnsureStarted());
    var c := m.EnsureStarted().CloseOpen();
    EndTold(c, Stopped, c.resp.MarkIncomplete(reason));
  }

  // ---- Every run -----------------------------------------------------------------------------------

  lemma {:induction false} RunTold(e: Producer, calls: seq<Call>)
    requires e.Sound() && Told(e) && AllowsAll(e, calls)
    ensures Told(DoAll(e, calls))
    decreases |calls|
  {
    hide Told, Producer.Do, Producer.Sound;
    if calls != [] {
      DoSound(e, calls[0]);
      DoTold(e, calls[0]);
      RunTold(e.Do(calls[0]), calls[1..]);
    }
  }

  /** After every run of calls that has ended the stream, the last event is its
      only terminal snapshot and lists exactly the items the output_item.done
      events carried, in order; before the end they are all items but the open
      one. */
  lemma TerminalListsDone(resp: Response, calls: seq<Call>)
    requires Fresh(resp) && (NewSound(resp); AllowsAll(NewProducer(resp), calls))
    ensures var e := (NewSound(resp); DoAll(NewProducer(resp), calls));
            && (e.terminal ==>
                  && e.sent != [] && Last(e.sent).Terminal() && Last(e.sent).response.Some?
                  && Last(e.sent).response.value.output == DoneItems(e.sent))
            && (!e.terminal && e.Live().None? ==> e.resp.output == DoneItems(e.sent))
            && (e.Live().Some? ==> e.resp.output != [] && DoneItems(e.sent) == Front(e.resp.output))
  {
    NewSound(resp);
    RunTold(NewProducer(resp), calls);
    LiveIsListed(DoAll(NewProducer(resp), calls));
  }

  lemma LiveIsListed(e: Producer)
    requires e.Sound()
    ensures e.Live().Some? ==> e.resp.output != [] && !e.terminal
  {
    if e.Live().Some? { assert e.WriterSound(e.Live().value); }
  }
}

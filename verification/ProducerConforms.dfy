/** The producer satisfies the checker: every prefix of what an emitter sends,
    whatever calls are made on it and on its writers, passes the validator. */
module ProducerConforms {
  import opened Types
  import opened Wrappers
  import opened EmitterSpec
  import V = ValidatorSpec

  /** What the checker believes is open, for an open writer and its item. */
  ghost predicate Mirrors(o: V.OpenItem, item: Item, w: Writer) {
    && o.index == w.index && SameItem(o.item, item) && Attached(item, w)
    && match w
       case MessageWriter(_, _, partOpen) =>
         && o.item.Message? && o.parts == |item.content| && o.summary.None? && !o.textOpen
         && o.part.Some? == partOpen
         && (partOpen ==> o.part.value == V.OpenPart(PartTypeOf(Last(item.content)), false))
       case CallWriter(_, _) => o.part.None? && o.summary.None? && !o.argsDone && !o.textDone
       case ReasoningWriter(_, _, summaryOpen, textOpen, _) =>
         && o.part.None? && o.summaries == |item.summary|
         && o.summary == (if summaryOpen then Some(false) else None)
         && o.textOpen == textOpen && !o.textDone
  }

  /** The checker's state fits the producer's. */
  ghost predicate Tracks(v: V.Checker, e: Producer) {
    && e.Sound() && !v.errorSeen && v.terminal == e.terminal
    && v.indexes == |v.items| == |e.resp.output|
    && (forall p :: 0 <= p < |v.items| ==> v.items[p] == V.StateOf(p, e.resp.output[p]))
    && v.open.Some? == e.Live().Some?
    && (v.open.Some? ==>
        e.WriterSound(e.Live().value) && Mirrors(v.open.value, e.ItemOf(e.Live().value), e.writers[e.Live().value]))
  }

  /** The events sent so far pass, and leave the checker tracking the producer. */
  ghost predicate Checked(e: Producer, allowReuse: bool) {
    var v := V.Run(V.Start(allowReuse), 0, e.sent);
    v.Some? && Tracks(v.value, e)
  }

  // ---- One writer call -------------------------------------------------------------------

  /** The events of a writer call pass and only touch the open item. */
  ghost predicate Passes(v: V.Checker, i: nat, l: Local) {
    var u := V.Run(v, i, l.events);
    && u.Some? && u.value == v.(open := u.value.open)
    && u.value.open.Some? && Mirrors(u.value.open.value, l.item, l.writer)
  }

  lemma PassesEmit(v: V.Checker, i: nat, l: Local, ev: Event, m: Local)
    requires Passes(v, i, l) && m.events == l.events + [ev]
    requires var u := V.Run(v, i, l.events).value;
             var s := u.Step(i + |l.events|, ev);
             && s.Some? && s.value == u.(open := s.value.open) && s.value.open.Some?
             && Mirrors(s.value.open.value, m.item, m.writer)
    ensures Passes(v, i, m)
  {
    V.RunAppend(v, i, l.events, [ev]);
    V.RunOne(V.Run(v, i, l.events).value, i + |l.events|, ev);
  }

  ghost predicate Ready(v: V.Checker, item: Item, w: Writer) {
    && !v.terminal && !v.errorSeen && v.open.Some? && !w.closed && Mirrors(v.open.value, item, w)
  }

  lemma ClosePartPasses(v: V.Checker, i: nat, m: Item, w: Writer)
    requires Ready(v, m, w) && w.MessageWriter? && i > 0
    ensures Passes(v, i, ClosePart(m, w))
  {
    if w.partOpen {
      var l := ClosePart(m, w);
      var mid := v.Step(i, l.events[0]);
      assert mid.Some?;
      V.RunOne(mid.value, i + 1, l.events[1]);
      assert l.events[1..] == [l.events[1]];
    }
  }

  lemma EnsurePartPasses(v: V.Checker, i: nat, m: Item, w: Writer, blank: Part)
    requires Ready(v, m, w) && w.MessageWriter? && i > 0 && (blank.OutputText? || blank.Refusal?)
    ensures Passes(v, i, EnsurePart(m, w, blank))
  {
    var l := EnsurePart(m, w, blank);
    if l.events != [] {
      ClosePartPasses(v, i, m, w);
      var closed := ClosePart(m, w);
      PassesEmit(v, i, closed, PartAdded(m.id, w.index, |m.content|, blank), l);
    }
  }

  lemma PartWritePasses(v: V.Checker, i: nat, m: Item, w: Writer, blank: Part, ev: Event, l: Local)
    requires Ready(v, m, w) && w.MessageWriter? && i > 0 && (blank.OutputText? || blank.Refusal?)
    requires var p := EnsurePart(m, w, blank);
             && l.writer == p.writer && l.item.Message? && SameItem(l.item, m)
                 && |l.item.content| == |p.item.content| > 0
             && SameKind(Last(l.item.content), blank)
             && (l.events == p.events || l.events == p.events + [ev])
    requires var c := |l.item.content| - 1;
             || (blank.OutputText? && ev.TextDelta? && ev.itemId == m.id && ev.outputIndex == w.index
                 && ev.contentIndex == c)
             || (blank.OutputText? && ev.AnnotationAdded? && ev.itemId == m.id && ev.outputIndex == w.index
                 && ev.contentIndex == c)
             || (blank.Refusal? && ev.RefusalDelta? && ev.itemId == m.id && ev.outputIndex == w.index
                 && ev.contentIndex == c)
    ensures Passes(v, i, l)
  {
    EnsurePartPasses(v, i, m, w, blank);
    EnsurePartFits(m, w, blank);
    var p := EnsurePart(m, w, blank);
    if l.events != p.events { PassesEmit(v, i, p, ev, l); }
  }

  lemma MessageCallPasses(v: V.Checker, i: nat, m: Item, w: Writer, call: WriterCall)
    requires Ready(v, m, w) && w.MessageWriter? && i > 0 && WriterAllows(w, call) && !call.CloseWriter?
    ensures Passes(v, i, Perform(m, w, call))
  {
    hide EnsurePart, Passes;
    var l := Perform(m, w, call);
    EnsurePartFits(m, w, OutputText("", [], []));
    EnsurePartFits(m, w, Refusal(""));
    match call
    case Text(_) => PartWritePasses(v, i, m, w, OutputText("", [], []), Last(l.events), l);
    case AddAnnotation(_) => PartWritePasses(v, i, m, w, OutputText("", [], []), Last(l.events), l);
    case AddLogprobs(_) =>
      PartWritePasses(v, i, m, w, OutputText("", [], []), TextDelta(m.id, w.index, |l.item.content| - 1, "", []), l);
    case Refuse(_) => PartWritePasses(v, i, m, w, Refusal(""), Last(l.events), l);
  }

  lemma EndSummaryPasses(v: V.Checker, i: nat, r: Item, w: Writer)
    requires Ready(v, r, w) && w.ReasoningWriter? && i > 0
    ensures Passes(v, i, EndSummary(r, w))
  {
    if w.summaryOpen {
      var l := EndSummary(r, w);
      var mid := v.Step(i, l.events[0]);
      assert mid.Some?;
      V.RunOne(mid.value, i + 1, l.events[1]);
      assert l.events[1..] == [l.events[1]];
    }
  }

  lemma SummarizePasses(v: V.Checker, i: nat, r: Item, w: Writer, delta: string)
    requires Ready(v, r, w) && w.ReasoningWriter? && i > 0
    ensures Passes(v, i, WriteSummary(r, w, delta))
  {
    OpenSummaryPasses(v, i, r, w);
    SummaryStep(V.Run(v, i, OpenSummary(r, w).events).value, i + |OpenSummary(r, w).events|, r, w, delta);
    hide V.Checker.Step, Mirrors, OpenSummary, V.Run;
    PassesEmit(v, i, OpenSummary(r, w), Last(WriteSummary(r, w, delta).events), WriteSummary(r, w, delta));
  }

  lemma OpenSummaryPasses(v: V.Checker, i: nat, r: Item, w: Writer)
    requires Ready(v, r, w) && w.ReasoningWriter? && i > 0
    ensures Passes(v, i, OpenSummary(r, w))
    ensures var u := V.Run(v, i, OpenSummary(r, w).events).value; !u.terminal && !u.errorSeen
  {
    var s := OpenSummary(r, w);
    if s.events != [] { V.RunOne(v, i, s.events[0]); }
  }

  /** A delta goes to the summary part just made sure of. */
  lemma SummaryStep(u: V.Checker, i: nat, r: Item, w: Writer, delta: string)
    requires w.ReasoningWriter? && !w.closed && Attached(r, w) && !u.terminal && !u.errorSeen && u.open.Some?
    requires Mirrors(u.open.value, OpenSummary(r, w).item, OpenSummary(r, w).writer)
    ensures var s, l := OpenSummary(r, w), WriteSummary(r, w, delta);
            && l.events != [] && l.events == s.events + [Last(l.events)]
            && u.Step(i, Last(l.events)) == Some(u) && Mirrors(u.open.value, l.item, l.writer)
  {
    var s, l := OpenSummary(r, w), WriteSummary(r, w, delta);
    assert l.events == s.events + [SummaryDelta(r.id, w.index, |s.item.summary| - 1, delta)];
  }

  lemma ReasonPasses(v: V.Checker, i: nat, r: Item, w: Writer, delta: string)
    requires Ready(v, r, w) && w.ReasoningWriter? && i > 0
    ensures Passes(v, i, WriteReasoning(r, w, delta))
  {
    V.RunOne(v, i, WriteReasoning(r, w, delta).events[0]);
  }

  lemma ReasoningCallPasses(v: V.Checker, i: nat, r: Item, w: Writer, call: WriterCall)
    requires Ready(v, r, w) && w.ReasoningWriter? && i > 0 && WriterAllows(w, call) && !call.CloseWriter?
    ensures Passes(v, i, Perform(r, w, call))
  {
    match call
    case Summarize(delta) => SummarizePasses(v, i, r, w, delta);
    case CloseSummary => EndSummaryPasses(v, i, r, w);
    case Reason(delta) => ReasonPasses(v, i, r, w, delta);
    case Encrypt(_) =>
  }

  lemma CallPasses(v: V.Checker, i: nat, item: Item, w: Writer, call: WriterCall)
    requires Ready(v, item, w) && i > 0 && WriterAllows(w, call) && !call.CloseWriter?
    ensures Passes(v, i, Perform(item, w, call))
  {
    match w
    case MessageWriter(_, _, _) => MessageCallPasses(v, i, item, w, call);
    case CallWriter(_, _) => V.RunOne(v, i, Perform(item, w, call).events[0]);
    case ReasoningWriter(_, _, _, _, _) => ReasoningCallPasses(v, i, item, w, call);
  }

  /** Before its done event the item is tracked and nothing in it is open. */
  ghost predicate ReadyToClose(v: V.Checker, i: nat, item: Item, w: Writer, l: Local) {
    var mid := V.Run(v, i, l.events);
    && mid.Some? && mid.value == v.(open := mid.value.open)
    && mid.value.Step(i + |l.events|, ItemDone(w.index, FinalForm(l.item))) == Some(v.(open := None))
  }

  lemma MessageInsidePasses(v: V.Checker, i: nat, item: Item, w: Writer)
    requires Ready(v, item, w) && i > 0 && w.MessageWriter?
    ensures ReadyToClose(v, i, item, w, CloseInside(item, w))
  {
    ClosePartPasses(v, i, item, w);
  }

  lemma CallInsidePasses(v: V.Checker, i: nat, item: Item, w: Writer)
    requires Ready(v, item, w) && i > 0 && w.CallWriter?
    ensures ReadyToClose(v, i, item, w, CloseInside(item, w))
  {
    V.RunOne(v, i, CloseInside(item, w).events[0]);
  }

  lemma ReasoningInsidePasses(v: V.Checker, i: nat, item: Item, w: Writer)
    requires Ready(v, item, w) && i > 0 && w.ReasoningWriter?
    ensures ReadyToClose(v, i, item, w, CloseInside(item, w))
  {
    var l, s := CloseInside(item, w), EndSummary(item, w);
    EndSummaryPasses(v, i, item, w);
    hide EndSummary, V.Run;
    if w.textOpen {
      V.RunAppend(v, i, s.events, [Last(l.events)]);
      V.RunOne(V.Run(v, i, s.events).value, i + |s.events|, Last(l.events));
    }
  }

  lemma InsidePasses(v: V.Checker, i: nat, item: Item, w: Writer)
    requires Ready(v, item, w) && i > 0
    ensures ReadyToClose(v, i, item, w, CloseInside(item, w))
  {
    hide ReadyToClose, CloseInside, Ready;
    match w
    case MessageWriter(_, _, _) => MessageInsidePasses(v, i, item, w);
    case CallWriter(_, _) => CallInsidePasses(v, i, item, w);
    case ReasoningWriter(_, _, _, _, _) => ReasoningInsidePasses(v, i, item, w);
  }

  /** Closing a writer passes and leaves nothing open. */
  lemma ClosePasses(v: V.Checker, i: nat, item: Item, w: Writer)
    requires Ready(v, item, w) && i > 0
    ensures V.Run(v, i, Close(item, w).events) == Some(v.(open := None))
  {
    var l := CloseInside(item, w);
    var ev := ItemDone(w.index, FinalForm(l.item));
    InsidePasses(v, i, item, w);
    assert Close(item, w).events == l.events + [ev];
    hide CloseInside, FinalForm, V.Checker.Step, Close;
    V.RunAppend(v, i, l.events, [ev]);
    V.RunOne(V.Run(v, i, l.events).value, i + |l.events|, ev);
  }

  // ---- One adapter call ----------------------------------------------------------------------

  lemma StartChecked(e: Producer, allowReuse: bool)
    requires Checked(e, allowReuse)
    ensures Checked(e.EnsureStarted(), allowReuse)
  {
    if !e.started {
      var v := V.Start(allowReuse);
      var evs := [Snapshot(Created, Some(e.resp)), Snapshot(Started, Some(e.resp))];
      V.RunOne(v, 1, evs[1]);
      assert evs[1..] == [evs[1]];
      assert e.EnsureStarted().sent == evs;
    }
  }

  /** Taking over a writer's work carries the check along. */
  lemma ApplyTracks(e: Producer, v: V.Checker, h: nat, call: WriterCall, u: V.Checker)
    requires Tracks(v, e) && h < |e.writers| && WriterAllows(e.writers[h], call)
    requires e.WriterSound(h) && !e.writers[h].closed
    requires var l := Perform(e.ItemOf(h), e.writers[h], call);
             && u == v.(open := u.open) && u.open.Some? == !l.writer.closed
             && (u.open.Some? ==> Mirrors(u.open.value, l.item, l.writer))
    ensures Tracks(u, e.Do(Write(h, call)))
  {
    PerformFits(e.ItemOf(h), e.writers[h], call);
    ApplySound(e, h, call);
    var d := e.Do(Write(h, call));
    assert d.WriterSound(h);
    assert d.Live() == if u.open.Some? then Some(h) else None;
    assert forall p :: 0 <= p < |v.items| ==> v.items[p] == V.StateOf(p, d.resp.output[p]);
  }

  /** A writer call keeps the sent events passing. */
  lemma WriteChecked(e: Producer, h: nat, call: WriterCall, allowReuse: bool)
    requires Checked(e, allowReuse) && h < |e.writers| && WriterAllows(e.writers[h], call)
    ensures Checked(e.Do(Write(h, call)), allowReuse)
  {
    assert e.WriterSound(h);
    if e.writers[h].closed {
      ClosedDoesNothing(e, h, call);
    } else {
      OpenWriteChecked(e, h, call, allowReuse);
    }
  }

  lemma ClosedDoesNothing(e: Producer, h: nat, call: WriterCall)
    requires e.Sound() && h < |e.writers| && WriterAllows(e.writers[h], call) && e.writers[h].closed
    ensures e.Do(Write(h, call)) == e
  {
    assert e.WriterSound(h);
    PerformFits(e.ItemOf(h), e.writers[h], call);
  }

  lemma OpenWriteChecked(e: Producer, h: nat, call: WriterCall, allowReuse: bool)
    requires Checked(e, allowReuse) && h < |e.writers| && WriterAllows(e.writers[h], call) && !e.writers[h].closed
    ensures Checked(e.Do(Write(h, call)), allowReuse)
  {
    hide V.Run, V.Checker.Step, Perform, Tracks, Checked, Producer.Do, Mirrors;
    CheckedHas(e, allowReuse);
    assert e.WriterSound(h);
    var l := Perform(e.ItemOf(h), e.writers[h], call);
    var v := V.Run(V.Start(allowReuse), 0, e.sent).value;
    WriterPasses(e, v, h, call);
    ApplySent(e, h, call);
    var u := V.Run(v, |e.sent|, l.events).value;
    ApplyTracks(e, v, h, call, u);
    V.RunAppend(V.Start(allowReuse), 0, e.sent, l.events);
    CheckedBy(e.Do(Write(h, call)), u, allowReuse);
  }

  lemma CheckedHas(e: Producer, allowReuse: bool)
    requires Checked(e, allowReuse)
    ensures var v := V.Run(V.Start(allowReuse), 0, e.sent); v.Some? && Tracks(v.value, e)
    ensures e.Sound()
  {
  }

  lemma ApplySent(e: Producer, h: nat, call: WriterCall)
    requires e.Sound() && h < |e.writers| && WriterAllows(e.writers[h], call) && e.WriterSound(h)
             && !e.writers[h].closed
    ensures e.Do(Write(h, call)).sent == e.sent + Perform(e.ItemOf(h), e.writers[h], call).events
  {
    hide Perform;
  }

  /** What an open writer sends passes the checker that tracks it. */
  lemma WriterPasses(e: Producer, v: V.Checker, h: nat, call: WriterCall)
    requires e.Sound() && Tracks(v, e) && e.sent != [] && h < |e.writers| && WriterAllows(e.writers[h], call)
    requires e.WriterSound(h) && !e.writers[h].closed
    ensures var l := Perform(e.ItemOf(h), e.writers[h], call);
            var u := V.Run(v, |e.sent|, l.events);
            && u.Some? && u.value == v.(open := u.value.open) && u.value.open.Some? == !l.writer.closed
            && (u.value.open.Some? ==> Mirrors(u.value.open.value, l.item, l.writer))
  {
    hide V.Checker.Step, V.Run;
    var item, w := e.ItemOf(h), e.writers[h];
    PerformFits(item, w, call);
    if call.CloseWriter? { ClosePasses(v, |e.sent|, item, w); } else { CallPasses(v, |e.sent|, item, w, call); }
  }

  lemma CloseOpenChecked(e: Producer, allowReuse: bool)
    requires Checked(e, allowReuse)
    ensures Checked(e.CloseOpen(), allowReuse)
  {
    if e.open.Some? {
      var h := e.open.value;
      assert e.WriterSound(h);
      WriteChecked(e, h, CloseWriter, allowReuse);
      PerformFits(e.ItemOf(h), e.writers[h], CloseWriter);
      var d, c := e.Do(Write(h, CloseWriter)), e.CloseOpen();
      assert c == d.(open := None);
      assert d.Live().None? by { assert d.writers[h].closed; }
    }
  }

  lemma OpenItemChecked(e: Producer, item: Item, allowReuse: bool)
    requires Checked(e, allowReuse) && !e.terminal && !item.NilItem?
    ensures var d := e.OpenItem(item);
            var v := V.Run(V.Start(allowReuse), 0, d.sent);
            && v.Some? && !v.value.terminal && !v.value.errorSeen
            && v.value.indexes == |v.value.items| == |d.resp.output| == |e.resp.output| + 1
            && (forall p :: 0 <= p < |v.value.items| ==> v.value.items[p] == V.StateOf(p, d.resp.output[p]))
            && v.value.open == Some(V.OpenItem(|e.resp.output|, item, 0, None, 0, None, false, false, false))
            && d.resp.output[|e.resp.output|] == item
  {
    StartChecked(e, allowReuse);
    CloseOpenChecked(e.EnsureStarted(), allowReuse);
    var c := e.EnsureStarted().CloseOpen();
    var ev := ItemAdded(|c.resp.output|, item);
    V.RunAppend(V.Start(allowReuse), 0, c.sent, [ev]);
    V.RunOne(V.Run(V.Start(allowReuse), 0, c.sent).value, |c.sent|, ev);
  }

  lemma OpenWithChecked(e: Producer, item: Item, w: Writer, allowReuse: bool)
    requires Checked(e, allowReuse) && !e.terminal && !item.NilItem?
    requires !w.closed && w.index == |e.resp.output| && Attached(item, w)
    requires Mirrors(V.OpenItem(w.index, item, 0, None, 0, None, false, false, false), item, w)
    ensures Checked(e.OpenWith(item, w), allowReuse)
  {
    OpenItemChecked(e, item, allowReuse);
    OpenWithSound(e, item, w);
    var d := e.OpenWith(item, w);
    assert d.WriterSound(|d.writers| - 1);
    assert d.Live() == Some(|d.writers| - 1);
  }

  lemma FinishChecked(e: Producer, d: Producer, kind: SnapshotKind, final: Response, allowReuse: bool)
    requires Checked(e, allowReuse) && e.started && !e.terminal && e.open.None? && d == e.Finish(kind, final)
             && d.Sound()
    requires final.output == e.resp.output
    requires (kind.Finished? && final.status.RCompleted?) || (kind.Stopped? && final.status.RIncomplete?)
    ensures Checked(d, allowReuse)
  {
    var ev := Snapshot(kind, Some(final));
    V.RunAppend(V.Start(allowReuse), 0, e.sent, [ev]);
    V.RunOne(V.Run(V.Start(allowReuse), 0, e.sent).value, |e.sent|, ev);
  }

  /** Marking the open item changes neither what was sent nor its identity. */
  lemma MarkChecked(e: Producer, allowReuse: bool)
    requires Checked(e, allowReuse)
    ensures Checked(e.MarkOpenIncomplete(), allowReuse)
  {
    if e.Live().Some? {
      assert e.WriterSound(e.Live().value);
      assert e.MarkOpenIncomplete().WriterSound(e.Live().value);
    }
  }

  /** Every adapter call keeps the sent events passing. */
  lemma DoChecked(e: Producer, call: Call, allowReuse: bool)
    requires Checked(e, allowReuse) && e.Allows(call)
    ensures Checked(e.Do(call), allowReuse)
  {
    DoSound(e, call);
    match call
    case StartStream => StartChecked(e, allowReuse);
    case SetDetails(_) =>
      if e.Live().Some? { assert e.Do(call).WriterSound(e.Live().value); }
    case Write(h, c) => WriteChecked(e, h, c, allowReuse);
    case OpenMessage(id, phase) =>
      if !e.terminal {
        OpenWithChecked(e, Message(id, InProgress, "assistant", phase, []),
                        MessageWriter(|e.resp.output|, false, false), allowReuse);
      }
    case OpenCall(id, callId, name) =>
      if !e.terminal {
        OpenWithChecked(e, FunctionCall(id, InProgress, callId, name, ""), CallWriter(|e.resp.output|, false),
                        allowReuse);
      }
    case OpenReasoning(id) =>
      if !e.terminal {
        OpenWithChecked(e, Reasoning(id, InProgress, [], [], ""),
                        ReasoningWriter(|e.resp.output|, false, false, false, false), allowReuse);
      }
    case EmitItem(item) =>
      if !e.terminal { EmitChecked(e, item, allowReuse); }
    case CompleteStream => if !e.terminal { EndChecked(e, call, allowReuse); }
    case StopStream(_) => if !e.terminal { EndChecked(e, call, allowReuse); }
  }

  lemma EndChecked(e: Producer, call: Call, allowReuse: bool)
    requires Checked(e, allowReuse) && !e.terminal && e.Sound() && (call.CompleteStream? || call.StopStream?)
    ensures Checked(e.Do(call), allowReuse)
  {
    hide Checked, Producer.MarkOpenIncomplete, Producer.EnsureStarted;
    DoSound(e, call);
    var m := if call.StopStream? then e.MarkOpenIncomplete() else e;
    if call.StopStream? { MarkChecked(e, allowReuse); }
    StartChecked(m, allowReuse);
    CloseOpenChecked(m.EnsureStarted(), allowReuse);
    var c := m.EnsureStarted().CloseOpen();
    hide Producer.CloseOpen;
    FinishChecked(c, e.Do(call), if call.StopStream? then Stopped else Finished,
                  if call.StopStream? then c.resp.MarkIncomplete(call.reason) else c.resp.Complete(), allowReuse);
  }

  lemma EmitChecked(e: Producer, item: Item, allowReuse: bool)
    requires Checked(e, allowReuse) && !e.terminal && !item.NilItem?
    ensures Checked(e.Do(EmitItem(item)), allowReuse)
  {
    var o := e.OpenItem(item);
    var ev := ItemDone(|e.resp.output|, FinalForm(item));
    OpenItemChecked(e, item, allowReuse);
    EmitShape(e, item);
    hide Producer.OpenItem, Producer.Sound, Producer.Do, Producer.Live, FinalForm, Checked;
    var v := V.Run(V.Start(allowReuse), 0, o.sent).value;
    assert v.Step(|o.sent|, ev) == Some(v.(open := None));
    hide V.Checker.Step;
    V.RunAppend(V.Start(allowReuse), 0, o.sent, [ev]);
    V.RunOne(v, |o.sent|, ev);
    EmittedTracks(v, o, e.Do(EmitItem(item)), item);
    assert V.Run(V.Start(allowReuse), 0, e.Do(EmitItem(item)).sent) == Some(v.(open := None));
    CheckedBy(e.Do(EmitItem(item)), v.(open := None), allowReuse);
  }

  lemma CheckedBy(e: Producer, v: V.Checker, allowReuse: bool)
    requires V.Run(V.Start(allowReuse), 0, e.sent) == Some(v) && Tracks(v, e)
    ensures Checked(e, allowReuse)
  {
  }

  lemma EmittedTracks(v: V.Checker, o: Producer, d: Producer, item: Item)
    requires d.Sound() && !d.terminal && d.Live().None? && !v.errorSeen && !v.terminal
    requires v.indexes == |v.items| == |o.resp.output| > 0 && o.resp.output[|o.resp.output| - 1] == item
    requires forall p :: 0 <= p < |v.items| ==> v.items[p] == V.StateOf(p, o.resp.output[p])
    requires d.resp.output == o.resp.output[|o.resp.output| - 1 := FinalForm(item)] && SameItem(FinalForm(item), item)
    ensures Tracks(v.(open := None), d)
  {
    hide FinalForm, Producer.Sound, Producer.Live;
  }

  // ---- Every run of calls ------------------------------------------------------------------------

  lemma {:induction false} RunChecked(e: Producer, calls: seq<Call>, allowReuse: bool)
    requires Checked(e, allowReuse) && AllowsAll(e, calls)
    ensures Checked(DoAll(e, calls), allowReuse)
    decreases |calls|
  {
    if calls != [] {
      DoChecked(e, calls[0], allowReuse);
      RunChecked(e.Do(calls[0]), calls[1..], allowReuse);
    }
  }

  predicate StartsCreated(e: Producer) { e.sent == [] || (e.sent[0].Snapshot? && e.sent[0].kind == Created) }

  /** The producer starts every stream with response.created. */
  lemma {:induction false} CreatedFirst(e: Producer, calls: seq<Call>)
    requires e.Sound() && AllowsAll(e, calls) && StartsCreated(e)
    ensures StartsCreated(DoAll(e, calls))
    decreases |calls|
  {
    if calls != [] {
      DoSound(e, calls[0]);
      SentGrows(e, calls[0]);
      CreatedFirst(e.Do(calls[0]), calls[1..]);
    }
  }

  /** A call only ever adds to what was sent, and created comes first. */
  lemma SentGrows(e: Producer, call: Call)
    requires e.Sound() && e.Allows(call)
    ensures e.sent <= e.Do(call).sent
    ensures e.sent == [] ==> StartsCreated(e.Do(call))
  {
    if call.Write? { assert e.WriterSound(call.handle); }
  }

  /** What a stream of a response starts with, if it has started: the same
      snapshot as created and as in progress, the response as it was given but
      for an unset status, which is in_progress, and the details set by then. */
  ghost predicate Opens(e: Producer, resp: Response) {
    var status := if resp.status.RUnset? then RInProgress else resp.status;
    if e.started then
      && |e.sent| >= 2 && e.sent[0].Snapshot? && e.sent[0].response.Some?
      && var first := e.sent[0].response.value;
      && first == resp.(status := status, details := first.details)
      && e.sent[0] == Snapshot(Created, Some(first)) && e.sent[1] == Snapshot(Started, Some(first))
    else e.resp == resp.(status := status, details := e.resp.details)
  }

  lemma DoOpens(e: Producer, call: Call, resp: Response)
    requires e.Sound() && e.Allows(call) && Opens(e, resp)
    ensures Opens(e.Do(call), resp)
  {
    if e.started {
      SentGrows(e, call);
      StaysStarted(e, call);
      var d := e.Do(call);
      assert e.sent[0] == d.sent[0] && e.sent[1] == d.sent[1];
    } else {
      hide Opens;
      Opening(e, call, resp);
    }
  }

  lemma StaysStarted(e: Producer, call: Call)
    requires e.Sound() && e.Allows(call) && e.started
    ensures e.Do(call).started
  {
    if call.Write? { assert e.WriterSound(call.handle); }
  }

  /** The first call of all, unless it only sets details, starts the stream. */
  lemma Opening(e: Producer, call: Call, resp: Response)
    requires e.Sound() && e.Allows(call) && Opens(e, resp) && !e.started
    ensures Opens(e.Do(call), resp)
  {
    var s := e.EnsureStarted();
    assert s.sent == [Snapshot(Created, Some(e.resp)), Snapshot(Started, Some(e.resp))];
    assert e.open.None? && e.MarkOpenIncomplete() == e;
  }

  /** Every stream starts with response.created and response.in_progress of the
      response the emitter was given. */
  lemma {:induction false} FirstSnapshots(e: Producer, calls: seq<Call>, resp: Response)
    requires e.Sound() && AllowsAll(e, calls) && Opens(e, resp)
    ensures Opens(DoAll(e, calls), resp)
    decreases |calls|
  {
    hide Opens, Producer.Do, Producer.Sound;
    if calls != [] {
      DoSound(e, calls[0]);
      DoOpens(e, calls[0], resp);
      FirstSnapshots(e.Do(calls[0]), calls[1..], resp);
    }
  }

  /** And so does every run of a new emitter. */
  lemma RunsOpen(resp: Response, calls: seq<Call>)
    requires Fresh(resp) && (NewSound(resp); AllowsAll(NewProducer(resp), calls))
    ensures (NewSound(resp); Opens(DoAll(NewProducer(resp), calls), resp))
  {
    NewSound(resp);
    FirstSnapshots(NewProducer(resp), calls, resp);
  }

  /** Whatever finite sequence of calls an adapter makes on an emitter and on
      the writers it returned, every prefix of the recorded events passes the
      validator, and a stream the emitter has ended is valid. */
  lemma EveryRunConforms(resp: Response, calls: seq<Call>, allowReuse: bool)
    requires Fresh(resp) && (NewSound(resp); AllowsAll(NewProducer(resp), calls))
    ensures var e := (NewSound(resp); DoAll(NewProducer(resp), calls));
            && (forall k :: 0 <= k <= |e.sent| ==> V.Run(V.Start(allowReuse), 0, e.sent[..k]).Some?)
            && (e.terminal <==> V.Accepted(Numbered(e.sent), allowReuse))
  {
    NewSound(resp);
    var start := NewProducer(resp);
    RunChecked(start, calls, allowReuse);
    CreatedFirst(start, calls);
    CheckedConforms(DoAll(start, calls), allowReuse);
  }

  lemma CheckedConforms(e: Producer, allowReuse: bool)
    requires Checked(e, allowReuse) && (e.sent == [] || V.IsCreated(e.sent[0]))
    ensures forall k :: 0 <= k <= |e.sent| ==> V.Run(V.Start(allowReuse), 0, e.sent[..k]).Some?
    ensures e.terminal <==> V.Accepted(Numbered(e.sent), allowReuse)
  {
    forall k | 0 <= k <= |e.sent| ensures V.Run(V.Start(allowReuse), 0, e.sent[..k]).Some? {
      V.RunAppend(V.Start(allowReuse), 0, e.sent[..k], e.sent[k..]);
      assert e.sent[..k] + e.sent[k..] == e.sent;
    }
    assert V.Events(Numbered(e.sent)) == e.sent;
  }
}

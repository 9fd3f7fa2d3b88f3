/** The emitter and its writers as the objects an adapter drives: each call
    updates fields and sends events, and does what the producer's step says. */
module Emitter {
  import opened Types
  import opened Wrappers
  import S = EmitterSpec

  /** A sink that records what it is sent and never fails. */
  class RecordingSink {
    var events: seq<Event>

    constructor ()
      ensures events == []
    {
      events := [];
    }

    method Send(ev: Event)
      modifies this
      ensures events == old(events) + [ev]
    {
      events := events + [ev];
    }
  }

  datatype AnyWriter =
    | NoWriter
    | OfMessage(message: MessageWriter)
    | OfCall(call: FunctionCallWriter)
    | OfReasoning(reasoning: ReasoningWriter)
  {
    ghost function Object(): set<object> {
      match this
      case NoWriter => {}
      case OfMessage(w) => {w}
      case OfCall(w) => {w}
      case OfReasoning(w) => {w}
    }

    ghost function Handle(): nat {
      match this
      case NoWriter => 0
      case OfMessage(w) => w.handle
      case OfCall(w) => w.handle
      case OfReasoning(w) => w.handle
    }

    /** The writer belongs to the emitter, which knows its state. */
    ghost predicate Known(e: Emitter)
      reads e, Object()
    {
      match this
      case NoWriter => true
      case OfMessage(w) => w.e == e && w.Known()
      case OfCall(w) => w.e == e && w.Known()
      case OfReasoning(w) => w.e == e && w.Known()
    }
  }

  class Emitter {
    const sink: RecordingSink
    var started: bool
    var terminal: bool
    var resp: Response
    var open: AnyWriter
    // every writer ever returned, and its state, by handle
    ghost var returned: seq<AnyWriter>
    ghost var writers: seq<S.Writer>

    ghost function State(): S.Producer
      reads this, sink
    {
      S.Producer(started, terminal, resp, if open.NoWriter? then None else Some(open.Handle()), writers, sink.events)
    }

    ghost predicate Valid()
      reads this, sink, open.Object()
    {
      State().Sound() && open.Known(this) && |returned| == |writers|
    }

    constructor (sink: RecordingSink, resp: Response)
      requires S.Fresh(resp) && sink.events == []
      ensures Valid() && this.sink == sink && State() == S.NewProducer(resp)
    {
      this.sink := sink;
      this.resp := resp.(status := if resp.status.RUnset? then RInProgress else resp.status);
      started, terminal, open, returned, writers := false, false, NoWriter, [], [];
    }

    /** Send response.created and response.in_progress, once. */
    method Start()
      requires Valid()
      modifies this`started, sink
      ensures Valid() && State() == old(State()).Do(S.StartStream)
    {
      if started { return; }
      started := true;
      sink.Send(Snapshot(Created, Some(resp)));
      sink.Send(Snapshot(Started, Some(resp)));
    }

    /** Set the fields of the live response the lifecycle does not read. */
    method SetDetails(details: string)
      requires Valid()
      modifies this`resp
      ensures Valid() && State() == old(State()).Do(S.SetDetails(details))
    {
      S.DoSound(State(), S.SetDetails(details));
      resp := resp.(details := details);
    }

    /** Open an assistant message. */
    method Message(id: string, phase: string) returns (outcome: S.Outcome, w: MessageWriter?)
      requires Valid()
      modifies this, sink, open.Object()
      ensures Valid() && State() == old(State()).Do(S.OpenMessage(id, phase))
      ensures outcome == old(State()).OutcomeOf(S.OpenMessage(id, phase))
      ensures outcome.Ok? <==> w != null
      ensures w != null ==> fresh(w) && w.e == this && w.Known() && open == OfMessage(w)
      ensures returned == old(returned) + if outcome.Ok? then [open] else []
      ensures old(open).Known(this)
    {
      w := null;
      ghost var before := State();
      hide S.Producer.Sound, S.Producer.OpenItem;
      S.DoSound(before, S.OpenMessage(id, phase));
      var item := Types.Message(id, InProgress, "assistant", phase, []);
      var index;
      outcome, index := OpenItem(item);
      if !outcome.Ok? { return; }
      w := new MessageWriter(this, index, |writers|);
      returned, writers, open := returned + [OfMessage(w)], writers + [w.State()], OfMessage(w);
    }

    /** Open a function call. */
    method FunctionCall(id: string, callId: string, name: string) returns (outcome: S.Outcome, w: FunctionCallWriter?)
      requires Valid()
      modifies this, sink, open.Object()
      ensures Valid() && State() == old(State()).Do(S.OpenCall(id, callId, name))
      ensures outcome == old(State()).OutcomeOf(S.OpenCall(id, callId, name))
      ensures outcome.Ok? <==> w != null
      ensures w != null ==> fresh(w) && w.e == this && w.Known() && open == OfCall(w)
      ensures returned == old(returned) + if outcome.Ok? then [open] else []
      ensures old(open).Known(this)
    {
      w := null;
      ghost var before := State();
      hide S.Producer.Sound, S.Producer.OpenItem;
      S.DoSound(before, S.OpenCall(id, callId, name));
      var item := Types.FunctionCall(id, InProgress, callId, name, "");
      var index;
      outcome, index := OpenItem(item);
      if !outcome.Ok? { return; }
      w := new FunctionCallWriter(this, index, |writers|);
      returned, writers, open := returned + [OfCall(w)], writers + [w.State()], OfCall(w);
    }

    /** Open a reasoning item. */
    method Reasoning(id: string) returns (outcome: S.Outcome, w: ReasoningWriter?)
      requires Valid()
      modifies this, sink, open.Object()
      ensures Valid() && State() == old(State()).Do(S.OpenReasoning(id))
      ensures outcome == old(State()).OutcomeOf(S.OpenReasoning(id))
      ensures outcome.Ok? <==> w != null
      ensures w != null ==> fresh(w) && w.e == this && w.Known() && open == OfReasoning(w)
      ensures returned == old(returned) + if outcome.Ok? then [open] else []
      ensures old(open).Known(this)
    {
      w := null;
      ghost var before := State();
      hide S.Producer.Sound, S.Producer.OpenItem;
      S.DoSound(before, S.OpenReasoning(id));
      var item := Types.Reasoning(id, InProgress, [], [], "");
      var index;
      outcome, index := OpenItem(item);
      if !outcome.Ok? { return; }
      w := new ReasoningWriter(this, index, |writers|);
      returned, writers, open := returned + [OfReasoning(w)], writers + [w.State()], OfReasoning(w);
    }

    /** Emit a complete item with no deltas. */
    method Item(item: Item) returns (outcome: S.Outcome)
      requires Valid() && !item.NilItem?
      modifies this, sink, open.Object()
      ensures Valid() && State() == old(State()).Do(S.EmitItem(item))
      ensures outcome == old(State()).OutcomeOf(S.EmitItem(item))
      ensures returned == old(returned) && old(open).Known(this)
    {
      ghost var before := State();
      hide S.Producer.Sound;
      S.DoSound(before, S.EmitItem(item));
      var index;
      outcome, index := OpenItem(item);
      if !outcome.Ok? { return; }
      CloseItem(index);
    }

    /** Close any open item and send response.completed. */
    method Complete() returns (outcome: S.Outcome)
      requires Valid()
      modifies this, sink, open.Object()
      ensures Valid() && State() == old(State()).Do(S.CompleteStream)
      ensures outcome == old(State()).OutcomeOf(S.CompleteStream)
      ensures returned == old(returned) && old(open).Known(this)
    {
      ghost var before := State();
      hide S.Producer.Sound, S.Producer.EnsureStarted, S.Producer.CloseOpen, S.Producer.MarkOpenIncomplete;
      S.DoSound(before, S.CompleteStream);
      if terminal { return S.TerminalSent; }
      StartAndClose();
      resp := resp.Complete();
      terminal := true;
      sink.Send(Snapshot(Finished, Some(resp)));
      outcome := S.Ok;
    }

    /** Close any open item, marked incomplete, and send response.incomplete. */
    method Incomplete(reason: string) returns (outcome: S.Outcome)
      requires Valid()
      modifies this, sink, open.Object()
      ensures Valid() && State() == old(State()).Do(S.StopStream(reason))
      ensures outcome == old(State()).OutcomeOf(S.StopStream(reason))
      ensures returned == old(returned) && old(open).Known(this)
    {
      ghost var before := State();
      hide S.Producer.Sound, S.Producer.EnsureStarted, S.Producer.CloseOpen, S.Producer.MarkOpenIncomplete;
      S.DoSound(before, S.StopStream(reason));
      if terminal { NothingToMark(before); }
      MarkOpenIncomplete();
      if terminal { return S.TerminalSent; }
      StartAndClose();
      resp := resp.MarkIncomplete(reason);
      terminal := true;
      sink.Send(Snapshot(Stopped, Some(resp)));
      outcome := S.Ok;
    }

    /** What comes before a terminal event. */
    method StartAndClose()
      requires Valid()
      modifies this`started, this`open, this`resp, this`writers, sink, open.Object()
      ensures Valid() && State() == old(State()).EnsureStarted().CloseOpen() && open == NoWriter
      ensures old(open).Known(this)
    {
      hide S.Producer.Sound, S.Producer.CloseOpen;
      S.DoSound(State(), S.StartStream);
      Start();
      CloseOpen();
    }

    method MarkOpenIncomplete()
      requires Valid()
      modifies this`resp
      ensures Valid() && State() == old(State()).MarkOpenIncomplete()
    {
      ghost var before := State();
      if open.NoWriter? { return; }
      assert before.WriterSound(open.Handle());
      match open {
        case OfMessage(w) => w.MarkIncomplete();
        case OfCall(w) => w.MarkIncomplete();
        case OfReasoning(w) => w.MarkIncomplete();
      }
      assert State() == before.MarkOpenIncomplete();
    }

    /** Close the open item, append the new one and send output_item.added. */
    method OpenItem(item: Item) returns (outcome: S.Outcome, index: nat)
      requires Valid() && !item.NilItem?
      modifies this, sink, open.Object()
      ensures outcome == if old(terminal) then S.TerminalSent else S.Ok
      ensures outcome.Ok? ==>
                Valid() && State() == old(State()).OpenItem(item) && index == |old(resp).output| && open == NoWriter
      ensures !outcome.Ok? ==> Valid() && State() == old(State()) && open == old(open)
      ensures returned == old(returned)
      ensures old(open).Known(this)
    {
      ghost var before := State();
      index := 0;
      if terminal { return S.TerminalSent, 0; }
      Start();
      CloseOpen();
      index := |resp.output|;
      resp := resp.(output := resp.output + [item]);
      sink.Send(ItemAdded(index, item));
      S.OpenItemSound(before, item);
      outcome := S.Ok;
    }

    method CloseOpen()
      requires Valid()
      modifies this`open, this`resp, this`writers, sink, open.Object()
      ensures Valid() && State() == old(State()).CloseOpen() && open == NoWriter
      ensures old(open).Known(this)
    {
      if open.NoWriter? { return; }
      ghost var before, h := State(), open.Handle();
      assert before.WriterSound(h);
      var w := open;
      open := NoWriter;
      match w {
        case OfMessage(m) => m.Close();
        case OfCall(c) => c.Close();
        case OfReasoning(r) => r.Close();
      }
      assert State() == before.CloseOpen();
    }

    /** Send output_item.done, promoting an unset or running status. */
    method CloseItem(index: nat)
      requires index < |resp.output|
      modifies this`resp, sink
      ensures State() == old(State()).CloseDirect(index)
    {
      var item := resp.output[index];
      if StatusOf(item).Unset? || StatusOf(item).InProgress? {
        item := S.WithStatus(item, Completed);
      }
      resp := resp.(output := resp.output[index := item]);
      sink.Send(ItemDone(index, item));
    }
  }

  class MessageWriter {
    const e: Emitter
    const index: nat
    ghost const handle: nat
    // the open part is the last of the item's content
    var partOpen: bool
    var closed: bool

    ghost function State(): S.Writer
      reads this
    {
      S.MessageWriter(index, closed, partOpen)
    }

    ghost predicate Known()
      reads this, e
    {
      && handle < |e.writers| && e.writers[handle] == State()
      && handle < |e.returned| && e.returned[handle] == OfMessage(this)
    }

    /** The emitter returned this writer. */
    ghost predicate Registered()
      reads e
    {
      && handle < |e.writers| && e.writers[handle].index == index && index < |e.resp.output|
      && handle < |e.returned| && e.returned[handle] == OfMessage(this)
    }

    /** The writer's item is there to be written. */
    ghost predicate Ready()
      reads this, e
    {
      Known() && index < |e.resp.output| && e.resp.output[index].Message?
    }

    ghost predicate Fits()
      reads this, e
    {
      Ready() && S.Attached(e.resp.output[index], State())
    }

    constructor (e: Emitter, index: nat, ghost handle: nat)
      ensures this.e == e && this.index == index && this.handle == handle && !partOpen && !closed
    {
      this.e, this.index, this.handle := e, index, handle;
      partOpen, closed := false, false;
    }

    /** Take over the item as written. */
    method Put(item: Item)
      requires Registered()
      modifies e`resp, e`writers
      ensures Known() && index < |e.resp.output| && e.resp.output[index] == item
      ensures e.State() == old(e.State()).Apply(handle, S.Local(item, State(), [], S.Ok))
    {
      e.resp := e.resp.(output := e.resp.output[index := item]);
      e.writers := e.writers[handle := State()];
    }

    /** Take over the item as written and say what changed. */
    method PutAndSend(item: Item, ev: Event)
      requires Registered()
      modifies e`resp, e`writers, e.sink
      ensures Known() && index < |e.resp.output| && e.resp.output[index] == item
      ensures e.State() == old(e.State()).Apply(handle, S.Local(item, State(), [ev], S.Ok))
    {
      Put(item);
      e.sink.Send(ev);
    }

    method MarkIncomplete()
      requires Known() && index < |e.resp.output|
      modifies e`resp
      ensures Known() && e.State() == if closed then old(e.State()) else
                old(e.State()).(resp := old(e.resp).(output :=
                                                     old(e.resp).output[index :=
                                                         S.WithStatus(old(e.resp).output[index], Incomplete)]))
    {
      if closed { return; }
      e.resp := e.resp.(output := e.resp.output[index := S.WithStatus(e.resp.output[index], Incomplete)]);
    }

    method Text(delta: string) returns (outcome: S.Outcome)
      requires e.Valid() && Known()
      modifies this, e`resp, e`writers, e.sink
      ensures e.Valid() && Known()
      ensures e.State() == old(e.State()).Do(S.Write(handle, S.Text(delta)))
      ensures outcome == old(e.State()).OutcomeOf(S.Write(handle, S.Text(delta)))
    {
      ghost var before := e.State();
      assert before.WriterSound(handle);
      S.DoSound(before, S.Write(handle, S.Text(delta)));
      hide S.Producer.Sound, S.EnsurePart;
      if closed {
        ApplyNothing(before, handle, S.WriterClosed);
        return S.WriterClosed;
      }
      WriteText(delta);
      outcome := S.Ok;
    }

    method WriteText(delta: string)
      requires Fits() && !closed
      modifies this`partOpen, e`resp, e`writers, e.sink
      ensures Known()
      ensures e.State() == old(e.State()).Apply(handle, S.WriteText(old(e.resp.output[index]), old(State()), delta))
    {
      hide S.EnsurePart;
      S.EnsurePartFits(e.resp.output[index], State(), OutputText("", [], []));
      ghost var before, l := e.State(), S.TextPart(e.resp.output[index], State());
      TextPart();
      var m := e.resp.output[index];
      assert m == l.item;
      var part := Last(m.content);
      WritePart(OutputText(part.text + delta, part.annotations, part.logprobs),
                [TextDelta(m.id, index, |m.content| - 1, delta, [])]);
      ApplyTwice(before, handle, l, e.resp.output[index], State(),
                 [TextDelta(m.id, index, |m.content| - 1, delta, [])]);
    }

    method Annotation(a: Annotation) returns (outcome: S.Outcome)
      requires e.Valid() && Known() && !a.NilAnnotation?
      modifies this, e`resp, e`writers, e.sink
      ensures e.Valid() && Known()
      ensures e.State() == old(e.State()).Do(S.Write(handle, S.AddAnnotation(a)))
      ensures outcome == old(e.State()).OutcomeOf(S.Write(handle, S.AddAnnotation(a)))
    {
      ghost var before := e.State();
      assert before.WriterSound(handle);
      S.DoSound(before, S.Write(handle, S.AddAnnotation(a)));
      hide S.Producer.Sound, S.EnsurePart;
      if closed {
        ApplyNothing(before, handle, S.WriterClosed);
        return S.WriterClosed;
      }
      WriteAnnotation(a);
      outcome := S.Ok;
    }

    method WriteAnnotation(a: Annotation)
      requires Fits() && !closed
      modifies this`partOpen, e`resp, e`writers, e.sink
      ensures Known()
      ensures e.State() == old(e.State()).Apply(handle, S.WriteAnnotation(old(e.resp.output[index]), old(State()), a))
    {
      hide S.EnsurePart;
      S.EnsurePartFits(e.resp.output[index], State(), OutputText("", [], []));
      ghost var before, l := e.State(), S.TextPart(e.resp.output[index], State());
      TextPart();
      var m := e.resp.output[index];
      assert m == l.item;
      var part := Last(m.content);
      var ev := AnnotationAdded(m.id, index, |m.content| - 1, |part.annotations|, a);
      WritePart(OutputText(part.text, part.annotations + [a], part.logprobs), [ev]);
      ApplyTwice(before, handle, l, e.resp.output[index], State(), [ev]);
    }

    method Logprobs(logprobs: seq<Logprob>) returns (outcome: S.Outcome)
      requires e.Valid() && Known()
      modifies this, e`resp, e`writers, e.sink
      ensures e.Valid() && Known()
      ensures e.State() == old(e.State()).Do(S.Write(handle, S.AddLogprobs(logprobs)))
      ensures outcome == old(e.State()).OutcomeOf(S.Write(handle, S.AddLogprobs(logprobs)))
    {
      ghost var before := e.State();
      assert before.WriterSound(handle);
      S.DoSound(before, S.Write(handle, S.AddLogprobs(logprobs)));
      hide S.Producer.Sound, S.EnsurePart;
      if closed {
        ApplyNothing(before, handle, S.WriterClosed);
        return S.WriterClosed;
      }
      WriteLogprobs(logprobs);
      outcome := S.Ok;
    }

    method WriteLogprobs(logprobs: seq<Logprob>)
      requires Fits() && !closed
      modifies this`partOpen, e`resp, e`writers, e.sink
      ensures Known()
      ensures var l := S.WriteLogprobs(old(e.resp.output[index]), old(State()), logprobs);
              e.State() == old(e.State()).Apply(handle, l)
    {
      hide S.EnsurePart;
      ghost var before, l := e.State(), S.TextPart(e.resp.output[index], State());
      TextPart();
      var m := e.resp.output[index];
      var part := Last(m.content);
      WritePart(OutputText(part.text, part.annotations, part.logprobs + logprobs), []);
      ApplyTwice(before, handle, l, e.resp.output[index], State(), []);
      assert l.events + [] == l.events;
    }

    method Refusal(delta: string) returns (outcome: S.Outcome)
      requires e.Valid() && Known()
      modifies this, e`resp, e`writers, e.sink
      ensures e.Valid() && Known()
      ensures e.State() == old(e.State()).Do(S.Write(handle, S.Refuse(delta)))
      ensures outcome == old(e.State()).OutcomeOf(S.Write(handle, S.Refuse(delta)))
    {
      ghost var before := e.State();
      assert before.WriterSound(handle);
      S.DoSound(before, S.Write(handle, S.Refuse(delta)));
      hide S.Producer.Sound, S.EnsurePart;
      if closed {
        ApplyNothing(before, handle, S.WriterClosed);
        return S.WriterClosed;
      }
      WriteRefusal(delta);
      outcome := S.Ok;
    }

    method WriteRefusal(delta: string)
      requires Fits() && !closed
      modifies this`partOpen, e`resp, e`writers, e.sink
      ensures Known()
      ensures e.State() == old(e.State()).Apply(handle, S.WriteRefusal(old(e.resp.output[index]), old(State()), delta))
    {
      hide S.EnsurePart;
      S.EnsurePartFits(e.resp.output[index], State(), Types.Refusal(""));
      ghost var before, l := e.State(), S.EnsurePart(e.resp.output[index], State(), Types.Refusal(""));
      EnsurePart(Types.Refusal(""));
      var m := e.resp.output[index];
      assert m == l.item;
      var part := Last(m.content);
      var ev := RefusalDelta(m.id, index, |m.content| - 1, delta);
      WritePart(Types.Refusal(part.refusal + delta), [ev]);
      ApplyTwice(before, handle, l, e.resp.output[index], State(), [ev]);
    }

    /** Finish the open part and the message. */
    method Close()
      requires Known() && index < |e.resp.output| && (closed || Fits())
      modifies this, e`resp, e`writers, e.sink
      ensures Known() && e.State() == old(e.State()).Apply(handle, S.Close(old(e.resp.output[index]), old(State())))
    {
      ghost var before, item, w := e.State(), e.resp.output[index], State();
      if closed {
        ApplyNothing(before, handle, S.Ok);
        return;
      }
      CloseParts();
      e.CloseItem(index);
      ApplyTwice(before, handle, S.ClosePart(item, S.Shut(w)), e.resp.output[index], State(),
                 [ItemDone(index, e.resp.output[index])]);
    }

    /** Finish the open part of a writer that is closed from now on. */
    method CloseParts()
      requires Fits() && !closed
      modifies this, e`resp, e`writers, e.sink
      ensures Known() && closed && index < |e.resp.output|
      ensures var l := S.ClosePart(old(e.resp.output[index]), S.Shut(old(State())));
              State() == l.writer && e.resp.output[index] == l.item && e.State() == old(e.State()).Apply(handle, l)
    {
      ghost var before, item, w := e.State(), e.resp.output[index], State();
      closed := true;
      Put(e.resp.output[index]);
      ClosePart();
      ApplyTwice(before, handle, S.Local(item, S.Shut(w), [], S.Ok), e.resp.output[index], State(),
                 S.ClosePart(item, S.Shut(w)).events);
    }

    method TextPart()
      requires Fits()
      modifies this`partOpen, e`resp, e`writers, e.sink
      ensures Fits() && e.State() == old(e.State()).Apply(handle, S.TextPart(old(e.resp.output[index]), old(State())))
      ensures State() == S.TextPart(old(e.resp.output[index]), old(State())).writer
      ensures S.SameKind(Last(e.resp.output[index].content), OutputText("", [], []))
              && e.resp.output[index].content != []
    {
      EnsurePart(OutputText("", [], []));
    }

    /** Make the open part one of the wanted kind, closing another. */
    method EnsurePart(blank: Part)
      requires Fits() && (blank == OutputText("", [], []) || blank == Types.Refusal(""))
      modifies this`partOpen, e`resp, e`writers, e.sink
      ensures Fits() && e.State() == old(e.State()).Apply(handle,
                                                          S.EnsurePart(old(e.resp.output[index]), old(State()), blank))
      ensures State() == S.EnsurePart(old(e.resp.output[index]), old(State()), blank).writer
      ensures e.resp.output[index].content != [] && S.SameKind(Last(e.resp.output[index].content), blank)
    {
      ghost var before, item, w := e.State(), e.resp.output[index], State();
      S.EnsurePartFits(item, w, blank);
      if partOpen && S.SameKind(Last(e.resp.output[index].content), blank) {
        ApplyNothing(before, handle, S.Ok);
        return;
      }
      ClosePart();
      OpenPart(blank);
      ApplyTwice(before, handle, S.ClosePart(item, w), e.resp.output[index], State(),
                 [PartAdded(item.id, index, |item.content|, blank)]);
    }

    /** Replace the open part by its next state and say what changed. */
    method WritePart(part: Part, events: seq<Event>)
      requires Ready() && e.resp.output[index].content != [] && |events| <= 1
      modifies e`resp, e`writers, e.sink
      ensures Known()
      ensures var m := old(e.resp.output[index]);
              e.State() == old(e.State()).Apply(handle,
                                                S.Local(S.WithContent(m, S.ReplaceLast(m.content, part)), State(),
                                                        events, S.Ok))
    {
      var m := e.resp.output[index];
      var written := Types.Message(m.id, m.status, m.role, m.phase, m.content[|m.content| - 1 := part]);
      if |events| == 0 {
        Put(written);
      } else {
        assert events == [events[0]];
        PutAndSend(written, events[0]);
      }
    }

    method OpenPart(part: Part)
      requires Ready()
      modifies this`partOpen, e`resp, e`writers, e.sink
      ensures Ready() && e.State() == old(e.State()).Apply(handle,
                                                           S.OpenPart(old(e.resp.output[index]), old(State()), part))
      ensures State() == S.OpenPart(old(e.resp.output[index]), old(State()), part).writer
    {
      var m := e.resp.output[index];
      e.resp := e.resp.(output := e.resp.output[index :=
                                                Types.Message(m.id, m.status, m.role, m.phase, m.content + [part])]);
      partOpen := true;
      e.writers := e.writers[handle := State()];
      e.sink.Send(PartAdded(m.id, index, |m.content|, part));
    }

    method ClosePart()
      requires Fits()
      modifies this`partOpen, e`writers, e.sink
      ensures Ready() && e.State() == old(e.State()).Apply(handle, S.ClosePart(old(e.resp.output[index]), old(State())))
      ensures State() == S.ClosePart(old(e.resp.output[index]), old(State())).writer
    {
      if !partOpen {
        ApplyNothing(e.State(), handle, S.Ok);
        return;
      }
      var m := e.resp.output[index];
      var c := |m.content| - 1;
      var part := m.content[c];
      partOpen := false;
      e.writers := e.writers[handle := State()];
      if part.OutputText? {
        e.sink.Send(TextDone(m.id, index, c, part.text, if part.logprobs == [] then None else Some(part.logprobs)));
      } else {
        e.sink.Send(RefusalDone(m.id, index, c, part.refusal));
      }
      e.sink.Send(PartDone(m.id, index, c, part));
      assert e.resp.output[index := m] == e.resp.output;
    }
  }

  class FunctionCallWriter {
    const e: Emitter
    const index: nat
    ghost const handle: nat
    var closed: bool

    ghost function State(): S.Writer
      reads this
    {
      S.CallWriter(index, closed)
    }

    ghost predicate Known()
      reads this, e
    {
      && handle < |e.writers| && e.writers[handle] == State()
      && handle < |e.returned| && e.returned[handle] == OfCall(this)
    }

    /** The emitter returned this writer. */
    ghost predicate Registered()
      reads e
    {
      && handle < |e.writers| && e.writers[handle].index == index && index < |e.resp.output|
      && handle < |e.returned| && e.returned[handle] == OfCall(this)
    }

    /** The writer's item is there to be written. */
    ghost predicate Ready()
      reads this, e
    {
      Known() && index < |e.resp.output| && e.resp.output[index].FunctionCall?
    }

    ghost predicate Fits()
      reads this, e
    {
      Ready() && S.Attached(e.resp.output[index], State())
    }

    constructor (e: Emitter, index: nat, ghost handle: nat)
      ensures this.e == e && this.index == index && this.handle == handle && !closed
    {
      this.e, this.index, this.handle := e, index, handle;
      closed := false;
    }

    /** Take over the item as written. */
    method Put(item: Item)
      requires Registered()
      modifies e`resp, e`writers
      ensures Known() && index < |e.resp.output| && e.resp.output[index] == item
      ensures e.State() == old(e.State()).Apply(handle, S.Local(item, State(), [], S.Ok))
    {
      e.resp := e.resp.(output := e.resp.output[index := item]);
      e.writers := e.writers[handle := State()];
    }

    /** Take over the item as written and say what changed. */
    method PutAndSend(item: Item, ev: Event)
      requires Registered()
      modifies e`resp, e`writers, e.sink
      ensures Known() && index < |e.resp.output| && e.resp.output[index] == item
      ensures e.State() == old(e.State()).Apply(handle, S.Local(item, State(), [ev], S.Ok))
    {
      Put(item);
      e.sink.Send(ev);
    }

    method MarkIncomplete()
      requires Known() && index < |e.resp.output|
      modifies e`resp
      ensures Known() && e.State() == if closed then old(e.State()) else
                old(e.State()).(resp := old(e.resp).(output :=
                                                     old(e.resp).output[index :=
                                                         S.WithStatus(old(e.resp).output[index], Incomplete)]))
    {
      if closed { return; }
      e.resp := e.resp.(output := e.resp.output[index := S.WithStatus(e.resp.output[index], Incomplete)]);
    }

    method Arguments(delta: string) returns (outcome: S.Outcome)
      requires e.Valid() && Known()
      modifies this, e`resp, e`writers, e.sink
      ensures e.Valid() && Known()
      ensures e.State() == old(e.State()).Do(S.Write(handle, S.Arguments(delta)))
      ensures outcome == old(e.State()).OutcomeOf(S.Write(handle, S.Arguments(delta)))
    {
      ghost var before := e.State();
      assert before.WriterSound(handle);
      S.DoSound(before, S.Write(handle, S.Arguments(delta)));
      hide S.Producer.Sound;
      if closed {
        ApplyNothing(before, handle, S.WriterClosed);
        return S.WriterClosed;
      }
      var call := e.resp.output[index];
      PutAndSend(Types.FunctionCall(call.id, call.status, call.callId, call.name, call.arguments + delta),
                 ArgumentsDelta(call.id, index, delta));
      outcome := S.Ok;
    }

    /** Send function_call_arguments.done and output_item.done. */
    method Close()
      requires Known() && index < |e.resp.output| && (closed || Fits())
      modifies this, e`resp, e`writers, e.sink
      ensures Known() && e.State() == old(e.State()).Apply(handle, S.Close(old(e.resp.output[index]), old(State())))
    {
      ghost var before := e.State();
      if closed {
        ApplyNothing(before, handle, S.Ok);
        return;
      }
      var call := e.resp.output[index];
      closed := true;
      var ev := ArgumentsDone(call.id, index, call.arguments);
      PutAndSend(call, ev);
      e.CloseItem(index);
      ApplyTwice(before, handle, S.Local(call, State(), [ev], S.Ok), e.resp.output[index], State(),
                 [ItemDone(index, e.resp.output[index])]);
    }
  }

  class ReasoningWriter {
    const e: Emitter
    const index: nat
    ghost const handle: nat
    var summaryOpen: bool
    var textOpen: bool
    var textDone: bool
    var closed: bool

    ghost function State(): S.Writer
      reads this
    {
      S.ReasoningWriter(index, closed, summaryOpen, textOpen, textDone)
    }

    ghost predicate Known()
      reads this, e
    {
      && handle < |e.writers| && e.writers[handle] == State()
      && handle < |e.returned| && e.returned[handle] == OfReasoning(this)
    }

    /** The emitter returned this writer. */
    ghost predicate Registered()
      reads e
    {
      && handle < |e.writers| && e.writers[handle].index == index && index < |e.resp.output|
      && handle < |e.returned| && e.returned[handle] == OfReasoning(this)
    }

    /** The writer's item is there to be written. */
    ghost predicate Ready()
      reads this, e
    {
      Known() && index < |e.resp.output| && e.resp.output[index].Reasoning?
    }

    ghost predicate Fits()
      reads this, e
    {
      Ready() && S.Attached(e.resp.output[index], State())
    }

    constructor (e: Emitter, index: nat, ghost handle: nat)
      ensures this.e == e && this.index == index && this.handle == handle && !closed && !summaryOpen && !textOpen
              && !textDone
    {
      this.e, this.index, this.handle := e, index, handle;
      summaryOpen, textOpen, textDone, closed := false, false, false, false;
    }

    /** Take over the item as written. */
    method Put(item: Item)
      requires Registered()
      modifies e`resp, e`writers
      ensures Known() && index < |e.resp.output| && e.resp.output[index] == item
      ensures e.State() == old(e.State()).Apply(handle, S.Local(item, State(), [], S.Ok))
    {
      e.resp := e.resp.(output := e.resp.output[index := item]);
      e.writers := e.writers[handle := State()];
    }

    /** Take over the item as written and say what changed. */
    method PutAndSend(item: Item, ev: Event)
      requires Registered()
      modifies e`resp, e`writers, e.sink
      ensures Known() && index < |e.resp.output| && e.resp.output[index] == item
      ensures e.State() == old(e.State()).Apply(handle, S.Local(item, State(), [ev], S.Ok))
    {
      Put(item);
      e.sink.Send(ev);
    }

    method MarkIncomplete()
      requires Known() && index < |e.resp.output|
      modifies e`resp
      ensures Known() && e.State() == if closed then old(e.State()) else
                old(e.State()).(resp := old(e.resp).(output :=
                                                     old(e.resp).output[index :=
                                                         S.WithStatus(old(e.resp).output[index], Incomplete)]))
    {
      if closed { return; }
      e.resp := e.resp.(output := e.resp.output[index := S.WithStatus(e.resp.output[index], Incomplete)]);
    }

    method Summary(delta: string) returns (outcome: S.Outcome)
      requires e.Valid() && Known()
      modifies this, e`resp, e`writers, e.sink
      ensures e.Valid() && Known()
      ensures e.State() == old(e.State()).Do(S.Write(handle, S.Summarize(delta)))
      ensures outcome == old(e.State()).OutcomeOf(S.Write(handle, S.Summarize(delta)))
    {
      ghost var before := e.State();
      assert before.WriterSound(handle);
      S.DoSound(before, S.Write(handle, S.Summarize(delta)));
      hide S.Producer.Sound, S.OpenSummary, S.WriteSummary;
      if closed {
        ApplyNothing(before, handle, S.WriterClosed);
        return S.WriterClosed;
      }
      WriteSummary(delta);
      outcome := S.Ok;
    }

    method WriteSummary(delta: string)
      requires Fits() && !closed
      modifies this`summaryOpen, e`resp, e`writers, e.sink
      ensures Known()
      ensures e.State() == old(e.State()).Apply(handle, S.WriteSummary(old(e.resp.output[index]), old(State()), delta))
    {
      hide S.OpenSummary, S.WriteSummary;
      ghost var before, l := e.State(), S.OpenSummary(e.resp.output[index], State());
      SummaryWritten(e.resp.output[index], State(), delta);
      OpenSummary();
      ghost var r := e.resp.output[index];
      assert r == l.item;
      ExtendSummary(delta);
      ApplyTwice(before, handle, l, e.resp.output[index], State(), [SummaryDelta(r.id, index, |r.summary| - 1, delta)]);
    }

    /** Writing to the summary opens a part if need be and extends it. */
    static lemma SummaryWritten(item: Item, w: S.Writer, delta: string)
      requires w.ReasoningWriter? && !w.closed && S.Attached(item, w)
      ensures var l := S.OpenSummary(item, w);
              var r, s := l.item, |l.item.summary| - 1;
              && r.Reasoning? && s >= 0 && r.summary[s].SummaryText? && l.writer.index == w.index
              && S.WriteSummary(item, w, delta) ==
                   S.Local(Types.Reasoning(r.id, r.status, r.summary[s := SummaryText(r.summary[s].text + delta)],
                                           r.content, r.encrypted),
                           l.writer, l.events + [SummaryDelta(r.id, w.index, s, delta)], S.Ok)
    {
    }

    /** More text for the open summary part. */
    method ExtendSummary(delta: string)
      requires Fits() && summaryOpen
      modifies e`resp, e`writers, e.sink
      ensures Known() && index < |e.resp.output|
      ensures var r := old(e.resp.output[index]);
              var s := |r.summary| - 1;
              && e.resp.output[index] ==
                   Types.Reasoning(r.id, r.status, r.summary[s := SummaryText(r.summary[s].text + delta)], r.content,
                                   r.encrypted)
              && e.State() == old(e.State()).Apply(handle,
                                                   S.Local(e.resp.output[index], State(),
                                                           [SummaryDelta(r.id, index, s, delta)], S.Ok))
    {
      var r := e.resp.output[index];
      var s := |r.summary| - 1;
      PutAndSend(Types.Reasoning(r.id, r.status, r.summary[s := SummaryText(r.summary[s].text + delta)], r.content,
                                 r.encrypted),
                 SummaryDelta(r.id, index, s, delta));
    }

    method EndSummary() returns (outcome: S.Outcome)
      requires e.Valid() && Known()
      modifies this, e`resp, e`writers, e.sink
      ensures e.Valid() && Known()
      ensures e.State() == old(e.State()).Do(S.Write(handle, S.CloseSummary))
      ensures outcome == old(e.State()).OutcomeOf(S.Write(handle, S.CloseSummary))
    {
      ghost var before := e.State();
      assert before.WriterSound(handle);
      S.DoSound(before, S.Write(handle, S.CloseSummary));
      hide S.Producer.Sound;
      FinishSummary();
      outcome := S.Ok;
    }

    method Text(delta: string) returns (outcome: S.Outcome)
      requires e.Valid() && Known()
      modifies this, e`resp, e`writers, e.sink
      ensures e.Valid() && Known()
      ensures e.State() == old(e.State()).Do(S.Write(handle, S.Reason(delta)))
      ensures outcome == old(e.State()).OutcomeOf(S.Write(handle, S.Reason(delta)))
    {
      ghost var before := e.State();
      assert before.WriterSound(handle);
      S.DoSound(before, S.Write(handle, S.Reason(delta)));
      hide S.Producer.Sound;
      if closed {
        ApplyNothing(before, handle, S.WriterClosed);
        return S.WriterClosed;
      }
      if textDone {
        ApplyNothing(before, handle, S.TextFinished);
        return S.TextFinished;
      }
      var r := e.resp.output[index];
      var content := r.content;
      if !textOpen {
        textOpen := true;
        content := content + [ReasoningText("")];
      }
      var c := |content| - 1;
      content := content[c := ReasoningText(content[c].text + delta)];
      assert content == [content[c]];
      PutAndSend(Types.Reasoning(r.id, r.status, r.summary, content, r.encrypted),
                 ReasoningDelta(r.id, index, c, delta));
      outcome := S.Ok;
    }

    method EncryptedContent(payload: string) returns (outcome: S.Outcome)
      requires e.Valid() && Known() && !closed
      modifies this, e`resp, e`writers, e.sink
      ensures e.Valid() && Known()
      ensures e.State() == old(e.State()).Do(S.Write(handle, S.Encrypt(payload)))
      ensures outcome == old(e.State()).OutcomeOf(S.Write(handle, S.Encrypt(payload)))
    {
      ghost var before := e.State();
      assert before.WriterSound(handle);
      S.DoSound(before, S.Write(handle, S.Encrypt(payload)));
      hide S.Producer.Sound;
      var r := e.resp.output[index];
      Put(Types.Reasoning(r.id, r.status, r.summary, r.content, payload));
      outcome := S.Ok;
    }

    /** Finish the open summary part, the reasoning text and the item. */
    method Close()
      requires Known() && index < |e.resp.output| && (closed || Fits())
      modifies this, e`resp, e`writers, e.sink
      ensures Known() && e.State() == old(e.State()).Apply(handle, S.Close(old(e.resp.output[index]), old(State())))
    {
      hide S.Producer.Apply, S.CloseInside;
      ghost var before, item, w := e.State(), e.resp.output[index], State();
      if closed {
        ApplyNothing(before, handle, S.Ok);
        return;
      }
      ghost var l := S.CloseInside(item, S.Shut(w));
      ShutFirst(item, w);
      CloseParts();
      ghost var last, done := e.State(), ItemDone(index, S.FinalForm(item));
      assert last.writers[handle] == State() && last.ItemOf(handle) == item;
      ApplyClosing(last, handle);
      e.CloseItem(index);
      assert e.State() == last.Apply(handle, S.Local(S.FinalForm(item), State(), [done], S.Ok));
      ApplyTwice(before, handle, l, S.FinalForm(item), State(), [done]);
    }

    /** Closing a reasoning writer finishes what is open inside; that the writer
        is shut first makes no difference. */
    static lemma ShutFirst(item: Item, w: S.Writer)
      requires w.ReasoningWriter? && !w.closed && S.Attached(item, w)
      ensures var l := S.CloseInside(item, S.Shut(w));
              && l.item == item && l.writer.index == w.index && l.writer.closed
              && S.Close(item, w) == S.Local(S.FinalForm(item), l.writer,
                                             l.events + [ItemDone(w.index, S.FinalForm(item))], S.Ok)
    {
    }

    /** Finish the open summary part and the reasoning text. */
    method CloseParts()
      requires Fits() && !closed
      modifies this, e`resp, e`writers, e.sink
      ensures Known() && index < |e.resp.output| && e.resp.output[index] == old(e.resp.output[index]) && closed
      ensures var l := S.CloseInside(old(e.resp.output[index]), S.Shut(old(State())));
              State() == l.writer && e.State() == old(e.State()).Apply(handle, l)
    {
      hide S.Producer.Apply;
      ghost var before, item, w := e.State(), e.resp.output[index], State();
      closed := true;
      Put(e.resp.output[index]);
      FinishSummary();
      ghost var l := S.EndSummary(item, S.Shut(w));
      assert [] + l.events == l.events && l == S.Local(item, State(), l.events, S.Ok);
      ApplyTwice(before, handle, S.Local(item, S.Shut(w), [], S.Ok), item, State(), l.events);
      if textOpen && !textDone {
        textDone := true;
        var r := e.resp.output[index];
        var ev := ReasoningDone(r.id, index, |r.content| - 1, r.content[|r.content| - 1].text);
        PutAndSend(r, ev);
        ApplyTwice(before, handle, l, item, State(), [ev]);
      }
    }

    method OpenSummary()
      requires Fits()
      modifies this`summaryOpen, e`resp, e`writers, e.sink
      ensures Fits() && e.State() == old(e.State()).Apply(handle,
                                                          S.OpenSummary(old(e.resp.output[index]), old(State())))
      ensures State() == S.OpenSummary(old(e.resp.output[index]), old(State())).writer && summaryOpen
    {
      if summaryOpen {
        ApplyNothing(e.State(), handle, S.Ok);
        return;
      }
      var r := e.resp.output[index];
      summaryOpen := true;
      PutAndSend(Types.Reasoning(r.id, r.status, r.summary + [SummaryText("")], r.content, r.encrypted),
                 SummaryAdded(r.id, index, |r.summary|, SummaryText("")));
    }

    method FinishSummary()
      requires Known() && index < |e.resp.output| && (summaryOpen ==> Fits())
      modifies this`summaryOpen, e`writers, e.sink
      ensures Known() && e.State() == old(e.State()).Apply(handle,
                                                           S.EndSummary(old(e.resp.output[index]), old(State())))
      ensures State() == S.EndSummary(old(e.resp.output[index]), old(State())).writer
    {
      if !summaryOpen {
        ApplyNothing(e.State(), handle, S.Ok);
        return;
      }
      var r := e.resp.output[index];
      var s := |r.summary| - 1;
      summaryOpen := false;
      e.writers := e.writers[handle := State()];
      e.sink.Send(SummaryTextDone(r.id, index, s, r.summary[s].text));
      e.sink.Send(SummaryDone(r.id, index, s, r.summary[s]));
      assert e.resp.output[index := r] == e.resp.output;
    }
  }

  // ---- Taking steps together -------------------------------------------------------------

  lemma NothingToMark(e: S.Producer)
    requires e.Sound() && e.terminal
    ensures e.MarkOpenIncomplete() == e
  {
  }

  lemma ApplyNothing(e: S.Producer, h: nat, outcome: S.Outcome)
    requires h < |e.writers| && e.writers[h].index < |e.resp.output|
    ensures e.Apply(h, S.Same(e.ItemOf(h), e.writers[h], outcome)) == e
  {
    ApplyItself(e, h, []);
  }

  lemma ApplyItself(e: S.Producer, h: nat, events: seq<Event>)
    requires h < |e.writers| && e.writers[h].index < |e.resp.output|
    ensures forall outcome ::
              e.Apply(h, S.Local(e.ItemOf(h), e.writers[h], events, outcome)) == e.(sent := e.sent + events)
  {
    assert e.resp.output[e.writers[h].index := e.ItemOf(h)] == e.resp.output;
    assert e.writers[h := e.writers[h]] == e.writers;
  }

  lemma ApplyClosing(e: S.Producer, h: nat)
    requires h < |e.writers| && e.writers[h].index < |e.resp.output|
    ensures var item := S.FinalForm(e.ItemOf(h));
            forall o :: e.CloseDirect(e.writers[h].index)
                == e.Apply(h, S.Local(item, e.writers[h], [ItemDone(e.writers[h].index, item)], o))
  {
    assert e.writers[h := e.writers[h]] == e.writers;
  }

  /** Two pieces of one writer's work are one piece. */
  lemma ApplyTwice(e: S.Producer, h: nat, l: S.Local, item: Item, w: S.Writer, events: seq<Event>)
    requires h < |e.writers| && e.writers[h].index < |e.resp.output|
    requires l.writer.index == e.writers[h].index == w.index
    ensures forall o, p ::
              e.Apply(h, l).Apply(h, S.Local(item, w, events, o)) == e.Apply(h, S.Local(item, w, l.events + events, p))
  {
    var i := e.writers[h].index;
    assert e.resp.output[i := l.item][i := item] == e.resp.output[i := item];
    assert e.writers[h := l.writer][h := w] == e.writers[h := w];
    assert e.sent + l.events + events == e.sent + (l.events + events);
  }
}

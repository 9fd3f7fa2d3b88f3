/** Any run of calls made on the emitter object and on the writers it returned,
    stale ones included, does what the run of steps says. */
module EmitterRuns {
  import E = Emitter
  import P = ProducerConforms
  import S = EmitterSpec
  import Types
  import V = ValidatorSpec
  import opened Wrappers

  ghost function Objects(writers: seq<E.AnyWriter>): set<object> {
    set h, o | 0 <= h < |writers| && o in writers[h].Object() :: o
  }

  /** The writers are all the emitter ever returned, and it knows each of them. */
  ghost predicate Held(e: E.Emitter, writers: seq<E.AnyWriter>)
    reads e, Objects(writers)
  {
    && writers == e.returned && |writers| == |e.writers|
    && forall h :: 0 <= h < |writers| ==>
         !writers[h].NoWriter? && writers[h].Handle() == h && writers[h].Known(e)
  }

  // ---- Calls on a writer -------------------------------------------------------------------------

  method OnMessage(w: E.MessageWriter, call: S.WriterCall) returns (outcome: S.Outcome)
    requires w.e.Valid() && w.Known() && w.e.State().Allows(S.Write(w.handle, call))
    modifies w, w.e`resp, w.e`writers, w.e.sink
    ensures w.e.State() == old(w.e.State()).Do(S.Write(w.handle, call)) && w.Known()
    ensures outcome == old(w.e.State()).OutcomeOf(S.Write(w.handle, call))
  {
    assert w.e.State().WriterSound(w.handle);
    match call {
      case Text(delta) => outcome := w.Text(delta);
      case AddAnnotation(a) => outcome := w.Annotation(a);
      case AddLogprobs(logprobs) => outcome := w.Logprobs(logprobs);
      case Refuse(delta) => outcome := w.Refusal(delta);
      case CloseWriter =>
        w.Close();
        outcome := S.Ok;
    }
  }

  method OnCall(w: E.FunctionCallWriter, call: S.WriterCall) returns (outcome: S.Outcome)
    requires w.e.Valid() && w.Known() && w.e.State().Allows(S.Write(w.handle, call))
    modifies w, w.e`resp, w.e`writers, w.e.sink
    ensures w.e.State() == old(w.e.State()).Do(S.Write(w.handle, call)) && w.Known()
    ensures outcome == old(w.e.State()).OutcomeOf(S.Write(w.handle, call))
  {
    assert w.e.State().WriterSound(w.handle);
    match call {
      case Arguments(delta) => outcome := w.Arguments(delta);
      case CloseWriter =>
        w.Close();
        outcome := S.Ok;
    }
  }

  method OnReasoning(w: E.ReasoningWriter, call: S.WriterCall) returns (outcome: S.Outcome)
    requires w.e.Valid() && w.Known() && w.e.State().Allows(S.Write(w.handle, call))
    modifies w, w.e`resp, w.e`writers, w.e.sink
    ensures w.e.State() == old(w.e.State()).Do(S.Write(w.handle, call)) && w.Known()
    ensures outcome == old(w.e.State()).OutcomeOf(S.Write(w.handle, call))
  {
    assert w.e.State().WriterSound(w.handle);
    match call {
      case Summarize(delta) => outcome := w.Summary(delta);
      case CloseSummary => outcome := w.EndSummary();
      case Reason(delta) => outcome := w.Text(delta);
      case Encrypt(payload) => outcome := w.EncryptedContent(payload);
      case CloseWriter =>
        w.Close();
        outcome := S.Ok;
    }
  }

  method OnAny(e: E.Emitter, w: E.AnyWriter, call: S.WriterCall) returns (outcome: S.Outcome)
    requires e.Valid() && !w.NoWriter? && w.Known(e) && e.State().Allows(S.Write(w.Handle(), call))
    modifies e`resp, e`writers, e.sink, w.Object()
    ensures w.Known(e) && e.State() == old(e.State()).Do(S.Write(w.Handle(), call))
    ensures outcome == old(e.State()).OutcomeOf(S.Write(w.Handle(), call))
  {
    hide S.Producer.Do, S.Producer.Sound, S.Producer.OutcomeOf;
    match w {
      case OfMessage(m) => outcome := OnMessage(m, call);
      case OfCall(c) => outcome := OnCall(c, call);
      case OfReasoning(r) => outcome := OnReasoning(r, call);
    }
  }

  /** One call on any writer ever returned; the others stay as known. */
  method OnWriter(e: E.Emitter, writers: seq<E.AnyWriter>, h: nat, call: S.WriterCall) returns (outcome: S.Outcome)
    requires e.Valid() && Held(e, writers) && e.State().Allows(S.Write(h, call))
    modifies e`resp, e`writers, e.sink, writers[h].Object()
    ensures e.Valid() && Held(e, writers) && e.State() == old(e.State()).Do(S.Write(h, call))
    ensures outcome == old(e.State()).OutcomeOf(S.Write(h, call))
  {
    hide S.Producer.Do, S.Producer.Sound, S.Producer.OutcomeOf;
    S.DoSound(e.State(), S.Write(h, call));
    OpenIsHeld(e, writers);
    OthersStay(e.State(), h, call);
    outcome := OnAny(e, writers[h], call);
    forall k | 0 <= k < |writers| ensures writers[k].Known(e) {
      if k != h { assert writers[k].Handle() != writers[h].Handle(); }
    }
  }

  /** The writer the emitter will close next is one of those it returned. */
  lemma OpenIsHeld(e: E.Emitter, writers: seq<E.AnyWriter>)
    requires e.Valid() && Held(e, writers)
    ensures e.open.NoWriter? || (e.open.Handle() < |writers| && writers[e.open.Handle()] == e.open)
  {
  }

  lemma OthersStay(e: S.Producer, h: nat, call: S.WriterCall)
    requires e.Sound() && e.Allows(S.Write(h, call))
    ensures var d := e.Do(S.Write(h, call));
            |d.writers| == |e.writers| && forall k :: 0 <= k < |e.writers| && k != h ==> d.writers[k] == e.writers[k]
  {
  }

  // ---- Calls on the emitter ----------------------------------------------------------------------

  /** A call on the emitter touches no writer but the open one. */
  lemma OnlyOpenChanges(e: S.Producer, call: S.Call)
    requires e.Sound() && e.Allows(call) && !call.Write?
    ensures var d := e.Do(call);
            && |e.writers| <= |d.writers|
            && forall k :: 0 <= k < |e.writers| && e.open != Some(k) ==> d.writers[k] == e.writers[k]
  {
  }

  /** One call on the emitter; the writer it closes by itself stays known. */
  method OnEmitter(e: E.Emitter, writers: seq<E.AnyWriter>, call: S.Call)
    returns (outcome: S.Outcome, after: seq<E.AnyWriter>)
    requires e.Valid() && Held(e, writers) && e.State().Allows(call) && !call.Write?
    modifies e, e.sink, e.open.Object()
    ensures e.Valid() && Held(e, after) && e.State() == old(e.State()).Do(call)
    ensures outcome == old(e.State()).OutcomeOf(call)
    ensures writers <= after && fresh(Objects(after) - Objects(writers))
  {
    hide S.Producer.Do, S.Producer.Sound, S.Producer.OutcomeOf;
    OpenIsHeld(e, writers);
    OnlyOpenChanges(e.State(), call);
    outcome, after := Dispatch(e, call, writers);
    forall k | 0 <= k < |writers| ensures writers[k].Known(e) {
      if writers[k] != old(e.open) { assert writers[k].Handle() == k && old(e.State()).open != Some(k); }
    }
  }

  method Dispatch(e: E.Emitter, call: S.Call, writers: seq<E.AnyWriter>)
    returns (outcome: S.Outcome, after: seq<E.AnyWriter>)
    requires e.Valid() && e.State().Allows(call) && !call.Write? && writers == e.returned
    modifies e, e.sink, e.open.Object()
    ensures e.Valid() && e.State() == old(e.State()).Do(call) && outcome == old(e.State()).OutcomeOf(call)
    ensures old(e.open).Known(e) && after == e.returned
    ensures after == writers || (after == writers + [e.open] && !e.open.NoWriter? && e.open.Known(e)
                                 && fresh(e.open.Object()))
  {
    hide S.Producer.Sound;
    after := writers;
    match call {
      case StartStream =>
        e.Start();
        outcome := S.Ok;
      case SetDetails(details) =>
        e.SetDetails(details);
        outcome := S.Ok;
      case OpenMessage(id, phase) =>
        var o, w := e.Message(id, phase);
        outcome := o;
        if w != null { after := after + [E.OfMessage(w)]; }
      case OpenCall(id, callId, name) =>
        var o, w := e.FunctionCall(id, callId, name);
        outcome := o;
        if w != null { after := after + [E.OfCall(w)]; }
      case OpenReasoning(id) =>
        var o, w := e.Reasoning(id);
        outcome := o;
        if w != null { after := after + [E.OfReasoning(w)]; }
      case EmitItem(item) => outcome := e.Item(item);
      case CompleteStream => outcome := e.Complete();
      case StopStream(reason) => outcome := e.Incomplete(reason);
    }
  }

  // ---- Whole runs ----------------------------------------------------------------------------------

  /** One call, on the emitter or on any writer it ever returned. */
  method Make(e: E.Emitter, writers: seq<E.AnyWriter>, call: S.Call)
    returns (outcome: S.Outcome, after: seq<E.AnyWriter>)
    requires e.Valid() && Held(e, writers) && e.State().Allows(call)
    modifies e, e.sink, Objects(writers)
    ensures e.Valid() && Held(e, after) && e.State() == old(e.State()).Do(call)
    ensures outcome == old(e.State()).OutcomeOf(call)
    ensures writers <= after && fresh(Objects(after) - Objects(writers))
  {
    hide S.Producer.Do, S.Producer.Sound, S.Producer.OutcomeOf;
    OpenIsHeld(e, writers);
    after := writers;
    if call.Write? {
      outcome := OnWriter(e, writers, call.handle, call.call);
    } else {
      outcome, after := OnEmitter(e, writers, call);
    }
  }

  /** An adapter that makes the calls one after the other, on the emitter and on
      every writer it ever got.  The objects end as the steps on values do, each
      call with the outcome of its step. */
  method MakeAll(resp: Types.Response, calls: seq<S.Call>)
    returns (e: E.Emitter, writers: seq<E.AnyWriter>, outcomes: seq<S.Outcome>)
    requires S.Fresh(resp) && (S.NewSound(resp); S.AllowsAll(S.NewProducer(resp), calls))
    ensures e.Valid() && Held(e, writers)
    ensures (S.NewSound(resp); e.State() == S.DoAll(S.NewProducer(resp), calls))
    ensures (S.NewSound(resp); outcomes == OutcomesOf(S.NewProducer(resp), calls))
  {
    hide S.Producer.Do, S.Producer.Sound, S.Producer.OutcomeOf, S.Producer.Allows, Held, S.AllowsAll, S.DoAll,
        OutcomesOf;
    S.NewSound(resp);
    ghost var start := S.NewProducer(resp);
    assert calls[0..] == calls;
    var sink := new E.RecordingSink();
    e := new E.Emitter(sink, resp);
    writers, outcomes := [], [];
    NothingHeld(e);
    assert outcomes + OutcomesOf(start, calls) == OutcomesOf(start, calls);
    var i := 0;
    while i < |calls|
      invariant 0 <= i <= |calls| && fresh(e) && fresh(sink) && e.sink == sink && fresh(Objects(writers))
      invariant e.Valid() && Held(e, writers) && e.State().Sound() && S.AllowsAll(e.State(), calls[i..])
      invariant S.DoAll(e.State(), calls[i..]) == S.DoAll(start, calls)
      invariant outcomes + OutcomesOf(e.State(), calls[i..]) == OutcomesOf(start, calls)
    {
      RunsOn(e.State(), calls, i);
      var outcome;
      ghost var before, was := e.State(), outcomes;
      outcome, writers := Make(e, writers, calls[i]);
      outcomes := outcomes + [outcome];
      assert was + ([outcome] + OutcomesOf(e.State(), calls[i + 1..]))
          == outcomes + OutcomesOf(e.State(), calls[i + 1..]);
      i := i + 1;
    }
    NothingMore(e.State(), calls[i..]);
    assert outcomes + [] == outcomes;
  }

  lemma NothingHeld(e: E.Emitter)
    requires |e.returned| == |e.writers| == 0
    ensures Held(e, []) && Objects([]) == {}
  {
  }

  lemma RunsOn(e: S.Producer, calls: seq<S.Call>, i: nat)
    requires i < |calls| && e.Sound() && S.AllowsAll(e, calls[i..])
    ensures e.Allows(calls[i]) && e.Do(calls[i]).Sound() && S.AllowsAll(e.Do(calls[i]), calls[i + 1..])
    ensures S.DoAll(e, calls[i..]) == S.DoAll(e.Do(calls[i]), calls[i + 1..])
    ensures OutcomesOf(e, calls[i..]) == [e.OutcomeOf(calls[i])] + OutcomesOf(e.Do(calls[i]), calls[i + 1..])
  {
    hide S.Producer.Do, S.Producer.Sound, S.Producer.OutcomeOf, S.Producer.Allows;
    assert calls[i..][0] == calls[i] && calls[i..][1..] == calls[i + 1..];
    S.DoSound(e, calls[i]);
  }

  lemma NothingMore(e: S.Producer, calls: seq<S.Call>)
    requires e.Sound() && calls == [] && S.AllowsAll(e, calls)
    ensures S.DoAll(e, calls) == e && OutcomesOf(e, calls) == []
  {
  }

  /** So every prefix of what the objects sent passes the checker, and the whole
      is accepted exactly when the emitter has ended the stream. */
  method Drive(resp: Types.Response, calls: seq<S.Call>, allowReuse: bool)
    returns (e: E.Emitter, writers: seq<E.AnyWriter>, outcomes: seq<S.Outcome>)
    requires S.Fresh(resp) && (S.NewSound(resp); S.AllowsAll(S.NewProducer(resp), calls))
    ensures e.Valid() && Held(e, writers)
    ensures forall k :: 0 <= k <= |e.sink.events| ==> V.Run(V.Start(allowReuse), 0, e.sink.events[..k]).Some?
    ensures e.terminal <==> V.Accepted(Types.Numbered(e.sink.events), allowReuse)
  {
    hide V.Run, V.Accepted, S.Producer.Sound, S.DoAll;
    P.EveryRunConforms(resp, calls, allowReuse);
    e, writers, outcomes := MakeAll(resp, calls);
  }

  /** What each call of a run answers. */
  ghost function OutcomesOf(e: S.Producer, calls: seq<S.Call>): seq<S.Outcome>
    requires e.Sound() && S.AllowsAll(e, calls)
    decreases |calls|
  {
    if calls == [] then []
    else
      S.DoSound(e, calls[0]);
      [e.OutcomeOf(calls[0])] + OutcomesOf(e.Do(calls[0]), calls[1..])
  }
}

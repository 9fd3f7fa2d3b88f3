/** The Chat Completions decoder as the adapter runs it: the call being streamed
    is an object updated fragment by fragment, the emitter is driven in place. */
module ChatDecoder {
  import opened Wrappers
  import A = ChatCompletes
  import C = ChatConforms
  import D = ChatDecoderSpec
  import Emitter
  import S = EmitterSpec
  import Types
  import V = ValidatorSpec

  lemma SoundAt(e: S.Producer, h: nat)
    requires e.Sound() && h < |e.writers|
    ensures e.WriterSound(h)
  {
  }

  class CallState {
    const index: int
    var id: string
    var name: string
    var buffered: string
    var w: Emitter.FunctionCallWriter?

    constructor (index: int)
      ensures this.index == index && id == "" && name == "" && buffered == "" && w == null
    {
      this.index, id, name, buffered, w := index, "", "", "", null;
    }

    ghost function State(): D.CallState
      reads this
    {
      D.CallState(index, id, name, buffered, if w == null then None else Some(w.handle))
    }
  }

  class Decoder {
    const em: Emitter.Emitter
    const ids: D.Ids
    var msg: Emitter.MessageWriter?
    var reasoning: Emitter.ReasoningWriter?
    var call: CallState?

    ghost function State(): D.Decoder
      reads this, em, em.sink, call
    {
      D.Decoder(em.State(), if msg == null then None else Some(msg.handle),
                if reasoning == null then None else Some(reasoning.handle),
                if call == null then None else Some(call.State()))
    }

    ghost function CallWriter(): set<object>
      reads this, call
    {
      if call == null || call.w == null then {} else {call.w}
    }

    ghost predicate Valid()
      reads this, em, em.sink, em.open.Object(), msg, reasoning, call, CallWriter()
    {
      && em.Valid() && State().Valid()
      && (msg != null ==> msg.e == em && msg.Known())
      && (reasoning != null ==> reasoning.e == em && reasoning.Known())
      && (call != null && call.w != null ==> call.w.e == em && call.w.Known())
    }

    constructor (em: Emitter.Emitter, ids: D.Ids)
      requires em.Valid() && !em.terminal
      ensures Valid() && this.em == em && this.ids == ids && State() == D.Decoder(em.State(), None, None, None)
              && call == null
    {
      this.em, this.ids, msg, reasoning, call := em, ids, null, null, null;
    }

    /** The writer a decoder holds is the one the emitter has open. */
    lemma HeldIsOpen()
      requires Valid()
      ensures msg != null ==> em.open == Emitter.OfMessage(msg)
      ensures reasoning != null ==> em.open == Emitter.OfReasoning(reasoning)
      ensures call != null && call.w != null ==> em.open == Emitter.OfCall(call.w)
    {
      if msg != null { assert em.State().WriterSound(msg.handle); }
      if reasoning != null { assert em.State().WriterSound(reasoning.handle); }
      if call != null && call.w != null { assert em.State().WriterSound(call.w.handle); }
    }

    /** Open the writer of the call and write what was buffered.  The call state
        is dereferenced: without one that is a crash. */
    method OpenCall() returns (r: D.Outcome<()>)
      requires em.Valid() && !em.terminal && msg == null && reasoning == null && (call != null ==> call.w == null)
      modifies this, em, em.sink, em.open.Object(), call
      ensures em.open == old(em.open) || fresh(em.open.Object())
      ensures !r.Resumed? && (r.Done? <==> old(call) != null)
      ensures r.Crashed? ==> unchanged(this, em, em.sink)
      ensures r.Done? ==>
                Valid() && State() == old(State()).Named(ids, old(call.name)) && call == old(call) && call.w != null
      ensures r.Done? ==> fresh(call.w)
    {
      if call == null { return D.Crashed; }
      OpenNamed();
      r := D.Done(());
    }

    method OpenNamed()
      requires em.Valid() && !em.terminal && msg == null && reasoning == null && call != null && call.w == null
      modifies this, em, em.sink, em.open.Object(), call
      ensures em.open == old(em.open) || fresh(em.open.Object())
      ensures Valid() && State() == old(State()).Named(ids, old(call.name)) && call == old(call) && call.w != null
              && fresh(call.w)
    {
      hide S.Producer.Sound, S.Producer.Do, D.Decoder.Write;
      var c, n := call, |em.resp.output|;
      S.OpenKeeps(em.State());
      S.DoSound(em.State(), S.OpenCall(ids.item(n), if c.id != "" then c.id else ids.call(n), c.name));
      var w := Begin(ids.item(n), if c.id != "" then c.id else ids.call(n), c.name);
      c.w := w;
      var text := c.buffered;
      c.buffered := "";
      if |text| > 0 { Argue(w, text); }
    }

    method Begin(id: string, callId: string, name: string) returns (w: Emitter.FunctionCallWriter)
      requires em.Valid() && !em.terminal
      modifies em, em.sink, em.open.Object()
      ensures fresh(w) && w.e == em && w.Known() && em.open == Emitter.OfCall(w) && w.handle == |old(em.writers)|
              && !w.closed
      ensures em.Valid() && em.State() == old(em.State()).Do(S.OpenCall(id, callId, name)) && !em.terminal
    {
      S.OpenKeeps(em.State());
      var _, writer := em.FunctionCall(id, callId, name);
      w := writer;
    }

    /** More arguments for the open call. */
    method Argue(w: Emitter.FunctionCallWriter, text: string)
      requires Valid() && call != null && call.w == w
      modifies em, em.sink, w
      ensures em.open == old(em.open)
      ensures Valid() && State() == old(State()).Write(w.handle, S.Arguments(text))
    {
      ArgueWith(w, text);
    }

    /** More arguments for an open call, held or just dropped. */
    method ArgueWith(w: Emitter.FunctionCallWriter, text: string)
      requires em.Valid() && !em.terminal && w.e == em && w.Known() && !w.closed
      modifies em, em.sink, w
      ensures em.open == old(em.open)
      ensures em.Valid() && em.State() == old(em.State()).Do(S.Write(w.handle, S.Arguments(text))) && !em.terminal
      ensures w.Known() && !w.closed
    {
      S.WriteKeeps(em.State(), w.handle, S.Arguments(text));
      assert em.State().WriterSound(w.handle);
      var _ := w.Arguments(text);
    }

    /** Finish the arguments of the call being streamed; its writer is returned
        still open, or nothing when there is no call.  The call state is dropped
        first, so opening a call whose name never came crashes. */
    method EndCall() returns (r: D.Outcome<Emitter.FunctionCallWriter?>)
      requires Valid()
      modifies this, em, em.sink, em.open.Object(), call
      ensures em.open == old(em.open) || fresh(em.open.Object())
      ensures call == null && msg == old(msg) && reasoning == old(reasoning)
      ensures !r.Resumed? && (r.Crashed? <==> old(State()).EndCall(ids).Crashed?)
      ensures r.Done? ==> em.Valid() && !em.terminal && em.State() == old(State()).EndCall(ids).value.em
      ensures r.Done? && old(call) == null ==> r.value == null && State() == old(State()) && em.open == old(em.open)
      ensures r.Done? && old(call) != null ==>
                var w := r.value;
                && w != null && w == old(call.w) && w.e == em && w.Known() && !w.closed && em.open == Emitter.OfCall(w)
    {
      hide S.Producer.Do, S.Producer.Sound, D.Decoder.Named, D.Decoder.Shut;
      var c := call;
      if c == null { return D.Done(null); }
      HeldIsOpen();
      call := null;
      if c.w == null {
        var fate := OpenCall();
        return fate.PropagateFailure();
      }
      SoundAt(em.State(), c.w.handle);
      if em.resp.output[c.w.index].arguments == "" { ArgueWith(c.w, "{}"); }
      r := D.Done(c.w);
    }

    method CloseCall() returns (r: D.Outcome<()>)
      requires Valid() && call != null
      modifies this, em, em.sink, em.open.Object(), call
      ensures (em.open == old(em.open) || fresh(em.open.Object())) && (call == null || call == old(call))
      ensures old(State()).CloseCall(ids) == r.Carrying(State())
      ensures r.Done? ==> Valid() && msg == null && reasoning == null && call == null
    {
      hide D.Decoder.EndCall, S.Producer.Sound, S.Close;
      var w :- EndCall();
      S.WriteKeeps(em.State(), w.handle, S.CloseWriter);
      SoundAt(em.State(), w.handle);
      w.Close();
      r := D.Done(());
    }

    method CloseOpen() returns (r: D.Outcome<()>)
      requires Valid()
      modifies this, em, em.sink, em.open.Object(), call
      ensures (em.open == old(em.open) || fresh(em.open.Object())) && (call == null || call == old(call))
      ensures old(State()).CloseOpen(ids) == r.Carrying(State())
      ensures r.Done? ==> Valid() && msg == null && reasoning == null && call == null
    {
      if msg != null {
        CloseMessage();
      } else if reasoning != null {
        CloseReasoning();
      } else if call != null {
        r := CloseCall();
        return;
      }
      r := D.Done(());
    }

    method CloseMessage()
      requires Valid() && msg != null
      modifies this`msg, em, em.sink, em.open.Object()
      ensures em.open == old(em.open) || fresh(em.open.Object())
      ensures Valid() && State() == old(State()).Shut(old(msg.handle)) && msg == null && reasoning == null
              && call == null
    {
      HeldIsOpen();
      S.WriteKeeps(em.State(), msg.handle, S.CloseWriter);
      var m := msg;
      msg := null;
      assert em.State().WriterSound(m.handle);
      m.Close();
    }

    method CloseReasoning()
      requires Valid() && reasoning != null
      modifies this`reasoning, em, em.sink, em.open.Object()
      ensures em.open == old(em.open) || fresh(em.open.Object())
      ensures Valid() && State() == old(State()).Shut(old(reasoning.handle)) && msg == null && reasoning == null
              && call == null
    {
      HeldIsOpen();
      S.WriteKeeps(em.State(), reasoning.handle, S.CloseWriter);
      var r := reasoning;
      reasoning := null;
      assert em.State().WriterSound(r.handle);
      r.Close();
    }

    method OpenMessage() returns (r: D.Outcome<Emitter.MessageWriter>)
      requires Valid()
      modifies this, em, em.sink, em.open.Object(), call
      ensures (em.open == old(em.open) || fresh(em.open.Object())) && (call == null || call == old(call))
      ensures old(State()).OpenMessage(ids) == r.Carrying(State())
      ensures r.Done? ==> Valid() && r.value == msg
    {
      hide D.Decoder.CloseOpen, D.Decoder.NewMessage, D.Decoder.Valid;
      if msg != null { return D.Done(msg); }
      var _ :- CloseOpen();
      NewMessage();
      r := D.Done(msg);
    }

    method NewMessage()
      requires Valid() && msg == null && reasoning == null && call == null
      modifies this, em, em.sink, em.open.Object()
      ensures em.open == old(em.open) || fresh(em.open.Object())
      ensures Valid() && State() == old(State()).NewMessage(ids) && msg != null && call == null
    {
      hide S.Producer.CloseOpen, S.Producer.EnsureStarted;
      S.OpenKeeps(em.State());
      var _, w := em.Message(ids.item(|em.resp.output|), "final_answer");
      msg := w;
    }

    method OpenReasoning() returns (r: D.Outcome<Emitter.ReasoningWriter>)
      requires Valid()
      modifies this, em, em.sink, em.open.Object(), call
      ensures (em.open == old(em.open) || fresh(em.open.Object())) && (call == null || call == old(call))
      ensures old(State()).OpenReasoning(ids) == r.Carrying(State())
      ensures r.Done? ==> Valid() && r.value == reasoning
    {
      hide D.Decoder.CloseOpen, D.Decoder.NewReasoning, D.Decoder.Valid;
      if reasoning != null { return D.Done(reasoning); }
      var _ :- CloseOpen();
      NewReasoning();
      r := D.Done(reasoning);
    }

    method NewReasoning()
      requires Valid() && msg == null && reasoning == null && call == null
      modifies this, em, em.sink, em.open.Object()
      ensures em.open == old(em.open) || fresh(em.open.Object())
      ensures Valid() && State() == old(State()).NewReasoning(ids) && reasoning != null && call == null
    {
      hide S.Producer.CloseOpen, S.Producer.EnsureStarted;
      S.OpenKeeps(em.State());
      var _, w := em.Reasoning(ids.item(|em.resp.output|));
      reasoning := w;
    }

    /** Take in one tool-call fragment. */
    method ToolCall(f: D.Fragment) returns (r: D.Outcome<()>)
      requires Valid()
      modifies this, em, em.sink, em.open.Object(), call
      ensures (em.open == old(em.open) || fresh(em.open.Object())) && (call == null || call == old(call) || fresh(call))
      ensures old(State()).ToolCall(ids, f) == r.Carrying(State())
      ensures r.Done? ==> Valid()
    {
      hide D.Decoder.Turn, D.Decoder.Take, D.Decoder.Valid;
      var _ :- Turn(f.index);
      Take(f);
      r := D.Done(());
    }

    /** The call a fragment belongs to, begun anew for a later index. */
    method Turn(index: int) returns (r: D.Outcome<()>)
      requires Valid()
      modifies this, em, em.sink, em.open.Object(), call
      ensures (em.open == old(em.open) || fresh(em.open.Object())) && (call == null || call == old(call) || fresh(call))
      ensures old(State()).Turn(ids, index) == r.Carrying(State())
      ensures r.Done? ==> Valid() && call != null && call.index == index
    {
      hide S.Producer.Do, S.Producer.Sound, D.Decoder.CloseOpen;
      if call != null && index < call.index { return D.Resumed; }
      if call == null || index != call.index {
        var _ :- CloseOpen();
        call := new CallState(index);
      }
      r := D.Done(());
    }

    method Take(f: D.Fragment)
      requires Valid() && call != null && f.index == call.index
      modifies this, em, em.sink, em.open.Object(), call
      ensures em.open == old(em.open) || fresh(em.open.Object())
      ensures call == old(call) && Valid() && State() == old(State()).Take(ids, f)
    {
      var c := call;
      var id, name := if f.id != "" then f.id else c.id, c.name + f.name;
      if c.w == null {
        TakeFirst(id, name, f.arguments);
      } else {
        TakeMore(id, name, f.arguments);
      }
    }

    /** Buffer arguments and, once the name is known, open the call. */
    method TakeFirst(id: string, name: string, arguments: string)
      requires Valid() && call != null && call.w == null
      modifies this, em, em.sink, em.open.Object(), call
      ensures em.open == old(em.open) || fresh(em.open.Object())
      ensures call == old(call) && Valid()
      ensures var c := old(call.State());
              var d := old(State()).(call := Some(D.CallState(c.index, id, name, c.buffered + arguments, None)));
              State() == if name == "" then d else d.Named(ids, name)
    {
      hide S.Producer.Do, S.Producer.Sound, D.Decoder.Named;
      call.id, call.name, call.buffered := id, name, call.buffered + arguments;
      if name != "" { var _ := OpenCall(); }
    }

    /** Pass arguments on to the open call. */
    method TakeMore(id: string, name: string, arguments: string)
      requires Valid() && call != null && call.w != null
      modifies this, em, em.sink, em.open.Object(), call
      ensures em.open == old(em.open) && call == old(call) && Valid()
      ensures var c := old(call.State());
              var d := old(State()).(call := Some(D.CallState(c.index, id, name, "", c.writer)));
              && d.Valid() && State() == if arguments == "" then d else d.Write(c.writer.value, S.Arguments(arguments))
    {
      hide S.Producer.Do, S.Producer.Sound;
      ghost var before := State();
      assert call.buffered == "";
      call.id, call.name := id, name;
      D.CallMayChange(before, call.State());
      if arguments != "" {
        HeldIsOpen();
        Argue(call.w, arguments);
      }
    }

    method Tell(write: S.WriterCall) returns (r: D.Outcome<()>)
      requires Valid() && (write.Text? || write.Refuse? || write.AddLogprobs? || write.AddAnnotation?)
      requires write.AddAnnotation? ==> !write.annotation.NilAnnotation?
      modifies this, em, em.sink, em.open.Object(), call
      ensures (em.open == old(em.open) || fresh(em.open.Object())) && (call == null || call == old(call) || fresh(call))
      ensures old(State()).Tell(ids, write) == r.Carrying(State())
      ensures r.Done? ==> Valid()
    {
      hide S.Producer.Do, S.Producer.Sound, D.Decoder.OpenMessage;
      var m :- OpenMessage();
      S.WriteKeeps(em.State(), m.handle, write);
      HeldIsOpen();
      match write {
        case Text(text) => var _ := m.Text(text);
        case Refuse(text) => var _ := m.Refusal(text);
        case AddLogprobs(logprobs) => var _ := m.Logprobs(logprobs);
        case AddAnnotation(a) => var _ := m.Annotation(a);
      }
      r := D.Done(());
    }

    method Reason(text: string) returns (r: D.Outcome<()>)
      requires Valid()
      modifies this, em, em.sink, em.open.Object(), call
      ensures (em.open == old(em.open) || fresh(em.open.Object())) && (call == null || call == old(call) || fresh(call))
      ensures old(State()).Reason(ids, text) == r.Carrying(State())
      ensures r.Done? ==> Valid()
    {
      hide S.Producer.Do, S.Producer.Sound, D.Decoder.OpenReasoning;
      var w :- OpenReasoning();
      S.WriteKeeps(em.State(), w.handle, S.Reason(text));
      HeldIsOpen();
      var _ := w.Text(text);
      r := D.Done(());
    }

    method Speak(dl: D.Delta) returns (r: D.Outcome<()>)
      requires Valid()
      modifies this, em, em.sink, em.open.Object(), call
      ensures (em.open == old(em.open) || fresh(em.open.Object())) && (call == null || call == old(call) || fresh(call))
      ensures old(State()).Speak(ids, dl) == r.Carrying(State())
      ensures r.Done? ==> Valid()
    {
      hide D.Decoder.Valid, D.Decoder.Tell, D.Decoder.Reason, Valid, State;
      if dl.reasoning != "" { var _ :- Reason(dl.reasoning); }
      if dl.content != "" { var _ :- Tell(S.Text(dl.content)); }
      if dl.refusal != "" { var _ :- Tell(S.Refuse(dl.refusal)); }
      r := D.Done(());
    }

    method ToolCalls(fragments: seq<D.Fragment>) returns (r: D.Outcome<()>)
      requires Valid()
      modifies this, em, em.sink, em.open.Object(), call
      ensures (em.open == old(em.open) || fresh(em.open.Object())) && (call == null || call == old(call) || fresh(call))
      ensures D.ToolCalls(ids, old(State()), fragments) == r.Carrying(State())
      ensures r.Done? ==> Valid()
    {
      ghost var start := State();
      assert start.Valid();
      hide D.Decoder.ToolCall, D.Decoder.Valid, Valid, State;
      for k := 0 to |fragments|
        invariant Valid() && D.ToolCalls(ids, start, fragments[..k]) == D.Done(State())
        invariant (em.open == old(em.open) || fresh(em.open.Object()))
                  && (call == null || call == old(call) || fresh(call))
      {
        Extends(fragments, k);
        r := ToolCall(fragments[k]);
        if !r.Done? {
          D.StaysFailed(ids, start, fragments, k + 1);
          return;
        }
      }
      assert fragments[..|fragments|] == fragments;
      r := D.Done(());
    }

    method Annotate(citations: seq<string>) returns (r: D.Outcome<()>)
      requires Valid()
      modifies this, em, em.sink, em.open.Object(), call
      ensures (em.open == old(em.open) || fresh(em.open.Object())) && (call == null || call == old(call) || fresh(call))
      ensures old(State()).Annotate(ids, citations) == r.Carrying(State())
      ensures r.Done? ==> Valid()
    {
      ghost var start := State();
      assert start.Valid();
      hide D.Decoder.Tell, D.Decoder.Valid, Valid, State;
      for k := 0 to |citations|
        invariant Valid() && start.Annotate(ids, citations[..k]) == D.Done(State())
        invariant (em.open == old(em.open) || fresh(em.open.Object()))
                  && (call == null || call == old(call) || fresh(call))
      {
        Extends(citations, k);
        r := Tell(S.AddAnnotation(Types.Annotation(citations[k])));
        if !r.Done? {
          D.CitationsStayFailed(ids, start, citations, k + 1);
          return;
        }
      }
      assert citations[..|citations|] == citations;
      r := D.Done(());
    }

    /** One delta of the first choice, with its token logprobs. */
    method Delta(dl: D.Delta) returns (r: D.Outcome<()>)
      requires Valid()
      modifies this, em, em.sink, em.open.Object(), call
      ensures (em.open == old(em.open) || fresh(em.open.Object())) && (call == null || call == old(call) || fresh(call))
      ensures old(State()).Delta(ids, dl) == r.Carrying(State())
      ensures r.Done? ==> Valid()
    {
      hide D.Decoder.Valid, D.Decoder.Speak, D.ToolCalls, D.Decoder.Annotate, D.Decoder.Tell, Valid, State;
      var _ :- Speak(dl);
      var _ :- ToolCalls(dl.toolCalls);
      var _ :- Annotate(dl.citations);
      if dl.logprobs != [] { var _ :- Tell(S.AddLogprobs(dl.logprobs)); }
      r := D.Done(());
    }

    /** The end of the stream, as the finish reason says. */
    method Finish(stop: Option<string>) returns (r: D.Outcome<()>)
      requires Valid()
      modifies this, em, em.sink, em.open.Object(), call
      ensures D.Finish(ids, old(State()), stop) == r.Carrying(em.State())
    {
      hide S.Producer.Do, S.Producer.Sound, D.Decoder.EndCall, S.Producer.OutcomeOf;
      var _ :- EndCall();
      if stop.None? {
        var _ := em.Complete();
      } else {
        var _ := em.Incomplete(stop.value);
      }
      r := D.Done(());
    }
  }

  /** Decode the deltas of one answer, up to one that is refused or crashes. */
  method DecodeDeltas(ids: D.Ids, resp: Types.Response, deltas: seq<D.Delta>) returns (d: Decoder, r: D.Outcome<()>)
    requires S.Fresh(resp)
    ensures fresh(d) && fresh(d.em) && fresh(d.em.sink) && fresh(d.em.open.Object())
            && (d.call != null ==> fresh(d.call))
    ensures d.ids == ids && D.Decode(ids, D.Begin(resp), deltas) == r.Carrying(d.State())
    ensures r.Done? ==> d.Valid()
  {
    hide S.Producer.Sound, D.Decoder.Delta;
    var sink := new Emitter.RecordingSink();
    var em := new Emitter.Emitter(sink, resp);
    d := new Decoder(em, ids);
    for k := 0 to |deltas|
      invariant d.em == em && em.sink == sink && d.ids == ids
      invariant fresh(d) && fresh(em) && fresh(sink) && fresh(em.open.Object()) && (d.call != null ==> fresh(d.call))
                && d.Valid()
      invariant D.Decode(ids, D.Begin(resp), deltas[..k]) == D.Done(d.State())
    {
      Extends(deltas, k);
      r := d.Delta(deltas[k]);
      if !r.Done? {
        D.StreamStaysFailed(ids, D.Begin(resp), deltas, k + 1);
        return;
      }
    }
    assert deltas[..|deltas|] == deltas;
    r := D.Done(());
  }

  /** One streamed answer up to its finish reason.  It ends exactly when between
      two texts no index falls and every call is named; what is sent is then a
      valid stream. */
  method DecodeStream(ids: D.Ids, resp: Types.Response, deltas: seq<D.Delta>, stop: Option<string>)
    returns (answer: D.Outcome<(seq<Types.Event>, seq<Types.Item>)>)
    requires S.Fresh(resp)
    ensures answer.Done? <==> A.Completes(A.Actions(deltas))
    ensures var e := D.Answer(ids, D.Begin(resp), deltas, stop);
            answer == if e.Done? then D.Done((e.value.sent, e.value.resp.output)) else e.PropagateFailure()
    ensures answer.Done? ==>
              V.Accepted(Types.Numbered(answer.value.0), false) && V.Accepted(Types.Numbered(answer.value.0), true)
  {
    hide D.Finish, D.Decode, V.Accepted, A.Actions, A.Completes;
    C.DecodedStreamAccepted(ids, resp, deltas, stop, false);
    C.DecodedStreamAccepted(ids, resp, deltas, stop, true);
    var d, decoded := DecodeDeltas(ids, resp, deltas);
    var _ :- decoded;
    var _ :- d.Finish(stop);
    answer := D.Done((d.em.sink.events, d.em.resp.output));
  }
}

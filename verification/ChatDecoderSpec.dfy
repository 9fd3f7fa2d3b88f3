/** Folding Chat Completions deltas into emitter calls.  The decoder is a value
    whose steps are producer steps, so whatever it decodes is a valid stream. */
module ChatDecoderSpec {
  import opened Wrappers
  import Types
  import P = ProducerConforms
  import S = EmitterSpec
  import V = ValidatorSpec

  /** One tool-call delta; an absent field is empty. */
  datatype Fragment = Fragment(index: int, id: string, name: string, arguments: string)

  datatype Delta = Delta(reasoning: string, content: string, refusal: string, toolCalls: seq<Fragment>,
                         citations: seq<string>, logprobs: seq<string>)

  /** The tool call being streamed.  Its writer opens once the name is known;
      until then the arguments are buffered. */
  datatype CallState = CallState(index: int, id: string, name: string, buffered: string, writer: Option<nat>)

  /** Ids for the items and for calls the provider gave none. */
  datatype Ids = Ids(item: nat -> string, call: nat -> string)

  /** How a step goes: a tool call that resumes after a later one started is
      refused, and a call that ends before its name arrived is a crash. */
  datatype Outcome<+T> = Done(value: T) | Resumed | Crashed
  {
    predicate IsFailure() { !Done? }

    function PropagateFailure<U>(): Outcome<U>
      requires IsFailure()
    {
      if Resumed? then Resumed else Crashed
    }

    function Extract(): T
      requires Done?
    {
      value
    }

    /** The same outcome with another value. */
    function Carrying<U>(other: U): Outcome<U> {
      if Done? then Done(other) else PropagateFailure()
    }
  }

  datatype Decoder = Decoder(em: S.Producer, msg: Option<nat>, reasoning: Option<nat>, call: Option<CallState>)
  {
    predicate Open(h: nat) { h < |em.writers| && !em.writers[h].closed }

    /** At most one item is being written. */
    ghost predicate Valid() {
      && em.Sound() && !em.terminal
      && !(msg.Some? && reasoning.Some?) && !(msg.Some? && call.Some?) && !(reasoning.Some? && call.Some?)
      && (msg.Some? ==> Open(msg.value) && em.writers[msg.value].MessageWriter?)
      && (reasoning.Some? ==> Open(reasoning.value) && em.writers[reasoning.value].ReasoningWriter?)
      && (call.Some? ==> CallFits(call.value))
    }

    ghost predicate CallFits(c: CallState) {
      if c.writer.None? then c.name == ""
      else Open(c.writer.value) && em.writers[c.writer.value].CallWriter? && c.buffered == ""
    }

    predicate Idle() { msg.None? && reasoning.None? && call.None? }

    function Write(h: nat, call: S.WriterCall): (d: Decoder)
      requires Valid() && Open(h) && S.WriterAllows(em.writers[h], call) && !call.CloseWriter?
      ensures d.Valid() && d.msg == msg && d.reasoning == reasoning && d.call == this.call
    {
      S.WriteKeeps(em, h, call);
      this.(em := em.Do(S.Write(h, call)))
    }

    /** Close one writer; nothing is being written then. */
    function Shut(h: nat): (d: Decoder)
      requires Valid() && Open(h)
      ensures d.Valid() && d.Idle()
    {
      S.WriteKeeps(em, h, S.CloseWriter);
      Decoder(em.Do(S.Write(h, S.CloseWriter)), None, None, None)
    }

    /** A call is being streamed whose name has not arrived. */
    predicate Nameless() { call.Some? && call.value.writer.None? }

    /** Open the writer of the call and write what was buffered for it.  The
        call state is read again; without one that is a crash. */
    function OpenCall(ids: Ids): (d: Outcome<Decoder>)
      requires Valid() && (call.Some? ==> Nameless())
      ensures d.Done? <==> call.Some?
      ensures d.Done? ==> d.value.Valid() && d.value.call.Some? && d.value.call.value.writer.Some?
      ensures !d.Resumed?
    {
      if call.None? then Crashed else Done(Named(ids, call.value.name))
    }

    function Named(ids: Ids, name: string): (d: Decoder)
      requires em.Sound() && !em.terminal && call.Some? && msg.None? && reasoning.None?
      ensures d.Valid() && d.call.Some? && d.call.value.writer.Some?
    {
      var c, n, h := call.value, |em.resp.output|, |em.writers|;
      var opening := S.OpenCall(ids.item(n), if c.id != "" then c.id else ids.call(n), name);
      S.OpenKeeps(em);
      S.DoSound(em, opening);
      var d := Decoder(em.Do(opening), None, None, Some(CallState(c.index, c.id, name, "", Some(h))));
      if c.buffered != "" then d.Write(h, S.Arguments(c.buffered)) else d
    }

    /** Finish the arguments of the call being streamed; its writer stays open.
        The call state is dropped before an unopened call is opened, so a call
        without a name crashes here. */
    function EndCall(ids: Ids): (d: Outcome<Decoder>)
      requires Valid()
      ensures d.Crashed? <==> Nameless()
      ensures d.Done? <==> !Nameless()
      ensures d.Done? ==> d.value.Valid() && (call.None? ==> d.value == this)
      ensures d.Done? ==> d.value.call == call
    {
      if call.None? then Done(this)
      else if call.value.writer.None? then this.(call := None).OpenCall(ids)
      else Done(Argued())
    }

    /** A call without arguments has the empty object. */
    function Argued(): (d: Decoder)
      requires Valid() && call.Some? && !Nameless()
      ensures d.Valid() && d.call == call
    {
      var h := call.value.writer.value;
      assert em.WriterSound(h);
      if em.ItemOf(h).arguments == "" then Write(h, S.Arguments("{}")) else this
    }

    function CloseCall(ids: Ids): (d: Outcome<Decoder>)
      requires Valid() && call.Some?
      ensures d.Crashed? <==> Nameless()
      ensures d.Done? <==> !Nameless()
      ensures d.Done? ==> d.value.Valid() && d.value.Idle()
    {
      var d :- EndCall(ids);
      Done(d.Shut(d.call.value.writer.value))
    }

    function CloseOpen(ids: Ids): (d: Outcome<Decoder>)
      requires Valid()
      ensures d.Crashed? <==> Nameless()
      ensures d.Done? <==> !Nameless()
      ensures d.Done? ==> d.value.Valid() && d.value.Idle()
    {
      if msg.Some? then Done(Shut(msg.value))
      else if reasoning.Some? then Done(Shut(reasoning.value))
      else if call.Some? then CloseCall(ids)
      else Done(this)
    }

    function OpenMessage(ids: Ids): (d: Outcome<Decoder>)
      requires Valid()
      ensures d.Crashed? <==> Nameless()
      ensures d.Done? <==> !Nameless()
      ensures d.Done? ==> d.value.Valid() && d.value.msg.Some?
    {
      if msg.Some? then Done(this)
      else
        var d :- CloseOpen(ids);
        Done(d.NewMessage(ids))
    }

    function NewMessage(ids: Ids): (d: Decoder)
      requires Valid() && Idle()
      ensures d.Valid() && d.msg.Some?
    {
      var opening := S.OpenMessage(ids.item(|em.resp.output|), "final_answer");
      S.OpenKeeps(em);
      S.DoSound(em, opening);
      Decoder(em.Do(opening), Some(|em.writers|), None, None)
    }

    function OpenReasoning(ids: Ids): (d: Outcome<Decoder>)
      requires Valid()
      ensures d.Crashed? <==> Nameless()
      ensures d.Done? <==> !Nameless()
      ensures d.Done? ==> d.value.Valid() && d.value.reasoning.Some?
    {
      if reasoning.Some? then Done(this)
      else
        var d :- CloseOpen(ids);
        Done(d.NewReasoning(ids))
    }

    function NewReasoning(ids: Ids): (d: Decoder)
      requires Valid() && Idle()
      ensures d.Valid() && d.reasoning.Some?
    {
      var opening := S.OpenReasoning(ids.item(|em.resp.output|));
      S.OpenKeeps(em);
      S.DoSound(em, opening);
      Decoder(em.Do(opening), None, Some(|em.writers|), None)
    }

    /** The call a fragment belongs to, begun anew for a later index; an earlier
        index is refused. */
    function Turn(ids: Ids, index: int): (d: Outcome<Decoder>)
      requires Valid()
      ensures d.Done? ==> d.value.Valid() && d.value.call.Some? && d.value.call.value.index == index
      ensures d.Resumed? <==> call.Some? && index < call.value.index
      ensures d.Crashed? <==> Nameless() && call.value.index < index
    {
      if call.Some? && index == call.value.index then Done(this)
      else if call.Some? && index < call.value.index then Resumed
      else
        var d :- CloseOpen(ids);
        Done(d.(call := Some(CallState(index, "", "", "", None))))
    }

    /** Take in one fragment for the call being streamed. */
    function Take(ids: Ids, f: Fragment): (d: Decoder)
      requires Valid() && call.Some? && f.index == call.value.index
      ensures d.Valid() && d.call.Some? && d.call.value.index == f.index
    {
      var c := call.value;
      var id, name := if f.id != "" then f.id else c.id, c.name + f.name;
      if c.writer.None? then
        var e := this.(call := Some(CallState(c.index, id, name, c.buffered + f.arguments, None)));
        if name == "" then e else e.Named(ids, name)
      else
        var e := this.(call := Some(CallState(c.index, id, name, "", c.writer)));
        if f.arguments != "" then e.Write(c.writer.value, S.Arguments(f.arguments)) else e
    }

    function ToolCall(ids: Ids, f: Fragment): (d: Outcome<Decoder>)
      requires Valid()
      ensures d.Done? ==> d.value.Valid() && d.value.call.Some? && d.value.call.value.index == f.index
      ensures d.Resumed? <==> call.Some? && f.index < call.value.index
      ensures d.Crashed? <==> Nameless() && call.value.index < f.index
    {
      var t :- Turn(ids, f.index);
      Done(t.Take(ids, f))
    }

    function Annotate(ids: Ids, citations: seq<string>): (d: Outcome<Decoder>)
      requires Valid()
      ensures d.Done? ==> d.value.Valid()
    {
      if citations == [] then Done(this)
      else
        var d :- Annotate(ids, Front(citations));
        d.Tell(ids, S.AddAnnotation(Types.Annotation(Last(citations))))
    }

    /** Text of one of the three kinds, ahead of the tool calls. */
    function Speak(ids: Ids, dl: Delta): (d: Outcome<Decoder>)
      requires Valid()
      ensures d.Done? ==> d.value.Valid()
    {
      var r :- if dl.reasoning != "" then Reason(ids, dl.reasoning) else Done(this);
      var t :- if dl.content != "" then r.Tell(ids, S.Text(dl.content)) else Done(r);
      if dl.refusal != "" then t.Tell(ids, S.Refuse(dl.refusal)) else Done(t)
    }

    function Reason(ids: Ids, text: string): (d: Outcome<Decoder>)
      requires Valid()
      ensures d.Crashed? <==> Nameless()
      ensures d.Done? <==> !Nameless()
      ensures d.Done? ==> d.value.Valid() && d.value.reasoning.Some?
    {
      var d :- OpenReasoning(ids);
      Done(d.Write(d.reasoning.value, S.Reason(text)))
    }

    function Tell(ids: Ids, call: S.WriterCall): (d: Outcome<Decoder>)
      requires Valid() && (call.Text? || call.Refuse? || call.AddLogprobs? || call.AddAnnotation?)
      requires call.AddAnnotation? ==> !call.annotation.NilAnnotation?
      ensures d.Crashed? <==> Nameless()
      ensures d.Done? <==> !Nameless()
      ensures d.Done? ==> d.value.Valid() && d.value.msg.Some?
    {
      var d :- OpenMessage(ids);
      Done(d.Write(d.msg.value, call))
    }

    /** One delta of the first choice, with its token logprobs. */
    function Delta(ids: Ids, dl: ChatDelta): (d: Outcome<Decoder>)
      requires Valid()
      ensures d.Done? ==> d.value.Valid()
    {
      var spoken :- Speak(ids, dl);
      var called :- ToolCalls(ids, spoken, dl.toolCalls);
      called.Note(ids, dl.citations, dl.logprobs)
    }

    function Note(ids: Ids, citations: seq<string>, logprobs: seq<string>): (d: Outcome<Decoder>)
      requires Valid()
      ensures d.Done? ==> d.value.Valid()
    {
      var noted :- Annotate(ids, citations);
      if logprobs != [] then noted.Tell(ids, S.AddLogprobs(logprobs)) else Done(noted)
    }
  }

  type ChatDelta = Delta

  function ToolCalls(ids: Ids, d: Decoder, fragments: seq<Fragment>): (r: Outcome<Decoder>)
    requires d.Valid()
    ensures r.Done? ==> r.value.Valid()
    decreases |fragments|
  {
    if fragments == [] then Done(d)
    else
      var before :- ToolCalls(ids, d, Front(fragments));
      before.ToolCall(ids, Last(fragments))
  }

  function Begin(resp: Types.Response): (d: Decoder)
    requires S.Fresh(resp)
    ensures d.Valid() && d.Idle()
  {
    S.NewSound(resp);
    Decoder(S.NewProducer(resp), None, None, None)
  }

  /** The deltas in order, up to one that is refused or crashes. */
  function Decode(ids: Ids, d: Decoder, deltas: seq<Delta>): (r: Outcome<Decoder>)
    requires d.Valid()
    ensures r.Done? ==> r.value.Valid()
  {
    if deltas == [] then Done(d)
    else
      var before :- Decode(ids, d, Front(deltas));
      before.Delta(ids, Last(deltas))
  }

  /** The end of the stream: a call still streaming is left to the emitter, so
      that an incomplete response marks it. */
  function Finish(ids: Ids, d: Decoder, stop: Option<string>): (e: Outcome<S.Producer>)
    requires d.Valid()
    ensures e.Crashed? <==> d.Nameless()
    ensures e.Done? <==> !d.Nameless()
    ensures e.Done? ==> e.value.Sound() && e.value.terminal
  {
    var ended :- d.EndCall(ids);
    var ending := if stop.None? then S.CompleteStream else S.StopStream(stop.value);
    S.DoSound(ended.em, ending);
    Done(ended.em.Do(ending))
  }

  /** A whole answer: the deltas and then the finish reason. */
  function Answer(ids: Ids, d: Decoder, deltas: seq<Delta>, stop: Option<string>): (e: Outcome<S.Producer>)
    requires d.Valid()
    ensures e.Done? ==> e.value.Sound() && e.value.terminal
  {
    var decoded :- Decode(ids, d, deltas);
    Finish(ids, decoded, stop)
  }

  /** A call's id and buffer may change, and its name once its writer is open. */
  lemma CallMayChange(d: Decoder, c: CallState)
    requires d.Valid() && d.call.Some? && c.writer == d.call.value.writer
    requires if c.writer.Some? then c.buffered == "" else c.name == ""
    ensures d.(call := Some(c)).Valid()
  {
  }

  // ---- Stopping at the first failure -------------------------------------------------------------

  lemma {:induction false} StaysFailed(ids: Ids, d: Decoder, fragments: seq<Fragment>, k: nat)
    requires d.Valid() && k <= |fragments| && !ToolCalls(ids, d, fragments[..k]).Done?
    ensures ToolCalls(ids, d, fragments) == ToolCalls(ids, d, fragments[..k])
    decreases |fragments| - k
  {
    if k == |fragments| {
      assert fragments[..k] == fragments;
    } else {
      Extends(fragments, k);
      StaysFailed(ids, d, fragments, k + 1);
    }
  }

  lemma {:induction false} StreamStaysFailed(ids: Ids, d: Decoder, deltas: seq<Delta>, k: nat)
    requires d.Valid() && k <= |deltas| && !Decode(ids, d, deltas[..k]).Done?
    ensures Decode(ids, d, deltas) == Decode(ids, d, deltas[..k])
    decreases |deltas| - k
  {
    if k == |deltas| {
      assert deltas[..k] == deltas;
    } else {
      Extends(deltas, k);
      StreamStaysFailed(ids, d, deltas, k + 1);
    }
  }

  lemma {:induction false} CitationsStayFailed(ids: Ids, d: Decoder, citations: seq<string>, k: nat)
    requires d.Valid() && k <= |citations| && !d.Annotate(ids, citations[..k]).Done?
    ensures d.Annotate(ids, citations) == d.Annotate(ids, citations[..k])
    decreases |citations| - k
  {
    if k == |citations| {
      assert citations[..k] == citations;
    } else {
      Extends(citations, k);
      CitationsStayFailed(ids, d, citations, k + 1);
    }
  }
}

/** The Gemini decoder as the adapter runs it, driving the emitter object. */
module GeminiDecoder {
  import opened Wrappers
  import opened GeminiTypes
  import opened RequestTypes
  import Types
  import Emitter
  import S = EmitterSpec
  import V = ValidatorSpec
  import C = GeminiConforms
  import D = GeminiDecoderSpec

  class Decoder {
    const em: Emitter.Emitter
    const world: D.World
    var msg: Emitter.MessageWriter?
    var reasoning: Emitter.ReasoningWriter?

    ghost function State(): D.Decoder
      reads this, em, em.sink
    {
      D.Decoder(em.State(), if msg == null then None else Some(msg.handle),
                if reasoning == null then None else Some(reasoning.handle))
    }

    ghost predicate Valid()
      reads this, em, em.sink, em.open.Object(), msg, reasoning
    {
      && em.Valid() && State().Valid()
      && (msg != null ==> msg.e == em && msg.Known())
      && (reasoning != null ==> reasoning.e == em && reasoning.Known())
    }

    constructor (em: Emitter.Emitter, world: D.World)
      requires em.Valid() && !em.terminal
      ensures Valid() && this.em == em && this.world == world && State() == D.Decoder(em.State(), None, None)
    {
      this.em, this.world, msg, reasoning := em, world, null, null;
    }

    /** The writer a decoder holds is the one the emitter has open. */
    lemma HeldIsOpen()
      requires Valid()
      ensures msg != null ==> em.open == Emitter.OfMessage(msg) && reasoning == null
      ensures reasoning != null ==> em.open == Emitter.OfReasoning(reasoning) && msg == null
    {
      if msg != null { assert em.State().WriterSound(msg.handle); }
      if reasoning != null { assert em.State().WriterSound(reasoning.handle); }
    }

    method CloseOpen()
      requires Valid()
      modifies this, em, em.sink, em.open.Object()
      ensures em.open == old(em.open) || fresh(em.open.Object())
      ensures Valid() && State() == old(State()).CloseOpen() && msg == null && reasoning == null
    {
      HeldIsOpen();
      if msg != null {
        S.WriteKeeps(em.State(), msg.handle, S.CloseWriter);
        var m := msg;
        msg := null;
        assert em.State().WriterSound(m.handle);
        m.Close();
      } else if reasoning != null {
        S.WriteKeeps(em.State(), reasoning.handle, S.CloseWriter);
        var r := reasoning;
        reasoning := null;
        assert em.State().WriterSound(r.handle);
        r.Close();
      }
    }

    method OpenMessage() returns (m: Emitter.MessageWriter)
      requires Valid()
      modifies this, em, em.sink, em.open.Object()
      ensures em.open == old(em.open) || fresh(em.open.Object())
      ensures Valid() && State() == old(State()).OpenMessage(world) && m == msg && State().msg == Some(m.handle)
    {
      hide D.Decoder.CloseOpen, D.Decoder.NewMessage, D.Decoder.Valid;
      if msg != null { return msg; }
      CloseOpen();
      NewMessage();
      m := msg;
    }

    method NewMessage()
      requires Valid() && msg == null && reasoning == null
      modifies this, em, em.sink, em.open.Object()
      ensures em.open == old(em.open) || fresh(em.open.Object())
      ensures Valid() && State() == old(State()).NewMessage(world) && msg != null
    {
      hide S.Producer.CloseOpen, S.Producer.EnsureStarted;
      S.OpenKeeps(em.State());
      var _, w := em.Message(world.itemId(|em.resp.output|), "final_answer");
      msg := w;
    }

    method OpenReasoning() returns (r: Emitter.ReasoningWriter)
      requires Valid()
      modifies this, em, em.sink, em.open.Object()
      ensures em.open == old(em.open) || fresh(em.open.Object())
      ensures Valid() && State() == old(State()).OpenReasoning(world) && r == reasoning
    {
      hide D.Decoder.CloseOpen, D.Decoder.NewReasoning, D.Decoder.Valid;
      if reasoning != null { return reasoning; }
      CloseOpen();
      NewReasoning();
      r := reasoning;
    }

    method NewReasoning()
      requires Valid() && msg == null && reasoning == null
      modifies this, em, em.sink, em.open.Object()
      ensures em.open == old(em.open) || fresh(em.open.Object())
      ensures Valid() && State() == old(State()).NewReasoning(world) && reasoning != null
    {
      hide S.Producer.CloseOpen, S.Producer.EnsureStarted;
      S.OpenKeeps(em.State());
      var _, w := em.Reasoning(world.itemId(|em.resp.output|));
      reasoning := w;
    }

    /** Route one part to the right writer. */
    method Part(p: Part)
      requires Valid()
      modifies this, em, em.sink, em.open.Object()
      ensures em.open == old(em.open) || fresh(em.open.Object())
      ensures Valid() && State() == old(State()).Part(world, p)
    {
      hide S.Producer.Do, S.Producer.Sound, D.Decoder.CloseOpen, D.Decoder.OpenMessage, D.Decoder.OpenReasoning,
          D.Decoder.Write,
           D.Decoder.Think, D.Decoder.Call, D.Decoder.Extend, D.Decoder.Detach, D.Decoder.Valid, Valid, State;
      Detach(p);
      if p.body.Call? {
        CloseOpen();
        Call(p.body.callId, p.body.name, p.body.arguments);
      } else if p.thought {
        Think(p);
      } else if p.body.Text? && p.body.text != "" {
        var m := OpenMessage();
        Say(m, p.body.text);
      } else if p.body.Other? {
        CloseOpen();
        Extension(p.body.kind, p);
      }
    }

    method Detach(p: Part)
      requires Valid()
      modifies this, em, em.sink, em.open.Object()
      ensures em.open == old(em.open) || fresh(em.open.Object())
      ensures Valid() && State() == old(State()).Detach(world, p)
    {
      hide S.Producer.Do, S.Producer.Sound, D.Decoder.CloseOpen, D.Decoder.OpenReasoning, D.Decoder.Write;
      if p.signature.Some? && !p.thought {
        var r := OpenReasoning();
        Encrypt(r, p.signature.value);
        CloseOpen();
      }
    }

    method Say(m: Emitter.MessageWriter, text: string)
      requires Valid() && m == msg
      modifies this, em, em.sink, em.open.Object()
      ensures em.open == old(em.open) || fresh(em.open.Object())
      ensures Valid() && State() == old(State()).Write(m.handle, S.Text(text)) && msg == m
    {
      S.WriteKeeps(em.State(), m.handle, S.Text(text));
      HeldIsOpen();
      var _ := m.Text(text);
    }

    method Summarize(r: Emitter.ReasoningWriter, text: string)
      requires Valid() && r == reasoning
      modifies this, em, em.sink, em.open.Object()
      ensures em.open == old(em.open) || fresh(em.open.Object())
      ensures Valid() && State() == old(State()).Write(r.handle, S.Summarize(text)) && reasoning == r
    {
      S.WriteKeeps(em.State(), r.handle, S.Summarize(text));
      HeldIsOpen();
      var _ := r.Summary(text);
    }

    method Encrypt(r: Emitter.ReasoningWriter, s: Signature)
      requires Valid() && r == reasoning
      modifies this, em, em.sink, em.open.Object()
      ensures em.open == old(em.open) || fresh(em.open.Object())
      ensures Valid() && State() == old(State()).Write(r.handle, S.Encrypt(s)) && reasoning == r
    {
      S.WriteKeeps(em.State(), r.handle, S.Encrypt(s));
      HeldIsOpen();
      var _ := r.EncryptedContent(s);
    }

    method Think(p: Part)
      requires Valid()
      modifies this, em, em.sink, em.open.Object()
      ensures em.open == old(em.open) || fresh(em.open.Object())
      ensures Valid() && State() == old(State()).Think(world, p)
    {
      hide S.Producer.Do, S.Producer.Sound, D.Decoder.OpenReasoning, D.Decoder.Write;
      var r := OpenReasoning();
      if p.Words() != "" {
        Summarize(r, p.Words());
      }
      if p.signature.Some? { Encrypt(r, p.signature.value); }
    }

    /** A call arrives whole: opened, written and closed in one step. */
    method Call(callId: string, name: string, arguments: Option<string>)
      requires Valid() && msg == null && reasoning == null
      modifies this, em, em.sink, em.open.Object()
      ensures em.open == old(em.open) || fresh(em.open.Object())
      ensures Valid() && State() == old(State()).Call(world, callId, name, arguments)
    {
      hide S.Producer.Do, S.Producer.Sound;
      var n := |em.resp.output|;
      S.OpenKeeps(em.State());
      S.DoSound(em.State(), S.OpenCall(world.itemId(n), if callId != "" then callId else world.callId(n), name));
      var w := Begin(world.itemId(n), if callId != "" then callId else world.callId(n), name);
      WriteCall(w, D.ArgumentsText(arguments));
      assert State() == old(State()).Call(world, callId, name, arguments);
    }

    method Begin(id: string, callId: string, name: string) returns (w: Emitter.FunctionCallWriter)
      requires em.Valid() && !em.terminal
      modifies em, em.sink, em.open.Object()
      ensures fresh(w) && w.e == em && w.Known() && em.open == Emitter.OfCall(w) && w.handle == |old(em.writers)|
              && !w.closed
      ensures em.Valid() && em.State() == old(em.State()).Do(S.OpenCall(id, callId, name)) && !em.terminal
    {
      S.OpenKeeps(em.State());
      var _, writer := em.FunctionCall(id, callId, name);
      w := writer;
    }

    method WriteCall(w: Emitter.FunctionCallWriter, text: string)
      requires em.Valid() && w.e == em && w.Known() && !w.closed && em.open == Emitter.OfCall(w)
      modifies em, em.sink, w
      ensures em.Valid() && em.open == old(em.open)
      ensures var e := old(em.State()).Do(S.Write(w.handle, S.Arguments(text)));
              && e.Sound() && e.Allows(S.Write(w.handle, S.CloseWriter))
              && em.State() == e.Do(S.Write(w.handle, S.CloseWriter))
    {
      hide S.WriteArguments, S.Close;
      S.WriteKeeps(em.State(), w.handle, S.Arguments(text));
      var _ := w.Arguments(text);
      S.WriteKeeps(em.State(), w.handle, S.CloseWriter);
      assert em.State().WriterSound(w.handle);
      w.Close();
    }

    /** Emit a part the specification has no item for. */
    method Extension(kind: string, p: Part)
      requires Valid() && msg == null && reasoning == null
      modifies this, em, em.sink, em.open.Object()
      ensures em.open == old(em.open) || fresh(em.open.Object())
      ensures Valid() && State() == old(State()).Extend(world, kind, p)
    {
      var id := world.itemId(|em.resp.output|);
      var item := Types.UnknownItem(Types.TypeOtherItem(D.SLUG + kind), id, Types.Completed, world.marshal(p));
      var _ := em.Item(item);
    }

    /** Token logprobs of the open message. */
    method Weigh(logprobs: Option<seq<string>>)
      requires Valid()
      modifies this, em, em.sink, em.open.Object()
      ensures em.open == old(em.open) || fresh(em.open.Object())
      ensures Valid() && State() == old(State()).Weigh(logprobs)
    {
      if logprobs.Some? && msg != null {
        S.WriteKeeps(em.State(), msg.handle, S.AddLogprobs(logprobs.value));
        HeldIsOpen();
        var _ := msg.Logprobs(logprobs.value);
      }
    }

    /** Citations become annotations of the open message, or of one opened here. */
    method Ground(grounding: Option<seq<string>>)
      requires Valid()
      modifies this, em, em.sink, em.open.Object()
      ensures em.open == old(em.open) || fresh(em.open.Object())
      ensures Valid() && State() == old(State()).Ground(world, grounding)
    {
      hide D.Decoder.OpenMessage, D.Decoder.Write, D.Decoder.Valid, S.Producer.Do;
      if grounding.None? { return; }
      var m := OpenMessage();
      ghost var opening := State();
      var citations := grounding.value;
      for k := 0 to |citations|
        invariant em.open == old(em.open) || fresh(em.open.Object())
        invariant Valid() && msg == m && opening.Valid() && opening.msg.Some? && State() == opening.Cite(citations[..k])
      {
        Extends(citations, k);
        Cite(m, citations[k]);
      }
      assert citations[..|citations|] == citations;
    }

    method Cite(m: Emitter.MessageWriter, citation: string)
      requires Valid() && m == msg
      modifies this, em, em.sink, em.open.Object()
      ensures em.open == old(em.open) || fresh(em.open.Object())
      ensures Valid() && State() == old(State()).Write(m.handle, S.AddAnnotation(Types.Annotation(citation)))
              && msg == m
    {
      S.WriteKeeps(em.State(), m.handle, S.AddAnnotation(Types.Annotation(citation)));
      HeldIsOpen();
      var _ := m.Annotation(Types.Annotation(citation));
    }

    /** One chunk: its parts, then logprobs and grounding. */
    method Chunk(c: D.Chunk)
      requires Valid()
      modifies this, em, em.sink, em.open.Object()
      ensures em.open == old(em.open) || fresh(em.open.Object())
      ensures Valid() && State() == old(State()).Take(world, c)
    {
      ghost var start := State();
      assert start.Valid();
      hide D.Decoder.Part, D.Decoder.Weigh, D.Decoder.Ground, D.Decoder.Valid, S.Producer.Do, S.Producer.Sound, Valid,
          State;
      for k := 0 to |c.parts|
        invariant em.open == old(em.open) || fresh(em.open.Object())
        invariant Valid() && State() == D.Decode(world, start, c.parts[..k])
      {
        Extends(c.parts, k);
        Part(c.parts[k]);
      }
      assert c.parts[..|c.parts|] == c.parts;
      Weigh(c.logprobs);
      Ground(c.grounding);
    }
  }

  method DecodeChunks(world: D.World, resp: Types.Response, chunks: seq<D.Chunk>) returns (em: Emitter.Emitter)
    requires S.Fresh(resp)
    ensures fresh(em) && fresh(em.sink) && fresh(em.open.Object())
    ensures em.Valid() && em.State() == D.DecodeChunks(world, D.Begin(resp), chunks).em
  {
    hide S.Producer.Do, S.Producer.Sound, D.Decoder.Take;
    var sink := new Emitter.RecordingSink();
    em := new Emitter.Emitter(sink, resp);
    var d := new Decoder(em, world);
    for k := 0 to |chunks|
      invariant d.em == em && em.sink == sink && d.world == world
      invariant fresh(d) && fresh(em) && fresh(sink) && fresh(em.open.Object()) && d.Valid()
      invariant d.State() == D.DecodeChunks(world, D.Begin(resp), chunks[..k])
    {
      Extends(chunks, k);
      d.Chunk(chunks[k]);
    }
    assert chunks[..|chunks|] == chunks;
  }

  /** One streamed answer: every chunk in order, then the end the finish reason
      asks for.  What is sent is a valid stream. */
  method DecodeStream(world: D.World, resp: Types.Response, chunks: seq<D.Chunk>, stop: Option<string>)
    returns (events: seq<Types.Event>, output: seq<Types.Item>)
    requires S.Fresh(resp)
    ensures var ending := if stop.None? then S.CompleteStream else S.StopStream(stop.value);
            var e := D.DecodeChunks(world, D.Begin(resp), chunks).em.Do(ending);
            && events == e.sent && output == e.resp.output
            && V.Accepted(Types.Numbered(events), false) && V.Accepted(Types.Numbered(events), true)
  {
    hide S.Producer.Do, S.Producer.Sound, D.DecodeChunks, V.Accepted, S.Producer.OutcomeOf;
    C.DecodedStreamAccepted(world, resp, chunks, stop, false);
    C.DecodedStreamAccepted(world, resp, chunks, stop, true);
    var em := DecodeChunks(world, resp, chunks);
    if stop.None? {
      var _ := em.Complete();
    } else {
      var _ := em.Incomplete(stop.value);
    }
    events, output := em.sink.events, em.resp.output;
  }
}

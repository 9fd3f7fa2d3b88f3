/** What a decoded Gemini answer says is what Gemini streamed: text, thoughts,
    arguments, citations and log probabilities, in order. */
module GeminiSays {
  import opened GeminiDecoderSpec
  import opened GeminiTypes
  import opened OutputSays
  import opened Saying
  import opened Wrappers
  import S = EmitterSpec
  import Types

  /** What one part says; thoughts are told as summaries. */
  function PartSays(ch: Channel, p: Part): seq<Token> {
    if p.body.Call? && ch.CallArguments?
    then ArgumentChars(if p.body.arguments.None? then "{}" else p.body.arguments.value)
    else if p.body.Call? then []
    else if p.thought then (if ch.SummaryWords? then Summaries(p.Words()) else [])
    else if p.body.Text? && ch.Words? then Texts(p.body.text)
    else []
  }

  function PartsSay(ch: Channel, parts: seq<Part>): seq<Token> {
    if parts == [] then [] else PartsSay(ch, Front(parts)) + PartSays(ch, Last(parts))
  }

  /** A message is open after a part when the part is a text, or is nothing and
      one was open: a thought, a call, another part and a signature end it. */
  predicate Talking(before: bool, p: Part) {
    if p.thought || p.body.Call? || p.body.Other? then false
    else if p.body.Text? && p.body.text != "" then true
    else before && p.signature.None?
  }

  predicate TalkingAfter(before: bool, parts: seq<Part>) {
    if parts == [] then before else Talking(TalkingAfter(before, Front(parts)), Last(parts))
  }

  /** A chunk's log probabilities are said when a message is open after its
      parts, its citations always. */
  function ChunkSays(ch: Channel, before: bool, c: Chunk): seq<Token> {
    PartsSay(ch, c.parts)
    + (if ch.Logprobs? && c.logprobs.Some? && TalkingAfter(before, c.parts) then Weights(c.logprobs.value) else [])
    + (if ch.Citations? && c.grounding.Some? then Cites(Annotations(c.grounding.value)) else [])
  }

  predicate TalkingThrough(chunks: seq<Chunk>) {
    chunks != [] && (TalkingAfter(TalkingThrough(Front(chunks)), Last(chunks).parts) || Last(chunks).grounding.Some?)
  }

  function ChunksSay(ch: Channel, chunks: seq<Chunk>): seq<Token> {
    if chunks == [] then []
    else ChunksSay(ch, Front(chunks)) + ChunkSays(ch, TalkingThrough(Front(chunks)), Last(chunks))
  }

  predicate OfPartKind(world: World, head: Types.Item, p: Part) {
    && head.UnknownItem? && p.body.Other?
    && head.otherType == Types.TypeOtherItem("gemini." + p.body.kind) && head.payload == world.marshal(p)
  }

  /** What the item at place p was announced as. */
  ghost predicate HeadFits(world: World, p: nat, head: Types.Item) {
    || head == Types.Message(world.itemId(p), Types.Unset, "assistant", "final_answer", [])
    || head == Types.Reasoning(world.itemId(p), Types.Unset, [], [], "")
    || (head.FunctionCall? && head.id == world.itemId(p) && (head.callId != "" || head.callId == world.callId(p)))
    || (head.UnknownItem? && head.id == world.itemId(p) && exists q :: OfPartKind(world, head, q))
  }

  ghost function Fit(world: World): Fits { (p: nat, head: Types.Item) => HeadFits(world, p, head) }

  ghost predicate Adds(ch: Channel, world: World, d: Decoder, e: Decoder, tokens: seq<Token>) {
    Says(ch, Fit(world), d.em, e.em, tokens)
  }

  // ---- Single steps -----------------------------------------------------------------------------------

  lemma WriteAdds(ch: Channel, world: World, d: Decoder, h: nat, call: S.WriterCall)
    requires d.Valid() && d.Open(h) && S.WriterAllows(d.em.writers[h], call) && !call.CloseWriter?
    ensures Adds(ch, world, d, d.Write(h, call), Writes(ch, call))
  {
    OpenWriteSays(ch, Fit(world), d.em, h, call);
  }

  lemma CloseAdds(ch: Channel, world: World, d: Decoder)
    requires d.Valid()
    ensures Adds(ch, world, d, d.CloseOpen(), [])
  {
    hide Says;
    SaysNothing(ch, Fit(world), d.em);
    if d.msg.Some? { OpenWriteSays(ch, Fit(world), d.em, d.msg.value, S.CloseWriter); }
    else if d.reasoning.Some? { OpenWriteSays(ch, Fit(world), d.em, d.reasoning.value, S.CloseWriter); }
  }

  lemma OpensAdd(ch: Channel, world: World, d: Decoder)
    requires d.Valid()
    ensures Adds(ch, world, d, d.OpenMessage(world), []) && Adds(ch, world, d, d.OpenReasoning(world), [])
  {
    hide Says, S.Producer.Do, Decoder.CloseOpen;
    SaysNothing(ch, Fit(world), d.em);
    CloseAdds(ch, world, d);
    var c := d.CloseOpen();
    var id := world.itemId(|c.em.resp.output|);
    OpeningSilent(ch, Fit(world), c.em, S.OpenMessage(id, "final_answer"),
                  Types.Message(id, Types.Unset, "assistant", "final_answer", []));
    OpeningSilent(ch, Fit(world), c.em, S.OpenReasoning(id), Types.Reasoning(id, Types.Unset, [], [], ""));
    SaysBoth(ch, Fit(world), d.em, c.em, [], c.NewMessage(world).em, []);
    SaysBoth(ch, Fit(world), d.em, c.em, [], c.NewReasoning(world).em, []);
  }

  lemma DetachAdds(ch: Channel, world: World, d: Decoder, p: Part)
    requires d.Valid()
    ensures Adds(ch, world, d, d.Detach(world, p), [])
    ensures d.Detach(world, p).msg.Some? <==> d.msg.Some? && (p.signature.None? || p.thought)
  {
    hide Says, Decoder.OpenReasoning, Decoder.CloseOpen, Decoder.Write;
    SaysNothing(ch, Fit(world), d.em);
    if p.signature.Some? && !p.thought {
      OpensAdd(ch, world, d);
      var r := d.OpenReasoning(world);
      var s := S.Encrypt(p.signature.value);
      assert Writes(ch, s) == [];
      WriteAdds(ch, world, r, r.reasoning.value, s);
      var w := r.Write(r.reasoning.value, s);
      CloseAdds(ch, world, w);
      SaysBoth(ch, Fit(world), d.em, r.em, [], w.em, []);
      SaysBoth(ch, Fit(world), d.em, w.em, [], w.CloseOpen().em, []);
    }
  }

  lemma ThinkAdds(ch: Channel, world: World, d: Decoder, p: Part)
    requires d.Valid()
    ensures Adds(ch, world, d, d.Think(world, p), Writes(ch, S.Summarize(p.Words()))) && d.Think(world, p).msg.None?
  {
    hide Says, Decoder.OpenReasoning, Decoder.Write;
    OpensAdd(ch, world, d);
    var r := d.OpenReasoning(world);
    var h := r.reasoning.value;
    var call := S.Summarize(p.Words());
    SaysNothing(ch, Fit(world), r.em);
    WriteAdds(ch, world, r, h, call);
    var said := if p.Words() != "" then r.Write(h, call) else r;
    assert p.Words() == "" ==> Writes(ch, call) == [];
    SaysBoth(ch, Fit(world), d.em, r.em, [], said.em, Writes(ch, call));
    if p.signature.Some? {
      var s := S.Encrypt(p.signature.value);
      assert Writes(ch, s) == [];
      WriteAdds(ch, world, said, said.reasoning.value, s);
      SaysBoth(ch, Fit(world), d.em, said.em, Writes(ch, call), said.Write(said.reasoning.value, s).em, []);
    }
  }

  lemma CallAdds(ch: Channel, world: World, d: Decoder, callId: string, name: string, arguments: Option<string>)
    requires d.Valid() && d.msg.None? && d.reasoning.None?
    ensures Adds(ch, world, d, d.Call(world, callId, name, arguments),
                 Writes(ch, S.Arguments(ArgumentsText(arguments))))
  {
    hide Says, Writes;
    var n, h := |d.em.resp.output|, |d.em.writers|;
    var id := if callId != "" then callId else world.callId(n);
    var opening := S.OpenCall(world.itemId(n), id, name);
    S.OpenKeeps(d.em);
    S.DoSound(d.em, opening);
    OpeningSilent(ch, Fit(world), d.em, opening, Types.FunctionCall(world.itemId(n), Types.Unset, id, name, ""));
    var e := d.em.Do(opening);
    var write := S.Arguments(ArgumentsText(arguments));
    S.WriteKeeps(e, h, write);
    OpenWriteSays(ch, Fit(world), e, h, write);
    var f := e.Do(S.Write(h, write));
    S.WriteKeeps(f, h, S.CloseWriter);
    OpenWriteSays(ch, Fit(world), f, h, S.CloseWriter);
    hide S.Producer.Do;
    ClosingSilent(ch);
    SaysBoth(ch, Fit(world), d.em, e, [], f, Writes(ch, write));
    SaysBoth(ch, Fit(world), d.em, f, Writes(ch, write), f.Do(S.Write(h, S.CloseWriter)), []);
  }

  lemma ClosingSilent(ch: Channel)
    ensures Writes(ch, S.CloseWriter) == []
  {
  }

  lemma ExtendAdds(ch: Channel, world: World, d: Decoder, p: Part)
    requires d.Valid() && d.msg.None? && d.reasoning.None? && p.body.Other?
    ensures Adds(ch, world, d, d.Extend(world, p.body.kind, p), [])
  {
    var id := world.itemId(|d.em.resp.output|);
    var kind := Types.TypeOtherItem(SLUG + p.body.kind);
    var item := Types.UnknownItem(kind, id, Types.Completed, world.marshal(p));
    var head := Types.UnknownItem(kind, id, Types.Unset, world.marshal(p));
    assert OfPartKind(world, head, p) && Head(item) == head;
    OpeningSays(ch, Fit(world), d.em, S.EmitItem(item), head);
    assert !ch.Heads? ==> Tells(ch, S.EmitItem(item)) == [];
    hide Said, S.Producer.Do;
  }

  // ---- One part ------------------------------------------------------------------------------------------

  lemma PartAdds(ch: Channel, world: World, d: Decoder, p: Part)
    requires d.Valid()
    ensures Adds(ch, world, d, d.Part(world, p), PartSays(ch, p))
    ensures d.Part(world, p).msg.Some? <==> Talking(d.msg.Some?, p)
  {
    hide Says, Decoder.Detach, Decoder.CloseOpen, Decoder.OpenMessage, Decoder.Think, Decoder.Call, Decoder.Extend,
         Decoder.Write;
    DetachAdds(ch, world, d, p);
    var s, e := d.Detach(world, p), d.Part(world, p);
    CloseAdds(ch, world, s);
    SaysNothing(ch, Fit(world), s.em);
    var c := s.CloseOpen();
    PartWrites(ch, p);
    match p.body {
      case Call(callId, name, arguments) =>
        CallAdds(ch, world, c, callId, name, arguments);
        SaysBoth(ch, Fit(world), s.em, c.em, [], e.em, PartSays(ch, p));
      case Text(text) =>
        if p.thought {
          ThinkAdds(ch, world, s, p);
        } else if text != "" {
          TextAdds(ch, world, s, text);
        }
      case Other(kind, _) =>
        if p.thought {
          ThinkAdds(ch, world, s, p);
        } else {
          ExtendAdds(ch, world, c, p);
          SaysBoth(ch, Fit(world), s.em, c.em, [], e.em, PartSays(ch, p));
        }
      case Answer(_, _, _) => if p.thought { ThinkAdds(ch, world, s, p); }
    }
    SaysBoth(ch, Fit(world), d.em, s.em, [], e.em, PartSays(ch, p));
  }

  lemma TextAdds(ch: Channel, world: World, d: Decoder, text: string)
    requires d.Valid()
    ensures var m := d.OpenMessage(world); Adds(ch, world, d, m.Write(m.msg.value, S.Text(text)),
                                                Writes(ch, S.Text(text)))
  {
    hide Says, Decoder.OpenMessage;
    OpensAdd(ch, world, d);
    var m := d.OpenMessage(world);
    WriteAdds(ch, world, m, m.msg.value, S.Text(text));
    SaysBoth(ch, Fit(world), d.em, m.em, [], m.Write(m.msg.value, S.Text(text)).em, Writes(ch, S.Text(text)));
  }

  /** What a part says is what the decoder writes for it. */
  lemma PartWrites(ch: Channel, p: Part)
    ensures p.body.Call? ==> PartSays(ch, p) == Writes(ch, S.Arguments(ArgumentsText(p.body.arguments)))
    ensures !p.body.Call? && p.thought ==> PartSays(ch, p) == Writes(ch, S.Summarize(p.Words()))
    ensures p.body.Text? && !p.thought ==> PartSays(ch, p) == Writes(ch, S.Text(p.body.text))
    ensures p.body.Text? && !p.thought && p.body.text == "" ==> PartSays(ch, p) == []
    ensures (p.body.Other? || p.body.Answer?) && !p.thought ==> PartSays(ch, p) == []
  {
  }

  lemma {:induction false} PartsAdd(ch: Channel, world: World, d: Decoder, parts: seq<Part>)
    requires d.Valid()
    ensures Adds(ch, world, d, Decode(world, d, parts), PartsSay(ch, parts))
    ensures Decode(world, d, parts).msg.Some? <==> TalkingAfter(d.msg.Some?, parts)
  {
    hide Says, Decoder.Part, Decoder.Valid, PartSays, Talking;
    SaysNothing(ch, Fit(world), d.em);
    if parts != [] {
      PartsAdd(ch, world, d, Front(parts));
      var before := Decode(world, d, Front(parts));
      PartAdds(ch, world, before, Last(parts));
      SaysBoth(ch, Fit(world), d.em, before.em, PartsSay(ch, Front(parts)), Decode(world, d, parts).em,
               PartSays(ch, Last(parts)));
    }
  }

  // ---- One chunk -------------------------------------------------------------------------------------------

  lemma {:induction false} CiteAdds(ch: Channel, world: World, d: Decoder, citations: seq<string>)
    requires d.Valid() && d.msg.Some?
    ensures Adds(ch, world, d, d.Cite(citations), if ch.Citations? then Cites(Annotations(citations)) else [])
    decreases |citations|
  {
    hide Says, Decoder.Write;
    SaysNothing(ch, Fit(world), d.em);
    if citations == [] {
      assert Cites(Annotations([])) == [];
    } else {
      CiteAdds(ch, world, d, Front(citations));
      var c := d.Cite(Front(citations));
      var a := S.AddAnnotation(Types.Annotation(Last(citations)));
      WriteAdds(ch, world, c, c.msg.value, a);
      SaysBoth(ch, Fit(world), d.em, c.em, if ch.Citations? then Cites(Annotations(Front(citations))) else [],
               d.Cite(citations).em, Writes(ch, a));
      assert !ch.Citations? ==> [] + Writes(ch, a) == [];
      assert Cites(Annotations(citations)) == Cites(Annotations(Front(citations)))
          + [Cited(Types.Annotation(Last(citations)))];
    }
  }

  lemma TakeAdds(ch: Channel, world: World, d: Decoder, c: Chunk)
    requires d.Valid()
    ensures Adds(ch, world, d, d.Take(world, c), ChunkSays(ch, d.msg.Some?, c))
    ensures d.Take(world, c).msg.Some? <==> TalkingAfter(d.msg.Some?, c.parts) || c.grounding.Some?
  {
    hide Says, Decode, Decoder.OpenMessage, Decoder.Cite, Decoder.Valid, PartsSay, TalkingAfter;
    PartsAdd(ch, world, d, c.parts);
    var parted := Decode(world, d, c.parts);
    var weighed, e := parted.Weigh(c.logprobs), d.Take(world, c);
    var a := PartsSay(ch, c.parts);
    var b := if ch.Logprobs? && c.logprobs.Some? && TalkingAfter(d.msg.Some?, c.parts) then Weights(c.logprobs.value)
        else [];
    var g := if ch.Citations? && c.grounding.Some? then Cites(Annotations(c.grounding.value)) else [];
    WeighAdds(ch, world, parted, c.logprobs);
    GroundAdds(ch, world, weighed, c.grounding);
    SaysBoth(ch, Fit(world), d.em, parted.em, a, weighed.em, b);
    SaysBoth(ch, Fit(world), d.em, weighed.em, a + b, e.em, g);
  }

  lemma WeighAdds(ch: Channel, world: World, d: Decoder, logprobs: Option<seq<string>>)
    requires d.Valid()
    ensures Adds(ch, world, d, d.Weigh(logprobs),
                 if ch.Logprobs? && logprobs.Some? && d.msg.Some? then Weights(logprobs.value) else [])
  {
    SaysNothing(ch, Fit(world), d.em);
    if logprobs.Some? && d.msg.Some? { WriteAdds(ch, world, d, d.msg.value, S.AddLogprobs(logprobs.value)); }
  }

  lemma GroundAdds(ch: Channel, world: World, d: Decoder, grounding: Option<seq<string>>)
    requires d.Valid()
    ensures Adds(ch, world, d, d.Ground(world, grounding),
                 if ch.Citations? && grounding.Some? then Cites(Annotations(grounding.value)) else [])
    ensures d.Ground(world, grounding).msg.Some? <==> d.msg.Some? || grounding.Some?
  {
    hide Says, Decoder.OpenMessage, Decoder.Cite, Decoder.Valid;
    SaysNothing(ch, Fit(world), d.em);
    if grounding.Some? {
      OpensAdd(ch, world, d);
      var m := d.OpenMessage(world);
      CiteAdds(ch, world, m, grounding.value);
      SaysBoth(ch, Fit(world), d.em, m.em, [], d.Ground(world, grounding).em,
               if ch.Citations? then Cites(Annotations(grounding.value)) else []);
    }
  }

  lemma {:induction false} ChunksAdd(ch: Channel, world: World, d: Decoder, chunks: seq<Chunk>)
    requires d.Valid() && d.msg.None?
    ensures Adds(ch, world, d, DecodeChunks(world, d, chunks), ChunksSay(ch, chunks))
    ensures DecodeChunks(world, d, chunks).msg.Some? <==> TalkingThrough(chunks)
  {
    hide Says, Decoder.Take, Decoder.Valid, ChunkSays, TalkingAfter;
    SaysNothing(ch, Fit(world), d.em);
    if chunks != [] {
      ChunksAdd(ch, world, d, Front(chunks));
      var before := DecodeChunks(world, d, Front(chunks));
      TakeAdds(ch, world, before, Last(chunks));
      SaysBoth(ch, Fit(world), d.em, before.em, ChunksSay(ch, Front(chunks)), DecodeChunks(world, d, chunks).em,
               ChunkSays(ch, TalkingThrough(Front(chunks)), Last(chunks)));
    }
  }

  // ---- A whole answer ----------------------------------------------------------------------------------------

  lemma AnswerAdds(ch: Channel, world: World, resp: Types.Response, chunks: seq<Chunk>, ending: S.Call)
    requires S.Fresh(resp) && (ending.CompleteStream? || ending.StopStream?)
    ensures var d := DecodeChunks(world, Begin(resp), chunks).em;
            Says(ch, Fit(world), Begin(resp).em, d.Do(ending), ChunksSay(ch, chunks))
  {
    hide Says, DecodeChunks, ChunksSay, S.Producer.Do;
    ChunksAdd(ch, world, Begin(resp), chunks);
    var d := DecodeChunks(world, Begin(resp), chunks).em;
    EndingSays(ch, Fit(world), d, ending);
    SaysBoth(ch, Fit(world), Begin(resp).em, d, ChunksSay(ch, chunks), d.Do(ending), []);
  }

  /** Whatever chunks Gemini streams, the text of the answer is the texts', its
      summaries are the thoughts', its arguments the calls', its citations the
      grounding's, each in order and nothing else; the log probabilities are
      those of the chunks after whose parts a message is open. */
  lemma AnswerSays(ch: Channel, world: World, resp: Types.Response, chunks: seq<Chunk>, ending: S.Call)
    requires S.Fresh(resp) && !ch.Heads? && (ending.CompleteStream? || ending.StopStream?)
    ensures Said(ch, DecodeChunks(world, Begin(resp), chunks).em.Do(ending).resp.output) == ChunksSay(ch, chunks)
  {
    hide DecodeChunks, ChunksSay, S.Producer.Do;
    AnswerAdds(ch, world, resp, chunks, ending);
    SaidInAll(ch, Fit(world), Begin(resp).em, DecodeChunks(world, Begin(resp), chunks).em.Do(ending),
              ChunksSay(ch, chunks));
  }

  /** Every item of an answer is an assistant message with the answer's final
      phase, a reasoning item, a call with an id of its own or the one its place
      gives, or a gemini.* item carrying its part, with the id its place gives. */
  lemma AnswerItems(world: World, resp: Types.Response, chunks: seq<Chunk>, ending: S.Call)
    requires S.Fresh(resp) && (ending.CompleteStream? || ending.StopStream?)
    ensures var output := DecodeChunks(world, Begin(resp), chunks).em.Do(ending).resp.output;
            forall p :: 0 <= p < |output| ==> HeadFits(world, p, Head(output[p]))
  {
    hide DecodeChunks, ChunksSay, S.Producer.Do;
    AnswerAdds(Heads, world, resp, chunks, ending);
    hide HeadFits;
    SaidInAll(Heads, Fit(world), Begin(resp).em, DecodeChunks(world, Begin(resp), chunks).em.Do(ending),
              ChunksSay(Heads, chunks));
  }
}

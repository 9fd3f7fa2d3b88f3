/** Folding Gemini's streamed parts into emitter calls.  The decoder is a value
    whose steps are producer steps, so whatever it decodes is a valid stream. */
module GeminiDecoderSpec {
  import opened Wrappers
  import opened GeminiTypes
  import Types
  import S = EmitterSpec

  /** What the decoder takes from outside: an id source for items and calls, and
      the JSON form of a part. */
  datatype World = World(itemId: nat -> string, callId: nat -> string, marshal: Part -> string,
                         unmarshal: string -> Carried)

  const SLUG := "gemini."

  /** One streamed chunk: its parts, the token logprobs if it has them, and the
      citations its grounding supports resolve to, if it has any support. */
  datatype Chunk = Chunk(parts: seq<Part>, logprobs: Option<seq<string>>, grounding: Option<seq<string>>)

  /** At most one writer is open, Gemini's parts being sequential; msg and
      reasoning are its handle. */
  datatype Decoder = Decoder(em: S.Producer, msg: Option<nat>, reasoning: Option<nat>)
  {
    ghost predicate Valid() {
      && em.Sound() && !em.terminal && !(msg.Some? && reasoning.Some?)
      && (msg.Some? ==> Open(msg.value) && em.writers[msg.value].MessageWriter?)
      && (reasoning.Some? ==> Open(reasoning.value) && em.writers[reasoning.value].ReasoningWriter?)
    }

    predicate Open(h: nat) { h < |em.writers| && !em.writers[h].closed }

    /** Write to an open writer. */
    function Write(h: nat, call: S.WriterCall): (d: Decoder)
      requires Valid() && Open(h) && S.WriterAllows(em.writers[h], call) && !call.CloseWriter?
      ensures d.Valid() && d.msg == msg && d.reasoning == reasoning
    {
      S.WriteKeeps(em, h, call);
      this.(em := em.Do(S.Write(h, call)))
    }

    function CloseOpen(): (d: Decoder)
      requires Valid()
      ensures d.Valid() && d.msg.None? && d.reasoning.None?
    {
      if msg.Some? then
        S.WriteKeeps(em, msg.value, S.CloseWriter);
        Decoder(em.Do(S.Write(msg.value, S.CloseWriter)), None, None)
      else if reasoning.Some? then
        S.WriteKeeps(em, reasoning.value, S.CloseWriter);
        Decoder(em.Do(S.Write(reasoning.value, S.CloseWriter)), None, None)
      else this
    }

    function OpenMessage(world: World): (d: Decoder)
      requires Valid()
      ensures d.Valid() && d.msg.Some? && d.reasoning.None?
    {
      if msg.Some? then this else CloseOpen().NewMessage(world)
    }

    function NewMessage(world: World): (d: Decoder)
      requires Valid() && msg.None? && reasoning.None?
      ensures d.Valid() && d.msg.Some? && d.reasoning.None?
    {
      var opening := S.OpenMessage(world.itemId(|em.resp.output|), "final_answer");
      S.OpenKeeps(em);
      S.DoSound(em, opening);
      Decoder(em.Do(opening), Some(|em.writers|), None)
    }

    function OpenReasoning(world: World): (d: Decoder)
      requires Valid()
      ensures d.Valid() && d.reasoning.Some? && d.msg.None?
    {
      if reasoning.Some? then this else CloseOpen().NewReasoning(world)
    }

    function NewReasoning(world: World): (d: Decoder)
      requires Valid() && msg.None? && reasoning.None?
      ensures d.Valid() && d.reasoning.Some? && d.msg.None?
    {
      var opening := S.OpenReasoning(world.itemId(|em.resp.output|));
      S.OpenKeeps(em);
      S.DoSound(em, opening);
      Decoder(em.Do(opening), None, Some(|em.writers|))
    }

    /** A signature on a part that is not a thought is carried by a reasoning
        item just before it. */
    function Detach(world: World, p: Part): (d: Decoder)
      requires Valid()
      ensures d.Valid()
    {
      if p.signature.Some? && !p.thought then
        var d := OpenReasoning(world);
        d.Write(d.reasoning.value, S.Encrypt(p.signature.value)).CloseOpen()
      else this
    }

    function Part(world: World, p: Part): (d: Decoder)
      requires Valid()
      ensures d.Valid()
    {
      var d := Detach(world, p);
      match p.body
      case Call(callId, name, arguments) => d.CloseOpen().Call(world, callId, name, arguments)
      case Text(text) =>
        if p.thought then d.Think(world, p)
        else if text != "" then
          var m := d.OpenMessage(world);
          m.Write(m.msg.value, S.Text(text))
        else d
      case Other(kind, _) => if p.thought then d.Think(world, p) else d.CloseOpen().Extend(world, kind, p)
      case Answer(_, _, _) => if p.thought then d.Think(world, p) else d
    }

    function Think(world: World, p: Part): (d: Decoder)
      requires Valid()
      ensures d.Valid()
    {
      var r := OpenReasoning(world);
      var said := if p.Words() != "" then r.Write(r.reasoning.value, S.Summarize(p.Words())) else r;
      if p.signature.Some? then said.Write(said.reasoning.value, S.Encrypt(p.signature.value)) else said
    }

    /** A call arrives whole: opened, written and closed in one step. */
    function Call(world: World, callId: string, name: string, arguments: Option<string>): (d: Decoder)
      requires Valid() && msg.None? && reasoning.None?
      ensures d.Valid() && d.msg.None? && d.reasoning.None?
    {
      var n, h := |em.resp.output|, |em.writers|;
      var opening := S.OpenCall(world.itemId(n), if callId != "" then callId else world.callId(n), name);
      S.OpenKeeps(em);
      S.DoSound(em, opening);
      var e := em.Do(opening);
      S.WriteKeeps(e, h, S.Arguments(ArgumentsText(arguments)));
      var f := e.Do(S.Write(h, S.Arguments(ArgumentsText(arguments))));
      S.WriteKeeps(f, h, S.CloseWriter);
      this.(em := f.Do(S.Write(h, S.CloseWriter)))
    }

    function Extend(world: World, kind: string, p: Part): (d: Decoder)
      requires Valid() && msg.None? && reasoning.None?
      ensures d.Valid() && d.msg.None? && d.reasoning.None?
    {
      var item := Types.UnknownItem(Types.TypeOtherItem(SLUG + kind), world.itemId(|em.resp.output|), Types.Completed,
                                    world.marshal(p));
      S.DoSound(em, S.EmitItem(item));
      this.(em := em.Do(S.EmitItem(item)))
    }

    /** Logprobs go to the open message, and nowhere when none is open. */
    function Weigh(logprobs: Option<seq<string>>): (d: Decoder)
      requires Valid()
      ensures d.Valid() && d.msg == msg && d.reasoning == reasoning
    {
      if logprobs.Some? && msg.Some? then Write(msg.value, S.AddLogprobs(logprobs.value)) else this
    }

    /** Citations go to the open message, or to one opened for them. */
    function Ground(world: World, grounding: Option<seq<string>>): (d: Decoder)
      requires Valid()
      ensures d.Valid()
    {
      if grounding.Some? then OpenMessage(world).Cite(grounding.value) else this
    }

    function Cite(citations: seq<string>): (d: Decoder)
      requires Valid() && msg.Some?
      ensures d.Valid() && d.msg == msg
    {
      if citations == [] then this
      else
        var d := Cite(Front(citations));
        d.Write(d.msg.value, S.AddAnnotation(Types.Annotation(Last(citations))))
    }

    function Take(world: World, c: Chunk): (d: Decoder)
      requires Valid()
      ensures d.Valid()
    {
      Decode(world, this, c.parts).Weigh(c.logprobs).Ground(world, c.grounding)
    }
  }

  function ArgumentsText(arguments: Option<string>): string { if arguments.Some? then arguments.value else "{}" }

  function Begin(resp: Types.Response): (d: Decoder)
    requires S.Fresh(resp)
    ensures d.Valid()
  {
    S.NewSound(resp);
    Decoder(S.NewProducer(resp), None, None)
  }

  function Decode(world: World, d: Decoder, parts: seq<Part>): (r: Decoder)
    requires d.Valid()
    ensures r.Valid()
  {
    if parts == [] then d else Decode(world, d, Front(parts)).Part(world, Last(parts))
  }

  function DecodeChunks(world: World, d: Decoder, chunks: seq<Chunk>): (r: Decoder)
    requires d.Valid()
    ensures r.Valid()
  {
    if chunks == [] then d else DecodeChunks(world, d, Front(chunks)).Take(world, Last(chunks))
  }

  function AllParts(chunks: seq<Chunk>): seq<Part> {
    if chunks == [] then [] else AllParts(Front(chunks)) + Last(chunks).parts
  }

  lemma {:induction false} DecodeSplits(world: World, d: Decoder, a: seq<Part>, b: seq<Part>)
    requires d.Valid()
    ensures Decode(world, d, a + b) == Decode(world, Decode(world, d, a), b)
    decreases |b|
  {
    hide Decoder.Part, Decoder.Valid;
    if b == [] {
      assert a + b == a;
    } else {
      DecodeSplits(world, d, a, Front(b));
      assert Front(a + b) == a + Front(b);
    }
  }

  /** Without logprobs and grounding it does not matter how the parts are cut
      into chunks. */
  lemma {:induction false} ChunksAreParts(world: World, d: Decoder, chunks: seq<Chunk>)
    requires d.Valid() && forall c <- chunks :: c.logprobs.None? && c.grounding.None?
    ensures DecodeChunks(world, d, chunks) == Decode(world, d, AllParts(chunks))
  {
    hide Decoder.Valid;
    if chunks != [] {
      assert Last(chunks) in chunks;
      ChunksAreParts(world, d, Front(chunks));
      DecodeSplits(world, d, AllParts(Front(chunks)), Last(chunks).parts);
    }
  }
}

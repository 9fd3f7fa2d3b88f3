/** Whatever Gemini streams, the events its decoder sends are a valid stream. */
module GeminiConforms {
  import opened Wrappers
  import opened GeminiTypes
  import opened RequestTypes
  import opened GeminiDecoderSpec
  import Types
  import S = EmitterSpec
  import R = Reaching
  import V = ValidatorSpec

  lemma WriteReaches(d: Decoder, h: nat, call: S.WriterCall, resp: Types.Response)
    requires d.Valid() && d.Open(h) && S.WriterAllows(d.em.writers[h], call) && R.Reached(d.em, resp)
    ensures R.Reached(d.em.Do(S.Write(h, call)), resp)
  {
    R.DoReached(d.em, S.Write(h, call), resp);
  }

  lemma CloseReaches(d: Decoder, resp: Types.Response)
    requires d.Valid() && R.Reached(d.em, resp)
    ensures R.Reached(d.CloseOpen().em, resp)
  {
    hide R.Reached;
    if d.msg.Some? { WriteReaches(d, d.msg.value, S.CloseWriter, resp); }
    else if d.reasoning.Some? { WriteReaches(d, d.reasoning.value, S.CloseWriter, resp); }
  }

  lemma OpenReaches(world: World, d: Decoder, resp: Types.Response)
    requires d.Valid() && R.Reached(d.em, resp)
    ensures R.Reached(d.OpenMessage(world).em, resp) && R.Reached(d.OpenReasoning(world).em, resp)
  {
    hide R.Reached, S.Producer.Do;
    CloseReaches(d, resp);
    var e := d.CloseOpen().em;
    R.DoReached(e, S.OpenMessage(world.itemId(|e.resp.output|), "final_answer"), resp);
    R.DoReached(e, S.OpenReasoning(world.itemId(|e.resp.output|)), resp);
  }

  lemma DetachReaches(world: World, d: Decoder, p: Part, resp: Types.Response)
    requires d.Valid() && R.Reached(d.em, resp)
    ensures R.Reached(d.Detach(world, p).em, resp)
  {
    hide R.Reached, S.Producer.Do, Decoder.CloseOpen, Decoder.OpenReasoning;
    OpenReaches(world, d, resp);
    var r := d.OpenReasoning(world);
    if p.signature.Some? && !p.thought {
      WriteReaches(r, r.reasoning.value, S.Encrypt(p.signature.value), resp);
      CloseReaches(r.Write(r.reasoning.value, S.Encrypt(p.signature.value)), resp);
    }
  }

  lemma ThinkReaches(world: World, d: Decoder, p: Part, resp: Types.Response)
    requires d.Valid() && R.Reached(d.em, resp)
    ensures R.Reached(d.Think(world, p).em, resp)
  {
    hide R.Reached, S.Producer.Do, Decoder.OpenReasoning;
    OpenReaches(world, d, resp);
    var r := d.OpenReasoning(world);
    WriteReaches(r, r.reasoning.value, S.Summarize(p.Words()), resp);
    var said := if p.Words() != "" then r.Write(r.reasoning.value, S.Summarize(p.Words())) else r;
    if p.signature.Some? { WriteReaches(said, said.reasoning.value, S.Encrypt(p.signature.value), resp); }
  }

  lemma CallReaches(world: World, d: Decoder, callId: string, name: string, arguments: Option<string>,
                    resp: Types.Response)
    requires d.Valid() && d.msg.None? && d.reasoning.None? && R.Reached(d.em, resp)
    ensures R.Reached(d.Call(world, callId, name, arguments).em, resp)
  {
    hide R.Reached;
    var n, h := |d.em.resp.output|, |d.em.writers|;
    var opening := S.OpenCall(world.itemId(n), if callId != "" then callId else world.callId(n), name);
    S.OpenKeeps(d.em);
    S.DoSound(d.em, opening);
    R.DoReached(d.em, opening, resp);
    var e := d.em.Do(opening);
    var write := S.Arguments(ArgumentsText(arguments));
    S.WriteKeeps(e, h, write);
    R.DoReached(e, S.Write(h, write), resp);
    R.DoReached(e.Do(S.Write(h, write)), S.Write(h, S.CloseWriter), resp);
  }

  lemma PartReaches(world: World, d: Decoder, p: Part, resp: Types.Response)
    requires d.Valid() && R.Reached(d.em, resp)
    ensures R.Reached(d.Part(world, p).em, resp)
  {
    hide R.Reached, S.Producer.Do, Decoder.Detach, Decoder.CloseOpen, Decoder.OpenMessage, Decoder.Think, Decoder.Call;
    DetachReaches(world, d, p, resp);
    var s := d.Detach(world, p);
    CloseReaches(s, resp);
    var c := s.CloseOpen();
    match p.body
    case Call(callId, name, arguments) => CallReaches(world, c, callId, name, arguments, resp);
    case Text(text) =>
      if p.thought { ThinkReaches(world, s, p, resp); }
      else if text != "" {
        OpenReaches(world, s, resp);
        var m := s.OpenMessage(world);
        WriteReaches(m, m.msg.value, S.Text(text), resp);
      }
    case Other(kind, _) =>
      if p.thought { ThinkReaches(world, s, p, resp); }
      else { ExtendReaches(world, c, kind, p, resp); }
    case Answer(_, _, _) => if p.thought { ThinkReaches(world, s, p, resp); }
  }

  lemma ExtendReaches(world: World, d: Decoder, kind: string, p: Part, resp: Types.Response)
    requires d.Valid() && d.msg.None? && d.reasoning.None? && R.Reached(d.em, resp)
    ensures R.Reached(d.Extend(world, kind, p).em, resp)
  {
    var item := Types.UnknownItem(Types.TypeOtherItem(SLUG + kind), world.itemId(|d.em.resp.output|), Types.Completed,
                                  world.marshal(p));
    R.DoReached(d.em, S.EmitItem(item), resp);
  }

  lemma {:induction false} PartsReach(world: World, d: Decoder, parts: seq<Part>, resp: Types.Response)
    requires d.Valid() && R.Reached(d.em, resp)
    ensures R.Reached(Decode(world, d, parts).em, resp)
  {
    hide R.Reached, Decoder.Part;
    if parts != [] {
      PartsReach(world, d, Front(parts), resp);
      PartReaches(world, Decode(world, d, Front(parts)), Last(parts), resp);
    }
  }

  lemma {:induction false} CiteReaches(d: Decoder, citations: seq<string>, resp: Types.Response)
    requires d.Valid() && d.msg.Some? && R.Reached(d.em, resp)
    ensures R.Reached(d.Cite(citations).em, resp)
  {
    hide R.Reached, S.Producer.Do;
    if citations != [] {
      CiteReaches(d, Front(citations), resp);
      WriteReaches(d.Cite(Front(citations)), d.msg.value, S.AddAnnotation(Types.Annotation(Last(citations))),
                  resp);
    }
  }

  lemma ChunkReaches(world: World, d: Decoder, c: Chunk, resp: Types.Response)
    requires d.Valid() && R.Reached(d.em, resp)
    ensures R.Reached(d.Take(world, c).em, resp)
  {
    hide R.Reached, S.Producer.Do, Decode, Decoder.OpenMessage, Decoder.Cite;
    PartsReach(world, d, c.parts, resp);
    var said := Decode(world, d, c.parts);
    if said.msg.Some? && c.logprobs.Some? {
      WriteReaches(said, said.msg.value, S.AddLogprobs(c.logprobs.value), resp);
    }
    var weighed := said.Weigh(c.logprobs);
    OpenReaches(world, weighed, resp);
    if c.grounding.Some? { CiteReaches(weighed.OpenMessage(world), c.grounding.value, resp); }
  }

  lemma {:induction false} ChunksReach(world: World, d: Decoder, chunks: seq<Chunk>, resp: Types.Response)
    requires d.Valid() && R.Reached(d.em, resp)
    ensures R.Reached(DecodeChunks(world, d, chunks).em, resp)
  {
    hide R.Reached, Decoder.Take;
    if chunks != [] {
      ChunksReach(world, d, Front(chunks), resp);
      ChunkReaches(world, DecodeChunks(world, d, Front(chunks)), Last(chunks), resp);
    }
  }

  /** However Gemini interleaves thoughts, text, calls, signatures, other parts,
      logprobs and citations, what the decoder does is a run of emitter calls, so
      everything proved of runs holds of it. */
  lemma DecodedIsRun(world: World, resp: Types.Response, chunks: seq<Chunk>, stop: Option<string>)
    requires S.Fresh(resp)
    ensures var e := DecodeChunks(world, Begin(resp), chunks).em;
            var d := e.Do(if stop.None? then S.CompleteStream else S.StopStream(stop.value));
            R.Reached(e, resp) && R.Reached(d, resp) && d.terminal
  {
    hide R.Reached, DecodeChunks;
    R.StartReached(resp);
    ChunksReach(world, Begin(resp), chunks, resp);
    R.DoReached(DecodeChunks(world, Begin(resp), chunks).em,
                if stop.None? then S.CompleteStream else S.StopStream(stop.value), resp);
  }

  /** So the decoded stream is accepted once its finish reason completes the
      response or leaves it incomplete. */
  lemma DecodedStreamAccepted(world: World, resp: Types.Response, chunks: seq<Chunk>, stop: Option<string>,
                              allowReuse: bool)
    requires S.Fresh(resp)
    ensures var d := DecodeChunks(world, Begin(resp), chunks);
            V.Accepted(Types.Numbered(d.em.Do(if stop.None? then S.CompleteStream else S.StopStream(stop.value)).sent),
                       allowReuse)
  {
    hide R.Reached, S.Producer.Do, V.Accepted, DecodeChunks;
    DecodedIsRun(world, resp, chunks, stop);
    R.ReachedHolds(DecodeChunks(world, Begin(resp), chunks).em.Do(
                     if stop.None? then S.CompleteStream else S.StopStream(stop.value)), resp, allowReuse);
  }
}

/** Whatever a Chat Completions server streams, the events its decoder sends are
    a valid stream. */
module ChatConforms {
  import opened ChatCompletes
  import opened ChatDecoderSpec
  import opened Wrappers
  import Types
  import R = Reaching
  import S = EmitterSpec
  import V = ValidatorSpec

  ghost predicate Reachable(d: Decoder, resp: Types.Response) { d.Valid() && R.Reached(d.em, resp) }

  lemma WriteReaches(d: Decoder, h: nat, call: S.WriterCall, resp: Types.Response)
    requires Reachable(d, resp) && d.Open(h) && S.WriterAllows(d.em.writers[h], call)
    ensures !call.CloseWriter? ==> Reachable(d.Write(h, call), resp)
    ensures call.CloseWriter? ==> Reachable(d.Shut(h), resp)
  {
    hide R.Reached;
    R.DoReached(d.em, S.Write(h, call), resp);
  }

  lemma NamedReaches(ids: Ids, d: Decoder, name: string, resp: Types.Response)
    requires d.em.Sound() && !d.em.terminal && d.call.Some? && d.msg.None? && d.reasoning.None?
             && R.Reached(d.em, resp)
    ensures Reachable(d.Named(ids, name), resp)
  {
    hide R.Reached;
    var c, n, h := d.call.value, |d.em.resp.output|, |d.em.writers|;
    var opening := S.OpenCall(ids.item(n), if c.id != "" then c.id else ids.call(n), name);
    S.OpenKeeps(d.em);
    S.DoSound(d.em, opening);
    R.DoReached(d.em, opening, resp);
    var e := Decoder(d.em.Do(opening), None, None, Some(CallState(c.index, c.id, name, "", Some(h))));
    if c.buffered != "" { WriteReaches(e, h, S.Arguments(c.buffered), resp); }
  }

  ghost predicate StillReachable(r: Outcome<Decoder>, resp: Types.Response) { r.Done? ==> Reachable(r.value, resp) }

  lemma EndCallReaches(ids: Ids, d: Decoder, resp: Types.Response)
    requires Reachable(d, resp)
    ensures StillReachable(d.EndCall(ids), resp)
    ensures d.call.Some? ==> StillReachable(d.CloseCall(ids), resp)
  {
    hide R.Reached, Decoder.Named;
    if d.call.Some? && d.call.value.writer.Some? {
      var h := d.call.value.writer.value;
      assert d.em.WriterSound(h);
      if d.em.ItemOf(h).arguments == "" { WriteReaches(d, h, S.Arguments("{}"), resp); }
      WriteReaches(d.Argued(), h, S.CloseWriter, resp);
    }
  }

  lemma CloseReaches(ids: Ids, d: Decoder, resp: Types.Response)
    requires Reachable(d, resp)
    ensures StillReachable(d.CloseOpen(ids), resp)
  {
    hide R.Reached, Decoder.CloseCall;
    if d.msg.Some? { WriteReaches(d, d.msg.value, S.CloseWriter, resp); }
    else if d.reasoning.Some? { WriteReaches(d, d.reasoning.value, S.CloseWriter, resp); }
    else if d.call.Some? { EndCallReaches(ids, d, resp); }
  }

  lemma OpenReaches(ids: Ids, d: Decoder, resp: Types.Response)
    requires Reachable(d, resp)
    ensures StillReachable(d.OpenMessage(ids), resp) && StillReachable(d.OpenReasoning(ids), resp)
  {
    hide R.Reached, S.Producer.Do, Decoder.CloseOpen;
    CloseReaches(ids, d, resp);
    if d.CloseOpen(ids).Done? {
      var e := d.CloseOpen(ids).value.em;
      R.DoReached(e, S.OpenMessage(ids.item(|e.resp.output|), "final_answer"), resp);
      R.DoReached(e, S.OpenReasoning(ids.item(|e.resp.output|)), resp);
    }
  }

  lemma TakeReaches(ids: Ids, d: Decoder, f: Fragment, resp: Types.Response)
    requires Reachable(d, resp) && d.call.Some? && f.index == d.call.value.index
    ensures Reachable(d.Take(ids, f), resp)
  {
    hide R.Reached, Decoder.Named, Decoder.Write;
    var c := d.call.value;
    var id, name := if f.id != "" then f.id else c.id, c.name + f.name;
    if c.writer.None? {
      if name != "" {
        NamedReaches(ids, d.(call := Some(CallState(c.index, id, name, c.buffered + f.arguments, None))), name,
                    resp);
      }
    } else if f.arguments != "" {
      WriteReaches(d.(call := Some(CallState(c.index, id, name, "", c.writer))), c.writer.value,
                  S.Arguments(f.arguments), resp);
    }
  }

  lemma ToolCallReaches(ids: Ids, d: Decoder, f: Fragment, resp: Types.Response)
    requires Reachable(d, resp)
    ensures StillReachable(d.ToolCall(ids, f), resp)
  {
    hide R.Reached, Decoder.CloseOpen, Decoder.Take;
    CloseReaches(ids, d, resp);
    var t := d.Turn(ids, f.index);
    if t.Done? { TakeReaches(ids, t.value, f, resp); }
  }

  lemma {:induction false} ToolCallsReach(ids: Ids, d: Decoder, fragments: seq<Fragment>, resp: Types.Response)
    requires Reachable(d, resp)
    ensures StillReachable(ToolCalls(ids, d, fragments), resp)
  {
    hide R.Reached, Decoder.ToolCall, Decoder.Valid;
    if fragments != [] {
      ToolCallsReach(ids, d, Front(fragments), resp);
      var before := ToolCalls(ids, d, Front(fragments));
      if before.Done? { ToolCallReaches(ids, before.value, Last(fragments), resp); }
    }
  }

  lemma TellReaches(ids: Ids, d: Decoder, call: S.WriterCall, resp: Types.Response)
    requires Reachable(d, resp) && (call.Text? || call.Refuse? || call.AddLogprobs? || call.AddAnnotation?)
    requires call.AddAnnotation? ==> !call.annotation.NilAnnotation?
    ensures StillReachable(d.Tell(ids, call), resp)
  {
    hide R.Reached, Decoder.OpenMessage;
    OpenReaches(ids, d, resp);
    var m := d.OpenMessage(ids);
    if m.Done? { WriteReaches(m.value, m.value.msg.value, call, resp); }
  }

  lemma ReasonReaches(ids: Ids, d: Decoder, text: string, resp: Types.Response)
    requires Reachable(d, resp)
    ensures StillReachable(d.Reason(ids, text), resp)
  {
    hide R.Reached, Decoder.OpenReasoning;
    OpenReaches(ids, d, resp);
    var r := d.OpenReasoning(ids);
    if r.Done? { WriteReaches(r.value, r.value.reasoning.value, S.Reason(text), resp); }
  }

  lemma {:induction false} AnnotateReaches(ids: Ids, d: Decoder, citations: seq<string>, resp: Types.Response)
    requires Reachable(d, resp)
    ensures StillReachable(d.Annotate(ids, citations), resp)
  {
    hide R.Reached, Decoder.Tell, Decoder.Valid;
    if citations != [] {
      AnnotateReaches(ids, d, Front(citations), resp);
      var before := d.Annotate(ids, Front(citations));
      if before.Done? { TellReaches(ids, before.value, S.AddAnnotation(Types.Annotation(Last(citations))), resp); }
    }
  }

  lemma SpeakReaches(ids: Ids, d: Decoder, dl: Delta, resp: Types.Response)
    requires Reachable(d, resp)
    ensures StillReachable(d.Speak(ids, dl), resp)
  {
    hide R.Reached, Decoder.Reason, Decoder.Tell, Decoder.Valid;
    var r := if dl.reasoning != "" then d.Reason(ids, dl.reasoning) else Done(d);
    ReasonReaches(ids, d, dl.reasoning, resp);
    if r.Done? {
      var t := if dl.content != "" then r.value.Tell(ids, S.Text(dl.content)) else r;
      TellReaches(ids, r.value, S.Text(dl.content), resp);
      if t.Done? { TellReaches(ids, t.value, S.Refuse(dl.refusal), resp); }
    }
  }

  lemma NoteReaches(ids: Ids, d: Decoder, citations: seq<string>, logprobs: seq<string>, resp: Types.Response)
    requires Reachable(d, resp)
    ensures StillReachable(d.Note(ids, citations, logprobs), resp)
  {
    hide R.Reached, Decoder.Annotate, Decoder.Tell, Decoder.Valid;
    AnnotateReaches(ids, d, citations, resp);
    var noted := d.Annotate(ids, citations);
    if noted.Done? { TellReaches(ids, noted.value, S.AddLogprobs(logprobs), resp); }
  }

  lemma DeltaReaches(ids: Ids, d: Decoder, dl: Delta, resp: Types.Response)
    requires Reachable(d, resp)
    ensures StillReachable(d.Delta(ids, dl), resp)
  {
    hide R.Reached, Decoder.Speak, Decoder.Note, ToolCalls, Decoder.Valid;
    SpeakReaches(ids, d, dl, resp);
    var spoken := d.Speak(ids, dl);
    if spoken.Done? {
      ToolCallsReach(ids, spoken.value, dl.toolCalls, resp);
      var called := ToolCalls(ids, spoken.value, dl.toolCalls);
      if called.Done? { NoteReaches(ids, called.value, dl.citations, dl.logprobs, resp); }
    }
  }

  lemma {:induction false} DeltasReach(ids: Ids, d: Decoder, deltas: seq<Delta>, resp: Types.Response)
    requires Reachable(d, resp)
    ensures StillReachable(Decode(ids, d, deltas), resp)
  {
    hide R.Reached, Decoder.Delta, Decoder.Valid;
    if deltas != [] {
      DeltasReach(ids, d, Front(deltas), resp);
      var before := Decode(ids, d, Front(deltas));
      if before.Done? { DeltaReaches(ids, before.value, Last(deltas), resp); }
    }
  }

  /** However a server interleaves reasoning, text, refusals, citations and
      tool-call fragments, the answer is decoded to its end exactly when between
      two texts no index falls and every call is named.  What was done up to
      there, or up to the end, is a run of emitter calls, so everything proved
      of runs holds of it. */
  lemma DecodedIsRun(ids: Ids, resp: Types.Response, deltas: seq<Delta>, stop: Option<string>)
    requires S.Fresh(resp)
    ensures var decoded, answer := Decode(ids, Begin(resp), deltas), Answer(ids, Begin(resp), deltas, stop);
            && (decoded.Done? ==> R.Reached(decoded.value.em, resp))
            && (answer.Done? <==> Completes(Actions(deltas)))
            && (answer.Done? ==> R.Reached(answer.value, resp) && answer.value.terminal)
  {
    hide R.Reached, Decoder.EndCall, Decode, Completes, Actions, Decoder.Valid;
    R.StartReached(resp);
    DeltasReach(ids, Begin(resp), deltas, resp);
    DecodesExactly(ids, Begin(resp), deltas, stop);
    if Answer(ids, Begin(resp), deltas, stop).Done? {
      FinishReaches(ids, Decode(ids, Begin(resp), deltas).value, stop, resp);
    }
  }

  lemma FinishReaches(ids: Ids, d: Decoder, stop: Option<string>, resp: Types.Response)
    requires Reachable(d, resp) && !d.Nameless()
    ensures R.Reached(Finish(ids, d, stop).value, resp)
  {
    hide R.Reached, Decoder.EndCall;
    EndCallReaches(ids, d, resp);
    R.DoReached(d.EndCall(ids).value.em, if stop.None? then S.CompleteStream else S.StopStream(stop.value), resp);
  }

  /** So what was sent is accepted. */
  lemma DecodedStreamAccepted(ids: Ids, resp: Types.Response, deltas: seq<Delta>, stop: Option<string>,
                              allowReuse: bool)
    requires S.Fresh(resp)
    ensures var answer := Answer(ids, Begin(resp), deltas, stop);
            && (answer.Done? <==> Completes(Actions(deltas)))
            && (answer.Done? ==> V.Accepted(Types.Numbered(answer.value.sent), allowReuse))
  {
    hide R.Reached, Decode, Finish, Completes, Actions, V.Accepted;
    DecodedIsRun(ids, resp, deltas, stop);
    var answer := Answer(ids, Begin(resp), deltas, stop);
    if answer.Done? { R.ReachedHolds(answer.value, resp, allowReuse); }
  }
}

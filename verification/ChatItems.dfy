/** Which items a decoded Chat Completions answer has: one for each run of
    neighbouring things streamed that belong together. */
module ChatItems {
  import opened ChatDecoderSpec
  import opened ItemTypes
  import opened Wrappers
  import S = EmitterSpec
  import Types

  /** What a streamed thing belongs to: a reply, the thinking, or the call of an index. */
  datatype Kind = Reply | Thinking | Call(index: int)

  function When(streamed: bool, kind: Kind): seq<Kind> { if streamed then [kind] else [] }

  function CallKinds(fragments: seq<Fragment>): seq<Kind> {
    if fragments == [] then [] else CallKinds(Front(fragments)) + [Call(Last(fragments).index)]
  }

  /** What a delta streams, field by field. */
  function KindsOf(dl: Delta): seq<Kind> {
    When(dl.reasoning != "", Thinking) + When(dl.content != "", Reply) + When(dl.refusal != "", Reply)
    + CallKinds(dl.toolCalls) + When(dl.citations != [], Reply) + When(dl.logprobs != [], Reply)
  }

  function AllKinds(deltas: seq<Delta>): seq<Kind> {
    if deltas == [] then [] else AllKinds(Front(deltas)) + KindsOf(Last(deltas))
  }

  /** One for each run of neighbours of the same kind. */
  function Runs(kinds: seq<Kind>): seq<Kind> {
    if kinds == [] then []
    else if Front(kinds) != [] && Last(Front(kinds)) == Last(kinds) then Runs(Front(kinds))
    else Runs(Front(kinds)) + [Last(kinds)]
  }

  function TypeOf(kind: Kind): Types.ItemType {
    match kind
    case Reply => Types.TypeMessage
    case Thinking => Types.TypeReasoning
    case Call(_) => Types.TypeFunctionCall
  }

  function TypesFor(kinds: seq<Kind>): seq<Types.ItemType> {
    if kinds == [] then [] else TypesFor(Front(kinds)) + [TypeOf(Last(kinds))]
  }

  lemma RunsNext(kinds: seq<Kind>, kind: Kind)
    ensures Runs(kinds + [kind]) == if kinds != [] && Last(kinds) == kind then Runs(kinds) else Runs(kinds) + [kind]
  {
    assert Front(kinds + [kind]) == kinds;
  }

  lemma TypesNext(kinds: seq<Kind>, kind: Kind)
    ensures TypesFor(kinds + [kind]) == TypesFor(kinds) + [TypeOf(kind)]
  {
    assert Front(kinds + [kind]) == kinds;
  }

  // ---- What the decoder holds ------------------------------------------------------------------

  /** The decoder is writing what was streamed last. */
  predicate Holds(d: Decoder, kinds: seq<Kind>) {
    if kinds == [] then d.Idle()
    else match Last(kinds)
    case Reply => d.msg.Some?
    case Thinking => d.reasoning.Some?
    case Call(index) => d.call.Some? && d.call.value.index == index
  }

  /** The items so far, and the call still to be opened, if any. */
  function Shows(d: Decoder): seq<Types.ItemType> {
    TypesOf(d.em.resp.output) + if d.Nameless() then [Types.TypeFunctionCall] else []
  }

  ghost predicate Shown(d: Decoder, kinds: seq<Kind>) {
    d.Valid() && Holds(d, kinds) && Shows(d) == TypesFor(Runs(kinds))
  }

  /** A step that, when it goes through, streams these. */
  ghost predicate Streams(r: Outcome<Decoder>, kinds: seq<Kind>) { r.Done? ==> Shown(r.value, kinds) }

  lemma WrittenShown(d: Decoder, h: nat, call: S.WriterCall, kinds: seq<Kind>)
    requires Shown(d, kinds) && d.Open(h) && S.WriterAllows(d.em.writers[h], call) && !call.CloseWriter?
    ensures Shown(d.Write(h, call), kinds)
  {
    hide Runs, TypesFor, S.Producer.Do, S.Producer.Sound;
    WriteTypes(d.em, h, call);
  }

  /** Closing what is written loses no item; then nothing is held. */
  lemma ClosedShown(ids: Ids, d: Decoder, kinds: seq<Kind>)
    requires Shown(d, kinds)
    ensures var r := d.CloseOpen(ids);
            r.Done? ==> r.value.Valid() && r.value.Idle() && TypesOf(r.value.em.resp.output) == TypesFor(Runs(kinds))
  {
    hide Runs, TypesFor, S.Producer.Do, S.Producer.Sound, Decoder.Named;
    if d.msg.Some? {
      WriteTypes(d.em, d.msg.value, S.CloseWriter);
    } else if d.reasoning.Some? {
      WriteTypes(d.em, d.reasoning.value, S.CloseWriter);
    } else if d.call.Some? && d.call.value.writer.Some? {
      var h := d.call.value.writer.value;
      WriteTypes(d.em, h, S.Arguments("{}"));
      WriteTypes(d.Argued().em, h, S.CloseWriter);
    }
  }

  lemma MessageShown(ids: Ids, d: Decoder, kinds: seq<Kind>)
    requires Shown(d, kinds)
    ensures Streams(d.OpenMessage(ids), kinds + [Reply])
  {
    hide Runs, TypesFor, S.Producer.Do, S.Producer.Sound, Decoder.CloseOpen;
    RunsNext(kinds, Reply);
    if d.msg.None? {
      ClosedShown(ids, d, kinds);
      TypesNext(Runs(kinds), Reply);
      if d.CloseOpen(ids).Done? {
        var c := d.CloseOpen(ids).value;
        OpenTypes(c.em, S.OpenMessage(ids.item(|c.em.resp.output|), "final_answer"));
      }
    }
  }

  lemma ReasoningShown(ids: Ids, d: Decoder, kinds: seq<Kind>)
    requires Shown(d, kinds)
    ensures Streams(d.OpenReasoning(ids), kinds + [Thinking])
  {
    hide Runs, TypesFor, S.Producer.Do, S.Producer.Sound, Decoder.CloseOpen;
    RunsNext(kinds, Thinking);
    if d.reasoning.None? {
      ClosedShown(ids, d, kinds);
      TypesNext(Runs(kinds), Thinking);
      if d.CloseOpen(ids).Done? {
        var c := d.CloseOpen(ids).value;
        OpenTypes(c.em, S.OpenReasoning(ids.item(|c.em.resp.output|)));
      }
    }
  }

  lemma TurnShown(ids: Ids, d: Decoder, index: int, kinds: seq<Kind>)
    requires Shown(d, kinds)
    ensures Streams(d.Turn(ids, index), kinds + [Call(index)])
  {
    hide Runs, TypesFor, S.Producer.Do, S.Producer.Sound, Decoder.CloseOpen;
    RunsNext(kinds, Call(index));
    if !(d.call.Some? && d.call.value.index == index) {
      ClosedShown(ids, d, kinds);
      TypesNext(Runs(kinds), Call(index));
    }
  }

  lemma TakeShown(ids: Ids, d: Decoder, f: Fragment, kinds: seq<Kind>)
    requires Shown(d, kinds) && d.call.Some? && f.index == d.call.value.index
    ensures Shown(d.Take(ids, f), kinds)
  {
    hide Runs, TypesFor, S.Producer.Do, S.Producer.Sound, Decoder.Named;
    var c := d.call.value;
    var id, name := if f.id != "" then f.id else c.id, c.name + f.name;
    if c.writer.None? {
      if name != "" {
        NamedShown(ids, d.(call := Some(CallState(c.index, id, name, c.buffered + f.arguments, None))), name,
                   TypesOf(d.em.resp.output));
      }
    } else if f.arguments != "" {
      WriteTypes(d.em, c.writer.value, S.Arguments(f.arguments));
    }
  }

  lemma NamedShown(ids: Ids, d: Decoder, name: string, types: seq<Types.ItemType>)
    requires d.em.Sound() && !d.em.terminal && d.call.Some? && d.msg.None? && d.reasoning.None?
    requires types == TypesOf(d.em.resp.output)
    ensures var n := d.Named(ids, name);
            && TypesOf(n.em.resp.output) == types + [Types.TypeFunctionCall]
            && n.call.value.index == d.call.value.index && n.call.value.writer.Some?
  {
    hide S.Producer.Sound, S.Producer.Do;
    var c, n, h := d.call.value, |d.em.resp.output|, |d.em.writers|;
    var opening := S.OpenCall(ids.item(n), if c.id != "" then c.id else ids.call(n), name);
    S.OpenKeeps(d.em);
    S.DoSound(d.em, opening);
    OpenTypes(d.em, opening);
    OpensCall(d.em, opening);
    if c.buffered != "" { WriteTypes(d.em.Do(opening), h, S.Arguments(c.buffered)); }
  }

  // ---- Deltas ------------------------------------------------------------------------------------

  lemma ToolCallShown(ids: Ids, d: Decoder, f: Fragment, kinds: seq<Kind>)
    requires Shown(d, kinds)
    ensures Streams(d.ToolCall(ids, f), kinds + [Call(f.index)])
  {
    hide Shown, Decoder.Turn, Decoder.Take;
    Held(d, kinds);
    TurnShown(ids, d, f.index, kinds);
    var t := d.Turn(ids, f.index);
    if t.Done? { TakeShown(ids, t.value, f, kinds + [Call(f.index)]); }
  }

  lemma Held(d: Decoder, kinds: seq<Kind>)
    requires Shown(d, kinds)
    ensures d.Valid()
  {
  }

  lemma {:induction false} ToolCallsShown(ids: Ids, d: Decoder, fragments: seq<Fragment>, kinds: seq<Kind>)
    requires Shown(d, kinds)
    ensures d.Valid() && Streams(ToolCalls(ids, d, fragments), kinds + CallKinds(fragments))
    decreases |fragments|
  {
    Held(d, kinds);
    hide Shown, Decoder.ToolCall, Decoder.Valid;
    if fragments == [] {
      assert kinds + CallKinds(fragments) == kinds;
    } else {
      var before := ToolCalls(ids, d, Front(fragments));
      var so_far := kinds + CallKinds(Front(fragments));
      ToolCallsShown(ids, d, Front(fragments), kinds);
      assert kinds + CallKinds(fragments) == so_far + [Call(Last(fragments).index)];
      if before.Done? { ToolCallShown(ids, before.value, Last(fragments), so_far); }
    }
  }


  lemma TellShown(ids: Ids, d: Decoder, call: S.WriterCall, kinds: seq<Kind>)
    requires Shown(d, kinds) && (call.Text? || call.Refuse? || call.AddLogprobs? || call.AddAnnotation?)
    requires call.AddAnnotation? ==> !call.annotation.NilAnnotation?
    ensures d.Valid() && Streams(d.Tell(ids, call), kinds + [Reply])
  {
    Held(d, kinds);
    hide Shown, Decoder.OpenMessage;
    MessageShown(ids, d, kinds);
    var m := d.OpenMessage(ids);
    if m.Done? { WrittenShown(m.value, m.value.msg.value, call, kinds + [Reply]); }
  }

  lemma ReasonShown(ids: Ids, d: Decoder, text: string, kinds: seq<Kind>)
    requires Shown(d, kinds)
    ensures d.Valid() && Streams(d.Reason(ids, text), kinds + [Thinking])
  {
    Held(d, kinds);
    hide Shown, Decoder.OpenReasoning;
    ReasoningShown(ids, d, kinds);
    var r := d.OpenReasoning(ids);
    if r.Done? { WrittenShown(r.value, r.value.reasoning.value, S.Reason(text), kinds + [Thinking]); }
  }

  lemma {:induction false} AnnotateShown(ids: Ids, d: Decoder, citations: seq<string>, kinds: seq<Kind>)
    requires Shown(d, kinds)
    ensures d.Valid() && Streams(d.Annotate(ids, citations), kinds + When(citations != [], Reply))
    decreases |citations|
  {
    Held(d, kinds);
    hide Shown, Streams, Decoder.Tell, Decoder.Valid, Runs;
    if citations == [] {
      assert kinds + [] == kinds;
      assert Streams(Done(d), kinds) by { Stays(d, kinds); }
    } else {
      AnnotateShown(ids, d, Front(citations), kinds);
      var before := d.Annotate(ids, Front(citations));
      var cite := S.AddAnnotation(Types.Annotation(Last(citations)));
      CitedShown(ids, before, cite, kinds, Front(citations) != []);
      if !before.Done? { Fails(d.Annotate(ids, citations), kinds + [Reply]); }
    }
  }

  lemma Stays(d: Decoder, kinds: seq<Kind>)
    requires Shown(d, kinds)
    ensures Streams(Done(d), kinds)
  {
  }

  lemma Fails(r: Outcome<Decoder>, kinds: seq<Kind>)
    requires !r.Done?
    ensures Streams(r, kinds)
  {
  }

  /** One more of a run of replies, or the first. */
  lemma CitedShown(ids: Ids, before: Outcome<Decoder>, call: S.WriterCall, kinds: seq<Kind>, cited: bool)
    requires Streams(before, kinds + When(cited, Reply)) && call.AddAnnotation? && !call.annotation.NilAnnotation?
    ensures before.Done? ==> before.value.Valid() && Streams(before.value.Tell(ids, call), kinds + [Reply])
  {
    hide Shown, Decoder.Tell, Decoder.Valid, Runs;
    assert kinds + [] == kinds;
    if before.Done? {
      TellShown(ids, before.value, call, kinds + When(cited, Reply));
      var told := before.value.Tell(ids, call);
      if cited && told.Done? { TwiceIsOnce(told.value, kinds, Reply); }
    }
  }

  lemma TwiceIsOnce(d: Decoder, kinds: seq<Kind>, kind: Kind)
    requires Shown(d, kinds + [kind] + [kind])
    ensures Shown(d, kinds + [kind])
  {
    hide Runs, TypesFor;
    RunsNext(kinds + [kind], kind);
  }

  /** One field of a delta, or none. */
  lemma MaybeShown(d: Decoder, r: Outcome<Decoder>, streamed: bool, kind: Kind, kinds: seq<Kind>)
    requires Shown(d, kinds)
    requires if streamed then Streams(r, kinds + [kind]) else r == Done(d)
    ensures Streams(r, kinds + When(streamed, kind))
  {
    hide Shown;
    assert kinds + [] == kinds;
  }

  lemma SpeakShown(ids: Ids, d: Decoder, dl: Delta, kinds: seq<Kind>)
    requires Shown(d, kinds)
    ensures d.Valid()
    ensures Streams(d.Speak(ids, dl), kinds + When(dl.reasoning != "", Thinking) + When(dl.content != "", Reply)
                                      + When(dl.refusal != "", Reply))
  {
    Held(d, kinds);
    hide Shown, Decoder.Reason, Decoder.Tell, Decoder.Valid, When;
    var a := kinds + When(dl.reasoning != "", Thinking);
    var b := a + When(dl.content != "", Reply);
    ReasonShown(ids, d, dl.reasoning, kinds);
    var r := if dl.reasoning != "" then d.Reason(ids, dl.reasoning) else Done(d);
    MaybeShown(d, r, dl.reasoning != "", Thinking, kinds);
    if r.Done? {
      TellShown(ids, r.value, S.Text(dl.content), a);
      var t := if dl.content != "" then r.value.Tell(ids, S.Text(dl.content)) else r;
      MaybeShown(r.value, t, dl.content != "", Reply, a);
      if t.Done? {
        TellShown(ids, t.value, S.Refuse(dl.refusal), b);
        MaybeShown(t.value, d.Speak(ids, dl), dl.refusal != "", Reply, b);
      }
    }
  }

  lemma NoteShown(ids: Ids, d: Decoder, citations: seq<string>, logprobs: seq<string>, kinds: seq<Kind>)
    requires Shown(d, kinds)
    ensures d.Valid()
    ensures Streams(d.Note(ids, citations, logprobs), kinds + When(citations != [], Reply)
                    + When(logprobs != [], Reply))
  {
    Held(d, kinds);
    hide Shown, Decoder.Annotate, Decoder.Tell, Decoder.Valid, When;
    AnnotateShown(ids, d, citations, kinds);
    var noted := d.Annotate(ids, citations);
    var a := kinds + When(citations != [], Reply);
    if noted.Done? {
      TellShown(ids, noted.value, S.AddLogprobs(logprobs), a);
      MaybeShown(noted.value, d.Note(ids, citations, logprobs), logprobs != [], Reply, a);
    }
  }

  lemma DeltaShown(ids: Ids, d: Decoder, dl: Delta, kinds: seq<Kind>)
    requires Shown(d, kinds)
    ensures d.Valid() && Streams(d.Delta(ids, dl), kinds + KindsOf(dl))
  {
    Held(d, kinds);
    hide Shown, Streams, Decoder.Speak, Decoder.Note, ToolCalls, Decoder.Valid, When, CallKinds, KindsOf;
    SpeakShown(ids, d, dl, kinds);
    var a := kinds + When(dl.reasoning != "", Thinking) + When(dl.content != "", Reply) + When(dl.refusal != "", Reply);
    var spoken := d.Speak(ids, dl);
    FieldByField(kinds, dl);
    if spoken.Done? {
      Goes(spoken, a);
      RestShown(ids, spoken.value, dl, a);
    } else {
      Fails(d.Delta(ids, dl), kinds + KindsOf(dl));
    }
  }

  /** The tool calls of a delta, its citations and its log probabilities. */
  lemma RestShown(ids: Ids, d: Decoder, dl: Delta, kinds: seq<Kind>)
    requires Shown(d, kinds)
    ensures d.Valid()
    ensures var called := ToolCalls(ids, d, dl.toolCalls);
            Streams(if called.Done? then called.value.Note(ids, dl.citations, dl.logprobs) else called,
                    kinds + CallKinds(dl.toolCalls) + When(dl.citations != [], Reply) + When(dl.logprobs != [], Reply))
  {
    Held(d, kinds);
    hide Shown, Streams, Decoder.Note, ToolCalls, Decoder.Valid, When, CallKinds;
    ToolCallsShown(ids, d, dl.toolCalls, kinds);
    var called := ToolCalls(ids, d, dl.toolCalls);
    if called.Done? {
      Goes(called, kinds + CallKinds(dl.toolCalls));
      NoteShown(ids, called.value, dl.citations, dl.logprobs, kinds + CallKinds(dl.toolCalls));
    } else {
      Fails(called, kinds + CallKinds(dl.toolCalls) + When(dl.citations != [], Reply) + When(dl.logprobs != [], Reply));
    }
  }

  lemma Goes(r: Outcome<Decoder>, kinds: seq<Kind>)
    requires Streams(r, kinds) && r.Done?
    ensures Shown(r.value, kinds)
  {
  }

  lemma FieldByField(kinds: seq<Kind>, dl: Delta)
    ensures kinds + KindsOf(dl)
            == kinds + When(dl.reasoning != "", Thinking) + When(dl.content != "", Reply)
                + When(dl.refusal != "", Reply)
               + CallKinds(dl.toolCalls) + When(dl.citations != [], Reply) + When(dl.logprobs != [], Reply)
  {
    hide When, CallKinds;
    var a, b, c := When(dl.reasoning != "", Thinking), When(dl.content != "", Reply), When(dl.refusal != "", Reply);
    var e, f, g := CallKinds(dl.toolCalls), When(dl.citations != [], Reply), When(dl.logprobs != [], Reply);
    Associate(kinds, a + b + c + e + f, g);
    Associate(kinds, a + b + c + e, f);
    Associate(kinds, a + b + c, e);
    Associate(kinds, a + b, c);
    Associate(kinds, a, b);
  }

  lemma Associate(a: seq<Kind>, b: seq<Kind>, c: seq<Kind>)
    ensures a + (b + c) == a + b + c
  {
  }

  lemma {:induction false} DecodeShown(ids: Ids, d: Decoder, deltas: seq<Delta>, kinds: seq<Kind>)
    requires Shown(d, kinds)
    ensures d.Valid() && Streams(Decode(ids, d, deltas), kinds + AllKinds(deltas))
    decreases |deltas|
  {
    Held(d, kinds);
    hide Shown, Streams, Decoder.Delta, Decoder.Valid, KindsOf;
    if deltas == [] {
      assert kinds + [] == kinds;
      Stays(d, kinds);
    } else {
      DecodeShown(ids, d, Front(deltas), kinds);
      var before, a := Decode(ids, d, Front(deltas)), kinds + AllKinds(Front(deltas));
      Associate(kinds, AllKinds(Front(deltas)), KindsOf(Last(deltas)));
      if before.Done? {
        Goes(before, a);
        DeltaShown(ids, before.value, Last(deltas), a);
      } else {
        Fails(Decode(ids, d, deltas), a + KindsOf(Last(deltas)));
      }
    }
  }

  /** The items of an answer that gets to its end, in order: a message for each
      run of neighbouring text, refusals, citations and log probabilities, a
      reasoning item for each run of reasoning, a call for each run of fragments
      of one index, and no others. */
  lemma ItemsAreRuns(ids: Ids, resp: Types.Response, deltas: seq<Delta>, stop: Option<string>)
    requires S.Fresh(resp) && Answer(ids, Begin(resp), deltas, stop).Done?
    ensures TypesOf(Answer(ids, Begin(resp), deltas, stop).value.resp.output) == TypesFor(Runs(AllKinds(deltas)))
  {
    hide Decode, Decoder.EndCall, AllKinds, Runs, TypesFor, S.Producer.Do;
    var kinds := AllKinds(deltas);
    BeginShown(resp);
    DecodeShown(ids, Begin(resp), deltas, []);
    assert [] + kinds == kinds;
    var d := Decode(ids, Begin(resp), deltas).value;
    EndShown(ids, d, kinds);
    var e := d.EndCall(ids).value;
    EndTypes(e.em, if stop.None? then S.CompleteStream else S.StopStream(stop.value));
  }

  lemma BeginShown(resp: Types.Response)
    requires S.Fresh(resp)
    ensures Shown(Begin(resp), [])
  {
  }

  lemma EndShown(ids: Ids, d: Decoder, kinds: seq<Kind>)
    requires Shown(d, kinds) && d.EndCall(ids).Done?
    ensures TypesOf(d.EndCall(ids).value.em.resp.output) == TypesFor(Runs(kinds))
  {
    hide Runs, TypesFor, S.Producer.Do, S.Producer.Sound, Decoder.Named;
    if d.call.Some? && d.call.value.writer.Some? { WriteTypes(d.em, d.call.value.writer.value, S.Arguments("{}")); }
  }
}

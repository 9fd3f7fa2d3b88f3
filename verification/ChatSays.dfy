/** What a decoded Chat Completions answer says is what the server streamed:
    text, refusals, reasoning, citations and log probabilities, in order. */
module ChatSays {
  import opened ChatDecoderSpec
  import opened ItemTypes
  import opened OutputSays
  import opened Saying
  import opened Wrappers
  import C = ChatConforms
  import I = ItemStatus
  import R = Reaching
  import S = EmitterSpec
  import Types

  /** What one delta says: reasoning, then text, then a refusal; its citations;
      its log probabilities. */
  function DeltaSays(ch: Channel, dl: Delta): seq<Token> {
    match ch
    case Words => Thoughts(dl.reasoning) + Texts(dl.content) + Refusals(dl.refusal)
    case Citations => Cites(Annotations(dl.citations))
    case Logprobs => Weights(dl.logprobs)
    case _ => []
  }

  function DeltasSay(ch: Channel, deltas: seq<Delta>): seq<Token> {
    if deltas == [] then [] else DeltasSay(ch, Front(deltas)) + DeltaSays(ch, Last(deltas))
  }

  /** The channels a delta says something on or that stay silent; the arguments
      of calls are the calls' own matter. */
  predicate Spoken(ch: Channel) { !ch.CallArguments? }

  /** What the item at place p was announced as. */
  predicate HeadFits(ids: Ids, p: nat, head: Types.Item) {
    || head == Types.Message(ids.item(p), Types.Unset, "assistant", "final_answer", [])
    || head == Types.Reasoning(ids.item(p), Types.Unset, [], [], "")
    || (head.FunctionCall? && head.id == ids.item(p) && (head.callId != "" || head.callId == ids.call(p)))
  }

  function Fit(ids: Ids): Fits { (p: nat, head: Types.Item) => HeadFits(ids, p, head) }

  /** A step that, when it goes through, says exactly these tokens. */
  ghost predicate Adds(ch: Channel, ids: Ids, d: Decoder, r: Outcome<Decoder>, tokens: seq<Token>) {
    r.Done? ==> Says(ch, Fit(ids), d.em, r.value.em, tokens)
  }

  // ---- Single writes ----------------------------------------------------------------------------------

  lemma ShutSays(ch: Channel, ids: Ids, d: Decoder, h: nat)
    requires d.Valid() && d.Open(h)
    ensures Says(ch, Fit(ids), d.em, d.Shut(h).em, [])
  {
    OpenWriteSays(ch, Fit(ids), d.em, h, S.CloseWriter);
  }

  lemma NamedSays(ch: Channel, ids: Ids, d: Decoder, name: string)
    requires Spoken(ch) && d.em.Sound() && !d.em.terminal && d.call.Some? && d.msg.None? && d.reasoning.None?
    ensures Says(ch, Fit(ids), d.em, d.Named(ids, name).em, [])
  {
    hide Says, S.Producer.Do, S.Producer.Sound, Writes;
    var c, n, h := d.call.value, |d.em.resp.output|, |d.em.writers|;
    var callId := if c.id != "" then c.id else ids.call(n);
    var opening := S.OpenCall(ids.item(n), callId, name);
    S.OpenKeeps(d.em);
    S.DoSound(d.em, opening);
    var e := Decoder(d.em.Do(opening), None, None, Some(CallState(c.index, c.id, name, "", Some(h))));
    OpeningSilent(ch, Fit(ids), d.em, opening, Types.FunctionCall(ids.item(n), Types.Unset, callId, name, ""));
    OpensCall(d.em, opening);
    NoArguments(ch, c.buffered);
    if c.buffered != "" {
      OpenWriteSays(ch, Fit(ids), e.em, h, S.Arguments(c.buffered));
      SaysBoth(ch, Fit(ids), d.em, e.em, [], d.Named(ids, name).em, []);
    }
  }

  lemma NoArguments(ch: Channel, delta: string)
    requires Spoken(ch)
    ensures Writes(ch, S.Arguments(delta)) == []
  {
  }

  lemma EndCallSays(ch: Channel, ids: Ids, d: Decoder)
    requires Spoken(ch) && d.Valid()
    ensures Adds(ch, ids, d, d.EndCall(ids), [])
    ensures d.call.Some? ==> Adds(ch, ids, d, d.CloseCall(ids), [])
  {
    hide Says, Decoder.Named;
    SaysNothing(ch, Fit(ids), d.em);
    if d.call.Some? && d.call.value.writer.Some? {
      var h := d.call.value.writer.value;
      OpenWriteSays(ch, Fit(ids), d.em, h, S.Arguments("{}"));
      ShutSays(ch, ids, d.Argued(), h);
      SaysBoth(ch, Fit(ids), d.em, d.Argued().em, [], d.Argued().Shut(h).em, []);
    }
  }

  lemma CloseOpenSays(ch: Channel, ids: Ids, d: Decoder)
    requires Spoken(ch) && d.Valid()
    ensures Adds(ch, ids, d, d.CloseOpen(ids), [])
  {
    hide Says, Decoder.CloseCall;
    SaysNothing(ch, Fit(ids), d.em);
    if d.msg.Some? { ShutSays(ch, ids, d, d.msg.value); }
    else if d.reasoning.Some? { ShutSays(ch, ids, d, d.reasoning.value); }
    else if d.call.Some? { EndCallSays(ch, ids, d); }
  }

  lemma OpensSay(ch: Channel, ids: Ids, d: Decoder)
    requires Spoken(ch) && d.Valid()
    ensures Adds(ch, ids, d, d.OpenMessage(ids), []) && Adds(ch, ids, d, d.OpenReasoning(ids), [])
  {
    hide Says, S.Producer.Do, Decoder.CloseOpen;
    SaysNothing(ch, Fit(ids), d.em);
    CloseOpenSays(ch, ids, d);
    if d.CloseOpen(ids).Done? {
      var c := d.CloseOpen(ids).value;
      var id := ids.item(|c.em.resp.output|);
      OpeningSilent(ch, Fit(ids), c.em, S.OpenMessage(id, "final_answer"),
                  Types.Message(id, Types.Unset, "assistant", "final_answer", []));
      OpeningSilent(ch, Fit(ids), c.em, S.OpenReasoning(id), Types.Reasoning(id, Types.Unset, [], [], ""));
      SaysBoth(ch, Fit(ids), d.em, c.em, [], c.NewMessage(ids).em, []);
      SaysBoth(ch, Fit(ids), d.em, c.em, [], c.NewReasoning(ids).em, []);
    }
  }

  // ---- One delta ------------------------------------------------------------------------------------------

  lemma TellSays(ch: Channel, ids: Ids, d: Decoder, call: S.WriterCall)
    requires Spoken(ch) && d.Valid() && (call.Text? || call.Refuse? || call.AddLogprobs? || call.AddAnnotation?)
    requires call.AddAnnotation? ==> !call.annotation.NilAnnotation?
    ensures Adds(ch, ids, d, d.Tell(ids, call), Writes(ch, call))
  {
    hide Says, Writes, Decoder.OpenMessage;
    OpensSay(ch, ids, d);
    var m := d.OpenMessage(ids);
    if m.Done? {
      OpenWriteSays(ch, Fit(ids), m.value.em, m.value.msg.value, call);
      SaysBoth(ch, Fit(ids), d.em, m.value.em, [], d.Tell(ids, call).value.em, Writes(ch, call));
    }
  }

  lemma ThinkSays(ch: Channel, ids: Ids, d: Decoder, text: string)
    requires Spoken(ch) && d.Valid()
    ensures Adds(ch, ids, d, d.Reason(ids, text), Writes(ch, S.Reason(text)))
  {
    hide Says, Writes, Decoder.OpenReasoning;
    OpensSay(ch, ids, d);
    var r := d.OpenReasoning(ids);
    if r.Done? {
      OpenWriteSays(ch, Fit(ids), r.value.em, r.value.reasoning.value, S.Reason(text));
      SaysBoth(ch, Fit(ids), d.em, r.value.em, [], d.Reason(ids, text).value.em, Writes(ch, S.Reason(text)));
    }
  }

  /** Optional steps one after the other say one after the other. */
  lemma AddsBoth(ch: Channel, ids: Ids, d: Decoder, first: Outcome<Decoder>, a: seq<Token>, both: Outcome<Decoder>,
                 b: seq<Token>)
    requires Adds(ch, ids, d, first, a)
    requires first.Done? ==> Adds(ch, ids, first.value, both, b)
    requires !first.Done? ==> !both.Done?
    ensures Adds(ch, ids, d, both, a + b)
  {
    hide Says;
    if both.Done? { SaysBoth(ch, Fit(ids), d.em, first.value.em, a, both.value.em, b); }
  }

  lemma SilentText(ch: Channel)
    ensures Writes(ch, S.Reason("")) == [] && Writes(ch, S.Text("")) == [] && Writes(ch, S.Refuse("")) == []
    ensures Writes(ch, S.AddLogprobs([])) == []
  {
  }

  /** The words of a delta in the order it says them. */
  lemma SpeakSays(ch: Channel, ids: Ids, d: Decoder, dl: Delta)
    requires Spoken(ch) && d.Valid()
    ensures Adds(ch, ids, d, d.Speak(ids, dl),
                 Writes(ch, S.Reason(dl.reasoning)) + Writes(ch, S.Text(dl.content)) + Writes(ch, S.Refuse(dl.refusal)))
  {
    hide Says, Writes, Decoder.Reason, Decoder.Tell;
    SilentText(ch);
    SaysNothing(ch, Fit(ids), d.em);
    var a, b, c := Writes(ch, S.Reason(dl.reasoning)), Writes(ch, S.Text(dl.content)), Writes(ch, S.Refuse(dl.refusal));
    var r := if dl.reasoning != "" then d.Reason(ids, dl.reasoning) else Done(d);
    ThinkSays(ch, ids, d, dl.reasoning);
    if r.Done? {
      SaysNothing(ch, Fit(ids), r.value.em);
      var t := if dl.content != "" then r.value.Tell(ids, S.Text(dl.content)) else r;
      TellSays(ch, ids, r.value, S.Text(dl.content));
      AddsBoth(ch, ids, d, r, a, t, b);
      if t.Done? {
        SaysNothing(ch, Fit(ids), t.value.em);
        TellSays(ch, ids, t.value, S.Refuse(dl.refusal));
      }
      AddsBoth(ch, ids, d, t, a + b, d.Speak(ids, dl), c);
    }
  }

  lemma TakeSays(ch: Channel, ids: Ids, d: Decoder, f: Fragment)
    requires Spoken(ch) && d.Valid() && d.call.Some? && f.index == d.call.value.index
    ensures Says(ch, Fit(ids), d.em, d.Take(ids, f).em, [])
  {
    hide Says, Decoder.Named;
    var c := d.call.value;
    var id, name := if f.id != "" then f.id else c.id, c.name + f.name;
    var e := d.(call := Some(CallState(c.index, id, name, if c.writer.None? then c.buffered + f.arguments else "",
                                       c.writer)));
    SaysNothing(ch, Fit(ids), d.em);
    if c.writer.None? {
      if name != "" {
        NamedSays(ch, ids, e, name);
      }
    } else if f.arguments != "" {
      OpenWriteSays(ch, Fit(ids), e.em, c.writer.value, S.Arguments(f.arguments));
    }
  }

  lemma ToolCallSays(ch: Channel, ids: Ids, d: Decoder, f: Fragment)
    requires Spoken(ch) && d.Valid()
    ensures Adds(ch, ids, d, d.ToolCall(ids, f), [])
  {
    hide Says, Decoder.CloseOpen, Decoder.Take;
    CloseOpenSays(ch, ids, d);
    SaysNothing(ch, Fit(ids), d.em);
    var t := d.Turn(ids, f.index);
    if t.Done? {
      TurnSays(ch, ids, d, f.index);
      TakeSays(ch, ids, t.value, f);
      SaysBoth(ch, Fit(ids), d.em, t.value.em, [], d.ToolCall(ids, f).value.em, []);
    }
  }

  lemma TurnSays(ch: Channel, ids: Ids, d: Decoder, index: int)
    requires Spoken(ch) && d.Valid()
    ensures Adds(ch, ids, d, d.Turn(ids, index), [])
  {
    hide Says, Decoder.CloseOpen;
    CloseOpenSays(ch, ids, d);
    SaysNothing(ch, Fit(ids), d.em);
    if d.Turn(ids, index).Done? && d.CloseOpen(ids).Done? {
      var c := d.CloseOpen(ids).value;
      var e := c.(call := Some(CallState(index, "", "", "", None)));
      SaysNothing(ch, Fit(ids), c.em);
    }
  }

  lemma {:induction false} ToolCallsSay(ch: Channel, ids: Ids, d: Decoder, fragments: seq<Fragment>)
    requires Spoken(ch) && d.Valid()
    ensures Adds(ch, ids, d, ToolCalls(ids, d, fragments), [])
    decreases |fragments|
  {
    hide Says, Decoder.ToolCall, Decoder.Valid;
    SaysNothing(ch, Fit(ids), d.em);
    if fragments != [] {
      ToolCallsSay(ch, ids, d, Front(fragments));
      var before := ToolCalls(ids, d, Front(fragments));
      if before.Done? { ToolCallSays(ch, ids, before.value, Last(fragments)); }
      var none: seq<Token> := [];
      assert none + none == none;
      AddsBoth(ch, ids, d, before, none, ToolCalls(ids, d, fragments), none);
    }
  }

  lemma {:induction false} AnnotateSays(ch: Channel, ids: Ids, d: Decoder, citations: seq<string>)
    requires Spoken(ch) && d.Valid()
    ensures Adds(ch, ids, d, d.Annotate(ids, citations), if ch.Citations? then Cites(Annotations(citations)) else [])
    decreases |citations|
  {
    hide Says, Decoder.Tell, Decoder.Valid;
    SaysNothing(ch, Fit(ids), d.em);
    if citations == [] {
      assert Cites(Annotations([])) == [];
    } else {
      AnnotateSays(ch, ids, d, Front(citations));
      var before := d.Annotate(ids, Front(citations));
      var a := S.AddAnnotation(Types.Annotation(Last(citations)));
      if before.Done? { TellSays(ch, ids, before.value, a); }
      AddsBoth(ch, ids, d, before, if ch.Citations? then Cites(Annotations(Front(citations))) else [],
               d.Annotate(ids, citations), Writes(ch, a));
      assert !ch.Citations? ==> [] + Writes(ch, a) == [];
      assert Cites(Annotations(citations)) == Cites(Annotations(Front(citations)))
          + [Cited(Types.Annotation(Last(citations)))];
    }
  }

  lemma NoteSays(ch: Channel, ids: Ids, d: Decoder, citations: seq<string>, logprobs: seq<string>)
    requires Spoken(ch) && d.Valid()
    ensures Adds(ch, ids, d, d.Note(ids, citations, logprobs),
                 (if ch.Citations? then Cites(Annotations(citations)) else []) + Writes(ch, S.AddLogprobs(logprobs)))
  {
    hide Says, Writes, Decoder.Annotate, Decoder.Tell, Decoder.Valid;
    AnnotateSays(ch, ids, d, citations);
    SilentText(ch);
    var noted := d.Annotate(ids, citations);
    if noted.Done? {
      SaysNothing(ch, Fit(ids), noted.value.em);
      TellSays(ch, ids, noted.value, S.AddLogprobs(logprobs));
    }
    AddsBoth(ch, ids, d, noted, if ch.Citations? then Cites(Annotations(citations)) else [],
             d.Note(ids, citations, logprobs), Writes(ch, S.AddLogprobs(logprobs)));
  }

  lemma DeltaTokens(ch: Channel, dl: Delta)
    requires Spoken(ch)
    ensures DeltaSays(ch, dl)
            == Writes(ch, S.Reason(dl.reasoning)) + Writes(ch, S.Text(dl.content)) + Writes(ch, S.Refuse(dl.refusal))
               + ([] + ((if ch.Citations? then Cites(Annotations(dl.citations)) else [])
                        + Writes(ch, S.AddLogprobs(dl.logprobs))))
  {
    match ch
    case Words =>
    case SummaryWords =>
    case Citations =>
    case Logprobs =>
    case Heads =>
  }

  lemma DeltaAdds(ch: Channel, ids: Ids, d: Decoder, dl: Delta)
    requires Spoken(ch) && d.Valid()
    ensures Adds(ch, ids, d, d.Delta(ids, dl), DeltaSays(ch, dl))
  {
    hide Says, Writes, DeltaSays, Decoder.Speak, Decoder.Note, ToolCalls, Decoder.Valid;
    DeltaTokens(ch, dl);
    var words := Writes(ch, S.Reason(dl.reasoning)) + Writes(ch, S.Text(dl.content)) + Writes(ch, S.Refuse(dl.refusal));
    var notes := (if ch.Citations? then Cites(Annotations(dl.citations)) else [])
        + Writes(ch, S.AddLogprobs(dl.logprobs));
    SpeakSays(ch, ids, d, dl);
    var spoken := d.Speak(ids, dl);
    if spoken.Done? {
      ToolCallsSay(ch, ids, spoken.value, dl.toolCalls);
      var called := ToolCalls(ids, spoken.value, dl.toolCalls);
      if called.Done? { NoteSays(ch, ids, called.value, dl.citations, dl.logprobs); }
      AddsBoth(ch, ids, spoken.value, called, [], d.Delta(ids, dl), notes);
    }
    AddsBoth(ch, ids, d, spoken, words, d.Delta(ids, dl), [] + notes);
  }

  // ---- A whole answer -----------------------------------------------------------------------------------------

  lemma {:induction false} DecodeSays(ch: Channel, ids: Ids, d: Decoder, deltas: seq<Delta>)
    requires Spoken(ch) && d.Valid()
    ensures Adds(ch, ids, d, Decode(ids, d, deltas), DeltasSay(ch, deltas))
  {
    hide Says, Decoder.Delta, DeltaSays, Decoder.Valid;
    SaysNothing(ch, Fit(ids), d.em);
    if deltas != [] {
      DecodeSays(ch, ids, d, Front(deltas));
      var before := Decode(ids, d, Front(deltas));
      if before.Done? { DeltaAdds(ch, ids, before.value, Last(deltas)); }
      AddsBoth(ch, ids, d, before, DeltasSay(ch, Front(deltas)), Decode(ids, d, deltas), DeltaSays(ch, Last(deltas)));
    }
  }

  lemma AnswerAdds(ch: Channel, ids: Ids, resp: Types.Response, deltas: seq<Delta>, stop: Option<string>)
    requires S.Fresh(resp) && Spoken(ch) && Answer(ids, Begin(resp), deltas, stop).Done?
    ensures Says(ch, Fit(ids), Begin(resp).em, Answer(ids, Begin(resp), deltas, stop).value, DeltasSay(ch, deltas))
  {
    hide Says, Decode, Decoder.EndCall, DeltasSay, S.Producer.Do;
    DecodeSays(ch, ids, Begin(resp), deltas);
    var d := Decode(ids, Begin(resp), deltas).value;
    EndCallSays(ch, ids, d);
    var e := d.EndCall(ids).value;
    SaysBoth(ch, Fit(ids), Begin(resp).em, d.em, DeltasSay(ch, deltas), e.em, []);
    EndingSays(ch, Fit(ids), e.em, if stop.None? then S.CompleteStream else S.StopStream(stop.value));
    SaysBoth(ch, Fit(ids), Begin(resp).em, e.em, DeltasSay(ch, deltas), Answer(ids, Begin(resp), deltas, stop).value,
             []);
  }

  /** Whatever deltas lead to the end of an answer: its reasoning, text and
      refusals are the deltas' in their order, its citations and its log
      probabilities are the deltas', nothing lost, added or turned into another
      kind, and there are no summaries. */
  lemma AnswerSays(ch: Channel, ids: Ids, resp: Types.Response, deltas: seq<Delta>, stop: Option<string>)
    requires S.Fresh(resp) && !ch.CallArguments? && !ch.Heads? && Answer(ids, Begin(resp), deltas, stop).Done?
    ensures Said(ch, Answer(ids, Begin(resp), deltas, stop).value.resp.output) == DeltasSay(ch, deltas)
  {
    AnswerAdds(ch, ids, resp, deltas, stop);
    SaidInAll(ch, Fit(ids), Begin(resp).em, Answer(ids, Begin(resp), deltas, stop).value, DeltasSay(ch, deltas));
  }

  /** Every item of an answer is an assistant message with the answer's final
      phase, a reasoning item or a call, with the id its place gives, and every
      call has an id of the server's or the one its place gives. */
  lemma AnswerItems(ids: Ids, resp: Types.Response, deltas: seq<Delta>, stop: Option<string>)
    requires S.Fresh(resp) && Answer(ids, Begin(resp), deltas, stop).Done?
    ensures var output := Answer(ids, Begin(resp), deltas, stop).value.resp.output;
            forall p :: 0 <= p < |output| ==> HeadFits(ids, p, Head(output[p]))
  {
    AnswerAdds(Heads, ids, resp, deltas, stop);
    hide HeadFits;
    SaidInAll(Heads, Fit(ids), Begin(resp).em, Answer(ids, Begin(resp), deltas, stop).value, DeltasSay(Heads, deltas));
  }

  // ---- One kind at a time -------------------------------------------------------------------------------------

  datatype Voice = AsText | AsRefusal | AsThought

  function LetterOf(v: Voice, token: Token): string {
    match (v, token)
    case (AsText, TextChar(c)) => [c]
    case (AsRefusal, RefusalChar(c)) => [c]
    case (AsThought, ThoughtChar(c)) => [c]
    case _ => ""
  }

  /** What is said in one voice. */
  function Letters(v: Voice, tokens: seq<Token>): string {
    if tokens == [] then "" else Letters(v, Front(tokens)) + LetterOf(v, Last(tokens))
  }

  function FieldOf(v: Voice, dl: Delta): string {
    match v case AsText => dl.content case AsRefusal => dl.refusal case AsThought => dl.reasoning
  }

  function JoinedField(v: Voice, deltas: seq<Delta>): string {
    if deltas == [] then "" else JoinedField(v, Front(deltas)) + FieldOf(v, Last(deltas))
  }

  lemma {:induction false} LettersJoin(v: Voice, a: seq<Token>, b: seq<Token>)
    ensures Letters(v, a + b) == Letters(v, a) + Letters(v, b)
    decreases |b|
  {
    hide LetterOf;
    if b == [] {
      assert a + b == a;
    } else {
      assert Front(a + b) == a + Front(b) && Last(a + b) == Last(b);
      LettersJoin(v, a, Front(b));
    }
  }

  lemma {:induction false} CharsLetters(v: Voice, text: string, token: char -> Token, heard: bool)
    requires forall c :: LetterOf(v, token(c)) == if heard then [c] else ""
    ensures Letters(v, Chars(text, token)) == if heard then text else ""
  {
    hide LetterOf;
    if text != "" {
      CharsLetters(v, Front(text), token, heard);
      assert Front(Chars(text, token)) == Chars(Front(text), token) && Last(Chars(text, token)) == token(Last(text));
      assert Front(text) + [Last(text)] == text;
    }
  }

  lemma LettersOf(v: Voice, text: string)
    ensures Letters(v, Texts(text)) == if v.AsText? then text else ""
    ensures Letters(v, Refusals(text)) == if v.AsRefusal? then text else ""
    ensures Letters(v, Thoughts(text)) == if v.AsThought? then text else ""
  {
    hide Letters, Chars;
    CharsLetters(v, text, c => TextChar(c), v.AsText?);
    CharsLetters(v, text, c => RefusalChar(c), v.AsRefusal?);
    CharsLetters(v, text, c => ThoughtChar(c), v.AsThought?);
  }

  lemma DeltaLetters(v: Voice, dl: Delta)
    ensures Letters(v, DeltaSays(Words, dl)) == FieldOf(v, dl)
  {
    hide Letters, Texts, Refusals, Thoughts;
    LettersOf(v, dl.reasoning);
    LettersOf(v, dl.content);
    LettersOf(v, dl.refusal);
    LettersJoin(v, Thoughts(dl.reasoning), Texts(dl.content));
    LettersJoin(v, Thoughts(dl.reasoning) + Texts(dl.content), Refusals(dl.refusal));
    assert "" + dl.content == dl.content && "" + dl.refusal == dl.refusal && dl.reasoning + "" == dl.reasoning;
  }

  lemma {:induction false} DeltasLetters(v: Voice, deltas: seq<Delta>)
    ensures Letters(v, DeltasSay(Words, deltas)) == JoinedField(v, deltas)
  {
    hide DeltaSays, FieldOf;
    if deltas != [] {
      DeltasLetters(v, Front(deltas));
      LettersJoin(v, DeltasSay(Words, Front(deltas)), DeltaSays(Words, Last(deltas)));
      DeltaLetters(v, Last(deltas));
    }
  }

  /** The text of an answer is the content of its deltas joined, its refusals
      their refusals joined, its reasoning their reasoning joined. */
  lemma AnswerText(v: Voice, ids: Ids, resp: Types.Response, deltas: seq<Delta>, stop: Option<string>)
    requires S.Fresh(resp) && Answer(ids, Begin(resp), deltas, stop).Done?
    ensures Letters(v, Said(Words, Answer(ids, Begin(resp), deltas, stop).value.resp.output)) == JoinedField(v, deltas)
  {
    AnswerSays(Words, ids, resp, deltas, stop);
    DeltasLetters(v, deltas);
  }

  // ---- How an answer ends --------------------------------------------------------------------------------------

  /** An answer ends as its finish reason says: the last event is the terminal
      snapshot, and an item still being written then is completed, or incomplete
      when the answer was cut off. */
  lemma AnswerEnds(ids: Ids, resp: Types.Response, deltas: seq<Delta>, stop: Option<string>)
    requires S.Fresh(resp) && Answer(ids, Begin(resp), deltas, stop).Done?
    ensures Decode(ids, Begin(resp), deltas).Done?
    ensures var d, e := Decode(ids, Begin(resp), deltas).value, Answer(ids, Begin(resp), deltas, stop).value;
            && e.sent != [] && Last(e.sent) == Types.Snapshot(if stop.None? then Types.Finished else Types.Stopped,
                Some(e.resp))
            && e.resp.status == (if stop.None? then Types.RCompleted else Types.RIncomplete)
            && (stop.Some? ==> e.resp.reason == stop)
            && (!d.Idle() ==>
                  && e.resp.output != []
                  && Types.StatusOf(Last(e.resp.output)) == if stop.None? then Types.Completed else Types.Incomplete)
  {
    hide R.Reached, Decode, Decoder.EndCall, S.Producer.Do, I.Settled;
    C.DecodedIsRun(ids, resp, deltas, stop);
    R.StartReached(resp);
    C.DeltasReach(ids, Begin(resp), deltas, resp);
    var d := Decode(ids, Begin(resp), deltas).value;
    C.EndCallReaches(ids, d, resp);
    var e := d.EndCall(ids).value;
    R.ReachedHolds(e.em, resp, false);
    EndCallKeeps(ids, d);
    LiveEnds(e, stop);
  }

  lemma EndCallKeeps(ids: Ids, d: Decoder)
    requires d.Valid() && d.EndCall(ids).Done?
    ensures d.EndCall(ids).value.Idle() == d.Idle()
  {
  }

  lemma LiveEnds(d: Decoder, stop: Option<string>)
    requires d.Valid() && I.Settled(d.em)
    ensures var e := d.em.Do(if stop.None? then S.CompleteStream else S.StopStream(stop.value));
            && e.sent != [] && Last(e.sent) == Types.Snapshot(if stop.None? then Types.Finished else Types.Stopped,
                Some(e.resp))
            && e.resp.status == (if stop.None? then Types.RCompleted else Types.RIncomplete)
            && (stop.Some? ==> e.resp.reason == stop)
            && (!d.Idle() && !d.Nameless() ==>
                  && e.resp.output != []
                  && Types.StatusOf(Last(e.resp.output)) == if stop.None? then Types.Completed else Types.Incomplete)
  {
    hide S.Producer.Do, S.Producer.Sound;
    if stop.None? { I.CompleteFinishes(d.em); } else { I.StopMarks(d.em, stop.value); }
    if !d.Idle() && !d.Nameless() { HeldIsLast(d); }
  }

  /** What the decoder is writing is the last item. */
  lemma HeldIsLast(d: Decoder)
    requires d.Valid() && !d.Idle() && !d.Nameless()
    ensures d.em.resp.output != [] && S.LiveAt(d.em, |d.em.resp.output| - 1)
  {
    var h := if d.msg.Some? then d.msg.value
             else if d.reasoning.Some? then d.reasoning.value else d.call.value.writer.value;
    assert d.em.WriterSound(h);
  }
}

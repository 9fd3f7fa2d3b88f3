/** Which items a decoded Gemini answer has, and in what order. */
module GeminiItems {
  import opened GeminiDecoderSpec
  import opened GeminiTypes
  import opened ItemTypes
  import opened Wrappers
  import S = EmitterSpec
  import Types

  /** What a streamed thing asks for: the message, the reasoning item, an item
      of its own, or that what is being written is over. */
  datatype Want = Talk | Think | Whole(itemType: Types.ItemType) | Stop

  /** A signature that is not a thought's is a reasoning item that is over at once. */
  function SignatureWants(p: Part): seq<Want> { if p.signature.Some? && !p.thought then [Think, Stop] else [] }

  /** A thought, a whole call or extension, or text, if any. */
  function BodyWants(p: Part): seq<Want> {
    if p.body.Call? then [Whole(Types.TypeFunctionCall)]
    else if p.thought then [Think]
    else match p.body
      case Text(text) => if text == "" then [] else [Talk]
      case Other(kind, _) => [Whole(Types.TypeOtherItem("gemini." + kind))]
      case _ => []
  }

  function WantsOf(p: Part): seq<Want> { SignatureWants(p) + BodyWants(p) }

  function PartsWant(parts: seq<Part>): seq<Want> {
    if parts == [] then [] else PartsWant(Front(parts)) + WantsOf(Last(parts))
  }

  /** Grounding wants a message, whatever it resolves to; logprobs want nothing. */
  function ChunksWant(chunks: seq<Chunk>): seq<Want> {
    if chunks == [] then []
    else ChunksWant(Front(chunks)) + PartsWant(Last(chunks).parts) + if Last(chunks).grounding.Some? then [Talk] else []
  }

  /** Neighbouring talk shares a message and neighbouring thoughts a reasoning
      item; everything whole is an item of its own. */
  function ItemsFor(wants: seq<Want>): seq<Types.ItemType> {
    if wants == [] then []
    else
      var before, again := ItemsFor(Front(wants)), Front(wants) != [] && Last(Front(wants)) == Last(wants);
      match Last(wants)
      case Talk => if again then before else before + [Types.TypeMessage]
      case Think => if again then before else before + [Types.TypeReasoning]
      case Whole(itemType) => before + [itemType]
      case Stop => before
  }

  lemma ItemsNext(wants: seq<Want>, want: Want)
    ensures var before, again := ItemsFor(wants), wants != [] && Last(wants) == want;
            ItemsFor(wants + [want]) == match want
                                        case Talk => if again then before else before + [Types.TypeMessage]
                                        case Think => if again then before else before + [Types.TypeReasoning]
                                        case Whole(itemType) => before + [itemType]
                                        case Stop => before
  {
    assert Front(wants + [want]) == wants;
  }

  // ---- What the decoder holds ---------------------------------------------------------------

  /** The decoder is writing what was wanted last, if that is not over. */
  predicate Holds(d: Decoder, wants: seq<Want>) {
    && (d.msg.Some? <==> wants != [] && Last(wants).Talk?)
    && (d.reasoning.Some? <==> wants != [] && Last(wants).Think?)
  }

  ghost predicate Shown(d: Decoder, wants: seq<Want>) {
    d.Valid() && Holds(d, wants) && TypesOf(d.em.resp.output) == ItemsFor(wants)
  }

  lemma Held(d: Decoder, wants: seq<Want>)
    requires Shown(d, wants)
    ensures d.Valid() && Holds(d, wants)
  {
  }

  lemma WrittenShown(d: Decoder, h: nat, call: S.WriterCall, wants: seq<Want>)
    requires Shown(d, wants) && d.Open(h) && S.WriterAllows(d.em.writers[h], call) && !call.CloseWriter?
    ensures Shown(d.Write(h, call), wants)
  {
    hide ItemsFor, S.Producer.Do, S.Producer.Sound;
    WriteTypes(d.em, h, call);
  }

  lemma ClosedShown(d: Decoder, wants: seq<Want>)
    requires Shown(d, wants)
    ensures var c := d.CloseOpen();
            && c.Valid() && c.msg.None? && c.reasoning.None? && TypesOf(c.em.resp.output) == ItemsFor(wants)
  {
    hide ItemsFor, S.Producer.Do, S.Producer.Sound;
    if d.msg.Some? { WriteTypes(d.em, d.msg.value, S.CloseWriter); }
    else if d.reasoning.Some? { WriteTypes(d.em, d.reasoning.value, S.CloseWriter); }
  }

  lemma StoppedShown(d: Decoder, wants: seq<Want>)
    requires Shown(d, wants)
    ensures Shown(d.CloseOpen(), wants + [Stop])
  {
    hide ItemsFor, Decoder.CloseOpen;
    ClosedShown(d, wants);
    ItemsNext(wants, Stop);
  }

  lemma MessageShown(world: World, d: Decoder, wants: seq<Want>)
    requires Shown(d, wants)
    ensures Shown(d.OpenMessage(world), wants + [Talk])
  {
    hide ItemsFor, S.Producer.Do, S.Producer.Sound, Decoder.CloseOpen;
    ItemsNext(wants, Talk);
    if d.msg.None? {
      ClosedShown(d, wants);
      var c := d.CloseOpen();
      OpenTypes(c.em, S.OpenMessage(world.itemId(|c.em.resp.output|), "final_answer"));
    }
  }

  lemma ReasoningShown(world: World, d: Decoder, wants: seq<Want>)
    requires Shown(d, wants)
    ensures Shown(d.OpenReasoning(world), wants + [Think])
  {
    hide ItemsFor, S.Producer.Do, S.Producer.Sound, Decoder.CloseOpen;
    ItemsNext(wants, Think);
    if d.reasoning.None? {
      ClosedShown(d, wants);
      var c := d.CloseOpen();
      OpenTypes(c.em, S.OpenReasoning(world.itemId(|c.em.resp.output|)));
    }
  }

  // ---- Parts and chunks ------------------------------------------------------------------------

  lemma DetachShown(world: World, d: Decoder, p: Part, wants: seq<Want>)
    requires Shown(d, wants)
    ensures d.Valid()
    ensures Shown(d.Detach(world, p), wants + SignatureWants(p))
  {
    Held(d, wants);
    hide Shown, Decoder.CloseOpen, Decoder.OpenReasoning;
    assert wants + [] == wants && wants + [Think] + [Stop] == wants + [Think, Stop];
    if p.signature.Some? && !p.thought {
      ReasoningShown(world, d, wants);
      var r := d.OpenReasoning(world);
      var encrypt := S.Encrypt(p.signature.value);
      WrittenShown(r, r.reasoning.value, encrypt, wants + [Think]);
      StoppedShown(r.Write(r.reasoning.value, encrypt), wants + [Think]);
    }
  }

  lemma ThinkShown(world: World, d: Decoder, p: Part, wants: seq<Want>)
    requires Shown(d, wants)
    ensures d.Valid() && Shown(d.Think(world, p), wants + [Think])
  {
    Held(d, wants);
    hide Shown, Decoder.OpenReasoning;
    ReasoningShown(world, d, wants);
    var r := d.OpenReasoning(world);
    WrittenShown(r, r.reasoning.value, S.Summarize(p.Words()), wants + [Think]);
    var said := if p.Words() != "" then r.Write(r.reasoning.value, S.Summarize(p.Words())) else r;
    if p.signature.Some? { WrittenShown(said, said.reasoning.value, S.Encrypt(p.signature.value), wants + [Think]); }
  }

  lemma TextShown(world: World, d: Decoder, text: string, wants: seq<Want>)
    requires Shown(d, wants)
    ensures d.Valid()
    ensures var m := d.OpenMessage(world); Shown(m.Write(m.msg.value, S.Text(text)), wants + [Talk])
  {
    Held(d, wants);
    hide Shown, Decoder.OpenMessage;
    MessageShown(world, d, wants);
    var m := d.OpenMessage(world);
    WrittenShown(m, m.msg.value, S.Text(text), wants + [Talk]);
  }

  lemma CallShown(world: World, d: Decoder, callId: string, name: string, arguments: Option<string>, wants: seq<Want>)
    requires Shown(d, wants)
    ensures d.Valid()
    ensures Shown(d.CloseOpen().Call(world, callId, name, arguments), wants + [Whole(Types.TypeFunctionCall)])
  {
    hide ItemsFor, S.Producer.Do, S.Producer.Sound, Decoder.CloseOpen, ArgumentsText;
    ClosedShown(d, wants);
    ItemsNext(wants, Whole(Types.TypeFunctionCall));
    CallTypes(world, d.CloseOpen(), callId, name, arguments);
  }

  lemma CallTypes(world: World, d: Decoder, callId: string, name: string, arguments: Option<string>)
    requires d.Valid() && d.msg.None? && d.reasoning.None?
    ensures TypesOf(d.Call(world, callId, name, arguments).em.resp.output)
            == TypesOf(d.em.resp.output) + [Types.TypeFunctionCall]
  {
    hide S.Producer.Do, ArgumentsText;
    var n, h := |d.em.resp.output|, |d.em.writers|;
    var opening := S.OpenCall(world.itemId(n), if callId != "" then callId else world.callId(n), name);
    S.OpenKeeps(d.em);
    S.DoSound(d.em, opening);
    OpensCall(d.em, opening);
    OpenTypes(d.em, opening);
    hide S.Producer.Sound;
    var e, arg := d.em.Do(opening), S.Arguments(ArgumentsText(arguments));
    S.WriteKeeps(e, h, arg);
    WriteTypes(e, h, arg);
    WriteTypes(e.Do(S.Write(h, arg)), h, S.CloseWriter);
  }

  lemma ExtendShown(world: World, d: Decoder, kind: string, p: Part, wants: seq<Want>)
    requires Shown(d, wants)
    ensures d.Valid()
    ensures Shown(d.CloseOpen().Extend(world, kind, p), wants + [Whole(Types.TypeOtherItem("gemini." + kind))])
  {
    hide ItemsFor, S.Producer.Do, S.Producer.Sound, Decoder.CloseOpen;
    ClosedShown(d, wants);
    ItemsNext(wants, Whole(Types.TypeOtherItem("gemini." + kind)));
    var c := d.CloseOpen();
    EmitTypes(c.em, Types.UnknownItem(Types.TypeOtherItem(SLUG + kind), world.itemId(|c.em.resp.output|),
                                      Types.Completed, world.marshal(p)));
  }

  /** What a part does after its signature. */
  lemma BodyShown(world: World, d: Decoder, p: Part, wants: seq<Want>)
    requires d.Valid() && Shown(d.Detach(world, p), wants)
    ensures Shown(d.Part(world, p), wants + BodyWants(p))
  {
    hide Shown, Decoder.Valid, Decoder.Detach, Decoder.Think, Decoder.Call, Decoder.Extend, Decoder.CloseOpen;
    hide Decoder.OpenMessage;
    var b := d.Detach(world, p);
    assert wants + [] == wants;
    if p.body.Call? {
      CallShown(world, b, p.body.callId, p.body.name, p.body.arguments, wants);
    } else if p.thought {
      ThinkShown(world, b, p, wants);
    } else {
      match p.body
      case Text(text) => TextShown(world, b, text, wants);
      case Other(kind, _) => ExtendShown(world, b, kind, p, wants);
      case _ =>
    }
  }

  lemma PartShown(world: World, d: Decoder, p: Part, wants: seq<Want>)
    requires Shown(d, wants)
    ensures d.Valid() && Shown(d.Part(world, p), wants + WantsOf(p))
  {
    DetachShown(world, d, p, wants);
    hide Shown, Decoder.Valid, Decoder.Part, Decoder.Detach, SignatureWants, BodyWants;
    BodyShown(world, d, p, wants + SignatureWants(p));
    Associate(wants, SignatureWants(p), BodyWants(p));
  }

  lemma Associate(a: seq<Want>, b: seq<Want>, c: seq<Want>)
    ensures a + (b + c) == a + b + c
  {
  }

  lemma {:induction false} PartsShown(world: World, d: Decoder, parts: seq<Part>, wants: seq<Want>)
    requires Shown(d, wants)
    ensures d.Valid() && Shown(Decode(world, d, parts), wants + PartsWant(parts))
    decreases |parts|
  {
    Held(d, wants);
    hide Shown, Decoder.Valid, Decoder.Part, WantsOf, Holds;
    if parts == [] {
      assert wants + [] == wants;
    } else {
      PartsShown(world, d, Front(parts), wants);
      PartShown(world, Decode(world, d, Front(parts)), Last(parts), wants + PartsWant(Front(parts)));
      Associate(wants, PartsWant(Front(parts)), WantsOf(Last(parts)));
    }
  }

  lemma WeighShown(d: Decoder, logprobs: Option<seq<string>>, wants: seq<Want>)
    requires Shown(d, wants)
    ensures d.Valid() && Shown(d.Weigh(logprobs), wants)
  {
    Held(d, wants);
    hide Shown;
    if logprobs.Some? && d.msg.Some? { WrittenShown(d, d.msg.value, S.AddLogprobs(logprobs.value), wants); }
  }

  lemma {:induction false} CiteShown(d: Decoder, citations: seq<string>, wants: seq<Want>)
    requires Shown(d, wants) && d.msg.Some?
    ensures d.Valid() && Shown(d.Cite(citations), wants)
    decreases |citations|
  {
    Held(d, wants);
    hide Shown;
    if citations != [] {
      CiteShown(d, Front(citations), wants);
      var e := d.Cite(Front(citations));
      WrittenShown(e, e.msg.value, S.AddAnnotation(Types.Annotation(Last(citations))), wants);
    }
  }

  lemma TakeShown(world: World, d: Decoder, c: Chunk, wants: seq<Want>)
    requires Shown(d, wants)
    ensures d.Valid()
    ensures Shown(d.Take(world, c), wants + PartsWant(c.parts) + if c.grounding.Some? then [Talk] else [])
  {
    Held(d, wants);
    hide Shown, Decoder.Valid, Decode, Decoder.Weigh, Decoder.Cite, Decoder.OpenMessage;
    var a := wants + PartsWant(c.parts);
    assert a + [] == a;
    PartsShown(world, d, c.parts, wants);
    var b := Decode(world, d, c.parts);
    WeighShown(b, c.logprobs, a);
    if c.grounding.Some? {
      MessageShown(world, b.Weigh(c.logprobs), a);
      CiteShown(b.Weigh(c.logprobs).OpenMessage(world), c.grounding.value, a + [Talk]);
    }
  }

  lemma {:induction false} ChunksShown(world: World, resp: Types.Response, chunks: seq<Chunk>)
    requires S.Fresh(resp)
    ensures Shown(DecodeChunks(world, Begin(resp), chunks), ChunksWant(chunks))
    decreases |chunks|
  {
    hide Decoder.Take, Decoder.Valid, PartsWant;
    if chunks == [] {
      BeginShown(resp);
    } else {
      ChunksShown(world, resp, Front(chunks));
      hide Shown;
      TakeShown(world, DecodeChunks(world, Begin(resp), Front(chunks)), Last(chunks), ChunksWant(Front(chunks)));
    }
  }

  lemma BeginShown(resp: Types.Response)
    requires S.Fresh(resp)
    ensures Shown(Begin(resp), [])
  {
  }

  /** The items of an answer, in order, are those its parts and groundings want:
      neighbouring texts and citations in one message, neighbouring thoughts in
      one reasoning item, which also takes the signature of the part after them,
      and every call and extension whole; and no others. */
  lemma ItemsAreWanted(world: World, resp: Types.Response, chunks: seq<Chunk>, ending: S.Call)
    requires S.Fresh(resp) && (ending.CompleteStream? || ending.StopStream?)
    ensures TypesOf(DecodeChunks(world, Begin(resp), chunks).em.Do(ending).resp.output) == ItemsFor(ChunksWant(chunks))
  {
    ChunksShown(world, resp, chunks);
    hide DecodeChunks, ItemsFor, ChunksWant, S.Producer.Do;
    EndTypes(DecodeChunks(world, Begin(resp), chunks).em, ending);
  }
}

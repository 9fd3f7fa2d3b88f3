/** Decoding a model turn and encoding it again: the items the decoder makes of
    Gemini's parts are turned back into those parts, every signature on its own. */
module GeminiRoundTrip {
  import opened Alternation
  import opened Wrappers
  import opened GeminiTypes
  import opened RequestTypes
  import opened GeminiDecoderSpec
  import opened GeminiEncoderSpec
  import B = BareItems
  import Types
  import S = EmitterSpec

  // ---- A decoded item as request input ---------------------------------------------------------

  function ReplayContent(content: seq<Types.Part>): (r: seq<Content>)
    ensures |r| == |content|
  {
    seq(|content|, k requires 0 <= k < |content| =>
      if content[k].OutputText? then Spoken(content[k].text)
      else if content[k].Refusal? then Spoken(content[k].refusal) else Unreadable(false))
  }

  function SummaryOf(summary: seq<Types.Part>): string {
    if summary == [] then "" else SummaryOf(Front(summary)) + if Last(summary).SummaryText? then Last(summary).text
        else ""
  }

  /** The decoder names itself as the issuer of every reasoning item it opens. */
  function Replay(world: World, item: Types.Item): Input {
    match item
    case Message(_, _, role, _, content) =>
      Message(if role == "assistant" then AssistantRole else OtherRole(role), ReplayContent(content))
    case FunctionCall(_, _, callId, name, arguments) =>
      FunctionCall(callId, name, if arguments == "" then NoArguments else Object(arguments))
    case Reasoning(_, _, summary, _, encrypted) =>
      Reasoning(ISSUER, SummaryOf(summary), "", if encrypted == "" then NoSignature else Signed(encrypted))
    case UnknownItem(_, _, _, payload) => ExtensionItem(world.unmarshal(payload))
    case _ => OtherItem
  }

  function ReplayAll(world: World, items: seq<Types.Item>): (r: seq<Input>)
    ensures |r| == |items|
    ensures forall k :: 0 <= k < |items| ==> r[k] == Replay(world, items[k])
  {
    seq(|items|, k requires 0 <= k < |items| => Replay(world, items[k]))
  }

  function Seen(world: World, d: Decoder): seq<Input> { ReplayAll(world, d.em.resp.output) }

  // ---- What each decoder step does to the items -------------------------------------------------

  /** What is open is in the shape the decoder writes: one part, still open. */
  ghost predicate Steady(d: Decoder) {
    && d.Valid()
    && (d.msg.Some? ==> MessageShape(d.em.writers[d.msg.value], ItemAt(d, d.msg.value)))
    && (d.reasoning.Some? ==> ReasoningShape(d.em.writers[d.reasoning.value], ItemAt(d, d.reasoning.value)))
  }

  /** An open writer's item is the last. */
  ghost function ItemAt(d: Decoder, h: nat): Types.Item
    requires d.Valid() && d.Open(h)
  {
    assert d.em.WriterSound(h);
    d.em.ItemOf(h)
  }

  predicate MessageShape(w: S.Writer, item: Types.Item) {
    && w.MessageWriter? && item.Message? && item.role == "assistant"
    && if w.partOpen then |item.content| == 1 && item.content[0].OutputText? else item.content == []
  }

  predicate ReasoningShape(w: S.Writer, item: Types.Item) {
    && w.ReasoningWriter? && item.Reasoning? && item.encrypted == ""
    && if w.summaryOpen then |item.summary| == 1 && item.summary[0].SummaryText? else item.summary == []
  }

  lemma WriteSeen(world: World, e: S.Producer, h: nat, call: S.WriterCall)
    requires e.Sound() && h < |e.writers| && !e.writers[h].closed && S.WriterAllows(e.writers[h], call)
    ensures e.resp.output != [] && e.WriterSound(h) && e.ItemOf(h) == Last(e.resp.output)
    ensures var l := S.Perform(e.ItemOf(h), e.writers[h], call);
            var d := e.Do(S.Write(h, call));
            && ReplayAll(world, d.resp.output) == Front(ReplayAll(world, e.resp.output)) + [Replay(world, l.item)]
            && d.resp.output == Front(e.resp.output) + [l.item] && d.writers[h] == l.writer
  {
    assert e.WriterSound(h);
  }

  /** A replayed item has no status. */
  lemma SameReplay(world: World, a: seq<Types.Item>, b: seq<Types.Item>)
    requires B.BareAll(a) == B.BareAll(b)
    ensures ReplayAll(world, a) == ReplayAll(world, b)
  {
    hide Replay, B.Bare;
    forall k | 0 <= k < |a| ensures Replay(world, a[k]) == Replay(world, b[k]) {
      assert B.BareAll(a)[k] == B.BareAll(b)[k];
      ReplayBare(world, a[k]);
      ReplayBare(world, b[k]);
    }
  }

  lemma ReplayBare(world: World, item: Types.Item)
    ensures Replay(world, B.Bare(item)) == Replay(world, item)
  {
  }

  lemma CloseSeen(world: World, d: Decoder)
    requires d.Valid()
    ensures Seen(world, d.CloseOpen()) == Seen(world, d)
  {
    hide Replay, B.Bare, B.BareAll, ReplayAll;
    if d.msg.Some? {
      B.ShutBare(d.em, d.msg.value);
    } else if d.reasoning.Some? {
      B.ShutBare(d.em, d.reasoning.value);
    }
    SameReplay(world, d.CloseOpen().em.resp.output, d.em.resp.output);
  }

  lemma OpenSeen(world: World, e: S.Producer, item: Types.Item)
    requires e.Sound()
    ensures ReplayAll(world, e.OpenItem(item).resp.output) == ReplayAll(world, e.resp.output) + [Replay(world, item)]
    ensures Last(e.OpenItem(item).resp.output) == item && |e.OpenItem(item).writers| == |e.writers|
  {
    hide Replay, B.Bare, B.BareAll;
    var closed := e.EnsureStarted().CloseOpen();
    B.CloseBare(e.EnsureStarted());
    SameReplay(world, closed.resp.output, e.resp.output);
  }

  lemma OpenMessageSeen(world: World, d: Decoder)
    requires d.Valid() && d.msg.None?
    ensures Steady(d.OpenMessage(world))
    ensures Seen(world, d.OpenMessage(world)) == Seen(world, d) + [Message(AssistantRole, [])]
  {
    CloseSeen(world, d);
    var c := d.CloseOpen();
    var item := Types.Message(world.itemId(|c.em.resp.output|), Types.InProgress, "assistant", "final_answer", []);
    OpenSeen(world, c.em, item);
  }

  lemma OpenReasoningSeen(world: World, d: Decoder)
    requires d.Valid() && d.reasoning.None?
    ensures Steady(d.OpenReasoning(world))
    ensures Seen(world, d.OpenReasoning(world)) == Seen(world, d) + [Reasoning(ISSUER, "", "", NoSignature)]
  {
    CloseSeen(world, d);
    var c := d.CloseOpen();
    OpenSeen(world, c.em, Types.Reasoning(world.itemId(|c.em.resp.output|), Types.InProgress, [], [], ""));
  }

  lemma TextLocal(world: World, item: Types.Item, w: S.Writer, before: string, delta: string)
    requires MessageShape(w, item) && !w.closed
    requires Replay(world, item) == Message(AssistantRole, if before == "" then [] else [Spoken(before)])
    ensures var l := S.WriteText(item, w, delta);
            MessageShape(l.writer, l.item) && Replay(world, l.item) == Message(AssistantRole, [Spoken(before + delta)])
  {
    var l := S.WriteText(item, w, delta);
    assert w.partOpen == (before != "") && (w.partOpen ==> ReplayContent(item.content)[0] == Spoken(before));
    assert l.item.content == [Types.OutputText(before + delta, l.item.content[0].annotations,
                                               l.item.content[0].logprobs)];
    assert ReplayContent(l.item.content) == [Spoken(before + delta)];
  }

  lemma TextSeen(world: World, d: Decoder, before: string, delta: string)
    requires Steady(d) && d.msg.Some?
    requires Seen(world, d) != [] && Last(Seen(world, d)) == Message(AssistantRole,
             if before == "" then [] else [Spoken(before)])
    ensures var t := d.Write(d.msg.value, S.Text(delta));
            Steady(t) && Seen(world, t) == Front(Seen(world, d)) + [Message(AssistantRole, [Spoken(before + delta)])]
  {
    hide Replay, S.WriteText, MessageShape;
    var h := d.msg.value;
    WriteSeen(world, d.em, h, S.Text(delta));
    TextLocal(world, d.em.ItemOf(h), d.em.writers[h], before, delta);
    WriteSeen(world, d.Write(h, S.Text(delta)).em, h, S.CloseWriter);
  }

  lemma SummaryLocal(world: World, item: Types.Item, w: S.Writer, before: string, delta: string)
    requires ReasoningShape(w, item) && !w.closed && S.Attached(item, w)
    requires Replay(world, item) == Reasoning(ISSUER, before, "", NoSignature)
    ensures var l := S.WriteSummary(item, w, delta);
            ReasoningShape(l.writer, l.item) && Replay(world, l.item) == Reasoning(ISSUER, before + delta, "",
                NoSignature)
  {
    var l := S.WriteSummary(item, w, delta);
    SummaryOfOne(item.summary);
    SummaryOfOne(l.item.summary);
    assert l.item.summary == [Types.SummaryText(before + delta)];
  }

  lemma SummaryOfOne(summary: seq<Types.Part>)
    ensures summary == [] ==> SummaryOf(summary) == ""
    ensures |summary| == 1 && summary[0].SummaryText? ==> SummaryOf(summary) == summary[0].text
  {
    if |summary| == 1 { assert Front(summary) == []; }
  }

  lemma SummarySeen(world: World, d: Decoder, before: string, delta: string)
    requires Steady(d) && d.reasoning.Some?
    requires Seen(world, d) != [] && Last(Seen(world, d)) == Reasoning(ISSUER, before, "", NoSignature)
    ensures var t := d.Write(d.reasoning.value, S.Summarize(delta));
            Steady(t) && Seen(world, t) == Front(Seen(world, d)) + [Reasoning(ISSUER, before + delta, "", NoSignature)]
  {
    hide Replay, S.WriteSummary, ReasoningShape;
    var h := d.reasoning.value;
    WriteSeen(world, d.em, h, S.Summarize(delta));
    SummaryLocal(world, d.em.ItemOf(h), d.em.writers[h], before, delta);
    WriteSeen(world, d.Write(h, S.Summarize(delta)).em, h, S.CloseWriter);
  }

  lemma EncryptSeen(world: World, d: Decoder, before: string, s: Signature)
    requires d.Valid() && d.reasoning.Some?
    requires Seen(world, d) != [] && Last(Seen(world, d)) == Reasoning(ISSUER, before, "", NoSignature)
    ensures Seen(world, d.Write(d.reasoning.value, S.Encrypt(s)))
            == Front(Seen(world, d)) + [Reasoning(ISSUER, before, "", Signed(s))]
  {
    WriteSeen(world, d.em, d.reasoning.value, S.Encrypt(s));
  }

  lemma CallWrittenSeen(world: World, e: S.Producer, h: nat, text: string)
    requires e.Sound() && h < |e.writers| && !e.writers[h].closed && e.writers[h].CallWriter? && text != ""
    requires e.resp.output != [] && Last(e.resp.output).FunctionCall? && Last(e.resp.output).arguments == ""
    ensures var call := Last(e.resp.output);
            var f := e.Do(S.Write(h, S.Arguments(text)));
            && f.Sound() && h < |f.writers|
            && ReplayAll(world, f.Do(S.Write(h, S.CloseWriter)).resp.output) ==
                 Front(ReplayAll(world, e.resp.output)) + [FunctionCall(call.callId, call.name, Object(text))]
  {
    hide S.Producer.Do, S.Close;
    assert "" + text == text;
    S.WriteKeeps(e, h, S.Arguments(text));
    WriteSeen(world, e, h, S.Arguments(text));
    var f := e.Do(S.Write(h, S.Arguments(text)));
    B.ShutBare(f, h);
    SameReplay(world, f.Do(S.Write(h, S.CloseWriter)).resp.output, f.resp.output);
  }

  lemma CallSeen(world: World, d: Decoder, callId: string, name: string, arguments: Option<string>)
    requires d.Valid() && d.msg.None? && d.reasoning.None? && callId != "" && ArgumentsText(arguments) != ""
    ensures Seen(world, d.Call(world, callId, name, arguments)) ==
              Seen(world, d) + [FunctionCall(callId, name, Object(ArgumentsText(arguments)))]
  {
    var n, h := |d.em.resp.output|, |d.em.writers|;
    var item := Types.FunctionCall(world.itemId(n), Types.InProgress, callId, name, "");
    var opening := S.OpenCall(world.itemId(n), callId, name);
    S.DoSound(d.em, opening);
    S.OpenKeeps(d.em);
    OpenSeen(world, d.em, item);
    var e := d.em.Do(opening);
    assert e == d.em.OpenWith(item, S.CallWriter(n, false));
    hide S.Producer.Do, S.Producer.OpenItem;
    CallWrittenSeen(world, e, h, ArgumentsText(arguments));
  }

  lemma ExtendSeen(world: World, d: Decoder, kind: string, p: Part)
    requires d.Valid() && d.msg.None? && d.reasoning.None?
    ensures Seen(world, d.Extend(world, kind, p)) == Seen(world, d) + [ExtensionItem(world.unmarshal(world.marshal(p)))]
  {
    var item := Types.UnknownItem(Types.TypeOtherItem(SLUG + kind), world.itemId(|d.em.resp.output|), Types.Completed,
                                  world.marshal(p));
    OpenSeen(world, d.em, item);
  }

  // ---- What the encoder makes of such items -----------------------------------------------------------

  /** The encoder after model-side items: one model turn of these parts. */
  function At(parts: seq<Part>, held: Option<Signature>, leading: bool): Encoding {
    Encoding(if parts == [] then [] else [Turn(Model, parts)], [], held, leading)
  }

  ghost predicate Encoded(items: seq<Input>, parts: seq<Part>, held: Option<Signature>) {
    EncodeItems(items, map[]) == Ok(At(parts, held, items == []))
  }

  lemma EncodedNext(items: seq<Input>, parts: seq<Part>, held: Option<Signature>, item: Input, next: seq<Part>,
                    waits: Option<Signature>)
    requires Encoded(items, parts, held)
    requires EncodeItem(At(parts, held, items == []), map[], |items|, item) == Ok(At(next, waits, false))
    ensures Encoded(items + [item], next, waits)
  {
    assert Front(items + [item]) == items;
  }

  lemma AppendToTurn(parts: seq<Part>, held: Option<Signature>, leading: bool, p: Part)
    ensures At(parts, held, leading).AppendParts(Model, [p]) == At(parts + [p], held, leading)
  {
    if parts == [] {
      assert parts + [p] == [p] && [] + [Turn(Model, [p])] == [Turn(Model, [p])];
    } else {
      assert Front(At(parts, held, leading).contents) + [Turn(Model, parts + [p])] == [Turn(Model, parts + [p])];
    }
  }

  lemma TextEncoded(items: seq<Input>, parts: seq<Part>, held: Option<Signature>, text: string)
    requires Encoded(items, parts, held)
    ensures Encoded(items + [Message(AssistantRole, [Spoken(text)])], parts + [Part(false, Text(text), held)], None)
  {
    var item := Message(AssistantRole, [Spoken(text)]);
    assert Front(item.content) == [] && [] + [Plain(text)] == [Plain(text)];
    assert EncodeParts(item.content) == Ok([Plain(text)]);
    AppendToTurn(parts, None, false, Part(false, Text(text), held));
    if held.Some? { assert [Plain(text)][0 := Plain(text).Sign(held.value)] == [Part(false, Text(text), held)]; }
    EncodedNext(items, parts, held, item, parts + [Part(false, Text(text), held)], None);
  }

  lemma CallEncoded(items: seq<Input>, parts: seq<Part>, held: Option<Signature>, callId: string, name: string,
                    json: string)
    requires Encoded(items, parts, held)
    ensures Encoded(items + [FunctionCall(callId, name, Object(json))],
                    parts + [Part(false, Call(callId, name, Some(json)), held)], None)
  {
    var p := Part(false, Call(callId, name, Some(json)), None);
    AppendToTurn(parts, None, false, p.(signature := held));
    if held.Some? { assert [p][0 := p.Sign(held.value)] == [p.(signature := held)]; }
    EncodedNext(items, parts, held, FunctionCall(callId, name, Object(json)), parts + [p.(signature := held)], None);
  }

  lemma ReasoningEncoded(items: seq<Input>, parts: seq<Part>, text: string, encrypted: Encrypted)
    requires Encoded(items, parts, None) && !encrypted.NotBase64?
    ensures Encoded(items + [Reasoning(ISSUER, text, "", encrypted)],
                    if text == "" then parts else parts + [Thought(text)],
                    if encrypted.Signed? then Some(encrypted.signature) else None)
  {
    AppendToTurn(parts, None, false, Thought(text));
    EncodedNext(items, parts, None, Reasoning(ISSUER, text, "", encrypted),
                if text == "" then parts else parts + [Thought(text)],
                if encrypted.Signed? then Some(encrypted.signature) else None);
  }

  lemma ExtensionEncoded(items: seq<Input>, parts: seq<Part>, p: Part)
    requires Encoded(items, parts, None)
    ensures Encoded(items + [ExtensionItem(Carries(p))], parts + [p], None)
  {
    AppendToTurn(parts, None, false, p);
    EncodedNext(items, parts, None, ExtensionItem(Carries(p)), parts + [p], None);
  }

  // ---- The round trip ------------------------------------------------------------------------------------

  /** Parts that come back: thoughts with text and no signature of their own,
      texts, calls with an id and unsigned extension parts; texts and calls may
      be signed, and an unsigned empty text is nothing at all. */
  predicate ComesBack(world: World, p: Part) {
    match p.body
    case Call(callId, _, arguments) => callId != "" && !p.thought && arguments != Some("")
    case Text(text) => if p.thought then text != "" && p.signature.None? else text != "" || p.signature.None?
    case Other(_, _) => !p.thought && p.signature.None? && world.unmarshal(world.marshal(p)) == Carries(p)
    case Answer(_, _, _) => false
  }

  /** Absent arguments come back as the empty object. */
  function Normal(p: Part): Part {
    match p.body
    case Call(callId, name, arguments) =>
      p.(body := Call(callId, name, Some(if arguments.None? then "{}" else arguments.value)))
    case _ => p
  }

  /** One more part after merged ones: a thought joins a thought, an unsigned
      text joins a text, which keeps its signature. */
  function Join(merged: seq<Part>, p: Part): seq<Part> {
    if p == Plain("") then merged
    else if merged != [] && p.body.Text? && p.thought && Last(merged).thought
    then Front(merged) + [Thought(Last(merged).Words() + p.Words())]
    else if merged != [] && p.body.Text? && !p.thought && p.signature.None? && !Last(merged).thought
        && Last(merged).body.Text?
    then Front(merged) + [Part(false, Text(Last(merged).Words() + p.Words()), Last(merged).signature)]
    else merged + [Normal(p)]
  }

  function Merge(parts: seq<Part>): seq<Part> {
    if parts == [] then [] else Join(Merge(Front(parts)), Last(parts))
  }

  /** What is decoded so far encodes as the merged parts; while an item is open
      its part is the last one. */
  ghost predicate Written(world: World, d: Decoder, merged: seq<Part>) {
    && d.Valid() && Steady(d)
    && if d.msg.Some? then
         && merged != [] && Seen(world, d) != [] && !Last(merged).thought && Last(merged).body.Text?
             && Last(merged).Words() != ""
         && Last(Seen(world, d)) == Message(AssistantRole, [Spoken(Last(merged).Words())])
         && Encoded(Front(Seen(world, d)), Front(merged), Last(merged).signature)
       else if d.reasoning.Some? then
         && merged != [] && Seen(world, d) != [] && Last(merged) == Thought(Last(merged).Words())
             && Last(merged).Words() != ""
         && Last(Seen(world, d)) == Reasoning(ISSUER, Last(merged).Words(), "", NoSignature)
         && Encoded(Front(Seen(world, d)), Front(merged), None)
       else
         && (merged != [] ==> !Last(merged).thought && !Last(merged).body.Text?)
         && Encoded(Seen(world, d), merged, None)
  }

  lemma WrittenEncodes(world: World, d: Decoder, merged: seq<Part>)
    requires Written(world, d, merged)
    ensures Encoded(Seen(world, d), merged, None)
  {
    hide Encoded, Steady;
    if d.msg.Some? || d.reasoning.Some? {
      assert Front(Seen(world, d)) + [Last(Seen(world, d))] == Seen(world, d);
      assert Front(merged) + [Last(merged)] == merged;
      if d.msg.Some? {
        TextEncoded(Front(Seen(world, d)), Front(merged), Last(merged).signature, Last(merged).Words());
      }
      else { ReasoningEncoded(Front(Seen(world, d)), Front(merged), Last(merged).Words(), NoSignature); }
    }
  }

  /** Detaching a signature leaves it held for the next part. */
  lemma DetachEncodes(world: World, d: Decoder, merged: seq<Part>, p: Part)
    requires Written(world, d, merged) && p.signature.Some? && !p.thought
    ensures var s := d.Detach(world, p);
            s.Valid() && s.msg.None? && s.reasoning.None? && Encoded(Seen(world, s), merged, p.signature)
  {
    hide Encoded, Decoder.CloseOpen, Replay;
    var r := d.OpenReasoning(world);
    var before := if d.reasoning.Some? then Last(merged).Words() else "";
    var sig := p.signature.value;
    WrittenEncodes(world, d, merged);
    if d.reasoning.None? { OpenReasoningSeen(world, d); }
    EncryptSeen(world, r, before, sig);
    CloseSeen(world, r.Write(r.reasoning.value, S.Encrypt(sig)));
    if d.reasoning.Some? {
      ReasoningEncoded(Front(Seen(world, d)), Front(merged), before, Signed(sig));
      assert Front(merged) + [Last(merged)] == merged;
    } else {
      assert Front(Seen(world, d) + [Reasoning(ISSUER, "", "", NoSignature)]) == Seen(world, d);
      ReasoningEncoded(Seen(world, d), merged, "", Signed(sig));
    }
  }

  /** No item open, the parts so far encoded and a signature perhaps held. */
  ghost predicate Settled(world: World, d: Decoder, merged: seq<Part>, held: Option<Signature>) {
    d.Valid() && d.msg.None? && d.reasoning.None? && Encoded(Seen(world, d), merged, held)
  }

  lemma CloseSettles(world: World, d: Decoder, merged: seq<Part>, p: Part)
    requires Written(world, d, merged) && (p.thought ==> p.signature.None?)
    ensures Settled(world, d.Detach(world, p).CloseOpen(), merged, p.signature)
  {
    hide Encoded, Steady, Replay;
    WrittenEncodes(world, d, merged);
    CloseSeen(world, d);
    if p.signature.Some? { DetachEncodes(world, d, merged, p); }
  }

  lemma SignedText(world: World, d: Decoder, merged: seq<Part>, p: Part, s: Decoder)
    requires p.body.Text? && !p.thought && p.body.text != ""
    requires s.Valid() && s.msg.None? && Settled(world, s.CloseOpen(), merged, p.signature)
    ensures var m := s.OpenMessage(world);
            Written(world, m.Write(m.msg.value, S.Text(p.body.text)), merged + [p])
  {
    hide Encoded, Steady, Replay, Decoder.OpenMessage;
    CloseSeen(world, s);
    OpenMessageSeen(world, s);
    var m := s.OpenMessage(world);
    assert "" + p.body.text == p.body.text;
    TextSeen(world, m, "", p.body.text);
    var t := m.Write(m.msg.value, S.Text(p.body.text));
    assert Front(Seen(world, t)) == Seen(world, s) && Front(merged + [p]) == merged;
  }

  lemma MoreText(world: World, d: Decoder, merged: seq<Part>, text: string)
    requires Written(world, d, merged) && d.msg.Some? && text != ""
    ensures Written(world, d.Write(d.msg.value, S.Text(text)), Join(merged, Plain(text)))
  {
    hide Encoded, Steady, Replay, Decoder.Write;
    TextSeen(world, d, Last(merged).Words(), text);
    var t := d.Write(d.msg.value, S.Text(text));
    assert Front(Seen(world, t)) == Front(Seen(world, d)) && Front(Join(merged, Plain(text))) == Front(merged);
  }

  lemma MoreThought(world: World, d: Decoder, merged: seq<Part>, text: string)
    requires Written(world, d, merged) && text != ""
    ensures Written(world, d.Think(world, Thought(text)), Join(merged, Thought(text)))
  {
    if d.reasoning.Some? {
      SameThought(world, d, merged, text);
    } else {
      WrittenEncodes(world, d, merged);
      NewThought(world, d, merged, text);
    }
  }

  lemma SameThought(world: World, d: Decoder, merged: seq<Part>, text: string)
    requires Written(world, d, merged) && text != "" && d.reasoning.Some?
    ensures Written(world, d.Think(world, Thought(text)), Join(merged, Thought(text)))
  {
    hide Encoded, Steady, Replay, Decoder.OpenReasoning, Decoder.CloseOpen, Decoder.Write;
    Reopened(world, d);
    SummarySeen(world, d, Last(merged).Words(), text);
    var t := d.Write(d.reasoning.value, S.Summarize(text));
    assert Front(Seen(world, t)) == Front(Seen(world, d)) && Front(Join(merged, Thought(text))) == Front(merged);
  }

  lemma NewThought(world: World, d: Decoder, merged: seq<Part>, text: string)
    requires Written(world, d, merged) && text != "" && d.reasoning.None? && Encoded(Seen(world, d), merged, None)
    ensures Written(world, d.Think(world, Thought(text)), Join(merged, Thought(text)))
  {
    hide Encoded, Steady, Replay, Decoder.Think, Seen;
    FreshThought(world, d, text);
    var t := d.Think(world, Thought(text));
    assert Front(Seen(world, t)) == Seen(world, d) && Last(Seen(world, t)) == Reasoning(ISSUER, text, "", NoSignature);
    FreshJoin(merged, text);
    assert d.msg.Some? || merged == [] || !Last(merged).thought;
  }

  lemma FreshJoin(merged: seq<Part>, text: string)
    requires merged != [] ==> !Last(merged).thought
    ensures Join(merged, Thought(text)) == merged + [Thought(text)]
    ensures Front(merged + [Thought(text)]) == merged && Last(merged + [Thought(text)]) == Thought(text)
  {
  }

  lemma FreshThought(world: World, d: Decoder, text: string)
    requires d.Valid() && text != "" && d.reasoning.None?
    ensures var t := d.Think(world, Thought(text));
            && t.msg.None? && t.reasoning.Some? && Steady(t)
            && Seen(world, t) == Seen(world, d) + [Reasoning(ISSUER, text, "", NoSignature)]
  {
    hide Steady, Replay, Seen, Decoder.OpenReasoning, Decoder.CloseOpen, Decoder.Write;
    OpenReasoningSeen(world, d);
    var r := d.OpenReasoning(world);
    assert "" + text == text;
    assert Front(Seen(world, r)) == Seen(world, d) && Last(Seen(world, r)) == Reasoning(ISSUER, "", "", NoSignature);
    SummarySeen(world, r, "", text);
  }

  lemma Reopened(world: World, d: Decoder)
    requires d.Valid()
    ensures d.reasoning.Some? ==> d.OpenReasoning(world) == d
    ensures d.msg.Some? ==> d.OpenMessage(world) == d
  {
  }

  lemma NextCall(world: World, c: Decoder, merged: seq<Part>, p: Part)
    requires Settled(world, c, merged, p.signature) && p.body.Call? && ComesBack(world, p)
    ensures Written(world, c.Call(world, p.body.callId, p.body.name, p.body.arguments), Join(merged, p))
  {
    hide Encoded, Replay, Decoder.Call;
    CallSeen(world, c, p.body.callId, p.body.name, p.body.arguments);
    CallEncoded(Seen(world, c), merged, p.signature, p.body.callId, p.body.name, ArgumentsText(p.body.arguments));
  }

  lemma NextOther(world: World, c: Decoder, merged: seq<Part>, p: Part)
    requires Settled(world, c, merged, None) && p.body.Other? && ComesBack(world, p)
    ensures Written(world, c.Extend(world, p.body.kind, p), Join(merged, p))
  {
    hide Encoded, Replay, Decoder.Extend;
    ExtendSeen(world, c, p.body.kind, p);
    ExtensionEncoded(Seen(world, c), merged, p);
  }

  /** One streamed part. */
  lemma PartWritten(world: World, d: Decoder, merged: seq<Part>, p: Part)
    requires d.Valid() && Written(world, d, merged) && ComesBack(world, p)
    ensures Written(world, d.Part(world, p), Join(merged, p))
  {
    hide Encoded, Steady, Replay, Decoder.OpenMessage, Decoder.CloseOpen, Decoder.Think, Decoder.Call, Decoder.Extend,
        Written;
    var s := d.Detach(world, p);
    match p.body
    case Call(callId, name, arguments) =>
      CloseSettles(world, d, merged, p);
      NextCall(world, s.CloseOpen(), merged, p);
    case Other(kind, _) =>
      CloseSettles(world, d, merged, p);
      NextOther(world, s.CloseOpen(), merged, p);
    case Answer(_, _, _) =>
    case Text(text) =>
      if p.thought {
        MoreThought(world, d, merged, text);
      } else if text != "" {
        TextWritten(world, d, merged, p);
      }
  }

  lemma TextWritten(world: World, d: Decoder, merged: seq<Part>, p: Part)
    requires Written(world, d, merged) && p.body.Text? && !p.thought && p.body.text != ""
    ensures Written(world, d.Part(world, p), Join(merged, p))
  {
    hide Encoded, Steady, Replay, Decoder.OpenMessage, Decoder.CloseOpen;
    var s := d.Detach(world, p);
    if p.signature.None? && d.msg.Some? {
      Reopened(world, d);
      MoreText(world, d, merged, p.body.text);
    } else {
      CloseSettles(world, d, merged, p);
      if p.signature.Some? { DetachEncodes(world, d, merged, p); }
      SignedText(world, d, merged, p, s);
    }
  }

  lemma {:induction false} PartsWritten(world: World, resp: Types.Response, parts: seq<Part>)
    requires S.Fresh(resp) && forall p <- parts :: ComesBack(world, p)
    ensures Written(world, Decode(world, Begin(resp), parts), Merge(parts))
  {
    if parts == [] {
      assert Seen(world, Begin(resp)) == [];
    } else {
      hide Written, ComesBack;
      assert forall p <- Front(parts) :: p in parts;
      PartsWritten(world, resp, Front(parts));
      PartWritten(world, Decode(world, Begin(resp), Front(parts)), Merge(Front(parts)), Last(parts));
    }
  }

  lemma {:induction false} NamesUnused(items: seq<Input>, names: map<string, string>)
    requires forall item <- items :: !item.FunctionOutput?
    ensures EncodeItems(items, names) == EncodeItems(items, map[])
  {
    if items != [] {
      assert forall item <- Front(items) :: item in items;
      assert Last(items) in items;
      NamesUnused(Front(items), names);
    }
  }

  /** Encoding what was decoded, at any point of the stream and after its end,
      gives one model turn: the parts as they came, adjacent thoughts merged,
      each text merged with the unsigned texts right after it, and every
      signature back on the part that brought it. */
  lemma RoundTrip(world: World, resp: Types.Response, parts: seq<Part>, ending: S.Call)
    requires S.Fresh(resp) && forall p <- parts :: ComesBack(world, p)
    requires ending.CompleteStream? || ending.StopStream?
    ensures var d := Decode(world, Begin(resp), parts);
            var turns := if Merge(parts) == [] then [] else [Turn(Model, Merge(parts))];
            && Encode(ReplayAll(world, d.em.resp.output)) == Ok((turns, []))
            && Encode(ReplayAll(world, d.em.Do(ending).resp.output)) == Ok((turns, []))
  {
    hide Decoder.Part, Replay;
    var d := Decode(world, Begin(resp), parts);
    PartsWritten(world, resp, parts);
    WrittenEncodes(world, d, Merge(parts));
    B.EndedBare(d.em, ending);
    SameReplay(world, d.em.Do(ending).resp.output, d.em.resp.output);
    ReplaysNoOutputs(world, d.em.resp.output);
    NamesUnused(Seen(world, d), Names(Seen(world, d)));
  }

  lemma ReplaysNoOutputs(world: World, items: seq<Types.Item>)
    ensures forall item <- ReplayAll(world, items) :: !item.FunctionOutput?
  {
  }
}

/** Folding request items into Gemini's alternating turns, and what that keeps:
    the turns' shape, every spoken part in order, every signature. */
module GeminiEncoderSpec {
  import opened Alternation
  import opened GeminiTypes
  import opened RequestTypes
  import opened Wrappers

  const ISSUER := "gemini"

  // ---- One item ---------------------------------------------------------------------------

  /** Nothing in the content is for Gemini. */
  predicate Silent(content: seq<Content>) {
    forall k :: 0 <= k < |content| ==> content[k].Unreadable?
  }

  /** The parts of a message, or the place of the first one Gemini cannot take. */
  function EncodeParts(content: seq<Content>): (r: Result<seq<Part>>)
    ensures r.Refused? ==> r.why.BadContent? && r.why.part < |content|
    ensures r.Ok? ==> (r.value == [] <==> Silent(content))
    ensures r.Ok? ==> forall p <- r.value :: !p.thought && p.signature.None?
  {
    if content == [] then Ok([])
    else
      var before := EncodeParts(Front(content));
      if before.Refused? then before
      else match Last(content)
        case Spoken(text) => Ok(before.value + [Plain(text)])
        case Medium(kind, payload) => Ok(before.value + [Part(false, Other(kind, payload), None)])
        case Unreadable(foreign) => if foreign then before else Refused(0, BadContent(|content| - 1))
  }

  /** The place of the first part of an instruction that has no text. */
  function FirstWordless(content: seq<Content>): (k: Option<nat>)
    ensures k.Some? ==> k.value < |content|
  {
    if content == [] then None
    else if FirstWordless(Front(content)).Some? then FirstWordless(Front(content))
    else if Last(content) == Spoken("") || Last(content).Medium? then Some(|content| - 1) else None
  }

  /** The call names by call id; the last call of an id gives its name. */
  function Names(items: seq<Input>): map<string, string> {
    if items == [] then map[]
    else
      var before := Names(Front(items));
      if Last(items).FunctionCall? then before[Last(items).callId := Last(items).name] else before
  }

  function ReasoningText(item: Input): string
    requires item.Reasoning?
  {
    if item.summary != "" then item.summary else item.text
  }

  // ---- The encoder's state ------------------------------------------------------------------

  datatype Encoding = Encoding(contents: seq<Turn<Part>>, system: seq<Part>, pending: Option<Signature>, leading: bool)
  {
    function AppendParts(role: Side, parts: seq<Part>): Encoding { this.(contents := Append(contents, role, parts)) }

    /** Give a held signature a thought part of its own. */
    function Flush(): Encoding {
      if pending.None? then this
      else this.(pending := None).AppendParts(Model, [Part(true, Text(""), pending)])
    }

    function Add(role: Side, parts: seq<Part>): Encoding {
      if parts == [] then this
      else if role != Model then Flush().AppendParts(role, parts)
      else if pending.Some? && !parts[0].thought then
        if parts[0].signature.Some? then Flush().AppendParts(role, parts)
        else this.(pending := None).AppendParts(role, parts[0 := parts[0].Sign(pending.value)])
      else AppendParts(role, parts)
    }

    function Hold(s: Signature): Encoding { Flush().(pending := Some(s)) }
  }

  const START := Encoding([], [], None, true)

  function Instructs(item: Input): bool { item.Message? && item.role.Instructs() }

  function EncodeMessage(e: Encoding, i: nat, role: Role, content: seq<Content>): Result<Encoding> {
    var parts := EncodeParts(content);
    if parts.Refused? then Refused(i, parts.why)
    else match role
      case UserRole => Ok(e.Add(User, parts.value))
      case AssistantRole => Ok(e.Add(Model, parts.value))
      case OtherRole(_) => Refused(i, UnknownRole)
      case _ =>
        if FirstWordless(content).Some? then Refused(i, WordlessInstruction(FirstWordless(content).value))
        else if e.leading then Ok(e.(system := e.system + parts.value))
        else Ok(e.Add(User, parts.value))
  }

  function EncodeReasoning(e: Encoding, i: nat, item: Input): Result<Encoding>
    requires item.Reasoning?
  {
    if item.issuer != ISSUER then Ok(e)
    else if item.encrypted.NotBase64? then Refused(i, BadSignature)
    else
      var spoken := if ReasoningText(item) != "" then e.Add(Model, [Thought(ReasoningText(item))]) else e;
      Ok(if item.encrypted.Signed? then spoken.Hold(item.encrypted.signature) else spoken)
  }

  function EncodeItem(before: Encoding, names: map<string, string>, i: nat, item: Input): Result<Encoding> {
    var e := before.(leading := before.leading && Instructs(item));
    match item
    case Message(role, content) => EncodeMessage(e, i, role, content)
    case FunctionCall(callId, name, arguments) =>
      if arguments.NotObject? then Refused(i, BadArguments)
      else Ok(e.Add(Model, [Part(false, Call(callId, name, if arguments.Object? then Some(arguments.json) else None),
                                 None)]))
    case FunctionOutput(callId, output) =>
      if callId !in names then Refused(i, NoSuchCall)
      else if output.None? then Refused(i, BadOutput)
      else Ok(e.Add(User, [Part(false, Answer(callId, names[callId], output.value), None)]))
    case Reasoning(_, _, _, _) => EncodeReasoning(e, i, item)
    case ForeignItem => Ok(e)
    case ExtensionItem(carried) =>
      if carried.CarriesNothing? then Refused(i, BadExtension) else Ok(e.Add(Model, [carried.part]))
    case OtherItem => Refused(i, Unsupported)
  }

  /** The items in order, stopping at the first that is refused. */
  function EncodeItems(items: seq<Input>, names: map<string, string>): Result<Encoding> {
    if items == [] then Ok(START)
    else
      var before := EncodeItems(Front(items), names);
      if before.Refused? then before else EncodeItem(before.value, names, |items| - 1, Last(items))
  }

  /** The turns and the system parts of a request input. */
  function Encode(items: seq<Input>): Result<(seq<Turn<Part>>, seq<Part>)> {
    var r := EncodeItems(items, Names(items));
    if r.Refused? then Refused(r.item, r.why) else Ok((r.value.Flush().contents, r.value.system))
  }

  // ---- What is refused --------------------------------------------------------------------------

  /** Why an item is refused, whatever comes before it. */
  function Refusal(names: map<string, string>, item: Input): Option<Why> {
    match item
    case Message(role, content) =>
      if EncodeParts(content).Refused? then Some(EncodeParts(content).why)
      else if role.OtherRole? then Some(UnknownRole)
      else if role.Instructs() && FirstWordless(content).Some?
          then Some(WordlessInstruction(FirstWordless(content).value))
      else None
    case FunctionCall(_, _, arguments) => if arguments.NotObject? then Some(BadArguments) else None
    case FunctionOutput(callId, output) =>
      if callId !in names then Some(NoSuchCall) else if output.None? then Some(BadOutput) else None
    case Reasoning(issuer, _, _, encrypted) =>
      if issuer == ISSUER && encrypted.NotBase64? then Some(BadSignature) else None
    case ForeignItem => None
    case ExtensionItem(carried) => if carried.CarriesNothing? then Some(BadExtension) else None
    case OtherItem => Some(Unsupported)
  }

  /** The items before i are taken. */
  predicate TakenBefore(items: seq<Input>, i: nat)
    requires i <= |items|
  {
    forall k :: 0 <= k < i ==> Refusal(Names(items), items[k]).None?
  }

  lemma ItemRefused(e: Encoding, names: map<string, string>, i: nat, item: Input)
    ensures var r := EncodeItem(e, names, i, item);
            if Refusal(names, item).Some? then r == Refused(i, Refusal(names, item).value) else r.Ok?
  {
  }

  lemma {:induction false} ItemsRefused(items: seq<Input>, names: map<string, string>)
    ensures var r := EncodeItems(items, names);
            && (r.Ok? ==> forall k :: 0 <= k < |items| ==> Refusal(names, items[k]).None?)
            && (r.Refused? ==> r.item < |items| && Refusal(names, items[r.item]) == Some(r.why))
            && (r.Refused? ==> forall k :: 0 <= k < r.item ==> Refusal(names, items[k]).None?)
  {
    hide EncodeItem, Refusal;
    if items != [] {
      ItemsRefused(Front(items), names);
      var before := EncodeItems(Front(items), names);
      if before.Ok? { ItemRefused(before.value, names, |items| - 1, Last(items)); }
    }
  }

  /** An input is refused at its first refused item and for that item's reason,
      and taken when there is none. */
  lemma RefusedAtFirst(items: seq<Input>, i: nat, why: Why)
    ensures Encode(items) == Refused(i, why) <==>
              i < |items| && TakenBefore(items, i) && Refusal(Names(items), items[i]) == Some(why)
    ensures Encode(items).Ok? <==> TakenBefore(items, |items|)
  {
    hide Refusal;
    ItemsRefused(items, Names(items));
  }

  lemma {:induction false} NamesOfCalls(items: seq<Input>, callId: string)
    ensures callId in Names(items) <==> exists k ::
              0 <= k < |items| && items[k].FunctionCall? && items[k].callId == callId
  {
    if items != [] {
      NamesOfCalls(Front(items), callId);
      var last := |items| - 1;
      assert items[last] == Last(items);
      if k :| 0 <= k < last && items[k].FunctionCall? && items[k].callId == callId {
        assert Front(items)[k] == items[k];
      }
      if callId in Names(Front(items)) {
        var k :| 0 <= k < last && Front(items)[k].FunctionCall? && Front(items)[k].callId == callId;
        assert items[k] == Front(items)[k];
      }
    }
  }

  /** An output is refused as answering no call exactly when it is the first
      refused item and no call of its id stands anywhere in the input, before
      it or after. */
  lemma NoSuchCallExactly(items: seq<Input>, i: nat)
    ensures Encode(items) == Refused(i, NoSuchCall) <==>
              && i < |items| && TakenBefore(items, i) && items[i].FunctionOutput?
              && forall k :: 0 <= k < |items| && items[k].FunctionCall? ==> items[k].callId != items[i].callId
  {
    RefusedAtFirst(items, i, NoSuchCall);
    if i < |items| && items[i].FunctionOutput? { NamesOfCalls(items, items[i].callId); }
  }

  /** So an output that precedes its call is taken. */
  lemma LaterCallAnswered()
    ensures Encode([FunctionOutput("c", Some("o")), FunctionCall("c", "n", NoArguments)]).Ok?
  {
    var items := [FunctionOutput("c", Some("o")), FunctionCall("c", "n", NoArguments)];
    NamesOfCalls(items, "c");
    assert items[1].FunctionCall? && items[1].callId == "c";
    RefusedAtFirst(items, 0, NoSuchCall);
  }

  // ---- The shape of the turns -----------------------------------------------------------------

  lemma AddAlternates(e: Encoding, role: Side, parts: seq<Part>)
    requires Alternating(e.contents)
    ensures Alternating(e.Add(role, parts).contents)
    ensures Alternating(e.Flush().contents)
  {
    hide Alternating, Append;
    if e.pending.Some? { AppendAlternates(e.contents, Model, [Part(true, Text(""), e.pending)]); }
    if parts != [] {
      AppendAlternates(e.contents, role, parts);
      AppendAlternates(e.Flush().contents, role, parts);
      if e.pending.Some? { AppendAlternates(e.contents, role, parts[0 := parts[0].Sign(e.pending.value)]); }
    }
  }

  /** No item breaks the turns' alternation. */
  lemma ItemAlternates(e: Encoding, names: map<string, string>, i: nat, item: Input)
    requires Alternating(e.contents)
    ensures var r := EncodeItem(e, names, i, item); r.Ok? ==> Alternating(r.value.contents)
  {
    var d := e.(leading := e.leading && Instructs(item));
    match item
    case Message(role, content) =>
      if EncodeParts(content).Ok? {
        AddAlternates(d, User, EncodeParts(content).value);
        AddAlternates(d, Model, EncodeParts(content).value);
      }
    case FunctionCall(callId, name, arguments) =>
      AddAlternates(d, Model, [Part(false, Call(callId, name,
                                                if arguments.Object? then Some(arguments.json) else None), None)]);
    case FunctionOutput(callId, output) =>
      if callId in names && output.Some? {
        AddAlternates(d, User, [Part(false, Answer(callId, names[callId], output.value), None)]);
      }
    case Reasoning(_, _, _, _) =>
      AddAlternates(d, Model, [Thought(ReasoningText(item))]);
      AddAlternates(d.Add(Model, [Thought(ReasoningText(item))]), Model, []);
    case ExtensionItem(carried) => if carried.Carries? { AddAlternates(d, Model, [carried.part]); }
    case ForeignItem =>
    case OtherItem =>
  }

  lemma {:induction false} ItemsAlternate(items: seq<Input>, names: map<string, string>)
    ensures var r := EncodeItems(items, names); r.Ok? ==> Alternating(r.value.contents)
  {
    if items != [] {
      ItemsAlternate(Front(items), names);
      var before := EncodeItems(Front(items), names);
      if before.Ok? { ItemAlternates(before.value, names, |items| - 1, Last(items)); }
    }
  }

  /** Every encoded input alternates between the two sides and has no empty turn. */
  lemma EncodedAlternates(items: seq<Input>)
    ensures var r := Encode(items); r.Ok? ==> Alternating(r.value.0)
  {
    ItemsAlternate(items, Names(items));
    var r := EncodeItems(items, Names(items));
    if r.Ok? { AddAlternates(r.value, Model, []); }
  }

  // ---- The parts in order -----------------------------------------------------------------------

  function Signatures(lines: seq<Line<Part>>): seq<Signature> {
    if lines == [] then []
    else Signatures(Front(lines)) + if Last(lines).1.signature.Some? then [Last(lines).1.signature.value] else []
  }

  type Utterance = (Side, bool, Body)

  /** What is said, signatures aside: a part that says nothing does not count. */
  function Said(lines: seq<Line<Part>>): seq<Utterance> {
    if lines == [] then []
    else Said(Front(lines)) + SaidLine(Last(lines))
  }

  function SaidLine(line: Line<Part>): seq<Utterance> {
    if line.1.thought && line.1.body == Text("") then [] else [(line.0, line.1.thought, line.1.body)]
  }

  lemma {:induction false} SignaturesSplit(a: seq<Line<Part>>, b: seq<Line<Part>>)
    ensures Signatures(a + b) == Signatures(a) + Signatures(b)
  {
    if b == [] {
      assert a + b == a;
    } else {
      SignaturesSplit(a, Front(b));
      assert Front(a + b) == a + Front(b) && Last(a + b) == Last(b);
    }
  }

  lemma {:induction false} SaidSplit(a: seq<Line<Part>>, b: seq<Line<Part>>)
    ensures Said(a + b) == Said(a) + Said(b)
  {
    if b == [] {
      assert a + b == a;
    } else {
      SaidSplit(a, Front(b));
      assert Front(a + b) == a + Front(b) && Last(a + b) == Last(b);
    }
  }

  lemma FlatSplits(a: seq<Line<Part>>, b: seq<Line<Part>>)
    ensures Signatures(a + b) == Signatures(a) + Signatures(b)
    ensures Said(a + b) == Said(a) + Said(b)
  {
    SignaturesSplit(a, b);
    SaidSplit(a, b);
  }

  lemma {:induction false} UnsignedTag(role: Side, parts: seq<Part>)
    requires forall p <- parts :: p.signature.None?
    ensures Signatures(Tag(role, parts)) == []
  {
    if parts != [] {
      assert Front(Tag(role, parts)) == Tag(role, Front(parts));
      UnsignedTag(role, Front(parts));
    }
  }

  function Held(e: Encoding): seq<Signature> { if e.pending.Some? then [e.pending.value] else [] }

  lemma FlushFlat(e: Encoding)
    ensures var f := e.Flush();
            && f.pending.None? && f.system == e.system && f.leading == e.leading
            && Flat(e.contents) <= Flat(f.contents)
            && Signatures(Flat(f.contents)) == Signatures(Flat(e.contents)) + Held(e)
            && Said(Flat(f.contents)) == Said(Flat(e.contents))
  {
    if e.pending.Some? {
      var bare := Part(true, Text(""), e.pending);
      AppendFlat(e.contents, Model, [bare]);
      assert Tag(Model, [bare]) == [(Model, bare)];
      OneSignature((Model, bare));
      BareUnsaid((Model, bare));
      FlatSplits(Flat(e.contents), [(Model, bare)]);
      hide Flat, Signatures, Said, Append;
      assert Said(Flat(e.contents)) + [] == Said(Flat(e.contents));
    } else {
      assert Signatures(Flat(e.contents)) + [] == Signatures(Flat(e.contents));
    }
  }

  lemma BareUnsaid(line: Line<Part>)
    requires line.1.thought && line.1.body == Text("")
    ensures Said([line]) == []
  {
    assert Front([line]) == [];
  }

  /** What adding parts does to the parts in order: what is said is appended,
      and a held signature goes in just before the new ones unless the first
      new part is a thought. */
  lemma AddFlat(e: Encoding, role: Side, parts: seq<Part>)
    requires parts != []
    ensures var f := e.Add(role, parts);
            && f.system == e.system && f.leading == e.leading
            && Flat(e.contents) <= Flat(f.contents)
            && Said(Flat(f.contents)) == Said(Flat(e.contents)) + Said(Tag(role, parts))
            && var was, now := Signatures(Flat(e.contents)), Signatures(Flat(f.contents));
            if role == Model && parts[0].thought
            then f.pending == e.pending && now == was + Signatures(Tag(role, parts))
            else f.pending.None? && now == was + Held(e) + Signatures(Tag(role, parts))
  {
    hide Flat, Append;
    if role == Model && e.pending.Some? && !parts[0].thought && parts[0].signature.None? {
      var signed := parts[0 := parts[0].Sign(e.pending.value)];
      AppendFlat(e.contents, role, signed);
      FlatSplits(Flat(e.contents), Tag(role, signed));
      SigningFirst(role, parts, e.pending.value);
    } else if role == Model && (e.pending.None? || parts[0].thought) {
      AppendFlat(e.contents, role, parts);
      FlatSplits(Flat(e.contents), Tag(role, parts));
    } else {
      FlushFlat(e);
      AppendFlat(e.Flush().contents, role, parts);
      FlatSplits(Flat(e.Flush().contents), Tag(role, parts));
      assert Held(e.Flush()) == [];
    }
  }

  lemma SigningFirst(role: Side, parts: seq<Part>, s: Signature)
    requires parts != [] && !parts[0].thought && parts[0].signature.None?
    ensures Signatures(Tag(role, parts[0 := parts[0].Sign(s)])) == [s] + Signatures(Tag(role, parts))
    ensures Said(Tag(role, parts[0 := parts[0].Sign(s)])) == Said(Tag(role, parts))
  {
    var signed, rest := parts[0 := parts[0].Sign(s)], Tag(role, parts[1..]);
    assert Tag(role, parts) == [(role, parts[0])] + rest;
    assert Tag(role, signed) == [(role, signed[0])] + rest;
    OneSignature((role, parts[0]));
    OneSignature((role, signed[0]));
    SameSaidOne((role, parts[0]), (role, signed[0]));
    FlatSplits([(role, parts[0])], rest);
    FlatSplits([(role, signed[0])], rest);
    hide Signatures, Said, Tag;
    assert [] + Signatures(rest) == Signatures(rest);
  }

  lemma SameSaidOne(a: Line<Part>, b: Line<Part>)
    requires SaidLine(a) == SaidLine(b)
    ensures Said([a]) == Said([b])
  {
    assert Front([a]) == [] && Front([b]) == [];
  }

  // ---- What encoding conserves --------------------------------------------------------------------

  /** The parts of a message, each readable one on its own. */
  function ContentParts(content: seq<Content>): seq<Part> {
    if content == [] then []
    else
      ContentParts(Front(content))
      + match Last(content)
        case Spoken(text) => [Part(false, Text(text), None)]
        case Medium(kind, payload) => [Part(false, Other(kind, payload), None)]
        case Unreadable(_) => []
  }

  /** Content is encoded part by part, or refused at the first part that is
      neither readable nor another provider's. */
  lemma {:induction false} PartsAreContent(content: seq<Content>)
    ensures var r := EncodeParts(content);
            && (r.Ok? ==>
                  && r.value == ContentParts(content)
                  && forall j :: 0 <= j < |content| ==> content[j] != Unreadable(false))
            && (r.Refused? ==>
                  && r.item == 0 && r.why.BadContent? && r.why.part < |content|
                  && content[r.why.part] == Unreadable(false)
                  && forall j :: 0 <= j < r.why.part ==> content[j] != Unreadable(false))
  {
    if content != [] {
      PartsAreContent(Front(content));
      assert ContentParts(Front(content)) + [] == ContentParts(Front(content));
      assert forall j :: 0 <= j < |content| - 1 ==> Front(content)[j] == content[j];
    }
  }

  lemma EncodedContent(content: seq<Content>)
    ensures EncodeParts(content).Ok? ==> EncodeParts(content).value == ContentParts(content)
  {
    PartsAreContent(content);
  }

  /** An instruction is refused at its first part that is empty text or a medium. */
  lemma {:induction false} WordlessIsFirst(content: seq<Content>)
    ensures var r := FirstWordless(content);
            var end := if r.Some? then r.value else |content|;
            && (r.Some? ==> r.value < |content| && (content[r.value] == Spoken("") || content[r.value].Medium?))
            && forall j :: 0 <= j < end ==> content[j] != Spoken("") && !content[j].Medium?
  {
    if content != [] {
      WordlessIsFirst(Front(content));
      assert forall j :: 0 <= j < |content| - 1 ==> Front(content)[j] == content[j];
    }
  }

  /** The parts an item is translated to, before any signature is put back. */
  function Translate(names: map<string, string>, item: Input): seq<Line<Part>> {
    match item
    case Message(role, content) =>
      Tag(if role.AssistantRole? then Model else User, ContentParts(content))
    case FunctionCall(callId, name, arguments) =>
      [(Model, Part(false, Call(callId, name, if arguments.Object? then Some(arguments.json) else None), None))]
    case FunctionOutput(callId, output) =>
      if callId in names && output.Some? then [(User, Part(false, Answer(callId, names[callId], output.value), None))]
          else []
    case Reasoning(issuer, _, _, _) =>
      var text := if item.summary != "" then item.summary else item.text;
      if issuer == "gemini" && text != "" then [(Model, Thought(text))] else []
    case ExtensionItem(carried) => if carried.Carries? then [(Model, carried.part)] else []
    case _ => []
  }

  /** Every item so far is a system or developer message. */
  predicate Leading(items: seq<Input>) {
    forall k :: 0 <= k < |items| ==>
      items[k].Message? && (items[k].role.SystemRole? || items[k].role.DeveloperRole?)
  }

  lemma LeadingLast(items: seq<Input>)
    requires items != []
    ensures Leading(items) == (Leading(Front(items)) && Instructs(Last(items)))
  {
    assert items == Front(items) + [Last(items)];
  }

  /** The translations of all items but the leading instructions. */
  function Conversation(names: map<string, string>, items: seq<Input>): seq<Line<Part>> {
    if items == [] then []
    else Conversation(names, Front(items)) + if Leading(items) then [] else Translate(names, Last(items))
  }

  function Instructions(items: seq<Input>): seq<Part> {
    if items == [] then []
    else Instructions(Front(items)) + if Leading(items) then InstructionParts(Last(items)) else []
  }

  function InstructionParts(item: Input): seq<Part> {
    if item.Message? then ContentParts(item.content) else []
  }

  /** The signature an item brings: an issued reasoning item's, or an extension part's own. */
  function Source(item: Input): seq<Signature> {
    if item.Reasoning? && item.issuer == ISSUER && item.encrypted.Signed? then [item.encrypted.signature]
    else if item.ExtensionItem? && item.carried.Carries?
        && item.carried.part.signature.Some? then [item.carried.part.signature.value]
    else []
  }

  function Sources(items: seq<Input>): seq<Signature> {
    if items == [] then [] else Sources(Front(items)) + Source(Last(items))
  }

  /** The signature still waiting for a part after an item. */
  function Awaiting(waiting: Option<Signature>, item: Input): Option<Signature> {
    match item
    case Message(_, content) => if Silent(content) then waiting else None
    case FunctionCall(_, _, _) => None
    case FunctionOutput(_, _) => None
    case Reasoning(issuer, _, _, encrypted) =>
      if issuer == ISSUER && encrypted.Signed? then Some(encrypted.signature) else waiting
    case ExtensionItem(carried) => if carried.Carries? && !carried.part.thought then None else waiting
    case _ => waiting
  }

  function AwaitingAfter(items: seq<Input>): Option<Signature> {
    if items == [] then None else Awaiting(AwaitingAfter(Front(items)), Last(items))
  }

  /** The item is a signed thought part kept as an extension. */
  predicate SignedThought(item: Input) {
    item.ExtensionItem? && item.carried.Carries? && item.carried.part.thought && item.carried.part.signature.Some?
  }

  ghost predicate LeadsUnheld(e: Encoding) { e.leading ==> e.pending.None? }

  /** What one item does to the turns, read as parts in order. */
  ghost predicate Grows(e: Encoding, f: Encoding, names: map<string, string>, item: Input) {
    var leads := e.leading && Instructs(item);
    && f.leading == leads && f.pending == Awaiting(e.pending, item)
    && f.system == e.system + (if leads then InstructionParts(item) else [])
    && Flat(e.contents) <= Flat(f.contents)
    && Said(Flat(f.contents)) == Said(Flat(e.contents)) + (if leads then [] else Said(Translate(names, item)))
    && Signatures(Flat(f.contents)) + Held(f) ==
         if SignedThought(item) then Signatures(Flat(e.contents)) + Source(item) + Held(e)
         else Signatures(Flat(e.contents)) + Held(e) + Source(item)
  }

  lemma MessageGrows(e: Encoding, names: map<string, string>, i: nat, item: Input)
    requires LeadsUnheld(e) && item.Message? && EncodeItem(e, names, i, item).Ok?
    ensures Grows(e, EncodeItem(e, names, i, item).value, names, item)
  {
    hide Flat, Said, Signatures, Append, Encoding.Flush, EncodeParts, FirstWordless, ContentParts;
    EncodedContent(item.content);
    var d := e.(leading := e.leading && Instructs(item));
    var parts := EncodeParts(item.content).value;
    var role := if item.role.AssistantRole? then Model else User;
    UnsignedTag(role, parts);
    SaidNothing();
    if !d.leading && parts != [] {
      assert parts[0] in parts;
      AddFlat(d, role, parts);
    }
    if parts == [] { assert Tag(role, parts) == []; }
  }

  /** One part that is not a message's. */
  lemma PartGrows(e: Encoding, names: map<string, string>, item: Input, role: Side, part: Part)
    requires !item.Message? && !item.Reasoning? && Translate(names, item) == [(role, part)]
    requires Source(item) == (if part.signature.Some? then [part.signature.value] else [])
    requires SignedThought(item) == (part.thought && part.signature.Some?) && (part.thought ==> role == Model)
    requires Awaiting(e.pending, item) == if part.thought then e.pending else None
    ensures Grows(e, e.(leading := false).Add(role, [part]), names, item)
  {
    hide Grows, Flat, Said, Signatures, Encoding.Add, Translate, Source, SignedThought, Awaiting;
    var d := e.(leading := false);
    PartAdded(d, role, part);
    GrowsOf(e, d.Add(role, [part]), names, item, role, part);
  }

  /** One part added: what is said and the signatures it brings. */
  lemma PartAdded(e: Encoding, role: Side, part: Part)
    requires part.thought ==> role == Model
    ensures var f := e.Add(role, [part]);
            var brought := if part.signature.Some? then [part.signature.value] else [];
            && f.system == e.system && f.leading == e.leading
            && Flat(e.contents) <= Flat(f.contents)
            && Said(Flat(f.contents)) == Said(Flat(e.contents)) + Said([(role, part)])
            && if part.thought then f.pending == e.pending
                && Signatures(Flat(f.contents)) == Signatures(Flat(e.contents)) + brought
               else f.pending.None? && Signatures(Flat(f.contents)) == Signatures(Flat(e.contents)) + Held(e) + brought
  {
    hide Flat, Encoding.Add, Said;
    AddFlat(e, role, [part]);
    OneSignature((role, part));
    assert Tag(role, [part]) == [(role, part)];
  }

  lemma GrowsOf(e: Encoding, f: Encoding, names: map<string, string>, item: Input, role: Side, part: Part)
    requires !item.Message? && !item.Reasoning? && Translate(names, item) == [(role, part)]
    requires Source(item) == (if part.signature.Some? then [part.signature.value] else [])
    requires SignedThought(item) == (part.thought && part.signature.Some?)
    requires Awaiting(e.pending, item) == f.pending && f.system == e.system && !f.leading
    requires Flat(e.contents) <= Flat(f.contents)
    requires Said(Flat(f.contents)) == Said(Flat(e.contents)) + Said([(role, part)])
    requires var was, now := Signatures(Flat(e.contents)), Signatures(Flat(f.contents));
             if part.thought then f.pending == e.pending && now == was + Source(item)
             else f.pending.None? && now == was + Held(e) + Source(item)
    ensures Grows(e, f, names, item)
  {
    hide Flat, Translate, Source, SignedThought, Awaiting, InstructionParts, Said, Signatures;
    var was := Signatures(Flat(e.contents));
    assert e.system + [] == e.system && was + Held(e) + [] == was + Held(e) && was + [] == was;
    assert was + Held(e) + Source(item) + [] == was + Held(e) + Source(item);
  }

  lemma OneSignature(line: Line<Part>)
    ensures Signatures([line]) == if line.1.signature.Some? then [line.1.signature.value] else []
  {
    assert Front([line]) == [];
  }

  /** Awaiting after a reasoning item: what it speaks comes before its signature. */
  lemma HoldFlat(e: Encoding, s: Signature)
    ensures var f := e.Hold(s);
            && f.pending == Some(s) && f.system == e.system && f.leading == e.leading
            && Flat(e.contents) <= Flat(f.contents)
            && Said(Flat(f.contents)) == Said(Flat(e.contents))
            && Signatures(Flat(f.contents)) + Held(f) == Signatures(Flat(e.contents)) + Held(e) + [s]
  {
    hide Flat, Encoding.Flush;
    FlushFlat(e);
  }

  lemma ThoughtFlat(e: Encoding, text: string)
    ensures var f := e.Add(Model, [Thought(text)]);
            && f.pending == e.pending && f.system == e.system && f.leading == e.leading
            && Flat(e.contents) <= Flat(f.contents)
            && Said(Flat(f.contents)) == Said(Flat(e.contents)) + Said([(Model, Thought(text))])
            && Signatures(Flat(f.contents)) == Signatures(Flat(e.contents))
  {
    hide Flat, Encoding.Add;
    AddFlat(e, Model, [Thought(text)]);
    assert Tag(Model, [Thought(text)]) == [(Model, Thought(text))] && Front([(Model, Thought(text))]) == [];
  }

  lemma ReasoningGrows(e: Encoding, names: map<string, string>, i: nat, item: Input)
    requires item.Reasoning? && EncodeItem(e, names, i, item).Ok?
    ensures Grows(e, EncodeItem(e, names, i, item).value, names, item)
  {
    hide Flat, Said, Signatures, Encoding.Add, Encoding.Hold;
    var d := e.(leading := false);
    var text := ReasoningText(item);
    var spoken := if text != "" then d.Add(Model, [Thought(text)]) else d;
    SaidNothing();
    ThoughtFlat(d, text);
    if item.encrypted.Signed? { HoldFlat(spoken, item.encrypted.signature); }
  }

  lemma SaidNothing()
    ensures Said([]) == []
  {
  }

  lemma ItemGrows(e: Encoding, names: map<string, string>, i: nat, item: Input)
    requires LeadsUnheld(e) && EncodeItem(e, names, i, item).Ok?
    ensures Grows(e, EncodeItem(e, names, i, item).value, names, item)
  {
    hide Grows, Encoding.Add;
    match item
    case Message(_, _) => MessageGrows(e, names, i, item);
    case Reasoning(_, _, _, _) => ReasoningGrows(e, names, i, item);
    case ForeignItem => NothingGrows(e, names);
    case OtherItem =>
    case FunctionCall(_, _, _) => PartGrows(e, names, item, Model, Translate(names, item)[0].1);
    case FunctionOutput(_, _) => PartGrows(e, names, item, User, Translate(names, item)[0].1);
    case ExtensionItem(carried) => PartGrows(e, names, item, Model, carried.part);
  }

  lemma NothingGrows(e: Encoding, names: map<string, string>)
    ensures Grows(e, e.(leading := false), names, ForeignItem)
  {
  }

  /** The encoder's state against what the items say on their own. */
  ghost predicate Tracks(e: Encoding, names: map<string, string>, items: seq<Input>) {
    && LeadsUnheld(e) && e.leading == Leading(items) && e.pending == AwaitingAfter(items)
    && e.system == Instructions(items)
    && Said(Flat(e.contents)) == Said(Conversation(names, items))
  }

  ghost predicate Balances(e: Encoding, items: seq<Input>) {
    multiset(Signatures(Flat(e.contents)) + Held(e)) == multiset(Sources(items))
  }

  lemma TracksOn(e: Encoding, f: Encoding, names: map<string, string>, items: seq<Input>)
    requires items != [] && Tracks(e, names, Front(items)) && Grows(e, f, names, Last(items))
    ensures Tracks(f, names, items)
  {
    hide Flat, Signatures, Said, Translate, Source, Instructs, InstructionParts;
    LeadingLast(items);
    SaidSplit(Conversation(names, Front(items)), Translate(names, Last(items)));
    if f.leading {
      LeadingHoldsNothing(items);
      assert Conversation(names, items) == Conversation(names, Front(items));
    }
  }

  lemma {:induction false} LeadingHoldsNothing(items: seq<Input>)
    requires Leading(items)
    ensures AwaitingAfter(items).None?
  {
    if items != [] {
      LeadingLast(items);
      LeadingHoldsNothing(Front(items));
    }
  }

  lemma BalancesOn(e: Encoding, f: Encoding, names: map<string, string>, items: seq<Input>)
    requires items != [] && Balances(e, Front(items)) && Grows(e, f, names, Last(items))
    ensures Balances(f, items)
  {
    hide Flat, Signatures, Said, Translate, Source, Instructs, InstructionParts, SignedThought, Awaiting, Held;
    var a, h, s := Signatures(Flat(e.contents)), Held(e), Source(Last(items));
    assert multiset(a + s + h) == multiset(a + h + s);
    assert multiset(Sources(items)) == multiset(Sources(Front(items))) + multiset(s);
  }

  lemma {:induction false} ItemsGrow(items: seq<Input>, names: map<string, string>)
    requires EncodeItems(items, names).Ok?
    ensures Tracks(EncodeItems(items, names).value, names, items) && Balances(EncodeItems(items, names).value, items)
  {
    hide Grows, EncodeItem;
    if items != [] {
      var before, e := EncodeItems(Front(items), names).value, EncodeItems(items, names).value;
      ItemsGrow(Front(items), names);
      ItemGrows(before, names, |items| - 1, Last(items));
      hide Tracks, Balances;
      TracksOn(before, e, names, items);
      BalancesOn(before, e, names, items);
    }
  }

  /** Item k is the last call of this id anywhere in the input. */
  predicate LastCall(items: seq<Input>, k: nat, callId: string) {
    && k < |items| && items[k].FunctionCall? && items[k].callId == callId
    && forall j :: k < j < |items| && items[j].FunctionCall? ==> items[j].callId != callId
  }

  /** The names are those of the last call of each id, and there are no others. */
  ghost predicate LastNames(names: map<string, string>, items: seq<Input>) {
    && (forall k: nat, callId :: LastCall(items, k, callId) ==> callId in names && names[callId] == items[k].name)
    && (forall callId <- names :: exists k: nat :: LastCall(items, k, callId))
  }

  lemma {:induction false} NamesAreLast(items: seq<Input>)
    ensures LastNames(Names(items), items)
  {
    if items != [] {
      NamesAreLast(Front(items));
      var last, before := |items| - 1, Names(Front(items));
      assert forall j :: 0 <= j < last ==> Front(items)[j] == items[j];
      forall k: nat, callId | LastCall(items, k, callId)
        ensures callId in Names(items) && Names(items)[callId] == items[k].name
      {
        if k < last { assert LastCall(Front(items), k, callId); }
      }
      forall callId | callId in Names(items) ensures exists k: nat :: LastCall(items, k, callId) {
        if items[last].FunctionCall? && items[last].callId == callId {
          assert LastCall(items, last, callId);
        } else {
          var k: nat :| LastCall(Front(items), k, callId);
          assert LastCall(items, k, callId);
        }
      }
    }
  }

  lemma SameNames(a: map<string, string>, b: map<string, string>, items: seq<Input>)
    requires LastNames(a, items) && LastNames(b, items)
    ensures a == b
  {
    forall callId | callId in a ensures callId in b && b[callId] == a[callId] {
      var k: nat :| LastCall(items, k, callId);
    }
    forall callId | callId in b ensures callId in a {
      var k: nat :| LastCall(items, k, callId);
    }
  }

  /** Encoding neither loses nor reorders nor invents anything said: the turns
      hold the translations of the conversation in order, each output with the
      name of the last call of its id, and the system parts those of the leading
      instructions. */
  lemma NothingIsLost(items: seq<Input>, names: map<string, string>)
    requires Encode(items).Ok? && LastNames(names, items)
    ensures var (turns, system) := Encode(items).value;
            Said(Flat(turns)) == Said(Conversation(names, items)) && system == Instructions(items)
  {
    NamesAreLast(items);
    SameNames(names, Names(items), items);
    ItemsGrow(items, Names(items));
    FlushFlat(EncodeItems(items, Names(items)).value);
  }

  // ---- Signatures -------------------------------------------------------------------------------------

  /** Item k is a signed thought extension that arrives while another
      signature is still waiting for its part. */
  predicate Overtakes(items: seq<Input>, k: nat)
    requires k < |items|
  {
    && SignedThought(items[k]) && AwaitingAfter(items[..k]).Some?
    && AwaitingAfter(items[..k]).value != items[k].carried.part.signature.value
  }

  predicate NoOvertaking(items: seq<Input>) {
    forall k :: 0 <= k < |items| ==> !Overtakes(items, k)
  }

  lemma NoOvertakingLast(items: seq<Input>)
    requires items != []
    ensures NoOvertaking(items) <==> NoOvertaking(Front(items)) && !Overtakes(items, |items| - 1)
  {
    forall k | 0 <= k < |items| - 1 ensures Overtakes(items, k) == Overtakes(Front(items), k) {
      assert Front(items)[..k] == items[..k];
    }
  }

  predicate Differ(a: seq<Signature>, b: seq<Signature>) {
    exists j :: 0 <= j < |a| && j < |b| && a[j] != b[j]
  }

  lemma DifferOnwards(a: seq<Signature>, b: seq<Signature>, c: seq<Signature>, d: seq<Signature>)
    requires Differ(a, b)
    ensures Differ(a + c, b + d)
  {
    var j :| 0 <= j < |a| && j < |b| && a[j] != b[j];
    assert (a + c)[j] != (b + d)[j];
  }

  /** Signatures come out in the order they came in, up to the first overtaking. */
  ghost predicate Ordered(e: Encoding, items: seq<Input>) {
    if NoOvertaking(items) then Signatures(Flat(e.contents)) + Held(e) == Sources(items)
    else Differ(Signatures(Flat(e.contents)), Sources(items))
  }

  lemma OrderedOn(e: Encoding, f: Encoding, names: map<string, string>, items: seq<Input>)
    requires items != [] && Ordered(e, Front(items)) && Grows(e, f, names, Last(items))
    requires e.pending == AwaitingAfter(Front(items))
    ensures Ordered(f, items)
  {
    hide Flat, Signatures, Said, Translate, Instructs, InstructionParts, NoOvertaking, Awaiting, AwaitingAfter;
    NoOvertakingLast(items);
    var was, now, source := Signatures(Flat(e.contents)), Signatures(Flat(f.contents)), Source(Last(items));
    var more := Flat(f.contents)[|Flat(e.contents)|..];
    assert Flat(f.contents) == Flat(e.contents) + more;
    SignaturesSplit(Flat(e.contents), more);
    if !NoOvertaking(Front(items)) {
      DifferOnwards(was, Sources(Front(items)), Signatures(more), source);
    } else if SignedThought(Last(items)) {
      assert Signatures(Flat(f.contents)) + Held(f) == was + source + Held(e);
      if Overtakes(items, |items| - 1) {
        StaysHeld(e, f, names, Last(items));
        SameEnd(now, was + source, Held(e));
        assert now[|was|] != Sources(items)[|was|];
      }
    }
  }

  lemma SameEnd(a: seq<Signature>, b: seq<Signature>, c: seq<Signature>)
    requires a + c == b + c
    ensures a == b
  {
    assert |a| == |b| && a == (a + c)[..|a|] && b == (b + c)[..|b|];
  }

  lemma StaysHeld(e: Encoding, f: Encoding, names: map<string, string>, item: Input)
    requires Grows(e, f, names, item) && SignedThought(item)
    ensures Held(f) == Held(e)
  {
  }

  lemma {:induction false} ItemsSigned(items: seq<Input>, names: map<string, string>)
    requires EncodeItems(items, names).Ok?
    ensures Ordered(EncodeItems(items, names).value, items)
  {
    hide Grows, EncodeItem;
    if items != [] {
      var before := EncodeItems(Front(items), names).value;
      ItemsSigned(Front(items), names);
      ItemsGrow(Front(items), names);
      ItemGrows(before, names, |items| - 1, Last(items));
      hide Ordered;
      OrderedOn(before, EncodeItems(items, names).value, names, items);
    }
  }

  /** Every signature that comes in goes out exactly once, and all in order if
      and only if no signed thought extension overtakes a waiting signature. */
  lemma SignaturesConserved(items: seq<Input>)
    requires Encode(items).Ok?
    ensures var out := Signatures(Flat(Encode(items).value.0));
            && multiset(out) == multiset(Sources(items))
            && (out == Sources(items) <==> NoOvertaking(items))
  {
    var e := EncodeItems(items, Names(items)).value;
    ItemsGrow(items, Names(items));
    ItemsSigned(items, Names(items));
    FlushFlat(e);
    if !NoOvertaking(items) { DifferOnwards(Signatures(Flat(e.contents)), Sources(items), Held(e), []); }
  }

  /** A signed reasoning item and then a signed thought extension: the second
      signature goes out first. */
  lemma OvertakingHappens()
    ensures var items := [Reasoning(ISSUER, "", "", Signed("a")),
                          ExtensionItem(Carries(Part(true, Text("t"), Some("b"))))];
            Encode(items).Ok? && !NoOvertaking(items) && Signatures(Flat(Encode(items).value.0)) != Sources(items)
  {
    var items := [Reasoning(ISSUER, "", "", Signed("a")), ExtensionItem(Carries(Part(true, Text("t"), Some("b"))))];
    RefusedAtFirst(items, 0, Unsupported);
    assert items[..1] == [items[0]] && Front(items[..1]) == [];
    assert Overtakes(items, 1);
    SignaturesConserved(items);
  }

  // ---- Placeholder signatures ---------------------------------------------------------------------------

  const PLACEHOLDER: Signature := "skip_thought_signature_validator"

  /** Part k is the first call of the turn. */
  predicate FirstCall(turn: Turn<Part>, k: nat)
    requires k < |turn.parts|
  {
    turn.parts[k].body.Call? && forall j :: 0 <= j < k ==> !turn.parts[j].body.Call?
  }

  /** The turn after placeholders: a model turn's first call is signed, by the
      placeholder when it had no signature; everything else is as it was. */
  ghost predicate Placed(before: Turn<Part>, after: Turn<Part>) {
    && after.role == before.role && |after.parts| == |before.parts|
    && forall k :: 0 <= k < |before.parts| ==>
         after.parts[k] == if before.role == Model && before.parts[k].signature.None? && FirstCall(before, k)
                           then before.parts[k].Sign(PLACEHOLDER) else before.parts[k]
  }

  ghost predicate AllPlaced(before: seq<Turn<Part>>, after: seq<Turn<Part>>) {
    |after| == |before| && forall t :: 0 <= t < |before| ==> Placed(before[t], after[t])
  }

  /** Placeholders change nothing that is said and keep the turns' shape, sign
      the first call of every model turn, and are not added twice. */
  lemma {:induction false} PlaceholdersKeep(before: seq<Turn<Part>>, after: seq<Turn<Part>>)
    requires AllPlaced(before, after)
    ensures Said(Flat(after)) == Said(Flat(before))
    ensures Alternating(before) ==> Alternating(after)
    ensures forall t, k | 0 <= t < |after| && after[t].role == Model && 0 <= k < |after[t].parts|
            && FirstCall(after[t], k) ::
              after[t].parts[k].signature.Some?
    ensures AllPlaced(after, after)
  {
    forall t | 0 <= t < |after| ensures Placed(after[t], after[t]) {
      assert Placed(before[t], after[t]);
      SameFirstCall(before[t], after[t]);
    }
    forall t, k | 0 <= t < |after| && after[t].role == Model && 0 <= k < |after[t].parts| && FirstCall(after[t], k)
      ensures after[t].parts[k].signature.Some?
    {
      assert Placed(before[t], after[t]);
      SameFirstCall(before[t], after[t]);
    }
    SameSaid(before, after);
  }

  lemma SameFirstCall(before: Turn<Part>, after: Turn<Part>)
    requires Placed(before, after)
    ensures forall k :: 0 <= k < |after.parts| ==> FirstCall(after, k) == FirstCall(before, k)
  {
    assert forall k :: 0 <= k < |after.parts| ==> after.parts[k].body == before.parts[k].body;
  }

  lemma {:induction false} SameSaid(before: seq<Turn<Part>>, after: seq<Turn<Part>>)
    requires AllPlaced(before, after)
    ensures Said(Flat(after)) == Said(Flat(before))
  {
    if before != [] {
      SameSaid(Front(before), Front(after));
      assert Placed(before[|before| - 1], after[|before| - 1]);
      var b, a := Last(before), Last(after);
      SaidSplit(Flat(Front(before)), Tag(b.role, b.parts));
      SaidSplit(Flat(Front(after)), Tag(a.role, a.parts));
      SameLinesSaid(Tag(b.role, b.parts), Tag(a.role, a.parts));
    }
  }

  lemma {:induction false} SameLinesSaid(a: seq<Line<Part>>, b: seq<Line<Part>>)
    requires |a| == |b|
    requires forall k :: 0 <= k < |a| ==>
               a[k].0 == b[k].0 && a[k].1.thought == b[k].1.thought && a[k].1.body == b[k].1.body
    ensures Said(a) == Said(b)
  {
    if a != [] {
      assert Last(a) == a[|a| - 1] && Last(b) == b[|b| - 1];
      SameLinesSaid(Front(a), Front(b));
    }
  }
}

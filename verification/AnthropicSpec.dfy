/** Folding request items into Claude's alternating messages: the messages'
    shape, what each holds, and where a tool result lands. */
module AnthropicSpec {
  import opened Alternation
  import opened RequestTypes
  import opened Wrappers

  const ISSUER := "anthropic"

  datatype Block =
    | TextBlock(text: string)
    | MediaBlock(kind: string, payload: string)
    | ToolUse(id: string, name: string, input: string)
    | ToolResult(id: string, output: string)
    | Thinking(signature: string, text: string)
    | RawBlock(json: string)

  type Msg = Turn<Block>

  datatype Input =
    | Message(role: Role, content: seq<Content>)
    | FunctionCall(callId: string, name: string, arguments: Arguments)
    | FunctionOutput(callId: string, output: Option<string>)
    | Reasoning(issuer: string, summary: string, text: string, encrypted: string)
    | ForeignItem
    | ExtensionItem(block: Option<string>)
    | OtherItem

  /** The id a call_id is sent as: the same rewriting for a call and its output. */
  type Wire = string -> string

  // ---- One item ---------------------------------------------------------------------------

  /** The blocks of a message, or the place of the first part Claude cannot take. */
  function EncodeBlocks(content: seq<Content>): (r: Result<seq<Block>>)
    ensures r.Refused? ==> r.why.BadContent? && r.why.part < |content|
    ensures r.Ok? ==> forall b <- r.value :: b.TextBlock? || b.MediaBlock?
  {
    if content == [] then Ok([])
    else
      var before := EncodeBlocks(Front(content));
      if before.Refused? then before
      else match Last(content)
        case Spoken(text) => Ok(before.value + [TextBlock(text)])
        case Medium(kind, payload) => Ok(before.value + [MediaBlock(kind, payload)])
        case Unreadable(foreign) => if foreign then before else Refused(0, BadContent(|content| - 1))
  }

  /** The place of the first part of an instruction that is not text. */
  function FirstMedium(content: seq<Content>): (k: Option<nat>)
    ensures k.Some? ==> k.value < |content|
  {
    if content == [] then None
    else if FirstMedium(Front(content)).Some? then FirstMedium(Front(content))
    else if Last(content).Medium? then Some(|content| - 1) else None
  }

  /** Whether a reasoning item goes back as a thinking block: signed, and
      issued here or by nobody named. */
  predicate Replayable(item: Input)
    requires item.Reasoning?
  {
    item.encrypted != "" && (item.issuer == "" || item.issuer == ISSUER)
  }

  predicate Instructs(item: Input) { item.Message? && item.role.Instructs() }

  // ---- The encoder's state ------------------------------------------------------------------

  /** Blocks join the last message when it is the same side's; no blocks, no message. */
  function AddTo(messages: seq<Msg>, role: Side, blocks: seq<Block>): seq<Msg> {
    if blocks == [] then messages else Append(messages, role, blocks)
  }

  datatype Encoding = Encoding(messages: seq<Msg>, system: seq<Block>, leading: bool)
  {
    function Add(role: Side, blocks: seq<Block>): Encoding { this.(messages := AddTo(messages, role, blocks)) }
  }

  const START := Encoding([], [], true)

  function EncodeMessage(e: Encoding, i: nat, role: Role, content: seq<Content>): Result<Encoding> {
    var blocks := EncodeBlocks(content);
    if blocks.Refused? then Refused(i, blocks.why)
    else match role
      case UserRole => Ok(e.Add(User, blocks.value))
      case AssistantRole => Ok(e.Add(Model, blocks.value))
      case OtherRole(_) => Refused(i, UnknownRole)
      case _ =>
        if !e.leading then Ok(e.Add(User, blocks.value))
        else if FirstMedium(content).Some? then Refused(i, WordlessInstruction(FirstMedium(content).value))
        else Ok(e.(system := e.system + blocks.value))
  }

  function EncodeItem(before: Encoding, wire: Wire, i: nat, item: Input): Result<Encoding> {
    var e := before.(leading := before.leading && Instructs(item));
    match item
    case Message(role, content) => EncodeMessage(e, i, role, content)
    case FunctionCall(callId, name, arguments) =>
      if arguments.NotObject? then Refused(i, BadArguments)
      else Ok(e.Add(Model, [ToolUse(wire(callId), name, if arguments.Object? then arguments.json else "{}")]))
    case FunctionOutput(callId, output) =>
      if output.None? then Refused(i, BadOutput) else Ok(e.Add(User, [ToolResult(wire(callId), output.value)]))
    case Reasoning(_, summary, text, encrypted) =>
      Ok(if Replayable(item) then e.Add(Model, [Thinking(encrypted, if summary != "" then summary else text)]) else e)
    case ForeignItem => Ok(e)
    case ExtensionItem(block) =>
      if block.None? then Refused(i, BadExtension) else Ok(e.Add(Model, [RawBlock(block.value)]))
    case OtherItem => Refused(i, Unsupported)
  }

  function EncodeItems(items: seq<Input>, wire: Wire): Result<Encoding> {
    if items == [] then Ok(START)
    else
      var before := EncodeItems(Front(items), wire);
      if before.Refused? then before else EncodeItem(before.value, wire, |items| - 1, Last(items))
  }

  function Only(blocks: seq<Block>, results: bool): seq<Block> {
    if blocks == [] then []
    else Only(Front(blocks), results) + if Last(blocks).ToolResult? == results then [Last(blocks)] else []
  }

  /** Tool results first, then the other blocks, each kind in order. */
  function ResultsFirst(blocks: seq<Block>): seq<Block> { Only(blocks, true) + Only(blocks, false) }

  function Arranged(messages: seq<Msg>): (r: seq<Msg>)
    ensures |r| == |messages|
    ensures forall t :: 0 <= t < |messages| ==> r[t] == Arrange(messages[t])
  {
    seq(|messages|, t requires 0 <= t < |messages| => Arrange(messages[t]))
  }

  function Arrange(m: Msg): Msg { if m.role.User? then Turn(User, ResultsFirst(m.parts)) else m }

  /** The messages and the system prompt of a request input. */
  function Encode(items: seq<Input>, wire: Wire): Result<(seq<Msg>, seq<Block>)> {
    var r := EncodeItems(items, wire);
    if r.Refused? then Refused(r.item, r.why) else Ok((Arranged(r.value.messages), r.value.system))
  }

  // ---- What is refused ----------------------------------------------------------------------------

  /** The first part of a content that is neither readable nor another provider's. */
  ghost predicate FirstUnreadable(content: seq<Content>, k: nat) {
    k < |content| && content[k] == Unreadable(false) && forall j :: 0 <= j < k ==> content[j] != Unreadable(false)
  }

  predicate Readable(content: seq<Content>) {
    forall j :: 0 <= j < |content| ==> content[j] != Unreadable(false)
  }

  ghost predicate FirstMediumAt(content: seq<Content>, k: nat) {
    k < |content| && content[k].Medium? && forall j :: 0 <= j < k ==> !content[j].Medium?
  }

  /** Why an item is refused; `leading` says that it follows instructions only. */
  ghost predicate RefusedFor(leading: bool, item: Input, why: Why) {
    match item
    case Message(role, content) =>
      || (why.BadContent? && FirstUnreadable(content, why.part))
      || (why == UnknownRole && role.OtherRole? && Readable(content))
      || (why.WordlessInstruction? && leading && (role.SystemRole? || role.DeveloperRole?)
          && Readable(content) && FirstMediumAt(content, why.part))
    case FunctionCall(_, _, arguments) => why == BadArguments && arguments.NotObject?
    case FunctionOutput(_, output) => why == BadOutput && output.None?
    case Reasoning(_, _, _, _) => false
    case ForeignItem => false
    case ExtensionItem(block) => why == BadExtension && block.None?
    case OtherItem => why == Unsupported
  }

  /** No item before i is refused. */
  ghost predicate TakenBefore(items: seq<Input>, i: nat)
    requires i <= |items|
  {
    forall k, why :: 0 <= k < i ==> !RefusedFor(Leading(items[..k]), items[k], why)
  }

  lemma {:induction false} MediumIsFirst(content: seq<Content>)
    ensures match FirstMedium(content)
            case Some(k) => FirstMediumAt(content, k)
            case None => forall j :: 0 <= j < |content| ==> !content[j].Medium?
  {
    if content != [] {
      MediumIsFirst(Front(content));
      assert forall j :: 0 <= j < |content| - 1 ==> Front(content)[j] == content[j];
    }
  }

  lemma ItemRefused(e: Encoding, wire: Wire, i: nat, item: Input, why: Why)
    ensures EncodeItem(e, wire, i, item) == Refused(i, why) <==> RefusedFor(e.leading, item, why)
    ensures EncodeItem(e, wire, i, item).Refused? ==> EncodeItem(e, wire, i, item).item == i
  {
    hide EncodeBlocks, FirstMedium;
    if item.Message? {
      BlocksAreContent(item.content);
      MediumIsFirst(item.content);
    }
  }

  lemma {:induction false} ItemsRefused(items: seq<Input>, wire: Wire)
    ensures var r := EncodeItems(items, wire);
            && (r.Ok? ==> TakenBefore(items, |items|))
            && (r.Refused? ==>
                  && r.item < |items| && TakenBefore(items, r.item)
                  && RefusedFor(Leading(items[..r.item]), items[r.item], r.why))
  {
    hide EncodeItem, RefusedFor, Leading, TakenBefore;
    if items == [] {
      assert TakenBefore(items, 0) by { NoneBefore(items); }
    } else {
      var before, n := Front(items), |items| - 1;
      ItemsRefused(before, wire);
      var r := EncodeItems(before, wire);
      if r.Refused? {
        TakenPrefix(items, r.item);
        assert items[..r.item] == before[..r.item];
      } else {
        TakenPrefix(items, n);
        ItemsTurn(before, wire);
        LastRefused(items, wire);
      }
    }
  }

  lemma NoneBefore(items: seq<Input>)
    ensures TakenBefore(items, 0)
  {
  }

  lemma TakenPrefix(items: seq<Input>, i: nat)
    requires items != [] && i < |items|
    ensures TakenBefore(items, i) == TakenBefore(Front(items), i)
  {
    hide RefusedFor, Leading;
    assert forall k :: 0 <= k < i ==> Front(items)[k] == items[k] && Front(items)[..k] == items[..k];
  }

  lemma LastRefused(items: seq<Input>, wire: Wire)
    requires items != [] && EncodeItems(Front(items), wire).Ok? && TakenBefore(items, |items| - 1)
    requires EncodeItems(Front(items), wire).value.leading == Leading(Front(items))
    ensures var r, n := EncodeItems(items, wire), |items| - 1;
            && (r.Ok? ==> TakenBefore(items, |items|))
            && (r.Refused? ==> r.item == n && RefusedFor(Leading(items[..n]), items[n], r.why))
  {
    hide RefusedFor, Leading, EncodeItem;
    var e, n := EncodeItems(Front(items), wire).value, |items| - 1;
    forall why ensures EncodeItem(e, wire, n, items[n]) == Refused(n, why) <==> RefusedFor(e.leading, items[n], why) {
      ItemRefused(e, wire, n, items[n], why);
    }
    ItemRefused(e, wire, n, items[n], UnknownRole);
  }

  /** An input is refused at its first refused item and for that item's reason,
      and taken when there is none. */
  lemma RefusedAtFirst(items: seq<Input>, wire: Wire, i: nat, why: Why)
    ensures Encode(items, wire) == Refused(i, why) <==>
              i < |items| && TakenBefore(items, i) && RefusedFor(Leading(items[..i]), items[i], why)
    ensures Encode(items, wire).Ok? <==> TakenBefore(items, |items|)
  {
    hide RefusedFor, Leading, EncodeItems;
    ItemsRefused(items, wire);
    var r := EncodeItems(items, wire);
    if r.Refused? && i < |items| && TakenBefore(items, i) && RefusedFor(Leading(items[..i]), items[i], why) {
      assert i == r.item;
      OneReason(Leading(items[..i]), items[i], why, r.why);
    }
  }

  lemma OneReason(leading: bool, item: Input, a: Why, b: Why)
    requires RefusedFor(leading, item, a) && RefusedFor(leading, item, b)
    ensures a == b
  {
  }

  // ---- What the items say on their own ---------------------------------------------------------

  /** The blocks of a content, each readable part one of its own. */
  function ContentBlocks(content: seq<Content>): seq<Block> {
    if content == [] then []
    else
      ContentBlocks(Front(content))
      + match Last(content)
        case Spoken(text) => [TextBlock(text)]
        case Medium(kind, payload) => [MediaBlock(kind, payload)]
        case Unreadable(_) => []
  }

  /** Content is encoded part by part, each part's own text or kind and payload,
      or refused at the first part that is neither readable nor another
      provider's. */
  lemma {:induction false} BlocksAreContent(content: seq<Content>)
    ensures match EncodeBlocks(content)
            case Ok(blocks) => blocks == ContentBlocks(content) && Readable(content)
            case Refused(i, why) => i == 0 && why.BadContent? && FirstUnreadable(content, why.part)
  {
    if content != [] {
      BlocksAreContent(Front(content));
      assert ContentBlocks(Front(content)) + [] == ContentBlocks(Front(content));
      assert forall j :: 0 <= j < |content| - 1 ==> Front(content)[j] == content[j];
    }
  }

  lemma EncodedContent(content: seq<Content>)
    ensures EncodeBlocks(content).Ok? ==> EncodeBlocks(content).value == ContentBlocks(content)
  {
    BlocksAreContent(content);
  }

  function SideOf(item: Input): Side {
    if (item.Message? && !item.role.AssistantRole?) || item.FunctionOutput? then User else Model
  }

  function BlocksOf(wire: Wire, item: Input): seq<Block> {
    match item
    case Message(_, content) => ContentBlocks(content)
    case FunctionCall(callId, name, arguments) =>
      [ToolUse(wire(callId), name, if arguments.Object? then arguments.json else "{}")]
    case FunctionOutput(callId, output) => if output.Some? then [ToolResult(wire(callId), output.value)] else []
    case Reasoning(issuer, summary, text, encrypted) =>
      if encrypted == "" || issuer !in {"", "anthropic"} then []
      else [Thinking(encrypted, if summary == "" then text else summary)]
    case ExtensionItem(block) => if block.Some? then [RawBlock(block.value)] else []
    case _ => []
  }

  /** Every item so far is a system or developer message. */
  predicate Leading(items: seq<Input>) {
    forall k :: 0 <= k < |items| ==>
      items[k].Message? && (items[k].role.SystemRole? || items[k].role.DeveloperRole?)
  }

  lemma LeadingLast(items: seq<Input>)
    requires items != []
    ensures Leading(items) == (Leading(Front(items)) && Instructs(Last(items)))
  {
    assert items == Front(items) + [Last(items)];
  }

  /** The blocks the last item adds to the conversation. */
  function Said(wire: Wire, items: seq<Input>): seq<Block>
    requires items != []
  {
    if Leading(items) then [] else BlocksOf(wire, Last(items))
  }

  function Turns(wire: Wire, items: seq<Input>): seq<Msg> {
    if items == [] then [] else AddTo(Turns(wire, Front(items)), SideOf(Last(items)), Said(wire, items))
  }

  function Conversation(wire: Wire, items: seq<Input>): seq<Line<Block>> {
    if items == [] then [] else Conversation(wire, Front(items)) + Tag(SideOf(Last(items)), Said(wire, items))
  }

  function Instructions(wire: Wire, items: seq<Input>): seq<Block> {
    if items == [] then []
    else Instructions(wire, Front(items)) + if Leading(items) then BlocksOf(wire, Last(items)) else []
  }

  lemma ItemTurns(e: Encoding, wire: Wire, i: nat, item: Input)
    requires EncodeItem(e, wire, i, item).Ok?
    ensures var leads := e.leading && Instructs(item);
            EncodeItem(e, wire, i, item).value ==
              Encoding(AddTo(e.messages, SideOf(item), if leads then [] else BlocksOf(wire, item)),
                       e.system + (if leads then BlocksOf(wire, item) else []), leads)
  {
    hide AddTo, EncodeBlocks, ContentBlocks;
    if item.Message? { EncodedContent(item.content); }
    AddNothing(e.messages, SideOf(item));
    assert e.system + [] == e.system;
  }

  lemma AddNothing(messages: seq<Msg>, role: Side)
    ensures AddTo(messages, role, []) == messages
  {
  }

  lemma {:induction false} ItemsTurn(items: seq<Input>, wire: Wire)
    requires EncodeItems(items, wire).Ok?
    ensures EncodeItems(items, wire).value == Encoding(Turns(wire, items), Instructions(wire, items), Leading(items))
  {
    hide EncodeItem, AddTo, BlocksOf, Instructs, SideOf;
    if items != [] {
      ItemsTurn(Front(items), wire);
      ItemTurns(EncodeItems(Front(items), wire).value, wire, |items| - 1, Last(items));
      LeadingLast(items);
    }
  }

  // ---- The shape of the messages -----------------------------------------------------------------

  lemma {:induction false} TurnsAlternate(wire: Wire, items: seq<Input>)
    ensures Alternating(Turns(wire, items))
  {
    if items != [] {
      TurnsAlternate(wire, Front(items));
      if Said(wire, items) != [] {
        AppendAlternates(Turns(wire, Front(items)), SideOf(Last(items)), Said(wire, items));
      }
    }
  }

  lemma {:induction false} TurnsFlat(wire: Wire, items: seq<Input>)
    ensures Flat(Turns(wire, items)) == Conversation(wire, items)
  {
    if items != [] {
      TurnsFlat(wire, Front(items));
      AppendFlat(Turns(wire, Front(items)), SideOf(Last(items)), Said(wire, items));
      assert Flat(Turns(wire, Front(items))) + [] == Flat(Turns(wire, Front(items)));
    }
  }

  // ---- Tool results first --------------------------------------------------------------------------

  /** A stable partition: the same blocks, tool results before all others, the
      results among themselves and the others among themselves in order. */
  ghost predicate Partitions(before: seq<Block>, after: seq<Block>) {
    && multiset(after) == multiset(before)
    && (forall j, k :: 0 <= j < k < |after| && after[k].ToolResult? ==> after[j].ToolResult?)
    && Only(after, true) == Only(before, true) && Only(after, false) == Only(before, false)
  }

  lemma {:induction false} OnlyMembers(blocks: seq<Block>, results: bool)
    ensures forall b <- Only(blocks, results) :: b.ToolResult? == results
    ensures Only(Only(blocks, results), results) == Only(blocks, results)
    ensures Only(Only(blocks, results), !results) == []
  {
    if blocks != [] {
      OnlyMembers(Front(blocks), results);
      if Last(blocks).ToolResult? == results { assert Front(Only(blocks, results)) == Only(Front(blocks), results); }
      else { assert Only(blocks, results) == Only(Front(blocks), results); }
    }
  }

  lemma {:induction false} OnlySplit(a: seq<Block>, b: seq<Block>, results: bool)
    ensures Only(a + b, results) == Only(a, results) + Only(b, results)
  {
    if b == [] {
      assert a + b == a;
    } else {
      OnlySplit(a, Front(b), results);
      assert Front(a + b) == a + Front(b);
    }
  }

  lemma {:induction false} OnlyBoth(blocks: seq<Block>)
    ensures multiset(Only(blocks, true)) + multiset(Only(blocks, false)) == multiset(blocks)
  {
    if blocks != [] {
      OnlyBoth(Front(blocks));
      BothOn(blocks);
    }
  }

  lemma BothOn(blocks: seq<Block>)
    requires blocks != []
    requires multiset(Only(Front(blocks), true)) + multiset(Only(Front(blocks), false)) == multiset(Front(blocks))
    ensures multiset(Only(blocks, true)) + multiset(Only(blocks, false)) == multiset(blocks)
  {
    hide Only;
    var b, r := Last(blocks), Last(blocks).ToolResult?;
    var p, q := multiset(Only(Front(blocks), true)), multiset(Only(Front(blocks), false));
    OnlyLast(blocks);
    OneMore(Front(blocks), b);
    OneMore(Only(Front(blocks), r), b);
    assert blocks == Front(blocks) + [b];
    Sums(p, q, b);
    if r {
      assert multiset(Only(blocks, true)) == p + multiset{b} && multiset(Only(blocks, false)) == q;
    } else {
      assert multiset(Only(blocks, true)) == p && multiset(Only(blocks, false)) == q + multiset{b};
    }
  }

  lemma Sums(p: multiset<Block>, q: multiset<Block>, b: Block)
    ensures (p + multiset{b}) + q == p + q + multiset{b} && p + (q + multiset{b}) == p + q + multiset{b}
  {
  }

  lemma OnlyLast(blocks: seq<Block>)
    requires blocks != []
    ensures var b, r := Last(blocks), Last(blocks).ToolResult?;
            Only(blocks, r) == Only(Front(blocks), r) + [b] && Only(blocks, !r) == Only(Front(blocks), !r)
  {
  }

  lemma OneMore(blocks: seq<Block>, b: Block)
    ensures multiset(blocks + [b]) == multiset(blocks) + multiset{b}
  {
  }

  lemma ResultsFirstPartitions(blocks: seq<Block>)
    ensures Partitions(blocks, ResultsFirst(blocks))
  {
    var a, b := Only(blocks, true), Only(blocks, false);
    OnlyBoth(blocks);
    OnlyMembers(blocks, true);
    OnlyMembers(blocks, false);
    OnlySplit(a, b, true);
    OnlySplit(a, b, false);
    hide Only;
    assert multiset(a + b) == multiset(a) + multiset(b) && a + [] == a && [] + b == b;
    assert forall x :: 0 <= x < |a| ==> a[x] in a && a[x].ToolResult?;
    assert forall x :: 0 <= x < |b| ==> b[x] in b && !b[x].ToolResult?;
  }

  /** A message after rearranging: an assistant's as it was, a user's a stable
      partition of what it was. */
  ghost predicate Rearranges(before: Msg, after: Msg) {
    && after.role == before.role
    && if before.role.Model? then after == before else Partitions(before.parts, after.parts)
  }

  /** Every encoded input: messages alternate and none is empty, read in order
      they are what the items say, each user message rearranged as a stable
      partition with its tool results first, and the leading instructions are
      the system prompt.  No block is lost, added or moved across messages. */
  lemma EncodedMessages(items: seq<Input>, wire: Wire)
    requires Encode(items, wire).Ok?
    ensures var (messages, system) := Encode(items, wire).value;
            var turns := Turns(wire, items);
            && Alternating(messages) && system == Instructions(wire, items)
            && Flat(turns) == Conversation(wire, items)
            && |messages| == |turns|
            && forall t :: 0 <= t < |turns| ==> Rearranges(turns[t], messages[t])
  {
    ItemsTurn(items, wire);
    TurnsAlternate(wire, items);
    TurnsFlat(wire, items);
    ArrangedRearranges(Turns(wire, items));
  }

  lemma ArrangedRearranges(turns: seq<Msg>)
    requires Alternating(turns)
    ensures Alternating(Arranged(turns))
    ensures forall t :: 0 <= t < |turns| ==> Rearranges(turns[t], Arranged(turns)[t])
  {
    hide ResultsFirst, Only;
    forall t | 0 <= t < |turns| ensures Rearranges(turns[t], Arranged(turns)[t]) && Arranged(turns)[t].parts != [] {
      ResultsFirstPartitions(turns[t].parts);
      assert |multiset(ResultsFirst(turns[t].parts))| == |multiset(turns[t].parts)|;
    }
  }

  // ---- Where a tool result lands ----------------------------------------------------------------------

  /** The side each item puts blocks into, if any. */
  function Sides(wire: Wire, items: seq<Input>): (r: seq<Option<Side>>)
    ensures |r| == |items|
    ensures forall k :: 0 <= k < |items| ==> r[k] == if Said(wire, items[..k + 1]) == [] then None
            else Some(SideOf(items[k]))
  {
    seq(|items|, k requires 0 <= k < |items| => if Said(wire,
                                                        items[..k + 1]) == [] then None else Some(SideOf(items[k])))
  }

  lemma SidesOfPrefix(wire: Wire, items: seq<Input>, n: nat)
    requires n <= |items|
    ensures Sides(wire, items[..n]) == Sides(wire, items)[..n]
  {
    hide Said, SideOf;
    forall k | 0 <= k < n ensures Sides(wire, items[..n])[k] == Sides(wire, items)[k] {
      assert items[..n][..k + 1] == items[..k + 1];
    }
  }

  /** The messages' sides are the contributions' sides, joined. */
  lemma {:induction false} TurnsRoles(wire: Wire, items: seq<Input>)
    ensures Roles(Turns(wire, items)) == Joined(Sides(wire, items))
  {
    hide Said, SideOf;
    if items != [] {
      var n := |items| - 1;
      TurnsRoles(wire, items[..n]);
      SidesOfPrefix(wire, items, n);
      assert items[..n + 1] == items;
      assert Front(Sides(wire, items)) == Sides(wire, Front(items));
      AppendRoles(Turns(wire, Front(items)), SideOf(Last(items)), Said(wire, items));
    }
  }

  /** The message an item's blocks land in. */
  function TurnOf(wire: Wire, items: seq<Input>, k: nat): int
    requires k < |items|
  {
    Slot(Sides(wire, items), k)
  }

  lemma {:induction false} TurnsGrow(wire: Wire, items: seq<Input>, n: nat)
    requires n <= |items|
    ensures Grown(Turns(wire, items[..n]), Turns(wire, items))
    decreases |items| - n
  {
    if n == |items| {
      assert items[..n] == items;
    } else {
      TurnsGrow(wire, items, n + 1);
      Extends(items, n);
      AppendGrows(Turns(wire, items[..n]), SideOf(items[n]), Said(wire, items[..n + 1]));
      GrownAgain(Turns(wire, items[..n]), Turns(wire, items[..n + 1]), Turns(wire, items));
    }
  }

  /** A contributing item's blocks are in the message it lands in. */
  lemma Lands(wire: Wire, items: seq<Input>, k: nat)
    requires k < |items| && Sides(wire, items)[k].Some?
    ensures var t := TurnOf(wire, items, k);
            && 0 <= t < |Turns(wire, items)| && Turns(wire, items)[t].role == SideOf(items[k])
            && forall b <- Said(wire, items[..k + 1]) :: b in Turns(wire, items)[t].parts
  {
    hide Said, SideOf;
    Extends(items, k);
    AppendGrows(Turns(wire, items[..k]), SideOf(items[k]), Said(wire, items[..k + 1]));
    TurnsGrow(wire, items, k + 1);
    SidesOfPrefix(wire, items, k + 1);
    TurnsRoles(wire, items[..k + 1]);
  }

  /** A tool result sits in the message right after the one holding its call
      exactly when no assistant-side contribution follows a user-side one
      between them. */
  lemma ResultFollowsCall(items: seq<Input>, wire: Wire, i: nat, j: nat)
    requires Encode(items, wire).Ok? && i < j < |items|
    requires items[i].FunctionCall? && items[j].FunctionOutput? && items[i].callId == items[j].callId
    ensures var messages := Encode(items, wire).value.0;
            var t, u := TurnOf(wire, items, i), TurnOf(wire, items, j);
            && 0 <= t < u < |messages| && items[j].output.Some?
            && messages[t].role.Model? && BlocksOf(wire, items[i])[0] in messages[t].parts
            && messages[u].role.User? && BlocksOf(wire, items[j])[0] in messages[u].parts
            && BlocksOf(wire, items[i])[0].ToolUse?
            && BlocksOf(wire, items[j]) == [ToolResult(wire(items[i].callId), items[j].output.value)]
            && (u == t + 1 <==> !Interrupted(Sides(wire, items), i, j))
  {
    Accepted(items, wire, j);
    Contributes(items, wire, i);
    Contributes(items, wire, j);
    Adjacent(Sides(wire, items), i, j);
    InMessages(items, wire, i);
    InMessages(items, wire, j);
  }

  /** A call, a user message, an assistant message and then the result. */
  function Interleaved(): seq<Input> {
    [FunctionCall("c", "n", NoArguments), Message(UserRole, [Spoken("hi")]),
     Message(AssistantRole, [Spoken("well")]), FunctionOutput("c", Some("o"))]
  }

  /** It is encoded with messages between the call's and the result's. */
  lemma MessagesInterrupt(wire: Wire)
    ensures Encode(Interleaved(), wire).Ok?
    ensures TurnOf(wire, Interleaved(), 3) > TurnOf(wire, Interleaved(), 0) + 1
  {
    var items := Interleaved();
    InterleavedEncodes(wire);
    Speaks(items, wire, 1);
    Speaks(items, wire, 2);
    hide Encode, Turns, Said;
    ResultFollowsCall(items, wire, 0, 3);
  }

  lemma InterleavedEncodes(wire: Wire)
    ensures Encode(Interleaved(), wire).Ok?
  {
    var items := Interleaved();
    hide EncodeBlocks, AddTo;
    OneText("hi");
    OneText("well");
    assert EncodeItems([], wire).Ok? && items[..0] == [] && items[..4] == items;
    TakenNext(items, wire, 0);
    TakenNext(items, wire, 1);
    TakenNext(items, wire, 2);
    TakenNext(items, wire, 3);
  }

  lemma TakenNext(items: seq<Input>, wire: Wire, k: nat)
    requires k < |items| && EncodeItems(items[..k], wire).Ok?
    ensures EncodeItems(items[..k + 1], wire) == EncodeItem(EncodeItems(items[..k], wire).value, wire, k, items[k])
  {
    Extends(items, k);
  }

  lemma OneText(text: string)
    ensures EncodeBlocks([Spoken(text)]) == Ok([TextBlock(text)])
  {
    assert Front([Spoken(text)]) == [];
    assert [] + [TextBlock(text)] == [TextBlock(text)];
  }

  /** A message after another item contributes. */
  lemma Speaks(items: seq<Input>, wire: Wire, k: nat)
    requires 0 < k < |items| && items[0].FunctionCall? && items[k].Message? && !items[k].role.Instructs()
    requires exists text :: items[k].content == [Spoken(text)]
    ensures Sides(wire, items)[k] == Some(if items[k].role.AssistantRole? then Model else User)
  {
    var text :| items[k].content == [Spoken(text)];
    assert items[k].content == [Spoken(text)] && Front([Spoken(text)]) == [];
    var upto := items[..k + 1];
    assert upto[0] == items[0] && Last(upto) == items[k] && !Instructs(upto[0]);
  }

  /** A call and an output are no instructions. */
  lemma Contributes(items: seq<Input>, wire: Wire, k: nat)
    requires k < |items| && (items[k].FunctionCall? || (items[k].FunctionOutput? && items[k].output.Some?))
    ensures Sides(wire, items)[k] == Some(if items[k].FunctionCall? then Model else User)
    ensures Said(wire, items[..k + 1]) == BlocksOf(wire, items[k])
  {
    var upto := items[..k + 1];
    assert Last(upto) == items[k] && !Instructs(upto[k]);
    assert !Leading(upto);
  }

  /** Every item of an accepted input is accepted. */
  lemma {:induction false} Accepted(items: seq<Input>, wire: Wire, k: nat)
    requires EncodeItems(items, wire).Ok? && k < |items|
    ensures items[k].FunctionOutput? ==> items[k].output.Some?
  {
    if k < |items| - 1 { Accepted(Front(items), wire, k); }
  }

  /** What an item contributes is in the message it lands in, as it is sent. */
  lemma InMessages(items: seq<Input>, wire: Wire, k: nat)
    requires Encode(items, wire).Ok? && k < |items| && Sides(wire, items)[k].Some?
    ensures var messages := Encode(items, wire).value.0;
            var t := TurnOf(wire, items, k);
            && 0 <= t < |messages| && messages[t].role == SideOf(items[k])
            && forall b <- Said(wire, items[..k + 1]) :: b in messages[t].parts
  {
    hide Turns, Said, Encode, Partitions, SideOf;
    EncodedMessages(items, wire);
    Lands(wire, items, k);
    var t := TurnOf(wire, items, k);
    var before, after := Turns(wire, items)[t], Encode(items, wire).value.0[t];
    assert Rearranges(before, after);
    SameBlocks(before, after);
  }

  lemma SameBlocks(before: Msg, after: Msg)
    requires Rearranges(before, after)
    ensures forall b <- before.parts :: b in after.parts
  {
    if before.role.User? {
      forall b | b in before.parts ensures b in after.parts {
        assert b in multiset(before.parts);
      }
    }
  }
}

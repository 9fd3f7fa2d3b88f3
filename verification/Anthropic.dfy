/** The Anthropic encoder as the request path runs it: loops over the items and
    the messages built so far. */
module Anthropic {
  import opened Alternation
  import opened RequestTypes
  import opened Wrappers
  import opened Spec = AnthropicSpec

  class Encoder {
    var messages: seq<Msg>
    var system: seq<Block>
    var leading: bool

    constructor ()
      ensures State() == Spec.START
    {
      messages, system, leading := [], [], true;
    }

    ghost function State(): Encoding
      reads this
    {
      Encoding(messages, system, leading)
    }

    method Add(role: Side, blocks: seq<Block>)
      modifies this`messages
      ensures State() == old(State()).Add(role, blocks)
    {
      if |blocks| == 0 { return; }
      var n := |messages|;
      if n > 0 && messages[n - 1].role == role {
        messages := messages[n - 1 := Turn(role, messages[n - 1].parts + blocks)];
        return;
      }
      messages := messages + [Turn(role, blocks)];
    }

    /** Take one item; a refusal stops the encoding. */
    method Take(wire: Wire, i: nat, item: Input) returns (refusal: Option<(nat, Why)>)
      modifies this
      ensures var r := EncodeItem(old(State()), wire, i, item);
              if r.Ok? then refusal.None? && State() == r.value else refusal == Some((r.item, r.why))
    {
      refusal := None;
      if !item.Message? || !item.role.Instructs() { leading := false; }
      match item {
        case Message(role, content) =>
          refusal := TakeMessage(i, role, content);
        case FunctionCall(callId, name, arguments) =>
          if arguments.NotObject? { return Some((i, BadArguments)); }
          Add(Model, [ToolUse(wire(callId), name, if arguments.Object? then arguments.json else "{}")]);
        case FunctionOutput(callId, output) =>
          if output.None? { return Some((i, BadOutput)); }
          Add(User, [ToolResult(wire(callId), output.value)]);
        case Reasoning(issuer, summary, text, encrypted) =>
          if encrypted == "" || (issuer != "" && issuer != ISSUER) { return None; }
          Add(Model, [Thinking(encrypted, if summary != "" then summary else text)]);
        case ForeignItem =>
        case ExtensionItem(block) =>
          if block.None? { return Some((i, BadExtension)); }
          Add(Model, [RawBlock(block.value)]);
        case OtherItem =>
          refusal := Some((i, Unsupported));
      }
    }

    method TakeMessage(i: nat, role: Role, content: seq<Content>) returns (refusal: Option<(nat, Why)>)
      modifies this
      ensures var r := EncodeMessage(old(State()), i, role, content);
              if r.Ok? then refusal.None? && State() == r.value else refusal == Some((r.item, r.why))
    {
      var encoded := BlocksFor(content);
      if encoded.Refused? { return Some((i, encoded.why)); }
      refusal := None;
      match role {
        case UserRole => Add(User, encoded.value);
        case AssistantRole => Add(Model, encoded.value);
        case OtherRole(_) => refusal := Some((i, UnknownRole));
        case _ =>
          if !leading {
            Add(User, encoded.value);
            return;
          }
          var k := TakeInstruction(content, encoded.value);
          if k.Some? { refusal := Some((i, WordlessInstruction(k.value))); }
      }
    }

    /** Add the text blocks of an instruction to the system prompt.  The blocks
        have no entry for a part left out as foreign, so the place in the
        content is counted beside the place in the blocks. */
    method TakeInstruction(content: seq<Content>, blocks: seq<Block>) returns (refused: Option<nat>)
      requires EncodeBlocks(content) == Ok(blocks)
      modifies this`system
      ensures refused == FirstMedium(content)
      ensures refused.None? ==> system == old(system) + blocks
    {
      var j := 0;
      PrefixEncodes(content, |content|);
      for k := 0 to |content|
        invariant j <= |blocks| && EncodeBlocks(content[..k]) == Ok(blocks[..j])
        invariant FirstMedium(content[..k]).None? && system == old(system) + blocks[..j]
      {
        Extends(content, k);
        PrefixEncodes(content, k + 1);
        if !(content[k].Unreadable? && content[k].foreign) {
          assert blocks[..j + 1] == EncodeBlocks(content[..k + 1]).value;
          assert blocks[j] == blocks[..j + 1][j];
          if !blocks[j].TextBlock? {
            StaysMedium(content, k + 1);
            return Some(k);
          }
          system := system + [blocks[j]];
          j := j + 1;
        }
      }
      assert content[..|content|] == content && blocks[..j] == blocks;
      refused := None;
    }
  }

  method BlocksFor(content: seq<Content>) returns (r: Result<seq<Block>>)
    ensures r == EncodeBlocks(content)
  {
    var blocks := [];
    for j := 0 to |content|
      invariant EncodeBlocks(content[..j]) == Ok(blocks)
    {
      Extends(content, j);
      match content[j] {
        case Spoken(text) => blocks := blocks + [TextBlock(text)];
        case Medium(kind, payload) => blocks := blocks + [MediaBlock(kind, payload)];
        case Unreadable(foreign) =>
          if !foreign {
            StaysRefused(content, j + 1);
            return Refused(0, BadContent(j));
          }
      }
    }
    assert content[..|content|] == content;
    r := Ok(blocks);
  }

  lemma {:induction false} StaysRefused(content: seq<Content>, k: nat)
    requires k <= |content| && EncodeBlocks(content[..k]).Refused?
    ensures EncodeBlocks(content) == EncodeBlocks(content[..k])
    decreases |content| - k
  {
    if k == |content| {
      assert content[..k] == content;
    } else {
      Extends(content, k);
      StaysRefused(content, k + 1);
    }
  }

  lemma {:induction false} PrefixEncodes(content: seq<Content>, k: nat)
    requires k <= |content| && EncodeBlocks(content).Ok?
    ensures EncodeBlocks(content[..k]).Ok? && EncodeBlocks(content[..k]).value <= EncodeBlocks(content).value
    decreases |content| - k
  {
    if k == |content| {
      assert content[..k] == content;
    } else {
      Extends(content, k);
      PrefixEncodes(content, k + 1);
    }
  }

  lemma {:induction false} StaysMedium(content: seq<Content>, k: nat)
    requires k <= |content| && FirstMedium(content[..k]).Some?
    ensures FirstMedium(content) == FirstMedium(content[..k])
    decreases |content| - k
  {
    if k == |content| {
      assert content[..k] == content;
    } else {
      Extends(content, k);
      StaysMedium(content, k + 1);
    }
  }

  /** The messages and system prompt of a request input, each user message with
      its tool results first. */
  method EncodeInput(items: seq<Input>, wire: Wire) returns (r: Result<(seq<Msg>, seq<Block>)>)
    ensures r == Encode(items, wire)
  {
    var encoder := new Encoder();
    for i := 0 to |items|
      invariant fresh(encoder) && EncodeItems(items[..i], wire) == Ok(encoder.State())
    {
      Extends(items, i);
      var refusal := encoder.Take(wire, i, items[i]);
      if refusal.Some? {
        StopsAt(items, wire, i + 1);
        return Refused(refusal.value.0, refusal.value.1);
      }
    }
    assert items[..|items|] == items;
    var turns, system := encoder.messages, encoder.system;
    var messages := turns;
    for t := 0 to |turns|
      invariant |messages| == |turns|
      invariant forall u :: 0 <= u < |messages| ==> messages[u] == if u < t then Arrange(turns[u]) else turns[u]
    {
      if messages[t].role == User {
        var content := ToolResultsFirst(messages[t].parts);
        messages := messages[t := Turn(User, content)];
      }
    }
    assert messages == Arranged(turns);
    r := Ok((messages, system));
  }

  lemma {:induction false} StopsAt(items: seq<Input>, wire: Wire, k: nat)
    requires k <= |items| && EncodeItems(items[..k], wire).Refused?
    ensures EncodeItems(items, wire) == EncodeItems(items[..k], wire)
    decreases |items| - k
  {
    if k == |items| {
      assert items[..k] == items;
    } else {
      Extends(items, k);
      StopsAt(items, wire, k + 1);
    }
  }

  /** Two passes: the tool results, then the rest. */
  method ToolResultsFirst(blocks: seq<Block>) returns (out: seq<Block>)
    ensures out == ResultsFirst(blocks) && Partitions(blocks, out)
  {
    out := [];
    for k := 0 to |blocks|
      invariant out == Only(blocks[..k], true)
    {
      Extends(blocks, k);
      if blocks[k].ToolResult? { out := out + [blocks[k]]; }
    }
    assert blocks[..|blocks|] == blocks;
    for k := 0 to |blocks|
      invariant out == Only(blocks, true) + Only(blocks[..k], false)
    {
      Extends(blocks, k);
      if !blocks[k].ToolResult? { out := out + [blocks[k]]; }
    }
    ResultsFirstPartitions(blocks);
  }
}

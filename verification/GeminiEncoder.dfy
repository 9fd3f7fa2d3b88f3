/** The encoder as the request path runs it: loops and closures over the turns
    built so far, and placeholders written into the finished turns in place. */
module GeminiEncoder {
  import opened Alternation
  import opened GeminiTypes
  import opened RequestTypes
  import opened Wrappers
  import Spec = GeminiEncoderSpec

  class Encoder {
    var contents: seq<Turn<Part>>
    var system: seq<Part>
    var pending: Option<Signature>
    var leading: bool

    constructor ()
      ensures State() == Spec.START
    {
      contents, system, pending, leading := [], [], None, true;
    }

    ghost function State(): Spec.Encoding
      reads this
    {
      Spec.Encoding(contents, system, pending, leading)
    }

    method AppendParts(role: Side, parts: seq<Part>)
      modifies this`contents
      ensures State() == old(State()).AppendParts(role, parts)
    {
      var n := |contents|;
      if n > 0 && contents[n - 1].role == role {
        contents := contents[n - 1 := Turn(role, contents[n - 1].parts + parts)];
        return;
      }
      contents := contents + [Turn(role, parts)];
    }

    method Flush()
      modifies this`contents, this`pending
      ensures State() == old(State()).Flush()
    {
      if pending.Some? {
        AppendParts(Model, [Part(true, Text(""), pending)]);
        pending := None;
      }
    }

    method Add(role: Side, parts: seq<Part>)
      modifies this`contents, this`pending
      ensures State() == old(State()).Add(role, parts)
    {
      if |parts| == 0 { return; }
      var added := parts;
      if role != Model {
        Flush();
      } else if pending.Some? && !parts[0].thought {
        if parts[0].signature.Some? {
          Flush();
        } else {
          added := parts[0 := parts[0].Sign(pending.value)];
          pending := None;
        }
      }
      AppendParts(role, added);
    }

    /** Take one item; some refusal stops the encoding. */
    method Take(names: map<string, string>, i: nat, item: Input) returns (refusal: Option<(nat, Why)>)
      modifies this
      ensures var r := Spec.EncodeItem(old(State()), names, i, item);
              if r.Ok? then refusal.None? && State() == r.value else refusal == Some((r.item, r.why))
    {
      refusal := None;
      if !item.Message? || !item.role.Instructs() { leading := false; }
      match item {
        case Message(role, content) =>
          refusal := TakeMessage(i, role, content);
        case FunctionCall(callId, name, arguments) =>
          if arguments.NotObject? { return Some((i, BadArguments)); }
          Add(Model, [Part(false, Call(callId, name, if arguments.Object? then Some(arguments.json) else None), None)]);
        case FunctionOutput(callId, output) =>
          if callId !in names { return Some((i, NoSuchCall)); }
          if output.None? { return Some((i, BadOutput)); }
          Add(User, [Part(false, Answer(callId, names[callId], output.value), None)]);
        case Reasoning(issuer, summary, text, encrypted) =>
          if issuer != Spec.ISSUER { return None; }
          if encrypted.NotBase64? { return Some((i, BadSignature)); }
          var words := if summary != "" then summary else text;
          if words != "" { Add(Model, [Thought(words)]); }
          if encrypted.Signed? {
            Flush();
            pending := Some(encrypted.signature);
          }
        case ForeignItem =>
        case ExtensionItem(carried) =>
          if carried.CarriesNothing? { return Some((i, BadExtension)); }
          Add(Model, [carried.part]);
        case OtherItem =>
          refusal := Some((i, Unsupported));
      }
    }

    method TakeMessage(i: nat, role: Role, content: seq<Content>) returns (refusal: Option<(nat, Why)>)
      modifies this
      ensures var r := Spec.EncodeMessage(old(State()), i, role, content);
              if r.Ok? then refusal.None? && State() == r.value else refusal == Some((r.item, r.why))
    {
      var encoded := EncodeParts(content);
      if encoded.Refused? { return Some((i, encoded.why)); }
      var parts := encoded.value;
      refusal := None;
      match role {
        case UserRole => Add(User, parts);
        case AssistantRole => Add(Model, parts);
        case OtherRole(_) => refusal := Some((i, UnknownRole));
        case _ =>
          var wordless := FindWordless(content, parts);
          if wordless.Some? { return Some((i, WordlessInstruction(wordless.value))); }
          if leading {
            system := system + parts;
          } else {
            Add(User, parts);
          }
      }
    }
  }

  method EncodeParts(content: seq<Content>) returns (r: Result<seq<Part>>)
    ensures r == Spec.EncodeParts(content)
  {
    var parts := [];
    for j := 0 to |content|
      invariant Spec.EncodeParts(content[..j]) == Ok(parts)
    {
      Extends(content, j);
      match content[j] {
        case Spoken(text) => parts := parts + [Plain(text)];
        case Medium(kind, payload) => parts := parts + [Part(false, Other(kind, payload), None)];
        case Unreadable(foreign) =>
          if !foreign {
            StaysRefused(content, j + 1);
            return Refused(0, BadContent(j));
          }
      }
    }
    assert content[..|content|] == content;
    r := Ok(parts);
  }

  lemma {:induction false} StaysRefused(content: seq<Content>, k: nat)
    requires k <= |content| && Spec.EncodeParts(content[..k]).Refused?
    ensures Spec.EncodeParts(content) == Spec.EncodeParts(content[..k])
    decreases |content| - k
  {
    if k == |content| {
      assert content[..k] == content;
    } else {
      Extends(content, k);
      StaysRefused(content, k + 1);
    }
  }

  /** The encoded parts have no entry for one left out as foreign, so the place
      in the content is counted beside the place in the parts. */
  method FindWordless(content: seq<Content>, parts: seq<Part>) returns (k: Option<nat>)
    requires Spec.EncodeParts(content) == Ok(parts)
    ensures k == Spec.FirstWordless(content)
  {
    var j := 0;
    PrefixEncodes(content, |content|);
    for at := 0 to |content|
      invariant j <= |parts| && Spec.EncodeParts(content[..at]) == Ok(parts[..j])
      invariant Spec.FirstWordless(content[..at]).None?
    {
      Extends(content, at);
      PrefixEncodes(content, at + 1);
      if !(content[at].Unreadable? && content[at].foreign) {
        assert parts[..j + 1] == Spec.EncodeParts(content[..at + 1]).value;
        assert parts[j] == parts[..j + 1][j];
        if parts[j].Words() == "" {
          StaysWordless(content, at + 1);
          return Some(at);
        }
        j := j + 1;
      }
    }
    assert content[..|content|] == content;
    k := None;
  }

  lemma {:induction false} PrefixEncodes(content: seq<Content>, k: nat)
    requires k <= |content| && Spec.EncodeParts(content).Ok?
    ensures Spec.EncodeParts(content[..k]).Ok?
            && Spec.EncodeParts(content[..k]).value <= Spec.EncodeParts(content).value
    decreases |content| - k
  {
    if k == |content| {
      assert content[..k] == content;
    } else {
      Extends(content, k);
      PrefixEncodes(content, k + 1);
    }
  }

  lemma {:induction false} StaysWordless(content: seq<Content>, k: nat)
    requires k <= |content| && Spec.FirstWordless(content[..k]).Some?
    ensures Spec.FirstWordless(content) == Spec.FirstWordless(content[..k])
    decreases |content| - k
  {
    if k == |content| {
      assert content[..k] == content;
    } else {
      Extends(content, k);
      StaysWordless(content, k + 1);
    }
  }

  /** The turns and system parts of a request input. */
  method EncodeInput(items: seq<Input>) returns (r: Result<(seq<Turn<Part>>, seq<Part>)>)
    ensures r == Spec.Encode(items)
  {
    var names := map[];
    for i := 0 to |items|
      invariant names == Spec.Names(items[..i])
    {
      Extends(items, i);
      if items[i].FunctionCall? { names := names[items[i].callId := items[i].name]; }
    }
    assert items[..|items|] == items;
    var encoder := new Encoder();
    for i := 0 to |items|
      invariant fresh(encoder) && Spec.EncodeItems(items[..i], names) == Ok(encoder.State())
    {
      Extends(items, i);
      var refusal := encoder.Take(names, i, items[i]);
      if refusal.Some? {
        StopsAt(items, names, i + 1);
        return Refused(refusal.value.0, refusal.value.1);
      }
    }
    encoder.Flush();
    r := Ok((encoder.contents, encoder.system));
  }

  lemma {:induction false} StopsAt(items: seq<Input>, names: map<string, string>, k: nat)
    requires k <= |items| && Spec.EncodeItems(items[..k], names).Refused?
    ensures Spec.EncodeItems(items, names) == Spec.EncodeItems(items[..k], names)
    decreases |items| - k
  {
    if k == |items| {
      assert items[..k] == items;
    } else {
      Extends(items, k);
      StopsAt(items, names, k + 1);
    }
  }

  /** Sign, in place, the first call of each model turn that has no signature. */
  method PlaceholderSignatures(contents: array<Turn<Part>>)
    modifies contents
    ensures Spec.AllPlaced(old(contents[..]), contents[..])
  {
    for t := 0 to contents.Length
      invariant forall u :: 0 <= u < t ==> Spec.Placed(old(contents[u]), contents[u])
      invariant forall u :: t <= u < contents.Length ==> contents[u] == old(contents[u])
    {
      var turn := contents[t];
      if turn.role == Model {
        var k := 0;
        while k < |turn.parts| && !turn.parts[k].body.Call?
          invariant 0 <= k <= |turn.parts|
          invariant forall j :: 0 <= j < k ==> !turn.parts[j].body.Call?
        {
          k := k + 1;
        }
        if k < |turn.parts| {
          assert Spec.FirstCall(turn, k);
          if turn.parts[k].signature.None? {
            contents[t] := Turn(Model, turn.parts[k := turn.parts[k].Sign(Spec.PLACEHOLDER)]);
          }
        }
      }
    }
  }
}

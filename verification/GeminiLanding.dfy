/** In which of Gemini's turns a call and its output land, and when the response
    directly follows the turn that called it. */
module GeminiLanding {
  import opened Alternation
  import opened GeminiEncoderSpec
  import opened GeminiTypes
  import opened RequestTypes
  import opened Wrappers

  /** The side an item contributes to: a reasoning item by its text, or by the
      signature that is kept for a later part. */
  function Contributes(item: Input): Option<Side> {
    match item
    case Message(role, content) => if Silent(content) then None else Some(if role.AssistantRole? then Model else User)
    case FunctionCall(_, _, _) => Some(Model)
    case FunctionOutput(_, _) => Some(User)
    case Reasoning(issuer, _, _, encrypted) =>
      if issuer == ISSUER && (ReasoningText(item) != "" || encrypted.Signed?) then Some(Model) else None
    case ExtensionItem(_) => Some(Model)
    case _ => None
  }

  function Sides(items: seq<Input>): (r: seq<Option<Side>>)
    ensures |r| == |items|
    ensures forall k :: 0 <= k < |items| ==> r[k] == if Leading(items[..k + 1]) then None else Contributes(items[k])
  {
    seq(|items|, k requires 0 <= k < |items| => if Leading(items[..k + 1]) then None else Contributes(items[k]))
  }

  lemma SidesOfPrefix(items: seq<Input>, n: nat)
    requires n <= |items|
    ensures Sides(items[..n]) == Sides(items)[..n]
  {
    hide Leading, Contributes;
    forall k | 0 <= k < n ensures Sides(items[..n])[k] == Sides(items)[k] {
      assert items[..n][..k + 1] == items[..k + 1];
    }
  }

  /** The sides of the turns as they would be sent now, a held signature included. */
  function Sent(e: Encoding): seq<Side> { Roles(e.Flush().contents) }

  /** A turn has a part with this body, signed or not. */
  predicate Holds(turn: Turn<Part>, body: Body) { exists p <- turn.parts :: p.body == body }

  lemma AddSent(e: Encoding, role: Side, parts: seq<Part>)
    requires parts != []
    ensures Sent(e.Add(role, parts)) == JoinRole(Sent(e), role)
    ensures Grown(e.contents, e.Add(role, parts).contents) && Grown(e.contents, e.Flush().contents)
    ensures role == User || !parts[0].thought ==> e.Add(role, parts).pending.None?
    ensures e.Add(role, parts).leading == e.leading
  {
    hide Append, Grown, Roles;
    AppendRoles(e.contents, role, parts);
    AppendGrows(e.contents, role, parts);
    FlushSent(e);
    if role == User || (e.pending.Some? && !parts[0].thought && parts[0].signature.Some?) {
      var flushed := e.Flush().contents;
      AppendRoles(flushed, role, parts);
      AppendGrows(flushed, role, parts);
      GrownAgain(e.contents, flushed, Append(flushed, role, parts));
    } else if e.pending.Some? && !parts[0].thought {
      AppendRoles(e.contents, role, parts[0 := parts[0].Sign(e.pending.value)]);
      AppendGrows(e.contents, role, parts[0 := parts[0].Sign(e.pending.value)]);
    } else {
      FlushSent(e.Add(role, parts));
    }
  }

  lemma FlushSent(e: Encoding)
    ensures Sent(e) == if e.pending.None? then Roles(e.contents) else JoinRole(Roles(e.contents), Model)
    ensures Grown(e.contents, e.Flush().contents)
  {
    hide Append, Grown, Roles;
    var bare := [Part(true, Text(""), e.pending)];
    AppendRoles(e.contents, Model, bare);
    AppendGrows(e.contents, Model, bare);
    GrownSelf(e.contents);
  }

  lemma GrownSelf(turns: seq<Turn<Part>>)
    ensures Grown(turns, turns)
  {
  }

  /** What is added last stands in the last turn, signed perhaps. */
  lemma AddHolds(e: Encoding, role: Side, part: Part)
    ensures var f := e.Add(role, [part]);
            f.contents != [] && Last(f.contents).role == role && Holds(Last(f.contents), part.body)
  {
    hide Append, Encoding.Flush;
    AppendGrows(e.contents, role, [part]);
    AppendGrows(e.Flush().contents, role, [part]);
    assert part in [part];
    if e.pending.Some? {
      var signed := part.Sign(e.pending.value);
      AppendGrows(e.contents, role, [signed]);
      assert [part][0 := signed] == [signed] && signed in [signed];
    }
  }

  /** Each item joins its side, and the turns only grow. */
  lemma ItemSent(e: Encoding, names: map<string, string>, i: nat, item: Input)
    requires EncodeItem(e, names, i, item).Ok?
    ensures var f := EncodeItem(e, names, i, item).value;
            var leads := e.leading && Instructs(item);
            && Sent(f) == (if leads || Contributes(item).None? then Sent(e) else JoinRole(Sent(e),
                Contributes(item).value))
            && Grown(e.contents, f.contents) && f.leading == leads
  {
    hide Encoding.Add, Grown, Sent, EncodeReasoning, EncodeMessage;
    var d := e.(leading := e.leading && Instructs(item));
    SentOf(e, d);
    GrownSelf(e.contents);
    match item
    case Message(role, content) => MessageSent(d, i, item);
    case FunctionCall(callId, name, arguments) =>
      AddSent(d, Model, [Part(false, Call(callId, name, if arguments.Object? then Some(arguments.json) else None),
                              None)]);
    case FunctionOutput(callId, output) =>
      AddSent(d, User, [Part(false, Answer(callId, names[callId], output.value), None)]);
    case Reasoning(_, _, _, _) => ReasoningSent(d, i, item);
    case ExtensionItem(carried) => AddSent(d, Model, [carried.part]);
    case ForeignItem =>
    case OtherItem =>
  }

  lemma SentOf(d: Encoding, e: Encoding)
    requires d.contents == e.contents && d.pending == e.pending
    ensures Sent(d) == Sent(e)
  {
  }

  lemma MessageSent(d: Encoding, i: nat, item: Input)
    requires item.Message? && EncodeMessage(d, i, item.role, item.content).Ok? && (d.leading ==> Instructs(item))
    ensures var f := EncodeMessage(d, i, item.role, item.content).value;
            && Sent(f) == (if d.leading || Contributes(item).None? then Sent(d) else JoinRole(Sent(d),
                Contributes(item).value))
            && Grown(d.contents, f.contents) && f.leading == d.leading
  {
    hide Encoding.Add, Grown, Sent, EncodeParts;
    var parts := EncodeParts(item.content).value;
    GrownSelf(d.contents);
    SentOf(d, d.(system := d.system + parts));
    if parts == [] {
      assert d.Add(User, parts) == d && d.Add(Model, parts) == d by { AddNone(d); }
    } else {
      AddSent(d, User, parts);
      AddSent(d, Model, parts);
    }
  }

  lemma AddNone(d: Encoding)
    ensures d.Add(User, []) == d && d.Add(Model, []) == d
  {
  }

  lemma ReasoningSent(e: Encoding, i: nat, item: Input)
    requires item.Reasoning? && EncodeReasoning(e, i, item).Ok?
    ensures var f := EncodeReasoning(e, i, item).value;
            && Sent(f) == (if Contributes(item).None? then Sent(e) else JoinRole(Sent(e), Model))
            && Grown(e.contents, f.contents) && f.leading == e.leading
  {
    hide Encoding.Add, Grown, Roles, Append;
    GrownSelf(e.contents);
    var spoken := if ReasoningText(item) != "" then e.Add(Model, [Thought(ReasoningText(item))]) else e;
    AddSent(e, Model, [Thought(ReasoningText(item))]);
    if item.issuer == ISSUER && item.encrypted.Signed? {
      HoldSent(spoken, item.encrypted.signature);
      GrownAgain(e.contents, spoken.contents, spoken.Hold(item.encrypted.signature).contents);
    }
  }

  lemma HoldSent(e: Encoding, s: Signature)
    ensures Sent(e.Hold(s)) == JoinRole(Sent(e), Model) && Grown(e.contents, e.Hold(s).contents)
            && e.Hold(s).leading == e.leading
  {
    hide Append, Grown, Roles;
    GrownSelf(e.contents);
    var bare := [Part(true, Text(""), e.pending)];
    AppendRoles(e.contents, Model, bare);
    AppendGrows(e.contents, Model, bare);
    AppendRoles(e.Hold(s).contents, Model, [Part(true, Text(""), Some(s))]);
  }

  /** The turns' sides are the contributions' sides, joined. */
  lemma {:induction false} ItemsSent(items: seq<Input>, names: map<string, string>)
    requires EncodeItems(items, names).Ok?
    ensures Sent(EncodeItems(items, names).value) == Joined(Sides(items))
    ensures EncodeItems(items, names).value.leading == Leading(items)
  {
    hide EncodeItem, Contributes, Instructs, Sent, Sides, Joined, Leading;
    if items == [] {
      NothingSent();
    } else {
      ItemsSent(Front(items), names);
      ItemSent(EncodeItems(Front(items), names).value, names, |items| - 1, Last(items));
      NextSide(items);
    }
  }

  lemma NextSide(items: seq<Input>)
    requires items != []
    ensures Leading(items) == (Leading(Front(items)) && Instructs(Last(items)))
    ensures Joined(Sides(items)) ==
              if Leading(items) || Contributes(Last(items)).None? then Joined(Sides(Front(items)))
              else JoinRole(Joined(Sides(Front(items))), Contributes(Last(items)).value)
  {
    hide Contributes, Instructs, JoinRole, Leading;
    LeadingLast(items);
    assert items == Front(items) + [Last(items)] && items[..|items|] == items;
    SidesOfPrefix(items, |items| - 1);
    assert Front(Sides(items)) == Sides(Front(items));
  }

  lemma NothingSent()
    ensures Sent(START) == Joined(Sides([])) && Leading([])
  {
  }

  lemma {:induction false} ItemsGrown(items: seq<Input>, names: map<string, string>, n: nat)
    requires n <= |items| && EncodeItems(items, names).Ok?
    ensures EncodeItems(items[..n], names).Ok?
    ensures Grown(EncodeItems(items[..n], names).value.contents, EncodeItems(items, names).value.contents)
  {
    hide EncodeItem, Grown;
    if n == |items| {
      assert items[..n] == items;
      GrownSelf(EncodeItems(items, names).value.contents);
    } else {
      ItemsGrown(Front(items), names, n);
      assert Front(items)[..n] == items[..n];
      var before, after := EncodeItems(Front(items), names).value, EncodeItems(items, names).value;
      ItemSent(before, names, |items| - 1, Last(items));
      GrownAgain(EncodeItems(items[..n], names).value.contents, before.contents, after.contents);
    }
  }

  /** The body a call or an output is sent as. */
  function BodyOf(names: map<string, string>, item: Input): Body
    requires item.FunctionCall? || (item.FunctionOutput? && item.callId in names && item.output.Some?)
  {
    if item.FunctionCall? then Call(item.callId, item.name,
                                    if item.arguments.Object? then Some(item.arguments.json) else None)
    else Answer(item.callId, names[item.callId], item.output.value)
  }

  /** A call or an output stands in the last turn once it is taken. */
  lemma BodyAdded(items: seq<Input>, names: map<string, string>, k: nat)
    requires EncodeItems(items, names).Ok? && k < |items| && (items[k].FunctionCall? || items[k].FunctionOutput?)
    ensures Refusal(names, items[k]).None? && EncodeItems(items[..k + 1], names).Ok?
    ensures var turns := EncodeItems(items[..k + 1], names).value.contents;
            && turns != [] && |turns| - 1 == Slot(Sides(items), k)
            && Last(turns).role == (if items[k].FunctionCall? then Model else User)
            && Holds(Last(turns), BodyOf(names, items[k]))
  {
    hide Grown, Append, EncodeItem, Sides, BodyOf, Refusal, Joined, Holds;
    ItemsGrown(items, names, k + 1);
    ItemsSent(items[..k + 1], names);
    SidesOfPrefix(items, k + 1);
    Extends(items, k);
    CallHolds(EncodeItems(items[..k], names).value, names, k, items[k]);
  }

  /** And in the turn it lands in when all is sent. */
  lemma BodyLands(items: seq<Input>, k: nat)
    requires Encode(items).Ok? && k < |items| && (items[k].FunctionCall? || items[k].FunctionOutput?)
    ensures Refusal(Names(items), items[k]).None?
    ensures var turns, t := Encode(items).value.0, Slot(Sides(items), k);
            && 0 <= t < |turns| && turns[t].role == (if items[k].FunctionCall? then Model else User)
            && Holds(turns[t], BodyOf(Names(items), items[k]))
  {
    hide *;
    var names := Names(items);
    Encodes(items);
    BodyAdded(items, names, k);
    HasBody(names, items[k]);
    ItemsGrown(items, names, k + 1);
    var d, e := EncodeItems(items[..k + 1], names).value.contents, EncodeItems(items, names).value;
    FlushSent(e);
    GrownAgain(d, e.contents, e.Flush().contents);
    LastOf(d);
    StillHolds(d, e.Flush().contents, |d| - 1, BodyOf(names, items[k]));
  }

  lemma Encodes(items: seq<Input>)
    requires Encode(items).Ok?
    ensures EncodeItems(items, Names(items)).Ok?
    ensures Encode(items).value.0 == EncodeItems(items, Names(items)).value.Flush().contents
  {
  }

  lemma HasBody(names: map<string, string>, item: Input)
    requires Refusal(names, item).None?
    ensures item.FunctionOutput? ==> item.callId in names && item.output.Some?
  {
  }

  lemma LastOf(turns: seq<Turn<Part>>)
    requires turns != []
    ensures Last(turns) == turns[|turns| - 1]
  {
  }

  lemma StillHolds(a: seq<Turn<Part>>, b: seq<Turn<Part>>, t: nat, body: Body)
    requires Grown(a, b) && t < |a| && Holds(a[t], body)
    ensures t < |b| && b[t].role == a[t].role && Holds(b[t], body)
  {
    var p :| p in a[t].parts && p.body == body;
    assert p in b[t].parts;
  }

  lemma CallHolds(e: Encoding, names: map<string, string>, k: nat, item: Input)
    requires EncodeItem(e, names, k, item).Ok? && (item.FunctionCall? || item.FunctionOutput?)
    ensures Refusal(names, item).None?
    ensures var f := EncodeItem(e, names, k, item).value;
            && f.pending.None? && f.contents != [] && Last(f.contents).role
                == (if item.FunctionCall? then Model else User)
            && Holds(Last(f.contents), BodyOf(names, item))
  {
    hide Encoding.Add;
    var d := e.(leading := e.leading && Instructs(item));
    var role, part := if item.FunctionCall? then Model else User, Part(false, BodyOf(names, item), None);
    AddHolds(d, role, part);
    AddSent(d, role, [part]);
  }

  /** A function response directly follows the turn that called it exactly when
      between the call and its output no model-side contribution, a kept
      signature included, follows a user-side one. */
  lemma ResponseFollowsCall(items: seq<Input>, i: nat, j: nat)
    requires Encode(items).Ok? && i < j < |items|
    requires items[i].FunctionCall? && items[j].FunctionOutput? && items[i].callId == items[j].callId
    ensures Refusal(Names(items), items[j]).None?
    ensures var turns := Encode(items).value.0;
            var t, u := Slot(Sides(items), i), Slot(Sides(items), j);
            && 0 <= t < u < |turns| && turns[t].role == Model && turns[u].role == User
            && Holds(turns[t], BodyOf(Names(items), items[i]))
            && Holds(turns[u], BodyOf(Names(items), items[j]))
            && (u == t + 1 <==> !Interrupted(Sides(items), i, j))
  {
    BodyLands(items, i);
    BodyLands(items, j);
    assert !Instructs(items[..i + 1][i]) && !Instructs(items[..j + 1][j]);
    hide Refusal, Encode, Joined, BodyOf;
    Adjacent(Sides(items), i, j);
  }

  /** Every output of an accepted input is answered under the name of the last
      call of its id, wherever that stands, in the turn it lands in. */
  lemma AnswerNamed(items: seq<Input>, i: nat) returns (k: nat)
    requires Encode(items).Ok? && i < |items| && items[i].FunctionOutput?
    ensures LastCall(items, k, items[i].callId) && items[i].output.Some?
    ensures var turns, t := Encode(items).value.0, Slot(Sides(items), i);
            && 0 <= t < |turns| && turns[t].role == User
            && Holds(turns[t], Answer(items[i].callId, items[k].name, items[i].output.value))
  {
    hide Encode, Sides, Joined, Holds, Names;
    BodyLands(items, i);
    NamesAreLast(items);
    k :| LastCall(items, k, items[i].callId);
  }

  /** The claim fails for a kept signature: the call, a user message, a signed
      reasoning item without text, and then the output. */
  lemma SignatureInterrupts()
    ensures var items := [FunctionCall("c", "n", NoArguments), Message(UserRole, [Spoken("hi")]),
                          Reasoning(ISSUER, "", "", Signed("s")), FunctionOutput("c", Some("o"))];
            Encode(items).Ok? && Slot(Sides(items), 3) > Slot(Sides(items), 0) + 1
  {
    var items := [FunctionCall("c", "n", NoArguments), Message(UserRole, [Spoken("hi")]),
                  Reasoning(ISSUER, "", "", Signed("s")), FunctionOutput("c", Some("o"))];
    NamesOfCalls(items, "c");
    assert items[0].FunctionCall? && items[0].callId == "c";
    hide Names;
    RefusedAtFirst(items, 0, Unsupported);
    SidesInterrupt(items);
    hide *;
    ResponseFollowsCall(items, 0, 3);
  }

  lemma SidesInterrupt(items: seq<Input>)
    requires |items| == 4 && items[0].FunctionCall? && items[1] == Message(UserRole, [Spoken("hi")])
    requires items[2] == Reasoning(ISSUER, "", "", Signed("s"))
    ensures Interrupted(Sides(items), 0, 3)
  {
    assert !Instructs(items[..2][0]) && !Instructs(items[..3][0]);
    assert items[1].content[0] == Spoken("hi") && !Silent(items[1].content);
    assert Sides(items)[1] == Some(User) && Sides(items)[2] == Some(Model);
  }
}

/** What the output says is what was written, in order: text, refusals,
    reasoning, summaries, arguments, citations and log probabilities. */
module OutputSays {
  import opened BareItems
  import opened EmitterSpec
  import opened Types
  import opened Wrappers

  /** One thing said.  Text is said character by character, so that what is said
      does not depend on how it is cut into deltas, parts and items. */
  datatype Token =
    | TextChar(c: char)
    | RefusalChar(c: char)
    | ThoughtChar(c: char)
    | SummaryChar(c: char)
    | ArgumentChar(c: char)
    | Cited(annotation: Annotation)
    | Weighed(logprob: Logprob)
    | Headed(item: Item)

  /** What is read off an output on its own: the text, refusals and reasoning,
      the reasoning summaries, the arguments of calls, the citations, the log
      probabilities, and the items themselves without what is in them. */
  datatype Channel = Words | SummaryWords | CallArguments | Citations | Logprobs | Heads

  function Chars(text: string, token: char -> Token): (r: seq<Token>)
    ensures |r| == |text| && forall k :: 0 <= k < |text| ==> r[k] == token(text[k])
  {
    seq(|text|, k requires 0 <= k < |text| => token(text[k]))
  }

  function Texts(text: string): seq<Token> { Chars(text, c => TextChar(c)) }

  function Refusals(text: string): seq<Token> { Chars(text, c => RefusalChar(c)) }

  function Thoughts(text: string): seq<Token> { Chars(text, c => ThoughtChar(c)) }

  function Summaries(text: string): seq<Token> { Chars(text, c => SummaryChar(c)) }

  function ArgumentChars(text: string): seq<Token> { Chars(text, c => ArgumentChar(c)) }

  function Cites(annotations: seq<Annotation>): (r: seq<Token>)
    ensures |r| == |annotations| && forall k :: 0 <= k < |r| ==> r[k] == Cited(annotations[k])
  {
    seq(|annotations|, k requires 0 <= k < |annotations| => Cited(annotations[k]))
  }

  function Weights(logprobs: seq<Logprob>): (r: seq<Token>)
    ensures |r| == |logprobs| && forall k :: 0 <= k < |r| ==> r[k] == Weighed(logprobs[k])
  {
    seq(|logprobs|, k requires 0 <= k < |logprobs| => Weighed(logprobs[k]))
  }

  // ---- What is read off an output --------------------------------------------------------------------

  function OfPart(ch: Channel, part: Part): seq<Token> {
    match (ch, part)
    case (Words, OutputText(text, _, _)) => Texts(text)
    case (Words, Refusal(refusal)) => Refusals(refusal)
    case (SummaryWords, SummaryText(text)) => Summaries(text)
    case (Words, ReasoningText(text)) => Thoughts(text)
    case (Citations, OutputText(_, annotations, _)) => Cites(annotations)
    case (Logprobs, OutputText(_, _, logprobs)) => Weights(logprobs)
    case _ => []
  }

  function OfParts(ch: Channel, parts: seq<Part>): seq<Token> {
    if parts == [] then [] else OfParts(ch, Front(parts)) + OfPart(ch, Last(parts))
  }

  /** An item without status and content: what announcing it fixed. */
  function Head(item: Item): Item {
    match item
    case Message(id, _, role, phase, _) => Message(id, Unset, role, phase, [])
    case FunctionCall(id, _, callId, name, _) => FunctionCall(id, Unset, callId, name, "")
    case Reasoning(id, _, _, _, _) => Reasoning(id, Unset, [], [], "")
    case _ => Bare(item)
  }

  function OfItem(ch: Channel, item: Item): seq<Token> {
    if ch.Heads? then [Headed(Head(item))]
    else match item
    case Message(_, _, _, _, content) => OfParts(ch, content)
    case FunctionCall(_, _, _, _, arguments) => if ch.CallArguments? then ArgumentChars(arguments) else []
    case Reasoning(_, _, summary, content, _) => OfParts(ch, summary) + OfParts(ch, content)
    case _ => []
  }

  /** All of an output, item after item. */
  function Said(ch: Channel, items: seq<Item>): seq<Token> {
    if items == [] then [] else Said(ch, Front(items)) + OfItem(ch, Last(items))
  }

  // ---- What a call writes ------------------------------------------------------------------------------

  function Writes(ch: Channel, call: WriterCall): seq<Token> {
    match (ch, call)
    case (Words, Text(delta)) => Texts(delta)
    case (Words, Refuse(delta)) => Refusals(delta)
    case (SummaryWords, Summarize(delta)) => Summaries(delta)
    case (Words, Reason(delta)) => Thoughts(delta)
    case (CallArguments, Arguments(delta)) => ArgumentChars(delta)
    case (Citations, AddAnnotation(a)) => [Cited(a)]
    case (Logprobs, AddLogprobs(logprobs)) => Weights(logprobs)
    case _ => []
  }

  function Tells(ch: Channel, call: Call): seq<Token> {
    match call
    case Write(_, c) => Writes(ch, c)
    case EmitItem(item) => OfItem(ch, item)
    case OpenMessage(id, phase) => if ch.Heads? then [Headed(Message(id, Unset, "assistant", phase, []))] else []
    case OpenCall(id, callId, name) => if ch.Heads? then [Headed(FunctionCall(id, Unset, callId, name, ""))] else []
    case OpenReasoning(id) => if ch.Heads? then [Headed(Reasoning(id, Unset, [], [], ""))] else []
    case _ => []
  }

  // ---- Joining ---------------------------------------------------------------------------------------------

  lemma CharsJoin(a: string, b: string)
    ensures Texts(a + b) == Texts(a) + Texts(b) && Refusals(a + b) == Refusals(a) + Refusals(b)
    ensures Thoughts(a + b) == Thoughts(a) + Thoughts(b) && Summaries(a + b) == Summaries(a) + Summaries(b)
    ensures ArgumentChars(a + b) == ArgumentChars(a) + ArgumentChars(b)
  {
    hide Texts, Refusals, Thoughts, Summaries, ArgumentChars;
    TextsJoin(a, b);
    RefusalsJoin(a, b);
    ThoughtsJoin(a, b);
    SummariesJoin(a, b);
    ArgumentsJoin(a, b);
  }

  lemma TextsJoin(a: string, b: string)
    ensures Texts(a + b) == Texts(a) + Texts(b)
  {
  }

  lemma RefusalsJoin(a: string, b: string)
    ensures Refusals(a + b) == Refusals(a) + Refusals(b)
  {
  }

  lemma ThoughtsJoin(a: string, b: string)
    ensures Thoughts(a + b) == Thoughts(a) + Thoughts(b)
  {
  }

  lemma SummariesJoin(a: string, b: string)
    ensures Summaries(a + b) == Summaries(a) + Summaries(b)
  {
  }

  lemma ArgumentsJoin(a: string, b: string)
    ensures ArgumentChars(a + b) == ArgumentChars(a) + ArgumentChars(b)
  {
  }

  lemma PartsLast(ch: Channel, parts: seq<Part>, part: Part)
    ensures OfParts(ch, parts + [part]) == OfParts(ch, parts) + OfPart(ch, part)
  {
    assert Front(parts + [part]) == parts;
  }

  lemma SaidLast(ch: Channel, items: seq<Item>, item: Item)
    ensures Said(ch, items + [item]) == Said(ch, items) + OfItem(ch, item)
  {
    assert Front(items + [item]) == items;
  }

  /** One part grows and what it says grows with it. */
  lemma LastPartGrows(ch: Channel, parts: seq<Part>, part: Part, more: seq<Token>)
    requires parts != [] && OfPart(ch, part) == OfPart(ch, Last(parts)) + more
    ensures OfParts(ch, ReplaceLast(parts, part)) == OfParts(ch, parts) + more
  {
    hide OfPart;
    var r := ReplaceLast(parts, part);
    assert Front(r) == Front(parts) && Last(r) == part;
  }

  // ---- One writer call ---------------------------------------------------------------------------------------

  lemma EnsureSays(ch: Channel, m: Item, w: Writer, blank: Part)
    requires w.MessageWriter? && Attached(m, w) && (blank == OutputText("", [], []) || blank == Refusal(""))
    ensures var l := EnsurePart(m, w, blank);
            l.item.Message? && l.item.content != [] && SameKind(Last(l.item.content), blank)
                && OfItem(ch, l.item) == OfItem(ch, m)
  {
    PartsLast(ch, m.content, blank);
    assert OfPart(ch, blank) == [];
    assert OfParts(ch, m.content) + [] == OfParts(ch, m.content);
  }

  /** What a call makes of the part it writes into. */
  function NextPart(part: Part, call: WriterCall): Part
    requires if call.Refuse? then part.Refusal?
             else (call.Text? || call.AddAnnotation? || call.AddLogprobs?) && part.OutputText?
  {
    match call
    case Text(delta) => OutputText(part.text + delta, part.annotations, part.logprobs)
    case Refuse(delta) => Refusal(part.refusal + delta)
    case AddAnnotation(a) => OutputText(part.text, part.annotations + [a], part.logprobs)
    case AddLogprobs(logprobs) => OutputText(part.text, part.annotations, part.logprobs + logprobs)
  }

  lemma PartPut(m: Item, w: Writer, call: WriterCall, blank: Part)
    requires w.MessageWriter? && !w.closed && Attached(m, w) && WriterAllows(w, call) && !call.CloseWriter?
    requires blank == if call.Refuse? then Refusal("") else OutputText("", [], [])
    ensures var l := EnsurePart(m, w, blank);
            && l.item.Message? && l.item.content != [] && SameKind(Last(l.item.content), blank)
            && Perform(m, w, call).item
               == WithContent(l.item, ReplaceLast(l.item.content, NextPart(Last(l.item.content), call)))
  {
    EnsurePartFits(m, w, blank);
    hide EnsurePart;
  }

  lemma PartWriteSays(ch: Channel, m: Item, w: Writer, call: WriterCall)
    requires w.MessageWriter? && !w.closed && Attached(m, w) && WriterAllows(w, call) && !call.CloseWriter?
    ensures OfItem(ch, Perform(m, w, call).item) == OfItem(ch, m) + Writes(ch, call)
  {
    hide EnsurePart, OfParts, Perform, OfPart, Writes;
    var blank := if call.Refuse? then Refusal("") else OutputText("", [], []);
    EnsureSays(ch, m, w, blank);
    PartPut(m, w, call, blank);
    var content := EnsurePart(m, w, blank).item.content;
    var next := NextPart(Last(content), call);
    PartGrows(ch, Last(content), next, call);
    LastPartGrows(ch, content, next, Writes(ch, call));
    NoHeads(call);
    assert OfItem(ch, m) + [] == OfItem(ch, m);
  }

  lemma NoHeads(call: WriterCall)
    ensures Writes(Heads, call) == []
  {
  }

  lemma PartGrows(ch: Channel, part: Part, next: Part, call: WriterCall)
    requires call.Refuse? ==> part.Refusal? && next == Refusal(part.refusal + call.delta)
    requires call.Text? || call.Refuse? || call.AddAnnotation? || call.AddLogprobs?
    requires call.Text? ==> part.OutputText? && next == OutputText(part.text + call.delta, part.annotations,
             part.logprobs)
    requires call.AddAnnotation? ==>
               part.OutputText? && next == OutputText(part.text, part.annotations + [call.annotation], part.logprobs)
    requires call.AddLogprobs? ==>
               part.OutputText? && next == OutputText(part.text, part.annotations, part.logprobs + call.logprobs)
    ensures OfPart(ch, next) == OfPart(ch, part) + Writes(ch, call)
  {
    if call.Text? { CharsJoin(part.text, call.delta); }
    if call.Refuse? { CharsJoin(part.refusal, call.delta); }
  }

  lemma ReasoningWriteSays(ch: Channel, r: Item, w: Writer, call: WriterCall)
    requires w.ReasoningWriter? && !w.closed && Attached(r, w) && WriterAllows(w, call) && !call.CloseWriter?
    ensures OfItem(ch, Perform(r, w, call).item) == OfItem(ch, r) + Writes(ch, call)
  {
    match call
    case Summarize(delta) => SummarySays(ch, r, w, delta);
    case Reason(delta) => ReasonSays(ch, r, w, delta);
    case CloseSummary =>
    case Encrypt(_) =>
  }

  lemma SummarySays(ch: Channel, r: Item, w: Writer, delta: string)
    requires w.ReasoningWriter? && !w.closed && Attached(r, w)
    ensures OfItem(ch, WriteSummary(r, w, delta).item) == OfItem(ch, r) + Writes(ch, Summarize(delta))
  {
    hide OfParts, Writes;
    var o := OpenSummary(r, w).item.summary;
    var after := ReplaceLast(o, SummaryText(Last(o).text + delta));
    assert WriteSummary(r, w, delta).item == Reasoning(r.id, r.status, after, r.content, r.encrypted);
    OpenSummarySays(ch, r.summary, o);
    SummaryPartSays(ch, o, delta);
    OnlyThoughts(ch, r.content);
    SummaryWrites(ch, delta);
    Shift(OfParts(ch, r.summary), Writes(ch, Summarize(delta)), OfParts(ch, r.content));
  }

  lemma OpenSummarySays(ch: Channel, before: seq<Part>, after: seq<Part>)
    requires after == before || after == before + [SummaryText("")]
    ensures OfParts(ch, after) == OfParts(ch, before)
  {
    PartsLast(ch, before, SummaryText(""));
    assert OfPart(ch, SummaryText("")) == [];
    assert OfParts(ch, before) + [] == OfParts(ch, before);
  }

  lemma SummaryPartSays(ch: Channel, parts: seq<Part>, delta: string)
    requires parts != [] && Last(parts).SummaryText?
    ensures OfParts(ch, ReplaceLast(parts, SummaryText(Last(parts).text + delta)))
            == OfParts(ch, parts) + Writes(ch, Summarize(delta))
  {
    CharsJoin(Last(parts).text, delta);
    LastPartGrows(ch, parts, SummaryText(Last(parts).text + delta), Writes(ch, Summarize(delta)));
  }

  lemma SummaryWrites(ch: Channel, delta: string)
    ensures !ch.SummaryWords? ==> Writes(ch, Summarize(delta)) == []
  {
  }

  lemma Shift(a: seq<Token>, more: seq<Token>, b: seq<Token>)
    requires more == [] || b == []
    ensures a + more + b == a + b + more
  {
  }

  /** The content of a reasoning item being written is its one text. */
  lemma OnlyThoughts(ch: Channel, content: seq<Part>)
    requires content == [] || (|content| == 1 && content[0].ReasoningText?)
    ensures content == [] || !ch.Words? ==> OfParts(ch, content) == []
    ensures ch.Words? && content != [] ==> OfParts(ch, content) == Thoughts(content[0].text)
  {
    if content != [] { assert Front(content) == [] && OfParts(ch, []) == []; }
  }

  lemma ReasonSays(ch: Channel, r: Item, w: Writer, delta: string)
    requires w.ReasoningWriter? && !w.closed && Attached(r, w)
    ensures OfItem(ch, WriteReasoning(r, w, delta).item) == OfItem(ch, r) + Writes(ch, Reason(delta))
  {
    hide OfParts, Writes, Thoughts;
    var before := if w.textOpen then r.content[0].text else "";
    var after := [ReasoningText(before + delta)];
    assert WriteReasoning(r, w, delta).item == Reasoning(r.id, r.status, r.summary, after, r.encrypted);
    OnlyThoughts(ch, r.content);
    OnlyThoughts(ch, after);
    ThoughtsGrow(ch, before, delta);
    assert OfParts(ch, after) == OfParts(ch, r.content) + Writes(ch, Reason(delta));
    Regroup(OfParts(ch, r.summary), OfParts(ch, r.content), Writes(ch, Reason(delta)));
  }

  lemma Regroup(a: seq<Token>, b: seq<Token>, more: seq<Token>)
    ensures a + (b + more) == a + b + more
  {
  }

  lemma ThoughtsGrow(ch: Channel, before: string, delta: string)
    ensures ch.Words? ==> Thoughts(before + delta) == Thoughts(before) + Writes(ch, Reason(delta))
    ensures !ch.Words? ==> Writes(ch, Reason(delta)) == []
    ensures Thoughts("") == []
  {
    CharsJoin(before, delta);
  }

  lemma CloseSays(ch: Channel, item: Item, w: Writer)
    requires !w.closed && Attached(item, w)
    ensures OfItem(ch, Close(item, w).item) == OfItem(ch, item)
  {
  }

  /** A call on an open writer adds to its item exactly what it writes. */
  lemma WriterSays(ch: Channel, item: Item, w: Writer, call: WriterCall)
    requires !w.closed && Attached(item, w) && WriterAllows(w, call)
    ensures OfItem(ch, Perform(item, w, call).item) == OfItem(ch, item) + Writes(ch, call)
  {
    hide OfParts;
    if call.CloseWriter? {
      CloseSays(ch, item, w);
    } else {
      match w
      case MessageWriter(_, _, _) => PartWriteSays(ch, item, w, call);
      case CallWriter(_, _) => CharsJoin(item.arguments, call.delta);
      case ReasoningWriter(_, _, _, _, _) => ReasoningWriteSays(ch, item, w, call);
    }
  }

  // ---- One call on the emitter -----------------------------------------------------------------------------

  lemma ItemBare(ch: Channel, item: Item)
    ensures OfItem(ch, Bare(item)) == OfItem(ch, item)
  {
  }

  /** Statuses say nothing. */
  lemma {:induction false} SaidBare(ch: Channel, a: seq<Item>, b: seq<Item>)
    requires BareAll(a) == BareAll(b)
    ensures Said(ch, a) == Said(ch, b)
  {
    hide Bare, OfItem;
    assert |a| == |BareAll(a)| == |b|;
    if a != [] {
      var n := |a| - 1;
      assert BareAll(Front(a)) == BareAll(a)[..n] == BareAll(b)[..n] == BareAll(Front(b));
      SaidBare(ch, Front(a), Front(b));
      assert Bare(a[n]) == BareAll(a)[n] == BareAll(b)[n] == Bare(b[n]);
      ItemBare(ch, a[n]);
      ItemBare(ch, b[n]);
    }
  }

  /** A call on a writer says what it writes when it succeeds, else nothing. */
  lemma WriteSays(ch: Channel, e: Producer, h: nat, call: WriterCall)
    requires e.Sound() && e.Allows(Write(h, call))
    ensures Said(ch, e.Do(Write(h, call)).resp.output)
            == Said(ch, e.resp.output) + if e.OutcomeOf(Write(h, call)).Ok? then Writes(ch, call) else []
  {
    hide Perform, OfItem, Writes;
    assert e.WriterSound(h);
    var item, w := e.ItemOf(h), e.writers[h];
    WriterAnswers(ch, item, w, call);
    if w.closed {
      PerformFits(item, w, call);
      assert e.Do(Write(h, call)).resp.output == e.resp.output;
      assert Said(ch, e.resp.output) + [] == Said(ch, e.resp.output);
    } else {
      WriterSays(ch, item, w, call);
      LastSays(ch, e.resp.output, Perform(item, w, call).item, Writes(ch, call));
    }
  }

  /** The outcome tells whether anything was written. */
  lemma WriterAnswers(ch: Channel, item: Item, w: Writer, call: WriterCall)
    requires WriterAllows(w, call) && (w.closed || Attached(item, w))
             && (w.ReasoningWriter? && w.summaryOpen ==> !w.closed)
    ensures w.closed && Perform(item, w, call).outcome.Ok? ==> Writes(ch, call) == []
    ensures !w.closed ==> Perform(item, w, call).outcome.Ok?
  {
  }

  lemma LastSays(ch: Channel, items: seq<Item>, item: Item, more: seq<Token>)
    requires items != [] && OfItem(ch, item) == OfItem(ch, Last(items)) + more
    ensures Said(ch, items[|items| - 1 := item]) == Said(ch, items) + more
  {
    hide OfItem;
    var d := items[|items| - 1 := item];
    assert Front(d) == Front(items) && Last(d) == item;
  }

  lemma OpenSays(ch: Channel, e: Producer, item: Item)
    requires e.Sound()
    ensures Said(ch, e.OpenItem(item).resp.output) == Said(ch, e.resp.output) + OfItem(ch, item)
  {
    hide OfItem, Said, Bare, BareAll;
    var c := e.EnsureStarted().CloseOpen();
    CloseBare(e.EnsureStarted());
    SaidBare(ch, c.resp.output, e.resp.output);
    SaidLast(ch, c.resp.output, item);
  }

  lemma NewItemsSay(ch: Channel, id: string, callId: string, name: string, phase: string)
    ensures OfItem(ch, Message(id, InProgress, "assistant", phase, [])) == Tells(ch, OpenMessage(id, phase))
    ensures OfItem(ch, FunctionCall(id, InProgress, callId, name, "")) == Tells(ch, OpenCall(id, callId, name))
    ensures OfItem(ch, Reasoning(id, InProgress, [], [], "")) == Tells(ch, OpenReasoning(id))
  {
  }

  lemma EmitSays(ch: Channel, e: Producer, item: Item)
    requires e.Sound() && !e.terminal && !item.NilItem?
    ensures Said(ch, e.Do(EmitItem(item)).resp.output) == Said(ch, e.resp.output) + OfItem(ch, item)
  {
    hide OfItem, Said, Producer.OpenItem, Producer.Do, Producer.Sound;
    OpenSays(ch, e, item);
    EmitShape(e, item);
    FinalBare(item);
    hide BareAll;
    SameBare(e.OpenItem(item).resp.output, |e.resp.output|, FinalForm(item));
    OpenedLast(e, item);
    SaidBare(ch, e.Do(EmitItem(item)).resp.output, e.OpenItem(item).resp.output);
  }

  lemma OpenedLast(e: Producer, item: Item)
    requires e.Sound()
    ensures e.OpenItem(item).resp.output[|e.resp.output|] == item
  {
  }

  lemma FinalBare(item: Item)
    ensures Bare(FinalForm(item)) == Bare(item)
  {
  }

  lemma SameBare(items: seq<Item>, n: nat, item: Item)
    requires n < |items|
    ensures Bare(item) == Bare(items[n]) ==> BareAll(items[n := item]) == BareAll(items)
  {
    hide Bare;
  }

  /** Every call says what it tells when it succeeds, else nothing. */
  lemma DoSays(ch: Channel, e: Producer, call: Call)
    requires e.Sound() && e.Allows(call)
    ensures Said(ch, e.Do(call).resp.output)
            == Said(ch, e.resp.output) + if e.OutcomeOf(call).Ok? then Tells(ch, call) else []
  {
    hide OfItem, Said;
    match call
    case StartStream =>
    case SetDetails(_) =>
    case Write(h, c) => WriteSays(ch, e, h, c);
    case OpenMessage(id, phase) =>
      NewItemsSay(ch, id, "", "", phase);
      if !e.terminal { OpenSays(ch, e, Message(id, InProgress, "assistant", phase, [])); }
    case OpenCall(id, callId, name) =>
      NewItemsSay(ch, id, callId, name, "");
      if !e.terminal { OpenSays(ch, e, FunctionCall(id, InProgress, callId, name, "")); }
    case OpenReasoning(id) =>
      NewItemsSay(ch, id, "", "", "");
      if !e.terminal { OpenSays(ch, e, Reasoning(id, InProgress, [], [], "")); }
    case EmitItem(item) => if !e.terminal { EmitSays(ch, e, item); }
    case CompleteStream => if !e.terminal { EndSays(ch, e, call); }
    case StopStream(_) => if !e.terminal { EndSays(ch, e, call); }
  }

  lemma EndSays(ch: Channel, e: Producer, ending: Call)
    requires e.Sound() && !e.terminal && (ending.CompleteStream? || ending.StopStream?)
    ensures Said(ch, e.Do(ending).resp.output) == Said(ch, e.resp.output)
  {
    EndedBare(e, ending);
    SaidBare(ch, e.Do(ending).resp.output, e.resp.output);
  }

  // ---- Every run ---------------------------------------------------------------------------------------------

  /** What the calls of a run tell, those answered with an error left out. */
  ghost function Told(ch: Channel, e: Producer, calls: seq<Call>): seq<Token>
    requires e.Sound() && AllowsAll(e, calls)
    decreases |calls|
  {
    if calls == [] then []
    else
      DoSound(e, calls[0]);
      (if e.OutcomeOf(calls[0]).Ok? then Tells(ch, calls[0]) else []) + Told(ch, e.Do(calls[0]), calls[1..])
  }

  lemma {:induction false} RunSays(ch: Channel, e: Producer, calls: seq<Call>)
    requires e.Sound() && AllowsAll(e, calls)
    ensures Said(ch, DoAll(e, calls).resp.output) == Said(ch, e.resp.output) + Told(ch, e, calls)
    decreases |calls|
  {
    hide Said, Tells, Producer.Do, Producer.Sound, Producer.OutcomeOf;
    if calls != [] {
      DoSound(e, calls[0]);
      DoSays(ch, e, calls[0]);
      RunSays(ch, e.Do(calls[0]), calls[1..]);
      var first := if e.OutcomeOf(calls[0]).Ok? then Tells(ch, calls[0]) else [];
      var s, rest := Said(ch, e.resp.output), Told(ch, e.Do(calls[0]), calls[1..]);
      assert s + first + rest == s + (first + rest);
    }
  }

  /** After every run of calls the output says, on every channel, exactly what
      the calls that succeeded wrote, in their order. */
  lemma EverythingSaid(ch: Channel, resp: Response, calls: seq<Call>)
    requires Fresh(resp) && (NewSound(resp); AllowsAll(NewProducer(resp), calls))
    ensures (NewSound(resp);
             Said(ch, DoAll(NewProducer(resp), calls).resp.output) == Told(ch, NewProducer(resp), calls))
  {
    NewSound(resp);
    RunSays(ch, NewProducer(resp), calls);
    assert Said(ch, []) == [] && [] + Told(ch, NewProducer(resp), calls) == Told(ch, NewProducer(resp), calls);
  }
}

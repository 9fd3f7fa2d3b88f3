/** What a reader's response becomes under events no emitter sends as well:
    text deltas with log probabilities, errors, snapshots that list items. */
module Folding {
  import opened Types
  import opened Wrappers
  import opened AccumulatorSpec

  // ---- Runs of text deltas -----------------------------------------------------------------

  function JoinedText(deltas: seq<(string, seq<Logprob>)>): string {
    if deltas == [] then "" else deltas[0].0 + JoinedText(deltas[1..])
  }

  function JoinedLogprobs(deltas: seq<(string, seq<Logprob>)>): seq<Logprob> {
    if deltas == [] then [] else deltas[0].1 + JoinedLogprobs(deltas[1..])
  }

  function TextDeltas(id: string, index: int, c: nat, deltas: seq<(string, seq<Logprob>)>): (events: seq<Event>)
    ensures AllWellIndexed(events)
  {
    seq(|deltas|, k requires 0 <= k < |deltas| => TextDelta(id, index, c, deltas[k].0, deltas[k].1))
  }

  /** The text part an output index and a content index lead to. */
  ghost predicate LeadsTo(a: Acc, index: int, c: nat, p: nat) {
    && a.Position(index) == Some(p) && a.Output()[p].Message?
    && c < |a.Output()[p].content| && a.Output()[p].content[c].OutputText?
  }

  function PartPut(item: Item, c: nat, part: Part): Item
    requires item.Message? && c < |item.content|
  {
    Message(item.id, item.status, item.role, item.phase, item.content[c := part])
  }

  /** The state with that part replaced. */
  function WithPart(a: Acc, c: nat, p: nat, part: Part): Acc
    requires a.resp.Some? && p < |a.Output()| && a.Output()[p].Message? && c < |a.Output()[p].content|
  {
    a.(resp := Some(a.resp.value.(output := a.Output()[p := PartPut(a.Output()[p], c, part)])))
  }

  /** Text deltas, with or without log probabilities, join on the open part: its
      text, then theirs, its log probabilities, then theirs, in order; nothing
      else changes. */
  lemma {:induction false} DeltasJoin(a: Acc, id: string, index: int, c: nat, p: nat,
                                      deltas: seq<(string, seq<Logprob>)>)
    requires LeadsTo(a, index, c, p)
    ensures var part := a.Output()[p].content[c];
            Fold(a, TextDeltas(id, index, c, deltas)) ==
              WithPart(a, c, p, OutputText(part.text + JoinedText(deltas), part.annotations,
                                           part.logprobs + JoinedLogprobs(deltas)))
    decreases |deltas|
  {
    hide WithPart, Acc.Add, LeadsTo, Acc.Position;
    LeadsHere(a, index, c, p);
    var part, events := a.Output()[p].content[c], TextDeltas(id, index, c, deltas);
    if deltas == [] {
      assert part.text + "" == part.text && part.logprobs + [] == part.logprobs;
      PutBack(a, c, p);
    } else {
      var b := a.Add(events[0]);
      DeltaJoins(a, events[0], p);
      LeadsHere(b, index, c, p);
      DeltasJoin(b, id, index, c, p, deltas[1..]);
      assert events[1..] == TextDeltas(id, index, c, deltas[1..]);
      JoinOn(part, deltas);
      Twice(a, c, p, b.Output()[p].content[c],
            OutputText(part.text + JoinedText(deltas), part.annotations, part.logprobs + JoinedLogprobs(deltas)));
    }
  }

  lemma LeadsHere(a: Acc, index: int, c: nat, p: nat)
    requires LeadsTo(a, index, c, p)
    ensures a.resp.Some? && p < |a.Output()| && a.Output()[p].Message?
    ensures c < |a.Output()[p].content| && a.Output()[p].content[c].OutputText?
  {
  }

  lemma PutBack(a: Acc, c: nat, p: nat)
    requires a.resp.Some? && p < |a.Output()| && a.Output()[p].Message? && c < |a.Output()[p].content|
    ensures WithPart(a, c, p, a.Output()[p].content[c]) == a
  {
    var item := a.Output()[p];
    assert item.content[c := item.content[c]] == item.content;
    assert a.Output()[p := item] == a.Output();
  }

  lemma JoinOn(part: Part, deltas: seq<(string, seq<Logprob>)>)
    requires part.OutputText? && deltas != []
    ensures part.text + deltas[0].0 + JoinedText(deltas[1..]) == part.text + JoinedText(deltas)
    ensures part.logprobs + deltas[0].1 + JoinedLogprobs(deltas[1..]) == part.logprobs + JoinedLogprobs(deltas)
  {
  }

  lemma DeltaJoins(a: Acc, ev: Event, p: nat)
    requires ev.TextDelta? && ev.contentIndex >= 0 && LeadsTo(a, ev.outputIndex, ev.contentIndex, p)
    ensures var part := a.Output()[p].content[ev.contentIndex];
            && a.Add(ev) == WithPart(a, ev.contentIndex, p, OutputText(part.text + ev.delta, part.annotations,
                                                                       part.logprobs + ev.newLogprobs))
            && LeadsTo(a.Add(ev), ev.outputIndex, ev.contentIndex, p)
            && a.Add(ev).Output()[p].content[ev.contentIndex] ==
                 OutputText(part.text + ev.delta, part.annotations, part.logprobs + ev.newLogprobs)
  {
  }

  lemma Twice(a: Acc, c: nat, p: nat, once: Part, part: Part)
    requires a.resp.Some? && p < |a.Output()| && a.Output()[p].Message? && c < |a.Output()[p].content|
    ensures WithPart(WithPart(a, c, p, once), c, p, part) == WithPart(a, c, p, part)
  {
    var content := a.Output()[p].content;
    assert content[c := once][c := part] == content[c := part];
    var item := a.Output()[p];
    assert a.Output()[p := PartPut(item, c, once)][p := PartPut(item, c, part)]
        == a.Output()[p := PartPut(item, c, part)];
  }

  /** The done event of a text replaces what its deltas joined, and the log
      probabilities only when it brings any list of them. */
  lemma DoneReplaces(a: Acc, id: string, index: int, c: nat, p: nat, text: string, logprobs: Option<seq<Logprob>>)
    requires LeadsTo(a, index, c, p)
    ensures var part := a.Output()[p].content[c];
            && (logprobs.None? ==> a.Add(TextDone(id, index, c, text, logprobs))
                                   == WithPart(a, c, p, OutputText(text, part.annotations, part.logprobs)))
            && (logprobs.Some? ==> a.Add(TextDone(id, index, c, text, logprobs))
                                   == WithPart(a, c, p, OutputText(text, part.annotations, logprobs.value)))
  {
  }

  // ---- Errors ---------------------------------------------------------------------------------

  /** An error event fails the response a reader sees, with that error, and
      changes nothing else it had; with nothing folded it is a failed response
      of its own. */
  lemma ErrorFails(a: Acc, error: string)
    ensures var b := a.Add(ErrorEvent(error));
            && b.Visible().Some? && b.Visible().value.status == RFailed && b.Visible().value.error == Some(error)
            && b.Output() == a.Output() && b.slots == a.slots && b.closed == a.closed && b.reused == a.reused
            && (a.resp.Some? ==>
                  && b.Visible().value.id == a.resp.value.id && b.Visible().value.reason == a.resp.value.reason
                  && b.Visible().value.previousId == a.resp.value.previousId
                  && b.Visible().value.details == a.resp.value.details)
            && (a.resp.None? ==> b.Visible().value.output == [] && b.Visible().value.id == "" && b.resp.None?)
  {
  }

  // ---- Snapshots --------------------------------------------------------------------------------

  /** A snapshot gives the response all its fields but the output.  Its list is
      taken over when the response has ended or no index has been reused, and
      only its unknown items are added otherwise; an empty list of a response
      still running leaves the items there are. */
  lemma SnapshotTaken(a: Acc, kind: SnapshotKind, r: Response)
    ensures var b := a.Add(Snapshot(kind, Some(r)));
            && b.resp.Some? && b.lastError == a.lastError && b.reused == a.reused
            && b.resp.value.id == r.id && b.resp.value.status == r.status && b.resp.value.error == r.error
            && b.resp.value.reason == r.reason && b.resp.value.previousId == r.previousId
            && b.resp.value.details == r.details
            && (r.status in {RCompleted, RIncomplete, RFailed} ==> b.Output() == r.output)
            && (r.status !in {RCompleted, RIncomplete, RFailed} ==>
                  && (r.output == [] ==> b.Output() == a.Output())
                  && (r.output != [] && a.reused == [] ==> b.Output() == r.output)
                  && (r.output != [] && a.reused != [] ==>
                        a.Output() <= b.Output() && Ids(b.Output()) == Ids(a.Output()) + Ids(r.output)))
  {
    if !a.KeepsOutput(r) && !a.Adopts(r) {
      AppendUnknownShape(a.Output(), r.output);
      AppendUnknownIds(a.Output(), r.output);
    }
  }

  lemma {:induction false} AppendUnknownIds(out: seq<Item>, listed: seq<Item>)
    ensures Ids(AppendUnknown(out, listed)) == Ids(out) + Ids(listed)
    decreases |listed|
  {
    if listed != [] {
      var item, rest := listed[0], listed[1..];
      IdsOf([item], rest);
      IdsOf(out, [item]);
      assert listed == [item] + rest;
      assert ItemId(item) != "" ==> Ids([item]) == {ItemId(item)} by { assert ([item])[0] == item; }
      assert ItemId(item) == "" ==> Ids([item]) == {};
      if ItemId(item) != "" && ItemId(item) !in Ids(out) {
        AppendUnknownIds(out + [item], rest);
      } else {
        AppendUnknownIds(out, rest);
      }
    }
  }

  lemma IdsOf(xs: seq<Item>, ys: seq<Item>)
    ensures Ids(xs + ys) == Ids(xs) + Ids(ys)
  {
    var both := xs + ys;
    forall id | id in Ids(xs) + Ids(ys) ensures id in Ids(both) {
      if id in Ids(xs) {
        var p :| 0 <= p < |xs| && ItemId(xs[p]) != "" && ItemId(xs[p]) == id;
        assert both[p] == xs[p];
      } else {
        var p :| 0 <= p < |ys| && ItemId(ys[p]) != "" && ItemId(ys[p]) == id;
        assert both[|xs| + p] == ys[p];
      }
    }
  }

  /** A list taken over is addressed by position, and of its items those are
      closed that say so or whose id was closed before; every other item there
      is may still be written. */
  lemma ListTaken(a: Acc, kind: SnapshotKind, r: Response)
    requires r.output != [] && (a.reused == [] || r.status in {RCompleted, RIncomplete, RFailed})
    ensures var b := a.Add(Snapshot(kind, Some(r)));
            && (forall index :: index in b.slots <==> 0 <= index < |r.output| && !r.output[index].NilItem?)
            && (forall index <- b.slots :: b.slots[index] == index)
            && (forall p: nat :: p in b.closed <==>
                  && p < |r.output| && !r.output[p].NilItem?
                  && (|| StatusOf(r.output[p]) == Completed || StatusOf(r.output[p]) == Incomplete
                      || (ItemId(r.output[p]) != "" && exists q <- a.closed :: a.IdAt(q) == ItemId(r.output[p]))))
  {
    var b := a.Relist(r);
    forall p: nat | p < |r.output| && !r.output[p].NilItem?
      ensures p in b.closed <==>
                (|| StatusOf(r.output[p]) == Completed || StatusOf(r.output[p]) == Incomplete
                 || (ItemId(r.output[p]) != "" && exists q <- a.closed :: a.IdAt(q) == ItemId(r.output[p])))
    {
    }
  }

  // ---- Content events, one item at a time -----------------------------------------------------------

  /** The list with x at k, every other entry as it was and any gap filled. */
  predicate Placed<T(==)>(before: seq<T>, after: seq<T>, k: nat, x: T, filler: T) {
    && |after| == (if k < |before| then |before| else k + 1) && after[k] == x
    && forall j :: 0 <= j < |after| && j != k ==> after[j] == if j < |before| then before[j] else filler
  }

  predicate Reaches(a: Acc, ev: Event, p: nat) {
    ev.Content() && ev.WellIndexed() && a.Position(ev.outputIndex) == Some(p)
  }

  /** The item an event reaches is the only one that changes. */
  lemma ReachesOne(a: Acc, ev: Event, p: nat)
    requires Reaches(a, ev, p)
    ensures var b := a.Add(ev);
            && p < |a.Output()| && |b.Output()| == |a.Output()| && b.slots == a.slots && b.closed == a.closed
            && b.reused == a.reused && SameItem(b.Output()[p], a.Output()[p])
            && StatusOf(b.Output()[p]) == StatusOf(a.Output()[p])
            && forall q :: 0 <= q < |a.Output()| && q != p ==> b.Output()[q] == a.Output()[q]
  {
    EditKeepsItem(a.Output()[p], ev);
  }

  /** In a message: a part added or done is placed, annotations are placed in
      their text part, refusals join and are replaced when done; an event for a
      part of another kind, or for another kind of item, changes nothing. */
  lemma MessageEdited(a: Acc, ev: Event, p: nat)
    requires Reaches(a, ev, p) && p < |a.Output()| && a.Output()[p].Message?
    ensures p < |a.Add(ev).Output()| && a.Add(ev).Output()[p].Message?
    ensures var before, after := a.Output()[p].content, a.Add(ev).Output()[p].content;
            match ev
            case PartAdded(_, _, c, part) =>
              if part.NilPart? then after == before else Placed(before, after, c, part, NilPart)
            case PartDone(_, _, c, part) =>
              if part.NilPart? then after == before else Placed(before, after, c, part, NilPart)
            case AnnotationAdded(_, _, c, k, annotation) =>
              if 0 <= c < |before| && before[c].OutputText? && !annotation.NilAnnotation? then
                && |after| == |before| && after[c].OutputText? && Placed(before, after, c, after[c], NilPart)
                && after[c].text == before[c].text && after[c].logprobs == before[c].logprobs
                && Placed(before[c].annotations, after[c].annotations, k, annotation, NilAnnotation)
              else after == before
            case RefusalDelta(_, _, c, delta) =>
              if 0 <= c < |before| && before[c].Refusal?
              then Placed(before, after, c, Refusal(before[c].refusal + delta), NilPart) else after == before
            case RefusalDone(_, _, c, text) =>
              if 0 <= c < |before| && before[c].Refusal? then Placed(before, after, c, Refusal(text), NilPart)
              else after == before
            case TextDelta(_, _, c, _, _) => (0 <= c < |before| && before[c].OutputText?) || after == before
            case TextDone(_, _, c, _, _) => (0 <= c < |before| && before[c].OutputText?) || after == before
            case _ => after == before
  {
    EditedIs(a, ev, p);
    if ev.AnnotationAdded? && 0 <= ev.contentIndex < |a.Output()[p].content| {
      SetBack(a.Output()[p].content, ev.contentIndex);
    }
  }

  lemma SetBack(parts: seq<Part>, c: nat)
    requires c < |parts|
    ensures parts[c := parts[c]] == parts
  {
  }

  lemma EditedIs(a: Acc, ev: Event, p: nat)
    requires Reaches(a, ev, p) && p < |a.Output()|
    ensures p < |a.Add(ev).Output()| && a.Add(ev).Output()[p] == EditItem(a.Output()[p], ev)
  {
  }

  /** In a call: arguments join, and are replaced when done. */
  lemma CallEdited(a: Acc, ev: Event, p: nat)
    requires Reaches(a, ev, p) && p < |a.Output()| && a.Output()[p].FunctionCall?
    ensures p < |a.Add(ev).Output()|
    ensures var before, after := a.Output()[p], a.Add(ev).Output()[p];
            after == FunctionCall(before.id, before.status, before.callId, before.name,
                                  if ev.ArgumentsDelta? then before.arguments + ev.delta
                                  else if ev.ArgumentsDone? then ev.text else before.arguments)
  {
    EditedIs(a, ev, p);
  }

  /** In a reasoning item: summary parts are placed, join and are replaced when
      done, and so is reasoning text, whose parts come into being, with those
      before them, by the first event that names them. */
  lemma ReasoningEdited(a: Acc, ev: Event, p: nat)
    requires Reaches(a, ev, p) && p < |a.Output()| && a.Output()[p].Reasoning?
    ensures p < |a.Add(ev).Output()| && a.Add(ev).Output()[p].Reasoning?
    ensures var before, after := a.Output()[p], a.Add(ev).Output()[p];
            && after.encrypted == before.encrypted
            && (!ev.ReasoningDelta? && !ev.ReasoningDone? ==> after.content == before.content)
            && (match ev
                case SummaryAdded(_, _, s, part) =>
                  if part.NilPart? then after.summary == before.summary
                  else Placed(before.summary, after.summary, s, part, NilPart)
                case SummaryDone(_, _, s, part) =>
                  if part.NilPart? then after.summary == before.summary
                  else Placed(before.summary, after.summary, s, part, NilPart)
                case SummaryDelta(_, _, s, delta) =>
                  if 0 <= s < |before.summary| && before.summary[s].SummaryText?
                  then Placed(before.summary, after.summary, s, SummaryText(before.summary[s].text + delta), NilPart)
                  else after.summary == before.summary
                case SummaryTextDone(_, _, s, text) =>
                  if 0 <= s < |before.summary| && before.summary[s].SummaryText?
                  then Placed(before.summary, after.summary, s, SummaryText(text), NilPart)
                  else after.summary == before.summary
                case ReasoningDelta(_, _, c, delta) =>
                  after.summary == before.summary && TextPlaced(before.content, after.content, c, delta, true)
                case ReasoningDone(_, _, c, text) =>
                  after.summary == before.summary && TextPlaced(before.content, after.content, c, text, false)
                case _ => after.summary == before.summary)
  {
    EditedIs(a, ev, p);
    if ev.ReasoningDelta? { assert "" + ev.delta == ev.delta; }
    if ev.ReasoningDone? { assert "" + ev.text == ev.text; }
  }

  predicate TextPlaced(before: seq<Part>, after: seq<Part>, c: nat, text: string, joins: bool) {
    if c >= |before| then Placed(before, after, c, ReasoningText(text), ReasoningText(""))
    else if before[c].ReasoningText?
    then Placed(before, after, c, ReasoningText((if joins then before[c].text else "") + text), NilPart)
    else after == before
  }

  // ---- Announced items -------------------------------------------------------------------------------

  /** An item announced at an index that reaches a finished item is another one:
      its id differs, or it is added without one. */
  predicate Another(a: Acc, p: nat, item: Item, done: bool) {
    && p in a.closed
    && if ItemId(item) == "" then !done else ItemId(item) != a.IdAt(p)
  }

  /** Where an item goes that is added or done at an index: over the item the
      index reaches, unless that is finished and this is another one, which goes
      to the end and is logged as a reuse; with nothing reached, to the index
      itself before any reuse and to the end after one.  The index reaches it
      then, finished exactly when it is done. */
  lemma AnnouncedGoes(a: Acc, index: nat, item: Item, done: bool)
    requires a.Consistent() && !item.NilItem?
    ensures var b := a.Add(if done then ItemDone(index, item) else ItemAdded(index, item));
            var at, end := a.Position(index), |a.Output()|;
            && b.Position(index).Some? && (b.Position(index).value in b.closed <==> done)
            && match at
               case Some(p) =>
                 if Another(a, p, item, done)
                 then
                   && b.Position(index) == Some(end) && b.Output() == a.Output() + [item]
                   && b.reused == a.reused + [index]
                 else b.Position(index) == at && b.Output() == a.Output()[p := item] && b.reused == a.reused
               case None =>
                 && b.reused == a.reused
                 && b.Position(index) == Some(if a.reused == [] then index else end)
                 && Placed(a.Output(), b.Output(), b.Position(index).value, item, NilItem)
  {
    TargetGoes(a, index, item, done);
    hide Acc.Target, Acc.Consistent, Another;
    var b := a.Add(if done then ItemDone(index, item) else ItemAdded(index, item));
    assert b.Position(index) == Some(a.Target(index, item, done).1);
  }

  lemma TargetGoes(a: Acc, index: nat, item: Item, done: bool)
    requires a.Consistent()
    ensures var (c, pos) := a.Target(index, item, done);
            && c.resp.Some? && c.Output() == a.Output() && c.closed == a.closed
            && index in c.slots && c.slots[index] == pos
            && match a.Position(index)
               case Some(p) =>
                 && p < |a.Output()|
                 && if Another(a, p, item, done) then pos == |a.Output()| && c.reused == a.reused + [index]
                    else pos == p && c.reused == a.reused
               case None => c.reused == a.reused && pos == if a.reused == [] then index else |a.Output()|
  {
    if a.resp.Some? && index !in a.slots { assert a.Position(index).None?; }
  }
}

/** The accumulator as the object the client, CollectStream and the handler use:
    fields updated event by event. */
module Accumulator {
  import opened Types
  import opened Wrappers
  import Spec = AccumulatorSpec

  /** Append filler until the list reaches past `pos`. */
  method PadTo<T>(list: seq<T>, pos: nat, filler: T) returns (padded: seq<T>)
    ensures |padded| == if pos < |list| then |list| else pos + 1
    ensures list <= padded
    ensures forall p :: |list| <= p < |padded| ==> padded[p] == filler
  {
    padded := list;
    while |padded| <= pos
      invariant list <= padded && |padded| <= if pos < |list| then |list| else pos + 1
      invariant forall p :: |list| <= p < |padded| ==> padded[p] == filler
      decreases pos + 1 - |padded|
    {
      padded := padded + [filler];
    }
  }

  method PlaceIn<T>(list: seq<T>, pos: nat, item: T, filler: T) returns (placed: seq<T>)
    ensures placed == PlaceAt(list, pos, item, filler)
  {
    var padded := PadTo(list, pos, filler);
    placed := padded[pos := item];
  }

  class Accumulator {
    var resp: Option<Response>
    var lastError: Option<string>
    var slots: map<int, nat>
    var closed: set<nat>
    var reused: seq<int>

    constructor ()
      ensures State() == Spec.EMPTY
    {
      resp, lastError, slots, closed, reused := None, None, map[], {}, [];
    }

    ghost function State(): Spec.Acc
      reads this
    {
      Spec.Acc(resp, lastError, slots, closed, reused)
    }

    /** The response a reader sees. */
    method Visible() returns (r: Option<Response>)
      ensures r == State().Visible()
    {
      if resp.None? && lastError.Some? {
        r := Some(Response("", RFailed, [], lastError, None, None, ""));
      } else {
        r := resp;
      }
    }

    method Position(index: int) returns (pos: Option<nat>)
      ensures pos == State().Position(index)
    {
      if resp.None? || index < 0 { return None; }
      var at := index;
      if index in slots {
        at := slots[index];
      } else if |reused| > 0 {
        return None;
      }
      if at >= |resp.value.output| || resp.value.output[at].NilItem? { return None; }
      pos := Some(at);
    }

    method ItemAt(index: int) returns (item: Item)
      ensures item == State().ItemAt(index)
    {
      var pos := Position(index);
      item := if pos.Some? then resp.value.output[pos.value] else NilItem;
    }

    /** Write back an item edited in place. */
    method Store(index: int, item: Item)
      requires State().Position(index).Some?
      modifies this
      ensures State() == old(State()).Place(old(State()).Position(index).value, item)
    {
      var pos := Position(index);
      resp := Some(resp.value.(output := resp.value.output[pos.value := item]));
    }

    method Ensure()
      modifies this
      ensures State() == old(State()).Ensured()
    {
      if resp.None? {
        resp := Some(Response("", RInProgress, [], None, None, None, ""));
      }
    }

    /** The position of an index, assigned on first use. */
    method Slot(index: nat) returns (pos: nat)
      requires resp.Some?
      modifies this
      ensures pos == (if index in old(slots) then old(slots)[index] else if old(reused) == [] then index
                      else |old(resp).value.output|)
      ensures State() == old(State()).(slots := old(slots)[index := pos])
    {
      if index in slots {
        pos := slots[index];
        assert slots[index := pos] == slots;
        return;
      }
      pos := index;
      if |reused| > 0 {
        pos := |resp.value.output|;
      }
      slots := slots[index := pos];
    }

    method Target(index: nat, item: Item, same: bool) returns (pos: nat)
      modifies this
      ensures (State(), pos) == old(State()).Target(index, item, same) && resp.Some?
    {
      Ensure();
      pos := Slot(index);
      var out := resp.value.output;
      if pos < |out| && !out[pos].NilItem? && pos in closed {
        var another := ItemId(item) != ItemId(out[pos]);
        if ItemId(item) == "" {
          another := !same;
        }
        if another {
          pos := |out|;
          assert old(slots)[index := slots[index]][index := pos] == old(slots)[index := pos];
          slots := slots[index := pos];
          reused := reused + [index];
        }
      }
    }

    method Place(pos: nat, item: Item)
      requires resp.Some?
      modifies this
      ensures State() == old(State()).Place(pos, item)
    {
      var placed := PlaceIn(resp.value.output, pos, item, NilItem);
      resp := Some(resp.value.(output := placed));
    }

    method AddItem(index: int, item: Item)
      modifies this
      ensures State() == old(State()).AddItem(index, item)
    {
      if item.NilItem? || index < 0 { return; }
      var pos := Target(index, item, false);
      Place(pos, item);
      closed := closed - {pos};
    }

    method CloseItem(index: int, item: Item)
      modifies this
      ensures State() == old(State()).CloseItem(index, item)
    {
      if item.NilItem? || index < 0 { return; }
      var pos := Target(index, item, true);
      Place(pos, item);
      closed := closed + {pos};
    }

    /** The held list with the snapshot's unknown items appended. */
    method AppendUnknown(listed: seq<Item>) returns (out: seq<Item>)
      requires resp.Some?
      ensures out == Spec.AppendUnknown(resp.value.output, listed)
    {
      out := resp.value.output;
      var held: set<string> := {};
      for pos := 0 to |out|
        invariant held == Spec.Ids(out[..pos])
      {
        ghost var before, through := out[..pos], out[..pos + 1];
        assert through == before + [out[pos]];
        IdsGrow(before, out[pos]);
        if ItemId(out[pos]) != "" { held := held + {ItemId(out[pos])}; }
      }
      assert out[..|out|] == out;
      for k := 0 to |listed|
        invariant held == Spec.Ids(out)
        invariant Spec.AppendUnknown(resp.value.output, listed) == Spec.AppendUnknown(out, listed[k..])
      {
        var id := ItemId(listed[k]);
        assert listed[k..][1..] == listed[k + 1..] && listed[k..][0] == listed[k];
        if !listed[k].NilItem? && id != "" && id !in held {
          IdsGrow(out, listed[k]);
          held := held + {id};
          out := out + [listed[k]];
        }
      }
    }

    /** Rebuild the bookkeeping around a snapshot's list. */
    method Relist(out: seq<Item>)
      modifies this
      ensures unchanged(`resp) && unchanged(`lastError) && unchanged(`reused)
      ensures forall r: Response :: r.output == out ==>
                slots == old(State()).Relist(r).slots && closed == old(State()).Relist(r).closed
    {
      ghost var before := State();
      var wasClosed := set pos | pos in closed && HeldId(pos) != "" :: HeldId(pos);
      slots, closed := map[], {};
      for pos := 0 to |out|
        invariant unchanged(`resp) && unchanged(`lastError) && unchanged(`reused)
        invariant slots == map p: nat | 0 <= p < pos && !out[p].NilItem? :: p
        invariant closed == set p: nat | 0 <= p < pos && !out[p].NilItem?
            && (ItemId(out[p]) in wasClosed || StatusOf(out[p]).Completed? || StatusOf(out[p]).Incomplete?) :: p
      {
        if !out[pos].NilItem? {
          slots := slots[pos := pos];
          if ItemId(out[pos]) in wasClosed || StatusOf(out[pos]).Completed? || StatusOf(out[pos]).Incomplete? {
            closed := closed + {pos};
          }
        }
      }
      assert wasClosed == set pos | pos in before.closed && before.IdAt(pos) != "" :: before.IdAt(pos);
    }

    function HeldId(pos: nat): (id: string)
      reads this
      ensures id == State().IdAt(pos)
    {
      if resp.Some? && pos < |resp.value.output| then ItemId(resp.value.output[pos]) else ""
    }

    method SetResponse(snapshot: Option<Response>)
      requires reused != [] ==> resp.Some?
      modifies this
      ensures State() == old(State()).SetResponse(snapshot)
    {
      if snapshot.None? { return; }
      var cp := snapshot.value;
      if |cp.output| == 0 && resp.Some? && |resp.value.output| > 0 && !cp.status.Terminal() {
        cp := cp.(output := resp.value.output);
      } else if |reused| > 0 && !cp.status.Terminal() {
        var out := AppendUnknown(cp.output);
        cp := cp.(output := out);
      } else {
        Relist(cp.output);
        assert slots == old(State()).Relist(cp).slots && closed == old(State()).Relist(cp).closed;
      }
      resp := Some(cp);
    }

    /** Apply one event.  Once an index has been reused there is a response. */
    method Add(ev: Event)
      requires ev.WellIndexed() && (reused != [] ==> resp.Some?)
      modifies this
      ensures State() == old(State()).Add(ev)
    {
      match ev
      case Snapshot(_, r) => SetResponse(r);
      case ItemAdded(index, item) => AddItem(index, item);
      case ItemDone(index, item) => CloseItem(index, item);
      case ErrorEvent(error) =>
        lastError := Some(error);
        if resp.Some? { resp := Some(resp.value.Fail(error)); }
      case Extension(_) =>
      case PartAdded(_, index, c, part) => SetPart(ev, index, c, part);
      case PartDone(_, index, c, part) => SetPart(ev, index, c, part);
      case SummaryAdded(_, index, s, part) => SetSummaryPart(ev, index, s, part);
      case SummaryDone(_, index, s, part) => SetSummaryPart(ev, index, s, part);
      case ArgumentsDelta(_, _, _) => EditCall(ev);
      case ArgumentsDone(_, _, _) => EditCall(ev);
      case SummaryDelta(_, _, _, _) => EditSummary(ev);
      case SummaryTextDone(_, _, _, _) => EditSummary(ev);
      case ReasoningDelta(_, _, _, _) => EditReasoning(ev);
      case ReasoningDone(_, _, _, _) => EditReasoning(ev);
      case _ => EditPart(ev);
    }

    method SetPart(ghost ev: Event, index: int, c: nat, part: Part)
      requires (ev.PartAdded? || ev.PartDone?) && ev.outputIndex == index && ev.contentIndex == c && ev.part == part
      modifies this
      ensures State() == old(State()).EditAt(ev)
    {
      var m := ItemAt(index);
      SameStored(State(), index);
      if !m.Message? || part.NilPart? { return; }
      var content := PlaceIn(m.content, c, part, NilPart);
      Store(index, Message(m.id, m.status, m.role, m.phase, content));
    }

    method SetSummaryPart(ghost ev: Event, index: int, s: nat, part: Part)
      requires (ev.SummaryAdded? || ev.SummaryDone?) && ev.outputIndex == index && ev.summaryIndex == s
               && ev.part == part
      modifies this
      ensures State() == old(State()).EditAt(ev)
    {
      var r := ItemAt(index);
      SameStored(State(), index);
      if !r.Reasoning? || part.NilPart? { return; }
      var summary := PlaceIn(r.summary, s, part, NilPart);
      Store(index, Reasoning(r.id, r.status, summary, r.content, r.encrypted));
    }

    method EditCall(ev: Event)
      requires ev.ArgumentsDelta? || ev.ArgumentsDone?
      modifies this
      ensures State() == old(State()).EditAt(ev)
    {
      var fc := ItemAt(ev.outputIndex);
      SameStored(State(), ev.outputIndex);
      if fc.FunctionCall? {
        var arguments := if ev.ArgumentsDelta? then fc.arguments + ev.delta else ev.text;
        Store(ev.outputIndex, FunctionCall(fc.id, fc.status, fc.callId, fc.name, arguments));
      }
    }

    method EditSummary(ev: Event)
      requires ev.SummaryDelta? || ev.SummaryTextDone?
      modifies this
      ensures State() == old(State()).EditAt(ev)
    {
      var r := ItemAt(ev.outputIndex);
      SameStored(State(), ev.outputIndex);
      if r.Reasoning? && 0 <= ev.summaryIndex < |r.summary| && r.summary[ev.summaryIndex].SummaryText? {
        var text := if ev.SummaryDelta? then r.summary[ev.summaryIndex].text + ev.delta else ev.text;
        Store(ev.outputIndex, Reasoning(r.id, r.status, r.summary[ev.summaryIndex := SummaryText(text)], r.content,
                                        r.encrypted));
      }
    }

    /** Reasoning parts are created by the first event that names them, even one
        that then changes nothing. */
    method EditReasoning(ev: Event)
      requires (ev.ReasoningDelta? || ev.ReasoningDone?) && ev.WellIndexed()
      modifies this
      ensures State() == old(State()).EditAt(ev)
    {
      var r := ItemAt(ev.outputIndex);
      SameStored(State(), ev.outputIndex);
      if r.Reasoning? {
        var content := PadTo(r.content, ev.contentIndex, ReasoningText(""));
        assert content == Spec.PadReasoning(r.content, ev.contentIndex);
        if content[ev.contentIndex].ReasoningText? {
          var text := if ev.ReasoningDelta? then content[ev.contentIndex].text + ev.delta else ev.text;
          content := content[ev.contentIndex := ReasoningText(text)];
        }
        Store(ev.outputIndex, Reasoning(r.id, r.status, r.summary, content, r.encrypted));
      }
    }

    method EditPart(ev: Event)
      requires ev.TextDelta? || ev.TextDone? || ev.RefusalDelta? || ev.RefusalDone? || ev.AnnotationAdded?
      requires ev.WellIndexed()
      modifies this
      ensures State() == old(State()).EditAt(ev)
    {
      var m := ItemAt(ev.outputIndex);
      SameStored(State(), ev.outputIndex);
      if !m.Message? || !(0 <= ev.contentIndex < |m.content|) { return; }
      var content := EditContent(m.content, ev);
      Store(ev.outputIndex, Message(m.id, m.status, m.role, m.phase, content));
    }
  }

  /** A text, refusal or annotation event edits one part of a content list. */
  method EditContent(content: seq<Part>, ev: Event) returns (edited: seq<Part>)
    requires ev.TextDelta? || ev.TextDone? || ev.RefusalDelta? || ev.RefusalDone? || ev.AnnotationAdded?
    requires ev.WellIndexed() && 0 <= ev.contentIndex < |content|
    ensures edited == Spec.EditContent(content, ev)
  {
    var part := content[ev.contentIndex];
    match ev {
      case TextDelta(_, _, _, delta, logprobs) =>
        if part.OutputText? { part := OutputText(part.text + delta, part.annotations, part.logprobs + logprobs); }
      case TextDone(_, _, _, text, logprobs) =>
        if part.OutputText? {
          part := OutputText(text, part.annotations, if logprobs.Some? then logprobs.value else part.logprobs);
        }
      case AnnotationAdded(_, _, _, k, annotation) =>
        if part.OutputText? && !annotation.NilAnnotation? {
          var list := PlaceIn(part.annotations, k, annotation, NilAnnotation);
          part := OutputText(part.text, list, part.logprobs);
        }
      case RefusalDelta(_, _, _, delta) =>
        if part.Refusal? { part := Refusal(part.refusal + delta); }
      case RefusalDone(_, _, _, text) =>
        if part.Refusal? { part := Refusal(text); }
    }
    assert content[ev.contentIndex := content[ev.contentIndex]] == content;
    edited := content[ev.contentIndex := part];
  }

  /** Writing back an unchanged item changes nothing. */
  lemma SameStored(a: Spec.Acc, index: int)
    ensures a.Position(index).Some? ==> a.Place(a.Position(index).value, a.ItemAt(index)) == a
  {
    var pos := a.Position(index);
    if pos.Some? { assert a.Output()[pos.value := a.Output()[pos.value]] == a.Output(); }
  }

  lemma IdsGrow(items: seq<Item>, item: Item)
    ensures Spec.Ids(items + [item]) == Spec.Ids(items) + if ItemId(item) == "" then {} else {ItemId(item)}
  {
    var all := items + [item];
    assert all[|items|] == item;
    assert forall p :: 0 <= p < |items| ==> all[p] == items[p];
  }
}

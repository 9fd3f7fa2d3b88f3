/** The validator as streamtest runs it: one object stepped through the recorded
    frames. */
module Validator {
  import opened Types
  import opened Wrappers
  import opened Spec = ValidatorSpec

  class Validator {
    const allowReuse: bool
    var indexes: nat
    var items: seq<ItemState>
    var open: Option<OpenItem>
    var terminal: bool
    var errorSeen: bool

    constructor (allowReuse: bool)
      ensures State() == Start(allowReuse)
    {
      this.allowReuse := allowReuse;
      indexes, items, open, terminal, errorSeen := 0, [], None, false, false;
    }

    ghost function State(): Checker
      reads this
    {
      Checker(allowReuse, indexes, items, open, terminal, errorSeen)
    }

    /** The open item at an index, by id when one is given. */
    method OpenItemAt(index: int, itemId: string) returns (ok: bool)
      ensures ok == State().ItemOpen(index, itemId)
    {
      if open.None? { return false; }
      if open.value.index != index { return false; }
      if itemId != "" && itemId != ItemId(open.value.item) { return false; }
      ok := true;
    }

    method OpenTyped(index: int, itemId: string, typ: ItemType) returns (ok: bool)
      ensures ok == State().TypedOpen(index, itemId, typ)
    {
      ok := OpenItemAt(index, itemId);
      if !ok { return; }
      ok := ItemTypeOf(open.value.item) == typ;
    }

    method OpenPartAt(index: int, itemId: string, contentIndex: int, typ: Option<PartType>) returns (ok: bool)
      ensures ok == (State().PartOpen(index, itemId, contentIndex)
                     && (typ.None? || open.value.part.value.partType == typ.value))
    {
      ok := OpenTyped(index, itemId, TypeMessage);
      if !ok { return; }
      if open.value.part.None? { return false; }
      if contentIndex != open.value.parts - 1 { return false; }
      ok := typ.None? || open.value.part.value.partType == typ.value;
    }

    method OpenSummaryAt(index: int, itemId: string, summaryIndex: int) returns (ok: bool)
      ensures ok == State().SummaryOpen(index, itemId, summaryIndex)
    {
      ok := OpenTyped(index, itemId, TypeReasoning);
      if !ok { return; }
      if open.value.summary.None? { return false; }
      ok := summaryIndex == open.value.summaries - 1;
    }

    /** The terminal response must have the wanted status and list what was added. */
    method Finish(response: Option<Response>, want: ResponseStatus) returns (ok: bool)
      modifies this
      ensures ok == old(State()).Finishes(response, want)
      ensures State() == old(State()).(terminal := true)
    {
      terminal := true;
      if response.None? || response.value.status != want || open.Some? { return false; }
      var output := response.value.output;
      if |output| != |items| { return false; }
      for p := 0 to |items|
        invariant forall q :: 0 <= q < p ==>
                    ItemTypeOf(output[q]) == items[q].itemType && ItemId(output[q]) == items[q].id
      {
        if ItemTypeOf(output[p]) != items[p].itemType || ItemId(output[p]) != items[p].id { return false; }
      }
      ok := true;
    }

    /** Check one frame.  After a rejection the object is not used again. */
    method Step(i: nat, frame: Frame) returns (ok: bool)
      modifies this
      ensures ok == old(State()).StepFrame(i, frame).Some?
      ensures ok ==> State() == old(State()).StepFrame(i, frame).value
    {
      var ev := frame.event;
      if terminal || frame.number != i { return false; }
      if errorSeen && !(ev.Snapshot? && ev.kind.Failed?) { return false; }
      match ev
      case Snapshot(kind, response) => ok := StepSnapshot(i, kind, response);
      case ErrorEvent(_) => errorSeen := true; ok := true;
      case Extension(_) => ok := true;
      case ItemAdded(_, _) => ok := StepItem(i, ev);
      case ItemDone(_, _) => ok := StepItem(i, ev);
      case SummaryAdded(_, _, _, _) => ok := StepReasoning(i, ev);
      case SummaryDone(_, _, _, _) => ok := StepReasoning(i, ev);
      case SummaryDelta(_, _, _, _) => ok := StepReasoning(i, ev);
      case SummaryTextDone(_, _, _, _) => ok := StepReasoning(i, ev);
      case ReasoningDelta(_, _, _, _) => ok := StepReasoning(i, ev);
      case ReasoningDone(_, _, _, _) => ok := StepReasoning(i, ev);
      case ArgumentsDelta(_, _, _) => ok := StepArguments(i, ev);
      case ArgumentsDone(_, _, _) => ok := StepArguments(i, ev);
      case _ => ok := StepPart(i, ev);
    }

    method StepSnapshot(i: nat, kind: SnapshotKind, response: Option<Response>) returns (ok: bool)
      requires !terminal && (errorSeen ==> kind.Failed?)
      modifies this
      ensures ok == old(State()).Step(i, Snapshot(kind, response)).Some?
      ensures ok ==> State() == old(State()).Step(i, Snapshot(kind, response)).value
    {
      match kind
      case Created => ok := i == 0;
      case Queued => ok := true;
      case Started => ok := true;
      case Finished => ok := Finish(response, RCompleted);
      case Stopped => ok := Finish(response, RIncomplete);
      case Failed =>
        terminal := true;
        ok := response.Some? && response.value.status.RFailed?;
    }

    method StepItem(i: nat, ev: Event) returns (ok: bool)
      requires !terminal && !errorSeen && (ev.ItemAdded? || ev.ItemDone?)
      modifies this
      ensures ok == old(State()).Step(i, ev).Some?
      ensures ok ==> State() == old(State()).Step(i, ev).value
    {
      var index, item := ev.outputIndex, ev.item;
      if ev.ItemAdded? {
        if item.NilItem? || open.Some? { return false; }
        if index == indexes {
          indexes := indexes + 1;
        } else if !(allowReuse && 0 <= index < indexes) {
          return false;
        }
        items := items + [StateOf(index, item)];
        open := Some(OpenItem(index, item, 0, None, 0, None, false, false, false));
        ok := true;
      } else {
        ok := OpenItemAt(index, "");
        if !ok { return; }
        var st := open.value;
        if item.NilItem? || ItemId(item) != ItemId(st.item) || ItemTypeOf(item) != ItemTypeOf(st.item) { return false; }
        if st.part.Some? || st.summary.Some? { return false; }
        if item.FunctionCall? && !st.argsDone && st.parts == 0 && st.textOpen { return false; }
        if st.textOpen && !st.textDone { return false; }
        open := None;
      }
    }

    method StepPart(i: nat, ev: Event) returns (ok: bool)
      requires !terminal && !errorSeen
      requires ev.PartAdded? || ev.PartDone? || ev.TextDelta? || ev.TextDone? || ev.AnnotationAdded?
               || ev.RefusalDelta? || ev.RefusalDone?
      modifies this
      ensures ok == old(State()).Step(i, ev).Some?
      ensures ok ==> State() == old(State()).Step(i, ev).value
    {
      var index, itemId, c := ev.outputIndex, ev.itemId, ev.contentIndex;
      if ev.PartAdded? {
        ok := OpenItemAt(index, itemId);
        if !ok { return; }
        if !open.value.item.Message? || open.value.part.Some? || c != open.value.parts || ev.part.NilPart? {
          return false;
        }
        open := Some(open.value.(parts := open.value.parts + 1, part := Some(OpenPart(PartTypeOf(ev.part), false))));
      } else if ev.PartDone? {
        ok := OpenPartAt(index, itemId, c, None);
        if !ok { return; }
        var part := open.value.part.value;
        if ev.part.NilPart? || PartTypeOf(ev.part) != part.partType { return false; }
        if (part.partType == TypeOutputText || part.partType == TypeRefusal) && !part.kindDone { return false; }
        open := Some(open.value.(part := None));
      } else {
        var typ := if ev.RefusalDelta? || ev.RefusalDone? then TypeRefusal else TypeOutputText;
        ok := OpenPartAt(index, itemId, c, Some(typ));
        if ok && (ev.TextDone? || ev.RefusalDone?) {
          open := Some(open.value.(part := Some(open.value.part.value.(kindDone := true))));
        }
      }
    }

    method StepArguments(i: nat, ev: Event) returns (ok: bool)
      requires !terminal && !errorSeen && (ev.ArgumentsDelta? || ev.ArgumentsDone?)
      modifies this
      ensures ok == old(State()).Step(i, ev).Some?
      ensures ok ==> State() == old(State()).Step(i, ev).value
    {
      ok := OpenTyped(ev.outputIndex, ev.itemId, TypeFunctionCall);
      if !ok { return; }
      if open.value.argsDone { return false; }
      open := Some(if ev.ArgumentsDelta? then open.value.(textOpen := true)
                   else open.value.(argsDone := true, textOpen := false));
    }

    method StepReasoning(i: nat, ev: Event) returns (ok: bool)
      requires !terminal && !errorSeen
      requires ev.SummaryAdded? || ev.SummaryDone? || ev.SummaryDelta? || ev.SummaryTextDone? || ev.ReasoningDelta?
               || ev.ReasoningDone?
      modifies this
      ensures ok == old(State()).Step(i, ev).Some?
      ensures ok ==> State() == old(State()).Step(i, ev).value
    {
      var index, itemId := ev.outputIndex, ev.itemId;
      match ev
      case SummaryAdded(_, _, s, part) =>
        ok := OpenTyped(index, itemId, TypeReasoning);
        if !ok { return; }
        if open.value.summary.Some? || s != open.value.summaries || part.NilPart? { return false; }
        open := Some(open.value.(summaries := open.value.summaries + 1, summary := Some(false)));
      case SummaryDelta(_, _, s, _) => ok := OpenSummaryAt(index, itemId, s);
      case SummaryTextDone(_, _, s, _) =>
        ok := OpenSummaryAt(index, itemId, s);
        if ok { open := Some(open.value.(summary := Some(true))); }
      case SummaryDone(_, _, s, _) =>
        ok := OpenSummaryAt(index, itemId, s);
        if !ok { return; }
        if !open.value.summary.value { return false; }
        open := Some(open.value.(summary := None));
      case ReasoningDelta(_, _, _, _) =>
        ok := OpenTyped(index, itemId, TypeReasoning);
        if !ok { return; }
        if open.value.textDone { return false; }
        open := Some(open.value.(textOpen := true));
      case ReasoningDone(_, _, _, _) =>
        ok := OpenTyped(index, itemId, TypeReasoning);
        if ok { open := Some(open.value.(textDone := true)); }
    }
  }

  /** Check a whole recorded stream: exactly the streams that follow the
      lifecycle's rules are accepted. */
  method Validate(frames: seq<Frame>, allowReuse: bool) returns (ok: bool)
    ensures ok <==> Conforms(frames, allowReuse)
  {
    AcceptedExactlyConforms(frames, allowReuse);
    assert Run(Start(allowReuse), 0, []) == Some(Start(allowReuse));
    hide Checker.Step, Run, Conforms;
    if |frames| == 0 { return false; }
    if !IsCreated(frames[0].event) { return false; }
    var v := new Validator(allowReuse);
    ghost var events := Events(frames);
    assert events[..0] == [];
    for i := 0 to |frames|
      invariant fresh(v)
      invariant forall k :: 0 <= k < i ==> frames[k].number == k
      invariant Run(Start(allowReuse), 0, events[..i]) == Some(v.State())
    {
      RunMore(Start(allowReuse), events, i);
      ok := v.Step(i, frames[i]);
      if !ok { return false; }
    }
    assert events[..|frames|] == events;
    ok := v.terminal;
  }
}

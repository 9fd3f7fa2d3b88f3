/** The consumer of the lifecycle as a state machine on values: how one event
    changes the response folded so far, and what every run keeps. */
module AccumulatorSpec {
  import opened Types
  import opened Wrappers

  /** slots maps an output index to the position of the item last added there,
      closed holds the positions whose item is finished, reused logs every
      output index that was reused. */
  datatype Acc = Acc(resp: Option<Response>, lastError: Option<string>,
                     slots: map<int, nat>, closed: set<nat>, reused: seq<int>)
  {
    function Output(): seq<Item> {
      if resp.Some? then resp.value.output else []
    }

    function IdAt(pos: nat): string {
      if pos < |Output()| then ItemId(Output()[pos]) else ""
    }

    predicate Holds(pos: nat) {
      pos < |Output()| && !Output()[pos].NilItem?
    }

    /** The response a reader sees: an error seen before any snapshot is a
        failed response of its own. */
    function Visible(): Option<Response> {
      if resp.None? && lastError.Some?
      then Some(Response("", RFailed, [], lastError, None, None, ""))
      else resp
    }

    function Position(index: int): Option<nat> {
      if resp.None? || index < 0 then None
      else if index in slots then (if Holds(slots[index]) then Some(slots[index]) else None)
      else if reused != [] then None
      else if Holds(index) then Some(index) else None
    }

    function ItemAt(index: int): Item {
      var pos := Position(index);
      if pos.Some? then Output()[pos.value] else NilItem
    }

    function Ensured(): Acc {
      if resp.Some? then this
      else this.(resp := Some(Response("", RInProgress, [], None, None, None, "")))
    }

    /** Where an item announced at `index` goes, and the bookkeeping of that
        choice: a closed item that is not the announced one is left alone and
        the announced one is appended. */
    function Target(index: nat, item: Item, same: bool): (Acc, nat) {
      var a := Ensured();
      var end := |a.Output()|;
      var pos := if index in slots then slots[index] else if reused == [] then index else end;
      var a := a.(slots := slots[index := pos]);
      if a.Holds(pos) && pos in closed
         && (if ItemId(item) == "" then !same else ItemId(item) != a.IdAt(pos))
      then (a.(slots := slots[index := end], reused := reused + [index]), end)
      else (a, pos)
    }

    function Place(pos: nat, item: Item): Acc
      requires resp.Some?
    {
      this.(resp := Some(resp.value.(output := PlaceAt(resp.value.output, pos, item, NilItem))))
    }

    function AddItem(index: int, item: Item): Acc {
      if item.NilItem? || index < 0 then this
      else
        var (a, pos) := Target(index, item, false);
        a.Place(pos, item).(closed := closed - {pos})
    }

    function CloseItem(index: int, item: Item): Acc {
      if item.NilItem? || index < 0 then this
      else
        var (a, pos) := Target(index, item, true);
        a.Place(pos, item).(closed := closed + {pos})
    }

    /** Apply a content event to the item its output index names. */
    function EditAt(ev: Event): Acc
      requires ev.Content() && ev.WellIndexed()
    {
      var pos := Position(ev.outputIndex);
      if pos.None? then this
      else Place(pos.value, EditItem(Output()[pos.value], ev))
    }

    /** A snapshot that keeps the items folded so far because it lists none. */
    predicate KeepsOutput(r: Response) {
      r.output == [] && Output() != [] && !r.status.Terminal()
    }

    /** A snapshot whose list replaces the folded one. */
    predicate Adopts(r: Response) {
      !KeepsOutput(r) && (reused == [] || r.status.Terminal())
    }

    function SetResponse(snapshot: Option<Response>): Acc {
      if snapshot.None? then this
      else
        var r := snapshot.value;
        if KeepsOutput(r) then this.(resp := Some(r.(output := Output())))
        else if !Adopts(r) then this.(resp := Some(r.(output := AppendUnknown(Output(), r.output))))
        else Relist(r)
    }

    /** Adopt a snapshot's list, in which positions are indexes. */
    function Relist(r: Response): Acc {
      var wasClosed := set pos | pos in closed && IdAt(pos) != "" :: IdAt(pos);
      var out := r.output;
      Acc(Some(r), lastError,
          map pos: nat | 0 <= pos < |out| && !out[pos].NilItem? :: pos,
          set pos: nat | 0 <= pos < |out| && !out[pos].NilItem?
                         && (ItemId(out[pos]) in wasClosed || StatusOf(out[pos]).Completed?
                             || StatusOf(out[pos]).Incomplete?) :: pos,
          reused)
    }

    function SetError(error: string): Acc {
      this.(lastError := Some(error),
            resp := if resp.Some? then Some(resp.value.Fail(error)) else None)
    }

    /** Apply one event. */
    function Add(ev: Event): Acc
      requires ev.WellIndexed()
    {
      match ev
      case Snapshot(_, r) => SetResponse(r)
      case ItemAdded(index, item) => AddItem(index, item)
      case ItemDone(index, item) => CloseItem(index, item)
      case ErrorEvent(error) => SetError(error)
      case Extension(_) => this
      case _ => EditAt(ev)
    }

    // ---- The invariant of every run -------------------------------------------------

    /** slots is injective into the non-null positions, is the identity on all
        of them until an index is reused, and closed stays within them. */
    ghost predicate Consistent() {
      && (resp.None? ==> slots == map[] && closed == {} && reused == [])
      && (forall i <- slots :: 0 <= i && Holds(slots[i]))
      && (forall i, j | i in slots && j in slots && slots[i] == slots[j] :: i == j)
      && (reused == [] ==> forall i <- slots :: slots[i] == i)
      && (reused == [] ==> forall p: nat | Holds(p) :: p in slots)
      && (forall p <- closed :: Holds(p))
    }
  }

  /** A fresh accumulator. */
  const EMPTY: Acc := Acc(None, None, map[], {}, [])

  /** The items of `listed` whose id is not yet held, appended in order. */
  function AppendUnknown(out: seq<Item>, listed: seq<Item>): seq<Item>
    decreases |listed|
  {
    if listed == [] then out
    else
      var id := ItemId(listed[0]);
      if id != "" && id !in Ids(out) then AppendUnknown(out + [listed[0]], listed[1..])
      else AppendUnknown(out, listed[1..])
  }

  function Ids(items: seq<Item>): set<string> {
    set p | 0 <= p < |items| && ItemId(items[p]) != "" :: ItemId(items[p])
  }

  /** What a content event makes of the item it reaches. */
  function EditItem(item: Item, ev: Event): Item
    requires ev.Content() && ev.WellIndexed()
  {
    match item
    case Message(id, status, role, phase, content) =>
      Message(id, status, role, phase, EditContent(content, ev))
    case FunctionCall(id, status, callId, name, arguments) =>
      FunctionCall(id, status, callId, name, EditArguments(arguments, ev))
    case Reasoning(id, status, summary, content, encrypted) =>
      Reasoning(id, status, EditSummary(summary, ev), EditReasoning(content, ev), encrypted)
    case _ => item
  }

  function SetPart(parts: seq<Part>, index: nat, part: Part): seq<Part> {
    if part.NilPart? then parts else PlaceAt(parts, index, part, NilPart)
  }

  function PartAt(parts: seq<Part>, index: int): Part {
    if 0 <= index < |parts| then parts[index] else NilPart
  }

  function SetAnnotation(list: seq<Annotation>, index: nat, a: Annotation): seq<Annotation> {
    if a.NilAnnotation? then list else PlaceAt(list, index, a, NilAnnotation)
  }

  function EditArguments(arguments: string, ev: Event): string {
    match ev
    case ArgumentsDelta(_, _, delta) => arguments + delta
    case ArgumentsDone(_, _, text) => text
    case _ => arguments
  }

  function EditContent(content: seq<Part>, ev: Event): seq<Part>
    requires ev.Content() && ev.WellIndexed()
  {
    match ev
    case PartAdded(_, _, c, part) => SetPart(content, c, part)
    case PartDone(_, _, c, part) => SetPart(content, c, part)
    case TextDelta(_, _, c, delta, logprobs) =>
      (match PartAt(content, c)
       case OutputText(t, a, l) => content[c := OutputText(t + delta, a, l + logprobs)]
       case _ => content)
    case TextDone(_, _, c, text, logprobs) =>
      (match PartAt(content, c)
       case OutputText(_, a, l) => content[c := OutputText(text, a, if logprobs.Some? then logprobs.value else l)]
       case _ => content)
    case AnnotationAdded(_, _, c, k, annotation) =>
      (match PartAt(content, c)
       case OutputText(t, a, l) => content[c := OutputText(t, SetAnnotation(a, k, annotation), l)]
       case _ => content)
    case RefusalDelta(_, _, c, delta) =>
      (match PartAt(content, c)
       case Refusal(t) => content[c := Refusal(t + delta)]
       case _ => content)
    case RefusalDone(_, _, c, text) =>
      (match PartAt(content, c)
       case Refusal(_) => content[c := Refusal(text)]
       case _ => content)
    case _ => content
  }

  function EditSummary(summary: seq<Part>, ev: Event): seq<Part>
    requires ev.Content() && ev.WellIndexed()
  {
    match ev
    case SummaryAdded(_, _, s, part) => SetPart(summary, s, part)
    case SummaryDone(_, _, s, part) => SetPart(summary, s, part)
    case SummaryDelta(_, _, s, delta) =>
      (match PartAt(summary, s)
       case SummaryText(t) => summary[s := SummaryText(t + delta)]
       case _ => summary)
    case SummaryTextDone(_, _, s, text) =>
      (match PartAt(summary, s)
       case SummaryText(_) => summary[s := SummaryText(text)]
       case _ => summary)
    case _ => summary
  }

  /** Reasoning text has no added event: its parts come into being with the
      first event that names them. */
  function PadReasoning(content: seq<Part>, index: nat): (padded: seq<Part>)
    ensures index < |padded|
  {
    if index < |content| then content
    else content + seq(index + 1 - |content|, _ => ReasoningText(""))
  }

  function EditReasoning(content: seq<Part>, ev: Event): seq<Part>
    requires ev.Content() && ev.WellIndexed()
  {
    match ev
    case ReasoningDelta(_, _, c, delta) =>
      var padded := PadReasoning(content, c);
      (match padded[c]
       case ReasoningText(t) => padded[c := ReasoningText(t + delta)]
       case _ => padded)
    case ReasoningDone(_, _, c, text) =>
      var padded := PadReasoning(content, c);
      (match padded[c]
       case ReasoningText(_) => padded[c := ReasoningText(text)]
       case _ => padded)
    case _ => content
  }

  predicate AllWellIndexed(events: seq<Event>) {
    forall ev <- events :: ev.WellIndexed()
  }

  /** Apply a run of events. */
  function Fold(a: Acc, events: seq<Event>): Acc
    requires AllWellIndexed(events)
    decreases |events|
  {
    if events == [] then a
    else Fold(a.Add(events[0]), events[1..])
  }

  lemma {:induction false} FoldAppend(a: Acc, xs: seq<Event>, ys: seq<Event>)
    requires AllWellIndexed(xs) && AllWellIndexed(ys)
    ensures AllWellIndexed(xs + ys)
    ensures Fold(a, xs + ys) == Fold(Fold(a, xs), ys)
    decreases |xs|
  {
    if xs == [] {
      assert xs + ys == ys;
    } else {
      assert (xs + ys)[1..] == xs[1..] + ys;
      assert (xs + ys)[0] == xs[0];
      FoldAppend(a.Add(xs[0]), xs[1..], ys);
    }
  }

  // ---- Consistency of every run ----------------------------------------------------

  lemma EditKeepsItem(item: Item, ev: Event)
    requires ev.Content() && ev.WellIndexed()
    ensures SameItem(EditItem(item, ev), item) && StatusOf(EditItem(item, ev)) == StatusOf(item)
    ensures EditItem(item, ev).NilItem? <==> item.NilItem?
  {
  }

  /** The four ways an announced item gets its position: its index's own slot;
      the index itself, before any reuse; the end of the list, after one; the
      end of the list because this is a reuse. */
  predicate Chosen(a: Acc, b: Acc, index: nat, pos: nat) {
    && b.resp.Some? && b.closed == a.closed && b.Output() == a.Output()
    && b.slots == a.slots[index := pos]
    && (|| (index in a.slots && pos == a.slots[index] && b.reused == a.reused)
        || (index !in a.slots && a.reused == [] && pos == index && b.reused == [])
        || (index !in a.slots && a.reused != [] && pos == |a.Output()| && b.reused == a.reused)
        || (index in a.slots && pos == |a.Output()| && b.reused == a.reused + [index]))
  }

  lemma TargetChosen(a: Acc, index: nat, item: Item, same: bool)
    requires a.Consistent()
    ensures var (b, pos) := a.Target(index, item, same); Chosen(a, b, index, pos)
  {
  }

  lemma PlaceConsistent(a: Acc, b: Acc, index: nat, pos: nat, item: Item)
    requires a.Consistent() && !item.NilItem? && Chosen(a, b, index, pos)
    ensures b.Place(pos, item).Consistent()
    ensures b.Place(pos, item).(closed := b.closed - {pos}).Consistent()
    ensures b.Place(pos, item).(closed := b.closed + {pos}).Consistent()
  {
    var c := b.Place(pos, item);
    assert forall p: nat :: c.Holds(p) <==> p == pos || a.Holds(p);
    assert forall i <- a.slots :: a.Holds(a.slots[i]);
    var d := c.(closed := b.closed - {pos});
    var e := c.(closed := b.closed + {pos});
    assert forall p: nat :: d.Holds(p) == c.Holds(p) == e.Holds(p);
  }

  lemma SetResponseConsistent(a: Acc, r: Option<Response>)
    requires a.Consistent()
    ensures a.SetResponse(r).Consistent()
  {
    if r.Some? {
      var b := a.SetResponse(r);
      if a.KeepsOutput(r.value) {
        assert forall p: nat :: b.Holds(p) == a.Holds(p);
      } else if !a.Adopts(r.value) {
        AppendUnknownShape(a.Output(), r.value.output);
        assert forall p: nat :: a.Holds(p) ==> b.Holds(p);
      } else {
        assert forall p: nat :: b.Holds(p) <==> p in b.slots;
      }
    }
  }

  lemma EditConsistent(a: Acc, ev: Event)
    requires a.Consistent() && ev.Content() && ev.WellIndexed()
    ensures a.EditAt(ev).Consistent()
  {
    var pos := a.Position(ev.outputIndex);
    if pos.Some? {
      EditKeepsItem(a.Output()[pos.value], ev);
      var b := a.EditAt(ev);
      assert forall p: nat :: b.Holds(p) == a.Holds(p);
    }
  }

  lemma AddConsistent(a: Acc, ev: Event)
    requires a.Consistent() && ev.WellIndexed()
    ensures a.Add(ev).Consistent()
  {
    if ev.Snapshot? {
      SetResponseConsistent(a, ev.response);
    } else if ev.ItemAdded? || ev.ItemDone? {
      if !ev.item.NilItem? && ev.outputIndex >= 0 {
        var (b, pos) := a.Target(ev.outputIndex, ev.item, ev.ItemDone?);
        TargetChosen(a, ev.outputIndex, ev.item, ev.ItemDone?);
        PlaceConsistent(a, b, ev.outputIndex, pos, ev.item);
      }
    } else if ev.ErrorEvent? {
      assert forall p: nat :: a.Add(ev).Holds(p) == a.Holds(p);
    } else if !ev.Extension? {
      EditConsistent(a, ev);
    }
  }

  /** Every event sequence, conforming or not, leaves the bookkeeping
      consistent. */
  lemma {:induction false} RunConsistent(a: Acc, events: seq<Event>)
    requires a.Consistent() && AllWellIndexed(events)
    ensures Fold(a, events).Consistent()
    decreases |events|
  {
    if events != [] {
      AddConsistent(a, events[0]);
      RunConsistent(a.Add(events[0]), events[1..]);
    }
  }

  /** In every reachable state an index reaches an item exactly when slots has
      it, and then at the slot: the fallback to the index itself never answers. */
  lemma PositionIsSlot(events: seq<Event>, index: int)
    requires AllWellIndexed(events)
    ensures var a := Fold(EMPTY, events);
            a.Position(index) == if index in a.slots then Some(a.slots[index]) else None
  {
    RunConsistent(EMPTY, events);
  }

  // ---- Snapshots after a reuse ----------------------------------------------------------

  lemma IdsOfFirst(listed: seq<Item>)
    requires listed != []
    ensures Ids(listed) == (if ItemId(listed[0]) == "" then {} else {ItemId(listed[0])}) + Ids(listed[1..])
  {
    assert forall p :: 0 < p < |listed| ==> listed[p] == listed[1..][p - 1];
  }

  lemma IdsOfMore(out: seq<Item>, item: Item)
    requires ItemId(item) != ""
    ensures Ids(out + [item]) == Ids(out) + {ItemId(item)}
  {
    var next := out + [item];
    assert next[|out|] == item;
    assert forall p :: 0 <= p < |out| ==> next[p] == out[p];
  }

  lemma {:induction false} AppendUnknownShape(out: seq<Item>, listed: seq<Item>)
    ensures var all := AppendUnknown(out, listed);
            && out <= all
            && (forall p :: |out| <= p < |all| ==>
                all[p] in listed && !all[p].NilItem? && ItemId(all[p]) != "" && ItemId(all[p]) !in Ids(out))
            && (forall p, q :: |out| <= p < q < |all| ==> ItemId(all[p]) != ItemId(all[q]))
            && Ids(all) == Ids(out) + Ids(listed)
    decreases |listed|
  {
    if listed != [] {
      var id := ItemId(listed[0]);
      var next := if id != "" && id !in Ids(out) then out + [listed[0]] else out;
      AppendUnknownShape(next, listed[1..]);
      var all := AppendUnknown(out, listed);
      assert all == AppendUnknown(next, listed[1..]);
      IdsOfFirst(listed);
      if next != out {
        IdsOfMore(out, listed[0]);
        assert all[|out|] == next[|out|] == listed[0];
        forall p, q | |out| <= p < q < |all| ensures ItemId(all[p]) != ItemId(all[q]) {
          if p == |out| { assert ItemId(all[q]) !in Ids(next); }
        }
      }
    }
  }

  lemma {:induction false} AppendKnownIsNothing(out: seq<Item>, listed: seq<Item>)
    requires Ids(listed) <= Ids(out)
    ensures AppendUnknown(out, listed) == out
    decreases |listed|
  {
    if listed != [] {
      assert ItemId(listed[0]) != "" ==> ItemId(listed[0]) in Ids(listed);
      assert Ids(listed[1..]) <= Ids(listed) by {
        assert forall p :: 0 < p < |listed| ==> listed[p] == listed[1..][p - 1];
      }
      AppendKnownIsNothing(out, listed[1..]);
    }
  }

  /** After a reuse a non-terminal snapshot moves nothing, changes no mapping
      and appends each id it alone names exactly once; a second application
      changes nothing at all. */
  lemma SnapshotAfterReuse(a: Acc, r: Response)
    requires a.Consistent() && a.reused != [] && !r.status.Terminal()
    ensures var b := a.SetResponse(Some(r));
            && b.slots == a.slots && b.closed == a.closed && b.reused == a.reused
            && a.Output() <= b.Output()
            && Ids(b.Output()) == Ids(a.Output()) + Ids(r.output)
            && (forall p, q :: |a.Output()| <= p < q < |b.Output()| ==> ItemId(b.Output()[p]) != ItemId(b.Output()[q]))
            && (forall p :: |a.Output()| <= p < |b.Output()| ==>
                b.Output()[p] in r.output && ItemId(b.Output()[p]) !in Ids(a.Output()))
            && b.SetResponse(Some(r)) == b
  {
    var b := a.SetResponse(Some(r));
    if a.KeepsOutput(r) {
      assert Ids(r.output) == {};
    } else {
      AppendUnknownShape(a.Output(), r.output);
      AppendKnownIsNothing(b.Output(), r.output);
    }
  }

  // ---- Stability -------------------------------------------------------------------------

  /** The event replaces the whole list by a snapshot's. */
  predicate AdoptsList(a: Acc, ev: Event) {
    ev.Snapshot? && ev.response.Some? && a.Adopts(ev.response.value)
  }

  /** The events that name an output index. */
  predicate Indexed(ev: Event) {
    !ev.Snapshot? && !ev.ErrorEvent? && !ev.Extension?
  }

  ghost predicate Stable(a: Acc, b: Acc, ev: Event) {
    && |a.Output()| <= |b.Output()|
    && (forall p :: 0 <= p < |a.Output()| && b.Output()[p] != a.Output()[p] ==>
          Indexed(ev) && b.Position(ev.outputIndex) == Some(p))
    && (forall p <- a.closed :: b.IdAt(p) == a.IdAt(p) || b.IdAt(p) == "")
    && (forall i <- a.slots :: i in b.slots)
    && (forall i <- a.slots ::
        b.slots[i] == a.slots[i] || (Indexed(ev) && i == ev.outputIndex && b.slots[i] == |a.Output()|))
  }

  /** An item announced at a closed position it does not name goes elsewhere. */
  lemma TargetSparesClosed(a: Acc, index: nat, item: Item, same: bool)
    requires a.Consistent()
    ensures var (_, pos) := a.Target(index, item, same);
            pos in a.closed ==> ItemId(item) == a.IdAt(pos) || ItemId(item) == ""
  {
  }

  lemma PlaceStable(a: Acc, b: Acc, c: Acc, index: nat, pos: nat, item: Item, ev: Event)
    requires a.Consistent() && !item.NilItem? && Chosen(a, b, index, pos)
    requires pos in a.closed ==> ItemId(item) == a.IdAt(pos) || ItemId(item) == ""
    requires Indexed(ev) && ev.outputIndex == index
    requires c == b.Place(pos, item).(closed := c.closed)
    ensures Stable(a, c, ev)
  {
    var out, placed := a.Output(), c.Output();
    assert placed == PlaceAt(out, pos, item, NilItem);
    assert c.Position(index) == Some(pos);
    forall p <- a.closed ensures c.IdAt(p) == a.IdAt(p) || c.IdAt(p) == "" {
      assert a.Holds(p) && p < |placed|;
      assert p != pos ==> placed[p] == out[p];
    }
  }

  /** Unless a snapshot's list is adopted, an event shrinks nothing, touches at
      most the one position its index now names, never moves the index of
      another item, and leaves at a closed position an item with the id that
      was there, or with none. */
  lemma EventStability(a: Acc, ev: Event)
    requires a.Consistent() && ev.WellIndexed() && !AdoptsList(a, ev)
    ensures Stable(a, a.Add(ev), ev)
  {
    if ev.Snapshot? {
      SnapshotStable(a, ev);
    } else if ev.ItemAdded? || ev.ItemDone? {
      if !ev.item.NilItem? && ev.outputIndex >= 0 {
        var (b, pos) := a.Target(ev.outputIndex, ev.item, ev.ItemDone?);
        TargetChosen(a, ev.outputIndex, ev.item, ev.ItemDone?);
        TargetSparesClosed(a, ev.outputIndex, ev.item, ev.ItemDone?);
        PlaceStable(a, b, a.Add(ev), ev.outputIndex, pos, ev.item, ev);
      }
    } else if ev.Content() {
      EditStable(a, ev);
    }
  }

  lemma SnapshotStable(a: Acc, ev: Event)
    requires a.Consistent() && ev.Snapshot? && !AdoptsList(a, ev)
    ensures Stable(a, a.Add(ev), ev)
  {
    if ev.response.Some? && !a.KeepsOutput(ev.response.value) {
      var b := a.Add(ev);
      AppendUnknownShape(a.Output(), ev.response.value.output);
      assert forall p <- a.closed :: a.Holds(p) && b.Output()[p] == a.Output()[p];
    }
  }

  lemma EditStable(a: Acc, ev: Event)
    requires a.Consistent() && ev.Content() && ev.WellIndexed()
    ensures Stable(a, a.EditAt(ev), ev)
  {
    var pos := a.Position(ev.outputIndex);
    if pos.Some? {
      EditKeepsItem(a.Output()[pos.value], ev);
      var b := a.EditAt(ev);
      assert forall p: nat :: b.IdAt(p) == a.IdAt(p);
    }
  }
}

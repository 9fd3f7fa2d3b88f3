/** Consumer and checker agree on streams that reuse an output index: the
    accumulator keeps exactly the items the checker counts, in the order they
    were added, unless one re-announces the item its index already holds. */
module IndexReuse {
  import opened Types
  import opened Wrappers
  import opened AccumulatorSpec
  import opened ValidatorSpec

  // ---- Reading a list of added items ------------------------------------------------

  /** The position of the last item added at `index`. */
  function LastAt(items: seq<ItemState>, index: int): (at: Option<nat>)
    ensures at.Some? ==> at.value < |items| && items[at.value].index == index
  {
    if items == [] then None
    else if items[|items| - 1].index == index then Some(|items| - 1)
    else LastAt(items[..|items| - 1], index)
  }

  /** The item carries the id of the one last added at its index. */
  predicate Reannounces(before: seq<ItemState>, item: ItemState) {
    var at := LastAt(before, item.index);
    item.id != "" && at.Some? && before[at.value].id == item.id
  }

  function Reannouncements(items: seq<ItemState>): nat {
    if items == [] then 0
    else
      var before, last := items[..|items| - 1], items[|items| - 1];
      Reannouncements(before) + if Reannounces(before, last) then 1 else 0
  }

  /** The indices of the items added at an index already used, in order, the
      re-announcements left out. */
  function Reuses(items: seq<ItemState>): seq<int> {
    if items == [] then []
    else
      var before, last := items[..|items| - 1], items[|items| - 1];
      Reuses(before) + if LastAt(before, last.index).Some? && !Reannounces(before, last) then [last.index] else []
  }

  lemma Appended(items: seq<ItemState>, x: ItemState)
    ensures var all := items + [x];
            && (forall i :: LastAt(all, i) == if i == x.index then Some(|items|) else LastAt(items, i))
            && Reannouncements(all) == Reannouncements(items) + (if Reannounces(items, x) then 1 else 0)
            && Reuses(all) == Reuses(items) + (if LastAt(items, x.index).Some?
                                               && !Reannounces(items, x) then [x.index] else [])
  {
    assert (items + [x])[..|items|] == items;
  }

  // ---- The relation of the two machines ---------------------------------------------------

  /** The item is the one added, by type and id. */
  predicate IsItem(item: Item, x: ItemState) { ItemId(item) == x.id && ItemTypeOf(item) == x.itemType }

  /** Every used index has a slot, which holds the item last added there; before
      a reuse the slots are the indices themselves. */
  ghost predicate SlotsFit(v: Checker, a: Acc) {
    && (forall i :: i in a.slots <==> 0 <= i < v.indexes)
    && (forall i <- a.slots :: a.Holds(a.slots[i]))
    && (forall i :: 0 <= i < v.indexes ==>
          LastAt(v.items, i).Some? && IsItem(a.Output()[a.slots[i]], v.items[LastAt(v.items, i).value]))
    && (forall i :: !(0 <= i < v.indexes) ==> LastAt(v.items, i).None?)
    && (a.reused == [] ==> |a.Output()| == v.indexes && forall i <- a.slots :: a.slots[i] == i)
  }

  /** All items are closed but the open one, which its index reaches. */
  ghost predicate OpenFits(v: Checker, a: Acc)
    requires SlotsFit(v, a)
  {
    && (v.open.Some? ==>
          && 0 <= v.open.value.index < v.indexes
          && a.IdAt(a.slots[v.open.value.index]) == ItemId(v.open.value.item)
          && ItemTypeOf(a.Output()[a.slots[v.open.value.index]]) == ItemTypeOf(v.open.value.item))
    && (forall p: nat :: p in a.closed <==> a.Holds(p) && !(v.open.Some? && p == a.slots[v.open.value.index]))
    && (forall p: nat :: p < |a.Output()| ==> a.Holds(p))
  }

  /** With no re-announcement the list is the added items in order and each
      index reaches the last one added at it. */
  ghost predicate ListFits(v: Checker, a: Acc) {
    && |a.Output()| + Reannouncements(v.items) == |v.items|
    && a.reused == Reuses(v.items)
    && (Reannouncements(v.items) == 0 ==>
          && Lists(a.Output(), v.items)
          && forall i <- a.slots :: LastAt(v.items, i) == Some(a.slots[i]))
  }

  ghost predicate Related(v: Checker, a: Acc) {
    && v.allowReuse && !v.terminal && (a.resp.None? ==> v.items == [] && v.indexes == 0)
    && a.Consistent() && SlotsFit(v, a) && OpenFits(v, a) && ListFits(v, a)
    && (a.resp.Some? && a.resp.value.status.Terminal() ==> v.errorSeen)
  }

  /** Not terminal, and no snapshot that lists items or claims an end. */
  predicate Unlisted(ev: Event) {
    && ev.WellIndexed() && !ev.Terminal()
    && (ev.Snapshot? && ev.response.Some? ==> ev.response.value.output == [] && !ev.response.value.status.Terminal())
  }

  /** Where an accepted added lands: at its index's slot when it re-announces
      the item there, at the end of the list otherwise. */
  lemma AddedLands(v: Checker, a: Acc, k: nat, ev: Event)
    requires Related(v, a) && ev.ItemAdded? && v.Step(k, ev).Some?
    ensures var index, x, b := ev.outputIndex, StateOf(ev.outputIndex, ev.item), a.Add(ev);
            var again := Reannounces(v.items, x);
            && v.open.None? && 0 <= index <= v.indexes
            && (again ==> index < v.indexes)
            && var pos := if again then a.slots[index] else |a.Output()|;
            && b.resp.Some? && (a.resp.Some? ==> b.resp.value.status == a.resp.value.status)
                && (a.resp.None? ==> !b.resp.value.status.Terminal())
            && b.Output() == PlaceAt(a.Output(), pos, ev.item, NilItem)
            && b.slots == a.slots[index := pos] && b.closed == a.closed - {pos}
            && b.reused == a.reused + (if index < v.indexes && !again then [index] else [])
  {
    var index, x := ev.outputIndex, StateOf(ev.outputIndex, ev.item);
    if index < v.indexes {
      assert LastAt(v.items, index).Some?;
      assert a.Holds(a.slots[index]) && a.slots[index] in a.closed;
    } else {
      assert index !in a.slots && LastAt(v.items, index).None?;
    }
  }

  lemma AddedSlotsFit(v: Checker, a: Acc, w: Checker, b: Acc, x: ItemState, item: Item, pos: nat)
    requires SlotsFit(v, a) && x == StateOf(x.index, item) && !item.NilItem? && 0 <= x.index <= v.indexes
    requires w.items == v.items + [x] && w.indexes == if x.index == v.indexes then v.indexes + 1 else v.indexes
    requires b.Output() == PlaceAt(a.Output(), pos, item, NilItem) && b.slots == a.slots[x.index := pos]
    requires pos == |a.Output()| || (x.index < v.indexes && pos == a.slots[x.index] && a.IdAt(pos) == x.id)
    requires pos == |a.Output()| && x.index < v.indexes ==> b.reused != []
    requires b.reused == [] ==> a.reused == []
    requires forall p: nat :: p < |a.Output()| ==> a.Holds(p)
    requires forall i, j | i in a.slots && j in a.slots && a.slots[i] == a.slots[j] :: i == j
    ensures SlotsFit(w, b)
  {
    hide LastAt, Reuses, Reannouncements;
    Appended(v.items, x);
    if x.index < v.indexes { assert a.Holds(a.slots[x.index]); }
    PlacedHolds(a, b, pos, item);
    forall i | 0 <= i < w.indexes
      ensures LastAt(w.items, i).Some? && IsItem(b.Output()[b.slots[i]], w.items[LastAt(w.items, i).value])
    {
      if i != x.index { assert a.Holds(a.slots[i]) && LastAt(v.items, i).Some?; }
    }
  }

  /** Placing an item leaves no position empty. */
  lemma PlacedHolds(a: Acc, b: Acc, pos: nat, item: Item)
    requires pos <= |a.Output()| && !item.NilItem? && b.Output() == PlaceAt(a.Output(), pos, item, NilItem)
    requires forall p: nat :: p < |a.Output()| ==> a.Holds(p)
    ensures forall p: nat :: p < |b.Output()| ==> b.Holds(p)
    ensures forall p: nat :: p < |a.Output()| && p != pos ==> b.IdAt(p) == a.IdAt(p)
  {
    forall p: nat | p < |b.Output()| ensures b.Holds(p) { assert p == pos || a.Holds(p); }
  }

  lemma AddedListFits(v: Checker, a: Acc, w: Checker, b: Acc, x: ItemState, item: Item, pos: nat)
    requires SlotsFit(v, a) && ListFits(v, a) && x == StateOf(x.index, item) && w.items == v.items + [x]
    requires b.Output() == PlaceAt(a.Output(), pos, item, NilItem) && b.slots == a.slots[x.index := pos]
    requires pos == if Reannounces(v.items, x) then a.slots[x.index] else |a.Output()|
    requires Reannounces(v.items, x) ==> 0 <= x.index < v.indexes
    requires b.reused == a.reused + (if 0 <= x.index < v.indexes && !Reannounces(v.items, x) then [x.index] else [])
    ensures ListFits(w, b)
  {
    Appended(v.items, x);
    if Reannounces(v.items, x) { assert a.Holds(a.slots[x.index]); }
    assert LastAt(v.items, x.index).Some? == (0 <= x.index < v.indexes);
  }

  lemma AddedOpenFits(v: Checker, a: Acc, w: Checker, b: Acc, x: ItemState, item: Item, pos: nat)
    requires SlotsFit(v, a) && SlotsFit(w, b) && OpenFits(v, a) && v.open.None? && x == StateOf(x.index, item)
             && !item.NilItem?
    requires b.Output() == PlaceAt(a.Output(), pos, item, NilItem) && b.slots == a.slots[x.index := pos]
    requires b.closed == a.closed - {pos} && pos <= |a.Output()| && 0 <= x.index < w.indexes
    requires w.open.Some? && w.open.value.index == x.index && w.open.value.item == item
    ensures OpenFits(w, b)
  {
    forall p: nat | p < |b.Output()| ensures b.Holds(p) { assert p == pos || a.Holds(p); }
    forall p: nat ensures p in b.closed <==> b.Holds(p) && p != pos {
      assert p != pos ==> (a.Holds(p) <==> b.Holds(p));
    }
  }

  lemma AddedRelated(v: Checker, a: Acc, k: nat, ev: Event)
    requires Related(v, a) && ev.ItemAdded? && v.Step(k, ev).Some?
    ensures Related(v.Step(k, ev).value, a.Add(ev))
  {
    var x := StateOf(ev.outputIndex, ev.item);
    var w, b := v.Step(k, ev).value, a.Add(ev);
    AddConsistent(a, ev);
    AddedLands(v, a, k, ev);
    assert w == v.(indexes := w.indexes, items := v.items + [x], open := w.open) && w.open.Some?
      && w.open.value.index == x.index && w.open.value.item == ev.item && !ev.item.NilItem?
      && w.indexes == if x.index == v.indexes then v.indexes + 1 else v.indexes;
    hide Checker.Step, Acc.Add;
    var pos := if Reannounces(v.items, x) then a.slots[x.index] else |a.Output()|;
    AddedSlotsFit(v, a, w, b, x, ev.item, pos);
    AddedListFits(v, a, w, b, x, ev.item, pos);
    AddedOpenFits(v, a, w, b, x, ev.item, pos);
  }

  /** Where an accepted done lands: at its index's slot, which it closes. */
  lemma DoneLands(v: Checker, a: Acc, k: nat, ev: Event)
    requires Related(v, a) && ev.ItemDone? && v.Step(k, ev).Some?
    ensures var index, b := ev.outputIndex, a.Add(ev);
            && v.open.Some? && v.open.value.index == index && v.Step(k, ev).value == v.(open := None)
            && index in a.slots && a.Holds(a.slots[index])
            && var pos := a.slots[index];
            && pos < |a.Output()| && !ev.item.NilItem? && ItemId(ev.item) == a.IdAt(pos)
            && SameItem(ev.item, a.Output()[pos])
            && b.Output() == a.Output()[pos := ev.item] && b.slots == a.slots && b.closed == a.closed + {pos}
            && b.reused == a.reused && a.resp.Some? && b.resp.Some? && b.resp.value.status == a.resp.value.status
  {
    var pos := a.slots[ev.outputIndex];
    assert pos !in a.closed;
    assert a.slots[ev.outputIndex := pos] == a.slots;
  }

  lemma DoneFits(v: Checker, a: Acc, b: Acc, pos: nat, item: Item)
    requires SlotsFit(v, a) && OpenFits(v, a) && v.open.Some? && v.open.value.index in a.slots
    requires pos == a.slots[v.open.value.index] && pos < |a.Output()|
    requires !item.NilItem? && ItemId(item) == a.IdAt(pos) && ItemTypeOf(item) == ItemTypeOf(a.Output()[pos])
    requires b.Output() == a.Output()[pos := item] && b.slots == a.slots && b.closed == a.closed + {pos}
             && b.reused == a.reused
    ensures SlotsFit(v.(open := None), b) && OpenFits(v.(open := None), b)
  {
    assert forall p: nat :: b.IdAt(p) == a.IdAt(p) && b.Holds(p) == a.Holds(p);
    assert SlotsFit(v.(open := None), b);
  }

  lemma DoneRelated(v: Checker, a: Acc, k: nat, ev: Event)
    requires Related(v, a) && ev.ItemDone? && v.Step(k, ev).Some?
    ensures Related(v.Step(k, ev).value, a.Add(ev))
  {
    hide Checker.Step, Acc.Add, SlotsFit, OpenFits, ListFits, Acc.Consistent;
    AddConsistent(a, ev);
    DoneLands(v, a, k, ev);
    DoneFits(v, a, a.Add(ev), a.slots[ev.outputIndex], ev.item);
    DoneListFits(v, a, a.Add(ev), a.slots[ev.outputIndex], ev.item);
  }

  lemma DoneListFits(v: Checker, a: Acc, b: Acc, pos: nat, item: Item)
    requires ListFits(v, a) && pos < |a.Output()| && SameItem(item, a.Output()[pos])
    requires b.Output() == a.Output()[pos := item] && b.slots == a.slots && b.reused == a.reused
    ensures ListFits(v.(open := None), b)
  {
  }

  /** Same items by type and id at the same positions. */
  ghost predicate SameShape(a: Acc, b: Acc) {
    && b.slots == a.slots && b.closed == a.closed && b.reused == a.reused && |b.Output()| == |a.Output()|
    && forall p :: 0 <= p < |a.Output()| ==>
         SameItem(b.Output()[p], a.Output()[p]) && (b.Output()[p].NilItem? <==> a.Output()[p].NilItem?)
  }

  lemma ShapeRelated(v: Checker, a: Acc, w: Checker, b: Acc)
    requires Related(v, a) && SameShape(a, b) && b.Consistent() && (b.resp.None? ==> a.resp.None?)
    requires w.allowReuse && !w.terminal && w.items == v.items && w.indexes == v.indexes && w.open.Some? == v.open.Some?
    requires v.open.Some? ==> w.open.value.index == v.open.value.index && w.open.value.item == v.open.value.item
    requires b.resp.Some? && b.resp.value.status.Terminal() ==> w.errorSeen
    ensures Related(w, b)
  {
    assert forall p: nat :: b.IdAt(p) == a.IdAt(p) && b.Holds(p) == a.Holds(p);
    assert SlotsFit(w, b);
    assert OpenFits(w, b);
  }

  lemma EditRelated(v: Checker, a: Acc, k: nat, ev: Event)
    requires Related(v, a) && ev.Content() && ev.WellIndexed() && v.Step(k, ev).Some?
    ensures Related(v.Step(k, ev).value, a.Add(ev))
  {
    StepKeepsOthers(v, k, ev);
    ContentNamesOpen(v, k, ev);
    AddConsistent(a, ev);
    EditShape(a, ev);
    hide Checker.Step, Acc.Add;
    ShapeRelated(v, a, v.Step(k, ev).value, a.Add(ev));
  }

  lemma EditShape(a: Acc, ev: Event)
    requires a.Consistent() && ev.Content() && ev.WellIndexed()
    ensures SameShape(a, a.Add(ev)) && (a.Add(ev).resp.None? <==> a.resp.None?)
    ensures a.resp.Some? ==> a.Add(ev).resp.value.status == a.resp.value.status
  {
    var pos := a.Position(ev.outputIndex);
    if pos.Some? { EditKeepsItem(a.Output()[pos.value], ev); }
  }

  lemma ContentNamesOpen(v: Checker, k: nat, ev: Event)
    requires ev.Content() && v.Step(k, ev).Some?
    ensures v.open.Some? && v.open.value.index == ev.outputIndex
    ensures var w := v.Step(k, ev).value;
              w.open.Some? && w.open.value.index == v.open.value.index && w.open.value.item == v.open.value.item
  {
  }

  lemma SnapshotRelated(v: Checker, a: Acc, k: nat, ev: Event)
    requires Related(v, a) && (ev.Snapshot? || ev.ErrorEvent? || ev.Extension?) && Unlisted(ev) && v.Step(k, ev).Some?
    ensures Related(v.Step(k, ev).value, a.Add(ev))
  {
    QuietStep(v, k, ev);
    hide Checker.Step;
    AddConsistent(a, ev);
    if a.Output() == [] { NothingAdded(v, a); }
    UnlistedShape(a, ev);
    hide Acc.Add;
    ShapeRelated(v, a, v.Step(k, ev).value, a.Add(ev));
  }

  lemma NothingAdded(v: Checker, a: Acc)
    requires Related(v, a) && a.Output() == []
    ensures v.indexes == 0 && a.slots == map[] && a.closed == {} && a.reused == []
  {
    assert 0 in a.slots ==> a.Holds(a.slots[0]);
    assert v.items != [] ==> LastAt(v.items, v.items[|v.items| - 1].index).Some?;
    assert forall i :: i !in a.slots;
    assert forall p: nat :: !a.Holds(p);
  }

  lemma UnlistedShape(a: Acc, ev: Event)
    requires (ev.Snapshot? || ev.ErrorEvent? || ev.Extension?) && Unlisted(ev)
    requires a.Output() == [] ==> a.slots == map[] && a.closed == {} && a.reused == []
    ensures SameShape(a, a.Add(ev)) && (a.Add(ev).resp.None? ==> a.resp.None?)
    ensures a.Add(ev).resp.Some? && a.Add(ev).resp.value.status.Terminal() ==>
              ev.ErrorEvent? || (a.resp.Some? && a.resp.value.status.Terminal())
  {
    var b := a.Add(ev);
    if ev.Snapshot? && a.Output() == [] {
      assert b.slots == map[] && b.closed == {};
    }
  }

  lemma StepRelated(v: Checker, a: Acc, k: nat, ev: Event)
    requires Related(v, a) && Unlisted(ev) && v.Step(k, ev).Some?
    ensures Related(v.Step(k, ev).value, a.Add(ev))
  {
    if ev.ItemAdded? { AddedRelated(v, a, k, ev); }
    else if ev.ItemDone? { DoneRelated(v, a, k, ev); }
    else if ev.Content() { EditRelated(v, a, k, ev); }
    else { SnapshotRelated(v, a, k, ev); }
  }

  lemma {:induction false} RunRelated(v: Checker, a: Acc, i: nat, events: seq<Event>)
    requires Related(v, a) && (forall ev <- events :: Unlisted(ev)) && Run(v, i, events).Some?
    ensures AllWellIndexed(events) && Related(Run(v, i, events).value, Fold(a, events))
    decreases |events|
  {
    if events != [] {
      StepRelated(v, a, i, events[0]);
      assert forall ev <- events[1..] :: ev in events;
      RunRelated(v.Step(i, events[0]).value, a.Add(events[0]), i + 1, events[1..]);
    }
  }

  /** The accumulator follows the items added so far: it logs every reuse, is
      short by the re-announcements, and each index reaches the item last added
      at it. */
  ghost predicate Follows(a: Acc, added: seq<ItemState>) {
    && a.reused == Reuses(added)
    && |a.Output()| + Reannouncements(added) == |added|
    && (Lists(a.Output(), added) <==> Reannouncements(added) == 0)
    && (Reannouncements(added) == 0 ==> forall i :: a.Position(i) == LastAt(added, i))
    && (forall i :: a.Position(i).Some? <==> LastAt(added, i).Some?)
    && (forall i :: a.Position(i).Some? ==>
          IsItem(a.Output()[a.Position(i).value], added[LastAt(added, i).value]))
  }

  /** For every stream accepted with the reuse option whose snapshots list
      nothing before the end: just before the terminal event the accumulator
      lists exactly the added items, in order, if and only if no item
      re-announces, by a non-empty id, the one its index last held.  Then each
      index reaches the position of the item last added at it; re-announced or
      not, the item an index reaches is the one last added at it; and
      ReusedIndexes is always the list of reuses in stream order. */
  lemma ReuseIsFollowed(frames: seq<Frame>)
    requires Accepted(frames, true)
    requires forall k :: 0 <= k < |frames| - 1 ==> Unlisted(frames[k].event)
    ensures var events := Events(frames);
            var n := |events| - 1;
            var added := AddedBefore(events, n);
            && AllWellIndexed(events[..n])
            && Follows(Fold(EMPTY, events[..n]), added)
  {
    var events := Events(frames);
    var n := |events| - 1;
    assert forall ev <- events[..n] :: Unlisted(ev);
    PrefixExact(events, n, true);
    AcceptedExactlyConforms(frames, true);
    hide Related, Run, Fold, Follows, Keeps;
    StartRelated();
    RunRelated(Start(true), EMPTY, 0, events[..n]);
    RelatedReaches(Run(Start(true), 0, events[..n]).value, Fold(EMPTY, events[..n]));
  }

  lemma StartRelated()
    ensures Related(Start(true), EMPTY)
  {
    assert forall p: nat :: !EMPTY.Holds(p);
  }

  /** What the relation says of the list and of every index. */
  lemma RelatedReaches(v: Checker, a: Acc)
    requires Related(v, a)
    ensures Follows(a, v.items)
  {
  }

  const TWICE_ITEM := Compaction("c", Completed, "")

  /** An accepted stream that announces the same item twice at index 0. */
  const TWICE: seq<Event> :=
    var item := TWICE_ITEM;
    var blank := Response("r", RInProgress, [], None, None, None, "");
    [Snapshot(Created, Some(blank)), ItemAdded(0, item), ItemDone(0, item), ItemAdded(0, item), ItemDone(0, item),
     Snapshot(Finished, Some(Response("r", RCompleted, [item, item], None, None, None, "")))]

  /** The checker's state in that stream, with one more or one less item added. */
  function TwiceState(items: nat, open: bool): Checker {
    var x := StateOf(0, TWICE_ITEM);
    var opening := OpenItem(0, TWICE_ITEM, 0, None, 0, None, false, false, false);
    Checker(true, if items == 0 then 0 else 1, seq(items, _ => x), if open then Some(opening) else None, false, false)
  }

  lemma TwiceSteps()
    ensures TwiceState(0, false) == Start(true)
    ensures TwiceState(0, false).Step(0, TWICE[0]) == Some(TwiceState(0, false))
    ensures TwiceState(0, false).Step(1, TWICE[1]) == Some(TwiceState(1, true))
    ensures TwiceState(1, true).Step(2, TWICE[2]) == Some(TwiceState(1, false))
    ensures TwiceState(1, false).Step(3, TWICE[3]) == Some(TwiceState(2, true))
    ensures TwiceState(2, true).Step(4, TWICE[4]) == Some(TwiceState(2, false))
    ensures TwiceState(2, false).Step(5, TWICE[5]) == Some(TwiceState(2, false).(terminal := true))
  {
    var x := StateOf(0, TWICE_ITEM);
    assert seq(0, _ => x) + [x] == seq(1, _ => x) && seq(1, _ => x) + [x] == seq(2, _ => x);
  }

  lemma TwiceAccepted()
    ensures Accepted(Numbered(TWICE), true)
  {
    hide Checker.Step, TwiceState, Run, Accepted;
    TwiceSteps();
    RunNext(TwiceState(0, false), TWICE, 0);
    RunNext(TwiceState(0, false), TWICE, 1);
    RunNext(TwiceState(1, true), TWICE, 2);
    RunNext(TwiceState(1, false), TWICE, 3);
    RunNext(TwiceState(2, true), TWICE, 4);
    RunNext(TwiceState(2, false), TWICE, 5);
    AcceptedByRun(TWICE, TwiceState(2, false).(terminal := true));
  }

  lemma AcceptedByRun(events: seq<Event>, v: Checker)
    requires events != [] && IsCreated(events[0]) && v.terminal
    requires Run(Start(true), 0, events[0..]) == Run(v, |events|, events[|events|..])
    ensures Accepted(Numbered(events), true)
  {
    assert Events(Numbered(events)) == events == events[0..] && events[|events|..] == [];
  }

  lemma RunNext(v: Checker, events: seq<Event>, k: nat)
    requires k < |events| && v.Step(k, events[k]).Some?
    ensures Run(v, k, events[k..]) == Run(v.Step(k, events[k]).value, k + 1, events[k + 1..])
  {
    assert events[k..][0] == events[k] && events[k..][1..] == events[k + 1..];
  }

  lemma TwiceAdded()
    ensures var x := StateOf(0, TWICE_ITEM); AddedBefore(TWICE, 5) == [x, x]
  {
    var x := StateOf(0, TWICE_ITEM);
    assert AddedBefore(TWICE, 1) == [];
    assert AddedBefore(TWICE, 2) == [x];
    assert AddedBefore(TWICE, 3) == [x];
    assert AddedBefore(TWICE, 4) == [x] + [x] == [x, x];
    assert AddedBefore(TWICE, 5) == [x, x] + [] == [x, x];
  }

  lemma CountedOnce(x: ItemState)
    requires x.id != ""
    ensures Reannouncements([x, x]) == 1
  {
    Appended([], x);
    Appended([x], x);
    assert [] + [x] == [x] && [x] + [x] == [x, x];
  }

  /** The accumulator then lists the item once, though it was added twice. */
  lemma ReannouncedOnce()
    ensures Accepted(Numbered(TWICE), true)
    ensures |AddedBefore(TWICE, 5)| == 2 && Reannouncements(AddedBefore(TWICE, 5)) == 1
    ensures AllWellIndexed(TWICE[..5]) && |Fold(EMPTY, TWICE[..5]).Output()| == 1
  {
    hide Accepted, AddedBefore, Reannouncements, Fold, Reuses, Lists, LastAt, IsItem;
    TwiceAccepted();
    TwiceAdded();
    CountedOnce(StateOf(0, TWICE_ITEM));
    assert Events(Numbered(TWICE)) == TWICE;
    ReuseIsFollowed(Numbered(TWICE));
  }
}

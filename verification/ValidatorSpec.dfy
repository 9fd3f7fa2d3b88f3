/** The checker of the lifecycle as a state machine on values, and the rules it
    enforces stated without it: a stream is accepted exactly when each event
    satisfies its rule at the position it stands at. */
module ValidatorSpec {
  import opened Types
  import opened Wrappers

  datatype OpenPart = OpenPart(partType: PartType, kindDone: bool)

  /** The one open item: how many parts it has had, and the open one. */
  datatype OpenItem = OpenItem(index: int, item: Item,
                               parts: nat, part: Option<OpenPart>,
                               summaries: nat, summary: Option<bool>,
                               textOpen: bool, textDone: bool, argsDone: bool)

  datatype ItemState = ItemState(index: int, id: string, itemType: ItemType)

  function StateOf(index: int, item: Item): ItemState {
    ItemState(index, ItemId(item), ItemTypeOf(item))
  }

  datatype Checker = Checker(allowReuse: bool, indexes: nat, items: seq<ItemState>,
                             open: Option<OpenItem>, terminal: bool, errorSeen: bool)
  {
    predicate ItemOpen(index: int, itemId: string) {
      && open.Some? && open.value.index == index
      && (itemId == "" || itemId == ItemId(open.value.item))
    }

    predicate TypedOpen(index: int, itemId: string, typ: ItemType) {
      ItemOpen(index, itemId) && ItemTypeOf(open.value.item) == typ
    }

    predicate PartOpen(index: int, itemId: string, contentIndex: int) {
      && TypedOpen(index, itemId, TypeMessage)
      && open.value.part.Some? && contentIndex == open.value.parts - 1
    }

    predicate TypedPartOpen(index: int, itemId: string, contentIndex: int, typ: PartType) {
      PartOpen(index, itemId, contentIndex) && open.value.part.value.partType == typ
    }

    predicate SummaryOpen(index: int, itemId: string, summaryIndex: int) {
      && TypedOpen(index, itemId, TypeReasoning)
      && open.value.summary.Some? && summaryIndex == open.value.summaries - 1
    }

    predicate Finishes(response: Option<Response>, want: ResponseStatus) {
      && response.Some? && response.value.status == want
      && open.None? && Lists(response.value.output, items)
    }

    predicate MayAdd(index: int, item: Item) {
      && !item.NilItem? && open.None?
      && (index == indexes || (allowReuse && 0 <= index < indexes))
    }

    predicate MayClose(index: int, item: Item) {
      && ItemOpen(index, "") && !item.NilItem? && SameItem(item, open.value.item)
      && open.value.part.None? && open.value.summary.None?
      && !(item.FunctionCall? && !open.value.argsDone && open.value.parts == 0 && open.value.textOpen)
      && !(open.value.textOpen && !open.value.textDone)
    }

    function WithOpen(o: OpenItem): Option<Checker> { Some(this.(open := Some(o))) }

    function PartKindDone(): Option<Checker>
      requires open.Some? && open.value.part.Some?
    {
      WithOpen(open.value.(part := Some(open.value.part.value.(kindDone := true))))
    }

    /** One event at position i; None is a rejection. */
    function Step(i: nat, ev: Event): Option<Checker> {
      if terminal || (errorSeen && !(ev.Snapshot? && ev.kind.Failed?)) then None
      else match ev
        case Snapshot(kind, response) =>
          (match kind
           case Created => if i > 0 then None else Some(this)
           case Queued => Some(this)
           case Started => Some(this)
           case Finished => if Finishes(response, RCompleted) then Some(this.(terminal := true)) else None
           case Stopped => if Finishes(response, RIncomplete) then Some(this.(terminal := true)) else None
           case Failed =>
             if response.Some? && response.value.status == RFailed then Some(this.(terminal := true)) else None)
        case ErrorEvent(_) => Some(this.(errorSeen := true))
        case ItemAdded(index, item) =>
          if !MayAdd(index, item) then None
          else Some(this.(indexes := if index == indexes then indexes + 1 else indexes,
                          items := items + [StateOf(index, item)],
                          open := Some(OpenItem(index, item, 0, None, 0, None, false, false, false))))
        case ItemDone(index, item) =>
          if MayClose(index, item) then Some(this.(open := None)) else None
        case PartAdded(itemId, index, c, part) =>
          if ItemOpen(index, itemId) && open.value.item.Message? && open.value.part.None?
             && c == open.value.parts && !part.NilPart?
          then WithOpen(open.value.(parts := open.value.parts + 1, part := Some(OpenPart(PartTypeOf(part), false))))
          else None
        case PartDone(itemId, index, c, part) =>
          if PartOpen(index, itemId, c) && !part.NilPart? && PartTypeOf(part) == open.value.part.value.partType
             && (open.value.part.value.partType in {TypeOutputText, TypeRefusal} ==> open.value.part.value.kindDone)
          then WithOpen(open.value.(part := None))
          else None
        case TextDelta(itemId, index, c, _, _) =>
          if TypedPartOpen(index, itemId, c, TypeOutputText) then Some(this) else None
        case TextDone(itemId, index, c, _, _) =>
          if TypedPartOpen(index, itemId, c, TypeOutputText) then PartKindDone() else None
        case AnnotationAdded(itemId, index, c, _, _) =>
          if TypedPartOpen(index, itemId, c, TypeOutputText) then Some(this) else None
        case RefusalDelta(itemId, index, c, _) =>
          if TypedPartOpen(index, itemId, c, TypeRefusal) then Some(this) else None
        case RefusalDone(itemId, index, c, _) =>
          if TypedPartOpen(index, itemId, c, TypeRefusal) then PartKindDone() else None
        case ArgumentsDelta(itemId, index, _) =>
          if TypedOpen(index, itemId, TypeFunctionCall) && !open.value.argsDone
          then WithOpen(open.value.(textOpen := true)) else None
        case ArgumentsDone(itemId, index, _) =>
          if TypedOpen(index, itemId, TypeFunctionCall) && !open.value.argsDone
          then WithOpen(open.value.(argsDone := true, textOpen := false)) else None
        case SummaryAdded(itemId, index, s, part) =>
          if TypedOpen(index, itemId, TypeReasoning) && open.value.summary.None?
             && s == open.value.summaries && !part.NilPart?
          then WithOpen(open.value.(summaries := open.value.summaries + 1, summary := Some(false)))
          else None
        case SummaryDelta(itemId, index, s, _) =>
          if SummaryOpen(index, itemId, s) then Some(this) else None
        case SummaryTextDone(itemId, index, s, _) =>
          if SummaryOpen(index, itemId, s) then WithOpen(open.value.(summary := Some(true))) else None
        case SummaryDone(itemId, index, s, _) =>
          if SummaryOpen(index, itemId, s) && open.value.summary.value
          then WithOpen(open.value.(summary := None)) else None
        case ReasoningDelta(itemId, index, _, _) =>
          if TypedOpen(index, itemId, TypeReasoning) && !open.value.textDone
          then WithOpen(open.value.(textOpen := true)) else None
        case ReasoningDone(itemId, index, _, _) =>
          if TypedOpen(index, itemId, TypeReasoning)
          then WithOpen(open.value.(textDone := true)) else None
        case Extension(_) => Some(this)
    }

    /** The step of the program: the sequence number is checked on the way. */
    function StepFrame(i: nat, frame: Frame): Option<Checker> {
      if frame.number != i then None else Step(i, frame.event)
    }
  }

  /** The terminal list holds the added items, in order, by type and id. */
  predicate Lists(output: seq<Item>, items: seq<ItemState>) {
    && |output| == |items|
    && forall p :: 0 <= p < |items| ==>
         ItemTypeOf(output[p]) == items[p].itemType && ItemId(output[p]) == items[p].id
  }

  function Start(allowReuse: bool): Checker {
    Checker(allowReuse, 0, [], None, false, false)
  }

  /** Step through `events`, the first of which stands at position i. */
  function Run(v: Checker, i: nat, events: seq<Event>): Option<Checker>
    decreases |events|
  {
    if events == [] then Some(v)
    else
      var next := v.Step(i, events[0]);
      if next.None? then None else Run(next.value, i + 1, events[1..])
  }

  lemma {:induction false} RunAppend(v: Checker, i: nat, xs: seq<Event>, ys: seq<Event>)
    ensures var mid := Run(v, i, xs);
            Run(v, i, xs + ys) == if mid.None? then None else Run(mid.value, i + |xs|, ys)
    decreases |xs|
  {
    if xs == [] {
      assert xs + ys == ys;
    } else {
      assert (xs + ys)[1..] == xs[1..] + ys;
      assert (xs + ys)[0] == xs[0];
      var next := v.Step(i, xs[0]);
      if next.Some? { RunAppend(next.value, i + 1, xs[1..], ys); }
    }
  }

  /** One more event of a stream from its start. */
  lemma RunMore(start: Checker, events: seq<Event>, k: nat)
    requires k < |events|
    ensures var before := Run(start, 0, events[..k]);
            && Run(start, 0, events[..k + 1]) == (if before.None? then None else before.value.Step(k, events[k]))
            && (Run(start, 0, events[..k + 1]).None? ==> Run(start, 0, events).None?)
  {
    hide Checker.Step;
    assert events[..k + 1] == events[..k] + [events[k]];
    RunAppend(start, 0, events[..k], [events[k]]);
    if Run(start, 0, events[..k]).Some? { RunOne(Run(start, 0, events[..k]).value, k, events[k]); }
    assert events == events[..k + 1] + events[k + 1..];
    RunAppend(start, 0, events[..k + 1], events[k + 1..]);
  }

  lemma RunOne(v: Checker, i: nat, ev: Event)
    ensures Run(v, i, [ev]) == v.Step(i, ev)
  {
    var next := v.Step(i, ev);
    if next.Some? { assert Run(next.value, i + 1, [ev][1..]) == next; }
  }

  function Events(frames: seq<Frame>): (events: seq<Event>)
    ensures |events| == |frames|
    ensures forall k :: 0 <= k < |frames| ==> events[k] == frames[k].event
  {
    seq(|frames|, k requires 0 <= k < |frames| => frames[k].event)
  }

  predicate InSequence(frames: seq<Frame>) {
    forall k :: 0 <= k < |frames| ==> frames[k].number == k
  }

  /** What Validate answers. */
  predicate Accepted(frames: seq<Frame>, allowReuse: bool) {
    && frames != [] && IsCreated(frames[0].event) && InSequence(frames)
    && var end := Run(Start(allowReuse), 0, Events(frames));
       end.Some? && end.value.terminal
  }

  predicate IsCreated(ev: Event) {
    ev.Snapshot? && ev.kind.Created?
  }

  // ---- The rules, position by position ---------------------------------------------------

  /** The position of the output_item.added whose item is open before k. */
  function ItemOpener(events: seq<Event>, k: nat): (at: Option<nat>)
    requires k <= |events|
    ensures at.Some? ==> at.value < k && events[at.value].ItemAdded?
  {
    if k == 0 || events[k - 1].ItemDone? then None
    else if events[k - 1].ItemAdded? then Some(k - 1)
    else ItemOpener(events, k - 1)
  }

  /** The position of the content_part.added whose part is open before k. */
  function PartOpener(events: seq<Event>, k: nat): (at: Option<nat>)
    requires k <= |events|
    ensures at.Some? ==> at.value < k && events[at.value].PartAdded?
  {
    if k == 0 || events[k - 1].ItemAdded? || events[k - 1].ItemDone? || events[k - 1].PartDone? then None
    else if events[k - 1].PartAdded? then Some(k - 1)
    else PartOpener(events, k - 1)
  }

  function SummaryOpener(events: seq<Event>, k: nat): (at: Option<nat>)
    requires k <= |events|
    ensures at.Some? ==> at.value < k && events[at.value].SummaryAdded?
  {
    if k == 0 || events[k - 1].ItemAdded? || events[k - 1].ItemDone? || events[k - 1].SummaryDone? then None
    else if events[k - 1].SummaryAdded? then Some(k - 1)
    else SummaryOpener(events, k - 1)
  }

  /** How many parts, or summary parts, were added from `from` up to k. */
  function PartsAdded(events: seq<Event>, from: nat, k: nat): nat
    requires from <= k <= |events|
  {
    if k == from then 0
    else PartsAdded(events, from, k - 1) + if events[k - 1].PartAdded? then 1 else 0
  }

  function SummariesAdded(events: seq<Event>, from: nat, k: nat): nat
    requires from <= k <= |events|
  {
    if k == from then 0
    else SummariesAdded(events, from, k - 1) + if events[k - 1].SummaryAdded? then 1 else 0
  }

  /** The items added before k, in order. */
  function AddedBefore(events: seq<Event>, k: nat): seq<ItemState>
    requires k <= |events|
  {
    if k == 0 then []
    else AddedBefore(events, k - 1)
         + if events[k - 1].ItemAdded? then [StateOf(events[k - 1].outputIndex, events[k - 1].item)] else []
  }

  /** The distinct output indices used before k. */
  function UsedIndexes(events: seq<Event>, k: nat): set<int>
    requires k <= |events|
  {
    if k == 0 then {}
    else UsedIndexes(events, k - 1) + if events[k - 1].ItemAdded? then {events[k - 1].outputIndex} else {}
  }

  /** The event names the item open at k: its index and, unless blank, its id. */
  predicate NamesOpen(events: seq<Event>, k: nat, index: int, itemId: string)
    requires k <= |events|
  {
    var at := ItemOpener(events, k);
    && at.Some? && events[at.value].outputIndex == index
    && (itemId == "" || itemId == ItemId(events[at.value].item))
  }

  function OpenItemAt(events: seq<Event>, k: nat): Item
    requires k <= |events|
  {
    var at := ItemOpener(events, k);
    if at.Some? then events[at.value].item else NilItem
  }

  predicate NamesPart(events: seq<Event>, k: nat, index: int, itemId: string, contentIndex: int)
    requires k <= |events|
  {
    && NamesOpen(events, k, index, itemId) && ItemTypeOf(OpenItemAt(events, k)) == TypeMessage
    && PartOpener(events, k).Some?
    && contentIndex == PartsAdded(events, ItemOpener(events, k).value, k) - 1
  }

  predicate NamesTypedPart(events: seq<Event>, k: nat, index: int, itemId: string, contentIndex: int, typ: PartType)
    requires k <= |events|
  {
    && NamesPart(events, k, index, itemId, contentIndex)
    && PartTypeOf(events[PartOpener(events, k).value].part) == typ
  }

  predicate NamesSummary(events: seq<Event>, k: nat, index: int, itemId: string, summaryIndex: int)
    requires k <= |events|
  {
    && NamesOpen(events, k, index, itemId) && ItemTypeOf(OpenItemAt(events, k)) == TypeReasoning
    && SummaryOpener(events, k).Some?
    && summaryIndex == SummariesAdded(events, ItemOpener(events, k).value, k) - 1
  }

  /** output_text.done or refusal.done since the part was opened. */
  predicate KindDone(events: seq<Event>, from: nat, k: nat)
    requires k <= |events|
  {
    exists j :: from < j < k && (events[j].TextDone? || events[j].RefusalDone?)
  }

  predicate SummaryTextDoneSince(events: seq<Event>, from: nat, k: nat)
    requires k <= |events|
  {
    exists j :: from < j < k && events[j].SummaryTextDone?
  }

  predicate ArgumentsDoneSince(events: seq<Event>, from: nat, k: nat)
    requires k <= |events|
  {
    exists j :: from < j < k && events[j].ArgumentsDone?
  }

  predicate ArgumentsDeltaSince(events: seq<Event>, from: nat, k: nat)
    requires k <= |events|
  {
    exists j :: from < j < k && events[j].ArgumentsDelta?
  }

  predicate ReasoningDoneSince(events: seq<Event>, from: nat, k: nat)
    requires k <= |events|
  {
    exists j :: from < j < k && events[j].ReasoningDone?
  }

  predicate ReasoningDeltaSince(events: seq<Event>, from: nat, k: nat)
    requires k <= |events|
  {
    exists j :: from < j < k && events[j].ReasoningDelta?
  }

  /** Arguments or reasoning text streamed by delta are finished. */
  predicate TextFinished(events: seq<Event>, from: nat, k: nat)
    requires k <= |events|
  {
    && (ArgumentsDeltaSince(events, from, k) ==> ArgumentsDoneSince(events, from, k))
    && (ReasoningDeltaSince(events, from, k) ==> ReasoningDoneSince(events, from, k))
  }

  predicate EndsWell(events: seq<Event>, k: nat, response: Option<Response>, want: ResponseStatus)
    requires k <= |events|
  {
    && response.Some? && response.value.status == want
    && ItemOpener(events, k).None? && Lists(response.value.output, AddedBefore(events, k))
  }

  /** The rule event k is held to. */
  predicate Rule(events: seq<Event>, k: nat, allowReuse: bool)
    requires k < |events|
  {
    match events[k]
    case Snapshot(kind, response) =>
      (match kind
       case Created => k == 0
       case Queued => true
       case Started => true
       case Finished => EndsWell(events, k, response, RCompleted)
       case Stopped => EndsWell(events, k, response, RIncomplete)
       case Failed => response.Some? && response.value.status == RFailed)
    case ErrorEvent(_) => true
    case ItemAdded(index, item) =>
      && !item.NilItem? && ItemOpener(events, k).None?
      && (index == |UsedIndexes(events, k)| || (allowReuse && index in UsedIndexes(events, k)))
    case ItemDone(index, item) =>
      && NamesOpen(events, k, index, "") && !item.NilItem? && SameItem(item, OpenItemAt(events, k))
      && PartOpener(events, k).None? && SummaryOpener(events, k).None?
      && TextFinished(events, ItemOpener(events, k).value, k)
    case PartAdded(itemId, index, c, part) =>
      && NamesOpen(events, k, index, itemId) && OpenItemAt(events, k).Message? && !part.NilPart?
      && PartOpener(events, k).None? && c == PartsAdded(events, ItemOpener(events, k).value, k)
    case PartDone(itemId, index, c, part) =>
      && NamesPart(events, k, index, itemId, c) && !part.NilPart?
      && var from := PartOpener(events, k).value;
         && PartTypeOf(part) == PartTypeOf(events[from].part)
         && (PartTypeOf(part) in {TypeOutputText, TypeRefusal} ==> KindDone(events, from, k))
    case TextDelta(itemId, index, c, _, _) => NamesTypedPart(events, k, index, itemId, c, TypeOutputText)
    case TextDone(itemId, index, c, _, _) => NamesTypedPart(events, k, index, itemId, c, TypeOutputText)
    case AnnotationAdded(itemId, index, c, _, _) => NamesTypedPart(events, k, index, itemId, c, TypeOutputText)
    case RefusalDelta(itemId, index, c, _) => NamesTypedPart(events, k, index, itemId, c, TypeRefusal)
    case RefusalDone(itemId, index, c, _) => NamesTypedPart(events, k, index, itemId, c, TypeRefusal)
    case ArgumentsDelta(itemId, index, _) =>
      && NamesOpen(events, k, index, itemId) && ItemTypeOf(OpenItemAt(events, k)) == TypeFunctionCall
      && !ArgumentsDoneSince(events, ItemOpener(events, k).value, k)
    case ArgumentsDone(itemId, index, _) =>
      && NamesOpen(events, k, index, itemId) && ItemTypeOf(OpenItemAt(events, k)) == TypeFunctionCall
      && !ArgumentsDoneSince(events, ItemOpener(events, k).value, k)
    case SummaryAdded(itemId, index, s, part) =>
      && NamesOpen(events, k, index, itemId) && ItemTypeOf(OpenItemAt(events, k)) == TypeReasoning && !part.NilPart?
      && SummaryOpener(events, k).None? && s == SummariesAdded(events, ItemOpener(events, k).value, k)
    case SummaryDelta(itemId, index, s, _) => NamesSummary(events, k, index, itemId, s)
    case SummaryTextDone(itemId, index, s, _) => NamesSummary(events, k, index, itemId, s)
    case SummaryDone(itemId, index, s, _) =>
      NamesSummary(events, k, index, itemId, s) && SummaryTextDoneSince(events, SummaryOpener(events, k).value, k)
    case ReasoningDelta(itemId, index, _, _) =>
      && NamesOpen(events, k, index, itemId) && ItemTypeOf(OpenItemAt(events, k)) == TypeReasoning
      && !ReasoningDoneSince(events, ItemOpener(events, k).value, k)
    case ReasoningDone(itemId, index, _, _) =>
      NamesOpen(events, k, index, itemId) && ItemTypeOf(OpenItemAt(events, k)) == TypeReasoning
    case Extension(_) => true
  }

  /** Event k keeps its rule, nothing terminal came before it, and an error
      event just before it makes it response.failed. */
  predicate Keeps(events: seq<Event>, k: nat, allowReuse: bool)
    requires k < |events|
  {
    && Rule(events, k, allowReuse)
    && (k > 0 ==> !events[k - 1].Terminal())
    && (k > 0 && events[k - 1].ErrorEvent? ==> events[k].Snapshot? && events[k].kind.Failed?)
  }

  predicate KeepsAll(events: seq<Event>, allowReuse: bool) {
    forall k :: 0 <= k < |events| ==> Keeps(events, k, allowReuse)
  }

  /** The lifecycle, as the package documentation states it. */
  predicate Conforms(frames: seq<Frame>, allowReuse: bool) {
    && frames != [] && (forall k :: 0 <= k < |frames| ==> frames[k].number == k)
    && frames[0].event.Snapshot? && frames[0].event.kind == Created
    && KeepsAll(Events(frames), allowReuse)
    && frames[|frames| - 1].event.Terminal()
  }

  // ---- The machine enforces exactly the rules -----------------------------------------------

  /** What the checker remembers is what the rules look up. */
  ghost predicate Remembers(v: Checker, events: seq<Event>, k: nat)
    requires k <= |events|
  {
    && v.items == AddedBefore(events, k)
    && Fills(UsedIndexes(events, k), v.indexes)
    && v.terminal == (k > 0 && events[k - 1].Terminal())
    && (!v.terminal ==> v.errorSeen == (k > 0 && events[k - 1].ErrorEvent?))
    && v.open.Some? == ItemOpener(events, k).Some?
    && (v.open.None? ==> PartOpener(events, k).None? && SummaryOpener(events, k).None?)
    && (v.open.Some? ==> RemembersOpen(v.open.value, events, k))
  }

  /** The set is the indices 0 to n-1. */
  ghost predicate Fills(s: set<int>, n: nat) {
    |s| == n && forall i :: i in s <==> 0 <= i < n
  }

  lemma FillsNext(s: set<int>, n: nat)
    requires Fills(s, n)
    ensures Fills(s + {n}, n + 1)
    ensures forall i :: 0 <= i < n ==> s + {i} == s
  {
  }

  ghost predicate RemembersOpen(o: OpenItem, events: seq<Event>, k: nat)
    requires k <= |events| && ItemOpener(events, k).Some?
  {
    var from := ItemOpener(events, k).value;
    && o.index == events[from].outputIndex && o.item == events[from].item
    && o.parts == PartsAdded(events, from, k) && o.summaries == SummariesAdded(events, from, k)
    && o.part.Some? == PartOpener(events, k).Some?
    && (o.part.Some? ==>
          var p := PartOpener(events, k).value;
          from < p && o.part.value == OpenPart(PartTypeOf(events[p].part), KindDone(events, p, k)))
    && o.summary.Some? == SummaryOpener(events, k).Some?
    && (o.summary.Some? ==>
          var p := SummaryOpener(events, k).value;
          from < p && o.summary.value == SummaryTextDoneSince(events, p, k))
    && o.argsDone == ArgumentsDoneSince(events, from, k)
    && o.textDone == ReasoningDoneSince(events, from, k)
    && o.textOpen == ((ArgumentsDeltaSince(events, from, k) && !o.argsDone) || ReasoningDeltaSince(events, from, k))
    && (ItemTypeOf(o.item) != TypeFunctionCall ==> !ArgumentsDeltaSince(events, from, k) && !o.argsDone)
    && (ItemTypeOf(o.item) != TypeReasoning ==> !ReasoningDeltaSince(events, from, k) && !o.textDone)
  }

  /** The checker's lookups are the rules' lookups. */
  lemma LookupsAgree(v: Checker, events: seq<Event>, k: nat)
    requires k <= |events| && Remembers(v, events, k)
    ensures forall i, id :: v.ItemOpen(i, id) <==> NamesOpen(events, k, i, id)
    ensures v.open.Some? ==> v.open.value.item == OpenItemAt(events, k)
    ensures forall i, id, c :: v.PartOpen(i, id, c) <==> NamesPart(events, k, i, id, c)
    ensures forall i, id, c, t :: v.TypedPartOpen(i, id, c, t) <==> NamesTypedPart(events, k, i, id, c, t)
    ensures forall i, id, s :: v.SummaryOpen(i, id, s) <==> NamesSummary(events, k, i, id, s)
  {
  }

  lemma StepKeepsSnapshot(v: Checker, events: seq<Event>, k: nat)
    requires k < |events| && Remembers(v, events, k) && events[k].Snapshot?
    ensures v.Step(k, events[k]).Some? <==> Keeps(events, k, v.allowReuse)
  {
    assert v.open.None? == ItemOpener(events, k).None?;
  }

  lemma StepKeepsItem(v: Checker, events: seq<Event>, k: nat)
    requires k < |events| && Remembers(v, events, k) && ItemEvent(events[k])
    ensures v.Step(k, events[k]).Some? <==> Keeps(events, k, v.allowReuse)
  {
    LookupsAgree(v, events, k);
    assert |UsedIndexes(events, k)| == v.indexes;
  }

  lemma StepKeepsPart(v: Checker, events: seq<Event>, k: nat)
    requires k < |events| && Remembers(v, events, k)
    requires events[k].PartAdded? || events[k].PartDone? || events[k].TextDelta? || events[k].TextDone?
             || events[k].AnnotationAdded? || events[k].RefusalDelta? || events[k].RefusalDone?
    ensures v.Step(k, events[k]).Some? <==> Keeps(events, k, v.allowReuse)
  {
    LookupsAgree(v, events, k);
  }

  lemma StepKeepsText(v: Checker, events: seq<Event>, k: nat)
    requires k < |events| && Remembers(v, events, k)
    requires events[k].ArgumentsDelta? || events[k].ArgumentsDone? || events[k].ReasoningDelta?
             || events[k].ReasoningDone?
    ensures v.Step(k, events[k]).Some? <==> Keeps(events, k, v.allowReuse)
  {
    LookupsAgree(v, events, k);
    var ev := events[k];
    assert v.ItemOpen(ev.outputIndex, ev.itemId) == NamesOpen(events, k, ev.outputIndex, ev.itemId);
  }

  lemma StepKeepsSummary(v: Checker, events: seq<Event>, k: nat)
    requires k < |events| && Remembers(v, events, k)
    requires events[k].SummaryAdded? || events[k].SummaryDone? || events[k].SummaryDelta? || events[k].SummaryTextDone?
    ensures v.Step(k, events[k]).Some? <==> Keeps(events, k, v.allowReuse)
  {
    LookupsAgree(v, events, k);
    var ev := events[k];
    assert v.ItemOpen(ev.outputIndex, ev.itemId) == NamesOpen(events, k, ev.outputIndex, ev.itemId);
    assert v.SummaryOpen(ev.outputIndex, ev.itemId, ev.summaryIndex)
        == NamesSummary(events, k, ev.outputIndex, ev.itemId, ev.summaryIndex);
  }

  /** The machine's step succeeds exactly when the event keeps its rule. */
  lemma StepKeeps(v: Checker, events: seq<Event>, k: nat)
    requires k < |events| && Remembers(v, events, k)
    ensures v.Step(k, events[k]).Some? <==> Keeps(events, k, v.allowReuse)
  {
    var ev := events[k];
    if ev.Snapshot? { StepKeepsSnapshot(v, events, k); }
    else if ItemEvent(ev) { StepKeepsItem(v, events, k); }
    else if !ev.Content() {}
    else if ev.ArgumentsDelta? || ev.ArgumentsDone? || ev.ReasoningDelta? || ev.ReasoningDone? {
      StepKeepsText(v, events, k);
    }
    else if ev.SummaryAdded? || ev.SummaryDone? || ev.SummaryDelta? || ev.SummaryTextDone? {
      StepKeepsSummary(v, events, k);
    }
    else { StepKeepsPart(v, events, k); }
  }

  /** One more event adds at most itself to what has happened since `from`. */
  lemma SinceGrows(events: seq<Event>, from: nat, k: nat)
    requires from < k < |events|
    ensures KindDone(events, from, k + 1) == (KindDone(events, from, k) || events[k].TextDone?
                                              || events[k].RefusalDone?)
    ensures SummaryTextDoneSince(events, from, k + 1) == (SummaryTextDoneSince(events, from, k)
                                                          || events[k].SummaryTextDone?)
    ensures ArgumentsDoneSince(events, from, k + 1) == (ArgumentsDoneSince(events, from, k) || events[k].ArgumentsDone?)
    ensures ArgumentsDeltaSince(events, from, k + 1) == (ArgumentsDeltaSince(events, from, k)
                                                         || events[k].ArgumentsDelta?)
    ensures ReasoningDoneSince(events, from, k + 1) == (ReasoningDoneSince(events, from, k) || events[k].ReasoningDone?)
    ensures ReasoningDeltaSince(events, from, k + 1) == (ReasoningDeltaSince(events, from, k)
                                                         || events[k].ReasoningDelta?)
  {
  }

  lemma StepRemembersPart(o: OpenItem, v: Checker, events: seq<Event>, k: nat)
    requires k < |events| && Remembers(v, events, k) && v.open == Some(o)
    requires events[k].PartAdded? || events[k].PartDone?
    requires v.Step(k, events[k]).Some?
    ensures var w := v.Step(k, events[k]).value; w.open.Some? && RemembersOpen(w.open.value, events, k + 1)
  {
    OtherEventsRemember(o, events, k);
  }

  lemma StepRemembersKind(o: OpenItem, v: Checker, events: seq<Event>, k: nat)
    requires k < |events| && Remembers(v, events, k) && v.open == Some(o)
    requires events[k].TextDelta? || events[k].TextDone? || events[k].AnnotationAdded? || events[k].RefusalDelta?
             || events[k].RefusalDone?
    requires v.Step(k, events[k]).Some?
    ensures var w := v.Step(k, events[k]).value; w.open.Some? && RemembersOpen(w.open.value, events, k + 1)
  {
    OtherEventsRemember(o, events, k);
  }

  lemma StepRemembersText(o: OpenItem, v: Checker, events: seq<Event>, k: nat)
    requires k < |events| && Remembers(v, events, k) && v.open == Some(o)
    requires events[k].ReasoningDelta? || events[k].ReasoningDone?
    requires v.Step(k, events[k]).Some?
    ensures var w := v.Step(k, events[k]).value; w.open.Some? && RemembersOpen(w.open.value, events, k + 1)
  {
    OtherEventsRemember(o, events, k);
  }

  lemma StepRemembersArguments(o: OpenItem, v: Checker, events: seq<Event>, k: nat)
    requires k < |events| && Remembers(v, events, k) && v.open == Some(o)
    requires events[k].ArgumentsDelta? || events[k].ArgumentsDone?
    requires v.Step(k, events[k]).Some?
    ensures var w := v.Step(k, events[k]).value; w.open.Some? && RemembersOpen(w.open.value, events, k + 1)
  {
    OtherEventsRemember(o, events, k);
  }

  lemma StepRemembersSummary(o: OpenItem, v: Checker, events: seq<Event>, k: nat)
    requires k < |events| && Remembers(v, events, k) && v.open == Some(o)
    requires events[k].SummaryAdded? || events[k].SummaryDone? || events[k].SummaryDelta? || events[k].SummaryTextDone?
    requires v.Step(k, events[k]).Some?
    ensures var w := v.Step(k, events[k]).value; w.open.Some? && RemembersOpen(w.open.value, events, k + 1)
  {
    OtherEventsRemember(o, events, k);
  }

  /** How each memory of the open item grows with event k. */
  lemma OtherEventsRemember(o: OpenItem, events: seq<Event>, k: nat)
    requires k < |events| && ItemOpener(events, k).Some? && RemembersOpen(o, events, k) && !ItemEvent(events[k])
    ensures var from := ItemOpener(events, k).value;
            && ItemOpener(events, k + 1) == Some(from)
            && ArgumentsDoneSince(events, from, k + 1) == (o.argsDone || events[k].ArgumentsDone?)
            && ArgumentsDeltaSince(events, from, k + 1) == (ArgumentsDeltaSince(events, from, k)
                                                            || events[k].ArgumentsDelta?)
            && ReasoningDoneSince(events, from, k + 1) == (o.textDone || events[k].ReasoningDone?)
            && ReasoningDeltaSince(events, from, k + 1) == (ReasoningDeltaSince(events, from, k)
                                                            || events[k].ReasoningDelta?)
    ensures o.part.Some? ==>
              KindDone(events, PartOpener(events, k).value, k + 1)
                  == (o.part.value.kindDone || events[k].TextDone? || events[k].RefusalDone?)
    ensures o.summary.Some? ==>
              SummaryTextDoneSince(events, SummaryOpener(events, k).value, k + 1)
                  == (o.summary.value || events[k].SummaryTextDone?)
  {
    SinceGrows(events, ItemOpener(events, k).value, k);
    if o.part.Some? { SinceGrows(events, PartOpener(events, k).value, k); }
    if o.summary.Some? { SinceGrows(events, SummaryOpener(events, k).value, k); }
  }

  lemma StepRemembersAdded(v: Checker, events: seq<Event>, k: nat)
    requires k < |events| && Remembers(v, events, k) && events[k].ItemAdded? && v.Step(k, events[k]).Some?
    ensures Remembers(v.Step(k, events[k]).value, events, k + 1)
  {
    var w := v.Step(k, events[k]).value;
    FillsNext(UsedIndexes(events, k), v.indexes);
    assert Fills(UsedIndexes(events, k + 1), w.indexes);
    NothingOpened(events, k);
    NothingSince(events, k);
    assert RemembersOpen(w.open.value, events, k + 1) by {
      hide UsedIndexes, AddedBefore;
    }
  }

  /** A new item has no parts yet. */
  lemma NothingOpened(events: seq<Event>, k: nat)
    requires k < |events| && events[k].ItemAdded?
    ensures ItemOpener(events, k + 1) == Some(k)
    ensures PartOpener(events, k + 1).None? && SummaryOpener(events, k + 1).None?
    ensures PartsAdded(events, k, k + 1) == 0 && SummariesAdded(events, k, k + 1) == 0
  {
    assert PartsAdded(events, k, k) == 0 && SummariesAdded(events, k, k) == 0;
  }

  lemma NothingSince(events: seq<Event>, k: nat)
    requires k < |events|
    ensures !ArgumentsDoneSince(events, k, k + 1) && !ArgumentsDeltaSince(events, k, k + 1)
    ensures !ReasoningDoneSince(events, k, k + 1) && !ReasoningDeltaSince(events, k, k + 1)
  {
  }

  lemma StepRemembersDone(v: Checker, events: seq<Event>, k: nat)
    requires k < |events| && Remembers(v, events, k) && v.Step(k, events[k]).Some? && events[k].ItemDone?
    ensures Remembers(v.Step(k, events[k]).value, events, k + 1)
  {
    assert v.Step(k, events[k]).value == v.(open := None);
    assert ItemOpener(events, k + 1).None? && PartOpener(events, k + 1).None? && SummaryOpener(events, k + 1).None?;
  }

  predicate Quiet(ev: Event) { ev.Snapshot? || ev.ErrorEvent? || ev.Extension? }

  lemma QuietStep(v: Checker, k: nat, ev: Event)
    requires Quiet(ev) && v.Step(k, ev).Some?
    ensures !v.terminal
    ensures v.Step(k, ev).value == v.(terminal := ev.Terminal(), errorSeen := v.errorSeen || ev.ErrorEvent?)
    ensures v.errorSeen ==> ev.Terminal()
  {
  }

  lemma StepRemembersQuiet(v: Checker, events: seq<Event>, k: nat)
    requires k < |events| && Remembers(v, events, k) && v.Step(k, events[k]).Some? && Quiet(events[k])
    ensures Remembers(v.Step(k, events[k]).value, events, k + 1)
  {
    QuietStep(v, k, events[k]);
    if v.open.Some? {
      OtherEventsRemember(v.open.value, events, k);
      assert PartOpener(events, k + 1) == PartOpener(events, k)
          && SummaryOpener(events, k + 1) == SummaryOpener(events, k);
      assert RemembersOpen(v.open.value, events, k + 1);
    }
  }

  lemma StepRemembersContent(v: Checker, events: seq<Event>, k: nat)
    requires k < |events| && Remembers(v, events, k) && v.Step(k, events[k]).Some? && events[k].Content()
    ensures Remembers(v.Step(k, events[k]).value, events, k + 1)
  {
    var ev := events[k];
    StepKeepsOthers(v, k, ev);
    var o := v.open.value;
    hide Checker.Step, RemembersOpen;
    if ev.ReasoningDelta? || ev.ReasoningDone? { StepRemembersText(o, v, events, k); }
    else if ev.ArgumentsDelta? || ev.ArgumentsDone? { StepRemembersArguments(o, v, events, k); }
    else if ev.SummaryAdded? || ev.SummaryDone? || ev.SummaryDelta? || ev.SummaryTextDone? {
      StepRemembersSummary(o, v, events, k);
    }
    else if ev.PartAdded? || ev.PartDone? { StepRemembersPart(o, v, events, k); }
    else { StepRemembersKind(o, v, events, k); }
  }

  lemma StepReuse(v: Checker, k: nat, ev: Event)
    requires v.Step(k, ev).Some?
    ensures v.Step(k, ev).value.allowReuse == v.allowReuse
  {
  }

  lemma StepRemembers(v: Checker, events: seq<Event>, k: nat)
    requires k < |events| && Remembers(v, events, k) && v.Step(k, events[k]).Some?
    ensures var w := v.Step(k, events[k]).value; Remembers(w, events, k + 1) && w.allowReuse == v.allowReuse
  {
    hide Checker.Step, Remembers;
    var ev := events[k];
    StepReuse(v, k, ev);
    if ev.ItemAdded? {
      StepRemembersAdded(v, events, k);
    } else if ev.ItemDone? {
      StepRemembersDone(v, events, k);
    } else if !ev.Content() {
      StepRemembersQuiet(v, events, k);
    } else {
      StepRemembersContent(v, events, k);
    }
  }

  /** A content event changes nothing but the open item. */
  lemma StepKeepsOthers(v: Checker, k: nat, ev: Event)
    requires ev.Content() && v.Step(k, ev).Some?
    ensures var w := v.Step(k, ev).value;
              v.open.Some? && w.open.Some? && w == v.(open := w.open) && !v.errorSeen && !v.terminal
  {
  }

  /** The run up to k succeeds exactly when every event before k keeps its rule. */
  lemma {:induction false} PrefixExact(events: seq<Event>, k: nat, allowReuse: bool)
    requires k <= |events|
    ensures var v := Run(Start(allowReuse), 0, events[..k]);
            && (v.Some? <==> forall j :: 0 <= j < k ==> Keeps(events, j, allowReuse))
            && (v.Some? ==> Remembers(v.value, events, k) && v.value.allowReuse == allowReuse)
  {
    if k == 0 {
      assert Run(Start(allowReuse), 0, events[..0]) == Some(Start(allowReuse));
    } else {
      PrefixExact(events, k - 1, allowReuse);
      assert events[..k] == events[..k - 1] + [events[k - 1]];
      RunAppend(Start(allowReuse), 0, events[..k - 1], [events[k - 1]]);
      if Run(Start(allowReuse), 0, events[..k - 1]).Some? {
        RunOne(Run(Start(allowReuse), 0, events[..k - 1]).value, k - 1, events[k - 1]);
      }
      var before := Run(Start(allowReuse), 0, events[..k - 1]);
      if before.Some? {
        var v := before.value;
        var next := v.Step(k - 1, events[k - 1]);
        StepKeeps(v, events, k - 1);
        if next.Some? {
          StepRemembers(v, events, k - 1);
        }
      }
    }
  }

  /** Validate accepts exactly the streams in which every event keeps its rule:
      the state machine and the positional rules are the same lifecycle. */
  lemma AcceptedExactlyConforms(frames: seq<Frame>, allowReuse: bool)
    ensures Accepted(frames, allowReuse) <==> Conforms(frames, allowReuse)
  {
    var events := Events(frames);
    PrefixExact(events, |events|, allowReuse);
    assert events[..|events|] == events;
  }

  // ---- What acceptance means -----------------------------------------------------------------

  /** An item boundary: the added or the done of an item. */
  datatype Boundary = Boundary(opens: bool, item: ItemState)

  predicate ItemEvent(ev: Event) { ev.ItemAdded? || ev.ItemDone? }

  /** The item boundaries before k, in order. */
  function Boundaries(events: seq<Event>, k: nat): seq<Boundary>
    requires k <= |events|
  {
    if k == 0 then []
    else if ItemEvent(events[k - 1]) then
      Boundaries(events, k - 1) + [Boundary(events[k - 1].ItemAdded?,
                                            StateOf(events[k - 1].outputIndex, events[k - 1].item))]
    else Boundaries(events, k - 1)
  }

  /** Boundaries come in pairs, an added and the done that names it. */
  predicate Paired(list: seq<Boundary>) {
    forall j :: 0 <= j < |list| ==> Fits(list, j)
  }

  predicate Fits(list: seq<Boundary>, j: nat)
    requires j < |list|
  {
    if j % 2 == 0 then list[j].opens else list[j] == Boundary(false, list[j - 1].item)
  }

  ghost predicate BoundariesFit(events: seq<Event>, k: nat)
    requires k <= |events|
  {
    var list, added, open := Boundaries(events, k), AddedBefore(events, k), ItemOpener(events, k);
    && Paired(list)
    && (|list| % 2 == 1) == open.Some?
    && (open.Some? ==> list[|list| - 1].item == StateOf(events[open.value].outputIndex, events[open.value].item))
    && Evens(list, added)
  }

  /** The p-th added item is the item of the (2p)-th boundary. */
  predicate Evens(list: seq<Boundary>, added: seq<ItemState>) {
    |added| == (|list| + 1) / 2 && forall p :: 0 <= p < |added| ==> added[p] == list[2 * p].item
  }

  lemma EvensGrow(list: seq<Boundary>, added: seq<ItemState>, next: Boundary)
    requires Evens(list, added)
    ensures Evens(list + [next], if |list| % 2 == 0 then added + [next.item] else added)
  {
    var more := if |list| % 2 == 0 then added + [next.item] else added;
    forall p | 0 <= p < |more| ensures more[p] == (list + [next])[2 * p].item {
      if p < |added| { assert (list + [next])[2 * p] == list[2 * p]; }
    }
  }

  lemma PairedGrows(list: seq<Boundary>, next: Boundary)
    requires Paired(list) && if |list| % 2 == 0 then next.opens else next == Boundary(false, list[|list| - 1].item)
    ensures Paired(list + [next])
  {
    forall j | 0 <= j < |list| + 1 ensures Fits(list + [next], j) {
      if j < |list| { assert Fits(list, j); }
    }
  }

  /** An added finds nothing open; a done names the item that is open. */
  predicate BoundaryRule(events: seq<Event>, k: nat)
    requires k < |events|
  {
    var at := ItemOpener(events, k);
    && (events[k].ItemAdded? ==> at.None?)
    && (events[k].ItemDone? ==>
          at.Some? && StateOf(events[at.value].outputIndex, events[at.value].item) == StateOf(events[k].outputIndex,
              events[k].item))
  }

  lemma KeepsBoundaryRule(events: seq<Event>, k: nat, allowReuse: bool)
    requires k < |events| && Keeps(events, k, allowReuse)
    ensures BoundaryRule(events, k)
  {
  }

  lemma {:induction false} BoundariesPair(events: seq<Event>, k: nat, allowReuse: bool)
    requires k <= |events| && forall j :: 0 <= j < k ==> Keeps(events, j, allowReuse)
    ensures BoundariesFit(events, k)
  {
    hide Keeps;
    if k > 0 {
      BoundariesPair(events, k - 1, allowReuse);
      KeepsBoundaryRule(events, k - 1, allowReuse);
      BoundariesStep(events, k - 1);
    }
  }

  lemma BoundariesStep(events: seq<Event>, k: nat)
    requires k < |events| && BoundariesFit(events, k) && BoundaryRule(events, k)
    ensures BoundariesFit(events, k + 1)
  {
    hide Paired, Evens;
    var list, added := Boundaries(events, k), AddedBefore(events, k);
    if ItemEvent(events[k]) {
      var next := Boundary(events[k].ItemAdded?, StateOf(events[k].outputIndex, events[k].item));
      PairedGrows(list, next);
      EvensGrow(list, added, next);
      assert Boundaries(events, k + 1) == list + [next];
      assert AddedBefore(events, k + 1) == if events[k].ItemAdded? then added + [next.item] else added;
    } else {
      assert Boundaries(events, k + 1) == list && AddedBefore(events, k + 1) == added;
    }
  }

  /** In a stream accepted as completed or incomplete only the last event is
      terminal, the item events alternate, added then done with equal index, id
      and type, and the terminal list is the added items in order. */
  lemma AcceptedItems(frames: seq<Frame>, allowReuse: bool)
    requires Accepted(frames, allowReuse)
    ensures var events := Events(frames);
            var last := events[|events| - 1];
            var list := Boundaries(events, |events|);
            && (forall k :: 0 <= k < |events| - 1 ==> !events[k].Terminal())
            && last.Terminal() && last.response.Some? && Paired(list)
            && (!last.kind.Failed? ==>
                  && |list| == 2 * |last.response.value.output|
                  && forall p :: 0 <= p < |last.response.value.output| ==>
                       var item := last.response.value.output[p];
                       && list[2 * p].item == list[2 * p + 1].item
                       && list[2 * p].item.id == ItemId(item) && list[2 * p].item.itemType == ItemTypeOf(item))
  {
    AcceptedFrame(frames, allowReuse);
    AcceptedExactlyConforms(frames, allowReuse);
    hide Accepted, Keeps, Rule, Lists, Boundaries, AddedBefore, BoundariesFit;
    var events, n := Events(frames), |frames|;
    BoundariesPair(events, n, allowReuse);
    assert Keeps(events, n - 1, allowReuse);
    LastListed(events, n - 1, allowReuse);
    PairsListed(events, n);
  }

  /** A terminal event is no item event, and lists what was added before it. */
  lemma LastListed(events: seq<Event>, k: nat, allowReuse: bool)
    requires k < |events| && Keeps(events, k, allowReuse) && events[k].Terminal()
    ensures ItemOpener(events, k + 1) == ItemOpener(events, k)
    ensures !events[k].kind.Failed? ==>
              && events[k].response.Some? && ItemOpener(events, k + 1).None?
              && Lists(events[k].response.value.output, AddedBefore(events, k + 1))
  {
    assert AddedBefore(events, k + 1) == AddedBefore(events, k) + [] == AddedBefore(events, k);
  }

  lemma PairsListed(events: seq<Event>, k: nat)
    requires k <= |events| && BoundariesFit(events, k)
    ensures var list, added := Boundaries(events, k), AddedBefore(events, k);
            && Paired(list)
            && (ItemOpener(events, k).None? ==>
                  && |list| == 2 * |added|
                  && forall p :: 0 <= p < |added| ==> list[2 * p].item == added[p] == list[2 * p + 1].item)
  {
    hide Boundaries, AddedBefore;
    var list := Boundaries(events, k);
    forall p | 0 <= p < |list| / 2 ensures list[2 * p + 1].item == list[2 * p].item {
      assert Fits(list, 2 * p + 1);
    }
  }

  /** What the rules say of the two ends of a part. */
  lemma PartEnds(events: seq<Event>, k: nat, allowReuse: bool)
    requires k < |events| && Keeps(events, k, allowReuse)
    ensures events[k].PartAdded? ==>
              && ItemOpener(events, k).Some? && events[k].outputIndex == events[ItemOpener(events, k).value].outputIndex
              && OpenItemAt(events, k).Message? && events[k].contentIndex == PartsAdded(events,
                  ItemOpener(events, k).value, k)
    ensures events[k].PartDone? ==>
              && ItemOpener(events, k).Some? && PartOpener(events, k).Some?
              && events[k].outputIndex == events[ItemOpener(events, k).value].outputIndex
              && events[k].contentIndex == PartsAdded(events, ItemOpener(events, k).value, k) - 1
  {
  }

  lemma SummaryEnds(events: seq<Event>, k: nat, allowReuse: bool)
    requires k < |events| && Keeps(events, k, allowReuse)
    ensures events[k].SummaryAdded? ==>
              && ItemOpener(events, k).Some? && events[k].outputIndex == events[ItemOpener(events, k).value].outputIndex
              && ItemTypeOf(OpenItemAt(events, k)) == TypeReasoning
              && events[k].summaryIndex == SummariesAdded(events, ItemOpener(events, k).value, k)
    ensures events[k].SummaryDone? ==>
              && ItemOpener(events, k).Some? && SummaryOpener(events, k).Some?
              && events[k].outputIndex == events[ItemOpener(events, k).value].outputIndex
              && SummaryTextDoneSince(events, SummaryOpener(events, k).value, k)
              && events[k].summaryIndex == SummariesAdded(events, ItemOpener(events, k).value, k) - 1
  {
  }

  lemma AcceptedKeeps(frames: seq<Frame>, allowReuse: bool, k: nat)
    requires Accepted(frames, allowReuse) && k < |frames|
    ensures Keeps(Events(frames), k, allowReuse)
  {
    AcceptedExactlyConforms(frames, allowReuse);
  }

  /** What every accepted stream begins and ends with: response.created is its
      first event and none of the others, and only its last event is terminal,
      the snapshot of a response whose status is the one its kind names. */
  lemma AcceptedFrame(frames: seq<Frame>, allowReuse: bool)
    requires Accepted(frames, allowReuse)
    ensures forall k :: 0 <= k < |frames| ==>
              ((frames[k].event.Snapshot? && frames[k].event.kind == Created) <==> k == 0)
    ensures forall k :: 0 <= k < |frames| ==> (frames[k].event.Terminal() <==> k == |frames| - 1)
    ensures var last := frames[|frames| - 1].event;
            && last.Snapshot? && last.response.Some?
            && last.response.value.status == (match last.kind
                                              case Finished => RCompleted
                                              case Stopped => RIncomplete
                                              case _ => RFailed)
  {
    AcceptedExactlyConforms(frames, allowReuse);
    var events := Events(frames);
    forall k | 0 <= k < |frames|
      ensures (frames[k].event.Snapshot? && frames[k].event.kind == Created) ==> k == 0
      ensures k < |frames| - 1 ==> !frames[k].event.Terminal()
    {
      assert Keeps(events, k, allowReuse);
      if k < |frames| - 1 { assert Keeps(events, k + 1, allowReuse); }
    }
    assert Keeps(events, |frames| - 1, allowReuse);
  }

  /** A part or summary that is open was opened after its item. */
  lemma AfterOpener(events: seq<Event>, item: nat, part: nat, k: nat)
    requires item < k <= |events| && part < k && ItemEvent(events[item]) && !ItemEvent(events[part])
    requires forall j :: part < j < k ==> !ItemEvent(events[j])
    ensures item < part
  {
  }

  /** What an opening event changes. */
  lemma AtOpening(events: seq<Event>, item: nat, k: nat)
    requires item <= k < |events| && (events[k].PartAdded? || events[k].SummaryAdded?)
    ensures ItemOpener(events, k + 1) == ItemOpener(events, k)
    ensures PartsAdded(events, item, k + 1) == PartsAdded(events, item, k) + if events[k].PartAdded? then 1 else 0
    ensures SummariesAdded(events, item, k + 1) == SummariesAdded(events, item, k) + if events[k].SummaryAdded? then 1
            else 0
  {
  }

  /** A content part lives inside one item: between its added and its done no
      item boundary and no other part stands, and the done closes it under the
      index it was added with. */
  lemma AcceptedPartsNest(frames: seq<Frame>, allowReuse: bool, k: nat)
    requires Accepted(frames, allowReuse) && k < |frames| && frames[k].event.PartDone?
    ensures var events := Events(frames);
            var item, part := ItemOpener(events, k), PartOpener(events, k);
            && item.Some? && part.Some? && item.value < part.value < k
            && events[item.value].item.Message?
            && events[part.value].contentIndex == events[k].contentIndex == PartsAdded(events, item.value, part.value)
            && events[part.value].outputIndex == events[k].outputIndex == events[item.value].outputIndex
            && (forall j :: item.value < j < k ==> !ItemEvent(events[j]))
            && (forall j :: part.value < j < k ==> !events[j].PartAdded? && !events[j].PartDone?)
  {
    hide Keeps, Accepted, PartsAdded, ItemOpener, PartOpener;
    AcceptedKeeps(frames, allowReuse, k);
    var events := Events(frames);
    PartEnds(events, k, allowReuse);
    OpenersReach(events, k);
    var item, part := ItemOpener(events, k).value, PartOpener(events, k).value;
    AfterOpener(events, item, part, k);
    ItemOpenerBack(events, part + 1, k);
    AtOpening(events, item, part);
    AcceptedKeeps(frames, allowReuse, part);
    PartEnds(events, part, allowReuse);
    CountStays(events, item, part + 1, k);
  }

  /** The same for reasoning summary parts. */
  lemma AcceptedSummariesNest(frames: seq<Frame>, allowReuse: bool, k: nat)
    requires Accepted(frames, allowReuse) && k < |frames| && frames[k].event.SummaryDone?
    ensures var events := Events(frames);
            var item, part := ItemOpener(events, k), SummaryOpener(events, k);
            && item.Some? && part.Some? && item.value < part.value < k
            && ItemTypeOf(events[item.value].item) == TypeReasoning
            && events[part.value].summaryIndex == events[k].summaryIndex == SummariesAdded(events, item.value,
                part.value)
            && events[part.value].outputIndex == events[k].outputIndex == events[item.value].outputIndex
            && (forall j :: item.value < j < k ==> !ItemEvent(events[j]))
            && (forall j :: part.value < j < k ==> !events[j].SummaryAdded? && !events[j].SummaryDone?)
            && SummaryTextDoneSince(events, part.value, k)
  {
    hide Keeps, Accepted, SummariesAdded, ItemOpener, SummaryOpener;
    AcceptedKeeps(frames, allowReuse, k);
    var events := Events(frames);
    SummaryEnds(events, k, allowReuse);
    OpenersReach(events, k);
    var item, part := ItemOpener(events, k).value, SummaryOpener(events, k).value;
    AfterOpener(events, item, part, k);
    ItemOpenerBack(events, part + 1, k);
    AtOpening(events, item, part);
    AcceptedKeeps(frames, allowReuse, part);
    SummaryEnds(events, part, allowReuse);
    CountStays(events, item, part + 1, k);
  }

  /** Nothing between an opener and k closes or reopens what it opened. */
  lemma {:induction false} OpenersReach(events: seq<Event>, k: nat)
    requires k <= |events|
    ensures ItemOpener(events, k).Some? ==>
              forall j :: ItemOpener(events, k).value < j < k ==> !ItemEvent(events[j])
    ensures PartOpener(events, k).Some? ==>
              forall j :: PartOpener(events, k).value < j < k ==>
                  !ItemEvent(events[j]) && !events[j].PartAdded? && !events[j].PartDone?
    ensures SummaryOpener(events, k).Some? ==>
              forall j :: SummaryOpener(events, k).value < j < k ==>
                  !ItemEvent(events[j]) && !events[j].SummaryAdded? && !events[j].SummaryDone?
  {
    if k > 0 { OpenersReach(events, k - 1); }
  }

  lemma {:induction false} ItemOpenerBack(events: seq<Event>, j: nat, k: nat)
    requires j <= k <= |events| && forall i :: j <= i < k ==> !ItemEvent(events[i])
    ensures ItemOpener(events, j) == ItemOpener(events, k)
  {
    if j < k { ItemOpenerBack(events, j, k - 1); }
  }

  lemma {:induction false} CountStays(events: seq<Event>, from: nat, j: nat, k: nat)
    requires from <= j <= k <= |events|
    ensures (forall i :: j <= i < k ==> !events[i].PartAdded?)
            ==> PartsAdded(events, from, j) == PartsAdded(events, from, k)
    ensures (forall i :: j <= i < k ==> !events[i].SummaryAdded?)
            ==> SummariesAdded(events, from, j) == SummariesAdded(events, from, k)
  {
    if j < k { CountStays(events, from, j, k - 1); }
  }

  /** An item added at k takes the index that counts the items before it. */
  predicate TakesNext(events: seq<Event>, k: nat)
    requires k < |events|
  {
    events[k].ItemAdded? ==> events[k].outputIndex == |AddedBefore(events, k)|
  }

  /** Strict acceptance is reuse acceptance of a stream whose items take
      consecutive indices. */
  lemma StrictIsReuseWithoutReuse(frames: seq<Frame>)
    ensures Accepted(frames, false) <==>
              Accepted(frames, true) && forall k :: 0 <= k < |frames| ==> TakesNext(Events(frames), k)
  {
    AcceptedExactlyConforms(frames, true);
    AcceptedExactlyConforms(frames, false);
    var events := Events(frames);
    if Conforms(frames, false) {
      forall k | 0 <= k < |frames| ensures TakesNext(events, k) && Keeps(events, k, true) {
        StrictTakesNext(events, k);
        RuleOptions(events, k);
      }
    }
    if Conforms(frames, true) && forall k :: 0 <= k < |frames| ==> TakesNext(events, k) {
      forall k | 0 <= k < |frames| ensures Keeps(events, k, false) {
        assert Keeps(events, k, true) && TakesNext(events, k);
        CountedIndexes(events, k);
        RuleOptions(events, k);
      }
    }
  }

  lemma RuleOptions(events: seq<Event>, k: nat)
    requires k < |events|
    ensures Keeps(events, k, false) <==>
              Keeps(events, k, true) && (events[k].ItemAdded? ==> events[k].outputIndex == |UsedIndexes(events, k)|)
  {
  }

  lemma {:induction false} StrictTakesNext(events: seq<Event>, k: nat)
    requires k < |events| && KeepsAll(events, false)
    ensures forall j :: 0 <= j <= k ==> TakesNext(events, j)
  {
    if k > 0 { StrictTakesNext(events, k - 1); }
    assert Keeps(events, k, false);
    CountedIndexes(events, k);
    RuleOptions(events, k);
  }

  lemma {:induction false} CountedIndexes(events: seq<Event>, k: nat)
    requires k <= |events|
    requires forall j :: 0 <= j < k ==> TakesNext(events, j)
    ensures Fills(UsedIndexes(events, k), |AddedBefore(events, k)|)
  {
    if k > 0 {
      CountedIndexes(events, k - 1);
      assert TakesNext(events, k - 1);
      FillsNext(UsedIndexes(events, k - 1), |AddedBefore(events, k - 1)|);
    }
  }
}

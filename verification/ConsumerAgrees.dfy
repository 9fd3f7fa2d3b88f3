/** The consumer agrees with the producer: after every call, folding the events
    sent so far gives the emitter's own output, item by item. */
module ConsumerAgrees {
  import opened Types
  import opened Wrappers
  import opened EmitterSpec
  import opened AccumulatorSpec

  /** What a consumer has been told of an item.  Two things travel late: the
      log probabilities of the open text part, and encrypted content. */
  function Seen(item: Item, w: Writer): Item {
    if w.closed then item
    else match w
      case MessageWriter(_, _, partOpen) =>
        if partOpen && item.Message? && item.content != [] && Last(item.content).OutputText?
        then WithContent(item, ReplaceLast(item.content, WithoutLogprobs(Last(item.content))))
        else item
      case CallWriter(_, _) => item
      case ReasoningWriter(_, _, _, _, _) =>
        if item.Reasoning? then Reasoning(item.id, item.status, item.summary, item.content, "") else item
  }

  function WithoutLogprobs(part: Part): Part
    requires part.OutputText?
  {
    OutputText(part.text, part.annotations, [])
  }

  /** The producer's output as a consumer can know it. */
  function View(e: Producer, p: nat): Item
    requires p < |e.resp.output|
  {
    var live := e.Live();
    if live.Some? && e.writers[live.value].index == p then Seen(e.resp.output[p], e.writers[live.value])
    else e.resp.output[p]
  }

  ghost predicate Agrees(a: Acc, e: Producer) {
    && e.Sound() && a.reused == []
    && (!e.started ==> a == EMPTY)
    && (e.started ==> a.resp.Some? && |a.Output()| == |e.resp.output|
                      && forall p :: 0 <= p < |e.resp.output| ==> a.Output()[p] == View(e, p))
    && (e.started && !e.terminal ==> Indexed(a, e) && !a.resp.value.status.Terminal())
  }

  /** Positions are indices, and all but the open item are closed. */
  ghost predicate Indexed(a: Acc, e: Producer) {
    && (forall i :: i in a.slots <==> 0 <= i < |e.resp.output|)
    && (forall i <- a.slots :: a.slots[i] == i)
    && (forall p: nat :: p in a.closed <==> p < |e.resp.output| && !LiveAt(e, p))
  }

  ghost predicate Followed(e: Producer) {
    AllWellIndexed(e.sent) && Agrees(Fold(EMPTY, e.sent), e)
  }

  // ---- One writer call --------------------------------------------------------------------

  lemma FoldOne(a: Acc, ev: Event)
    requires ev.WellIndexed()
    ensures Fold(a, [ev]) == a.Add(ev)
  {
    assert Fold(a.Add(ev), [ev][1..]) == a.Add(ev);
  }

  ghost predicate Holding(a: Acc, item: Item, w: Writer) {
    && a.resp.Some? && a.Position(w.index) == Some(w.index)
    && a.Output()[w.index] == Seen(item, w) && Attached(item, w) && !w.closed
  }

  /** The events of a writer call turn the consumer's item into the new one and
      touch nothing else. */
  ghost predicate FoldsTo(a: Acc, index: nat, l: Local) {
    && AllWellIndexed(l.events) && a.resp.Some? && l.writer.index == index
    && Fold(a, l.events) == a.Place(index, Seen(l.item, l.writer))
  }

  lemma PlaceHolds(a: Acc, index: nat, item: Item, other: Item)
    requires a.resp.Some? && a.Position(index) == Some(index) && !item.NilItem?
    ensures var b := a.Place(index, item);
            && b.resp.Some? && b.Position(index) == Some(index) && b.Output()[index] == item
            && b.Place(index, other) == a.Place(index, other)
            && (item == a.Output()[index] ==> b == a)
  {
    var out := a.Output();
    assert out[index := item][index := other] == out[index := other];
    assert item == out[index] ==> out[index := item] == out;
  }

  lemma FoldsEmit(a: Acc, l: Local, ev: Event, m: Local)
    requires FoldsTo(a, m.writer.index, l) && a.Position(m.writer.index) == Some(m.writer.index)
    requires m.events == l.events + [ev] && ev.Content() && ev.WellIndexed() && ev.outputIndex == m.writer.index
    requires !Seen(l.item, l.writer).NilItem?
    requires EditItem(Seen(l.item, l.writer), ev) == Seen(m.item, m.writer)
    ensures FoldsTo(a, m.writer.index, m)
  {
    FoldAppend(a, l.events, [ev]);
    var b := Fold(a, l.events);
    PlaceHolds(a, m.writer.index, Seen(l.item, l.writer), Seen(m.item, m.writer));
    FoldOne(b, ev);
  }

  lemma FoldsNothing(a: Acc, item: Item, w: Writer)
    requires Holding(a, item, w) && !item.NilItem?
    ensures FoldsTo(a, w.index, Same(item, w, Ok))
  {
    PlaceHolds(a, w.index, Seen(item, w), Seen(item, w));
  }

  lemma ClosePartFolds(a: Acc, m: Item, w: Writer)
    requires Holding(a, m, w) && w.MessageWriter?
    ensures FoldsTo(a, w.index, ClosePart(m, w))
  {
    FoldsNothing(a, m, w);
    if w.partOpen {
      var l := ClosePart(m, w);
      var first := Local(EditItem(Seen(m, w), l.events[0]), Shut(w), [l.events[0]], Ok);
      FoldsEmit(a, Same(m, w, Ok), l.events[0], first);
      var c := |m.content| - 1;
      assert EditItem(first.item, l.events[1]) == m by {
        assert m.content[c := m.content[c]] == m.content;
      }
      assert l.events == first.events + [l.events[1]];
      FoldsEmit(a, first, l.events[1], l);
    }
  }

  lemma EnsurePartFolds(a: Acc, m: Item, w: Writer, blank: Part)
    requires Holding(a, m, w) && w.MessageWriter? && (blank == OutputText("", [], []) || blank == Refusal(""))
    ensures FoldsTo(a, w.index, EnsurePart(m, w, blank))
  {
    var l := EnsurePart(m, w, blank);
    if w.partOpen && SameKind(Last(m.content), blank) {
      FoldsNothing(a, m, w);
    } else {
      ClosePartFolds(a, m, w);
      var closed := ClosePart(m, w);
      assert Last(l.item.content) == blank;
      FoldsEmit(a, closed, PartAdded(m.id, w.index, |m.content|, blank), l);
    }
  }

  /** The consumer's copy of a message whose last part is an open text part. */
  lemma SeenText(m: Item, w: Writer, text: string, annotations: seq<Annotation>, logprobs: seq<Logprob>)
    requires m.Message? && w == MessageWriter(w.index, false, true) && m.content != []
    requires Last(m.content) == OutputText(text, annotations, logprobs)
    ensures Seen(m, w) == WithContent(m, ReplaceLast(m.content, OutputText(text, annotations, [])))
  {
  }

  lemma TextFolds(a: Acc, m: Item, w: Writer, delta: string)
    requires Holding(a, m, w) && w.MessageWriter?
    ensures FoldsTo(a, w.index, WriteText(m, w, delta))
  {
    hide FoldsTo, Fold, Acc.Place, EnsurePart, Seen;
    var l, p := WriteText(m, w, delta), TextPart(m, w);
    EnsurePartFolds(a, m, w, OutputText("", [], []));
    EnsurePartFits(m, w, OutputText("", [], []));
    var content, part := p.item.content, Last(p.item.content);
    var c := |content| - 1;
    SeenText(p.item, p.writer, part.text, part.annotations, part.logprobs);
    SeenText(l.item, l.writer, part.text + delta, part.annotations, part.logprobs);
    var told := content[c := OutputText(part.text, part.annotations, [])];
    var ev := TextDelta(m.id, w.index, c, delta, []);
    var none: seq<Logprob> := [];
    assert none + none == none;
    assert EditContent(told, ev) == content[c := OutputText(part.text + delta, part.annotations, [])];
    assert ReplaceLast(l.item.content, OutputText(part.text + delta, part.annotations, [])) == EditContent(told, ev);
    FoldsEmit(a, p, ev, l);
  }

  lemma AnnotationFolds(a: Acc, m: Item, w: Writer, annotation: Annotation)
    requires Holding(a, m, w) && w.MessageWriter? && !annotation.NilAnnotation?
    ensures FoldsTo(a, w.index, WriteAnnotation(m, w, annotation))
  {
    hide FoldsTo, Fold, Acc.Place, EnsurePart, Seen;
    var l, p := WriteAnnotation(m, w, annotation), TextPart(m, w);
    EnsurePartFolds(a, m, w, OutputText("", [], []));
    EnsurePartFits(m, w, OutputText("", [], []));
    var content, part := p.item.content, Last(p.item.content);
    var c, list := |content| - 1, part.annotations;
    SeenText(p.item, p.writer, part.text, list, part.logprobs);
    SeenText(l.item, l.writer, part.text, list + [annotation], part.logprobs);
    var told := content[c := OutputText(part.text, list, [])];
    var ev := AnnotationAdded(m.id, w.index, c, |list|, annotation);
    assert PlaceAt(list, |list|, annotation, NilAnnotation) == list + [annotation];
    assert EditContent(told, ev) == content[c := OutputText(part.text, list + [annotation], [])];
    assert ReplaceLast(l.item.content, OutputText(part.text, list + [annotation], [])) == EditContent(told, ev);
    FoldsEmit(a, p, ev, l);
  }

  lemma LogprobsFolds(a: Acc, m: Item, w: Writer, logprobs: seq<Logprob>)
    requires Holding(a, m, w) && w.MessageWriter?
    ensures FoldsTo(a, w.index, WriteLogprobs(m, w, logprobs))
  {
    var l, p := WriteLogprobs(m, w, logprobs), TextPart(m, w);
    EnsurePartFolds(a, m, w, OutputText("", [], []));
    EnsurePartFits(m, w, OutputText("", [], []));
    var part := Last(p.item.content);
    SeenText(p.item, p.writer, part.text, part.annotations, part.logprobs);
    SeenText(l.item, l.writer, part.text, part.annotations, part.logprobs + logprobs);
    assert ReplaceLast(l.item.content, OutputText(part.text, part.annotations, []))
        == ReplaceLast(p.item.content, OutputText(part.text, part.annotations, []));
  }

  lemma RefuseFolds(a: Acc, m: Item, w: Writer, delta: string)
    requires Holding(a, m, w) && w.MessageWriter?
    ensures FoldsTo(a, w.index, WriteRefusal(m, w, delta))
  {
    hide FoldsTo, Fold, Acc.Place, EnsurePart;
    var l, p := WriteRefusal(m, w, delta), EnsurePart(m, w, Refusal(""));
    EnsurePartFolds(a, m, w, Refusal(""));
    EnsurePartFits(m, w, Refusal(""));
    assert Seen(p.item, p.writer) == p.item && Seen(l.item, l.writer) == l.item;
    var c := |p.item.content| - 1;
    var ev := RefusalDelta(m.id, w.index, c, delta);
    assert EditContent(p.item.content, ev) == l.item.content;
    FoldsEmit(a, p, ev, l);
  }

  lemma OpenSummaryFolds(a: Acc, r: Item, w: Writer)
    requires Holding(a, r, w) && w.ReasoningWriter?
    ensures FoldsTo(a, w.index, OpenSummary(r, w))
  {
    hide Fold, Acc.Place;
    var s := OpenSummary(r, w);
    FoldsNothing(a, r, w);
    if s.events != [] { FoldsEmit(a, Same(r, w, Ok), s.events[0], s); }
  }

  lemma SummarizeFolds(a: Acc, r: Item, w: Writer, delta: string)
    requires Holding(a, r, w) && w.ReasoningWriter?
    ensures FoldsTo(a, w.index, WriteSummary(r, w, delta))
  {
    hide FoldsTo, Fold, Acc.Place;
    var s, l := OpenSummary(r, w), WriteSummary(r, w, delta);
    OpenSummaryFolds(a, r, w);
    FoldsEmit(a, s, Last(l.events), l);
  }

  lemma EndSummaryFolds(a: Acc, r: Item, w: Writer)
    requires Holding(a, r, w) && w.ReasoningWriter?
    ensures FoldsTo(a, w.index, EndSummary(r, w))
  {
    FoldsNothing(a, r, w);
    if w.summaryOpen {
      var l := EndSummary(r, w);
      var s := |r.summary| - 1;
      assert r.summary[s := r.summary[s]] == r.summary;
      var first := Local(r, w, [l.events[0]], Ok);
      FoldsEmit(a, Same(r, w, Ok), l.events[0], first);
      assert l.events == first.events + [l.events[1]];
      FoldsEmit(a, first, l.events[1], l);
    }
  }

  lemma ReasonFolds(a: Acc, r: Item, w: Writer, delta: string)
    requires Holding(a, r, w) && w.ReasoningWriter?
    ensures FoldsTo(a, w.index, WriteReasoning(r, w, delta))
  {
    var l := WriteReasoning(r, w, delta);
    FoldsNothing(a, r, w);
    assert EditReasoning(r.content, l.events[0]) == l.item.content;
    FoldsEmit(a, Same(r, w, Ok), l.events[0], l);
  }

  lemma CallFolds(a: Acc, item: Item, w: Writer, call: WriterCall)
    requires Holding(a, item, w) && WriterAllows(w, call) && !call.CloseWriter?
    ensures FoldsTo(a, w.index, Perform(item, w, call))
  {
    match call
    case Text(delta) => TextFolds(a, item, w, delta);
    case AddAnnotation(annotation) => AnnotationFolds(a, item, w, annotation);
    case AddLogprobs(logprobs) => LogprobsFolds(a, item, w, logprobs);
    case Refuse(delta) => RefuseFolds(a, item, w, delta);
    case Arguments(_) =>
      FoldsNothing(a, item, w);
      FoldsEmit(a, Same(item, w, Ok), Perform(item, w, call).events[0], Perform(item, w, call));
    case Summarize(delta) => SummarizeFolds(a, item, w, delta);
    case CloseSummary => EndSummaryFolds(a, item, w);
    case Reason(delta) => ReasonFolds(a, item, w, delta);
    case Encrypt(_) => FoldsNothing(a, item, w);
  }

  lemma CloseInsideFolds(a: Acc, item: Item, w: Writer)
    requires Holding(a, item, w)
    ensures FoldsTo(a, w.index, CloseInside(item, w))
  {
    var l := CloseInside(item, w);
    match w
    case MessageWriter(_, _, _) => ClosePartFolds(a, item, w);
    case CallWriter(_, _) =>
      FoldsNothing(a, item, w);
      FoldsEmit(a, Same(item, w, Ok), l.events[0], l);
    case ReasoningWriter(_, _, _, textOpen, _) =>
      EndSummaryFolds(a, item, w);
      if textOpen {
        assert item.content[0 := item.content[0]] == item.content;
        FoldsEmit(a, EndSummary(item, w), Last(l.events), l);
      }
  }

  /** Closing sends the same events whatever status the item was given. */
  lemma CloseSame(held: Item, status: Status, w: Writer)
    requires Attached(held, w) && !w.closed
    ensures var item, inside := WithStatus(held, status), CloseInside(held, w);
            && Attached(item, w) && CloseInside(item, w).events == inside.events
            && Close(item, w).item == FinalForm(item)
            && Close(item, w).events == inside.events + [ItemDone(w.index, FinalForm(item))]
            && inside.item == held && Seen(held, inside.writer).NilItem? == false
            && ItemId(FinalForm(item)) == ItemId(held) && ItemId(Seen(held, inside.writer)) == ItemId(held)
                && !FinalForm(item).NilItem?
  {
  }

  /** Closing replaces the consumer's item by the final form and closes it,
      whatever status the item was given since it was added. */
  lemma CloseFolds(a: Acc, held: Item, status: Status, w: Writer)
    requires Holding(a, held, w) && w.index in a.slots && w.index !in a.closed
    ensures var l := Close(WithStatus(held, status), w);
            && AllWellIndexed(l.events)
            && Fold(a, l.events) == a.Place(w.index, l.item).(closed := a.closed + {w.index})
  {
    CloseInsideFolds(a, held, w);
    CloseSame(held, status, w);
    var item, inside := WithStatus(held, status), CloseInside(held, w);
    hide CloseInside, Close, FinalForm, WithStatus, Seen;
    var ev := ItemDone(w.index, FinalForm(item));
    FoldAppend(a, inside.events, [ev]);
    PlaceHolds(a, w.index, Seen(inside.item, inside.writer), FinalForm(item));
    var b := Fold(a, inside.events);
    FoldOne(b, ev);
    assert b.slots[w.index := w.index] == b.slots;
  }

  // ---- One adapter call ------------------------------------------------------------------------

  /** What a writer call does to both sides fits together again. */
  lemma ApplyAgrees(a: Acc, b: Acc, e: Producer, d: Producer, h: nat, l: Local)
    requires Agrees(a, e) && e.Live() == Some(h) && e.WriterSound(h) && e.started && !e.terminal && d.Sound()
    requires l.writer.index == e.writers[h].index && d == e.Apply(h, l)
    requires var index := e.writers[h].index;
             || (!l.writer.closed && b == a.Place(index, Seen(l.item, l.writer)))
             || (l.writer.closed && b == a.Place(index, l.item).(closed := a.closed + {index}))
    ensures Agrees(b, d)
  {
    var index := e.writers[h].index;
    assert d.Live() == if l.writer.closed then None else Some(h);
    forall p | 0 <= p < |d.resp.output| ensures b.Output()[p] == View(d, p) {
      if p != index { assert a.Output()[p] == View(e, p); }
    }
    forall p: nat ensures p in b.closed <==> p < |d.resp.output| && !LiveAt(d, p) {
      assert p in a.closed <==> p < |e.resp.output| && !LiveAt(e, p);
    }
  }

  lemma LiveHolding(a: Acc, e: Producer, h: nat)
    requires Agrees(a, e) && h < |e.writers| && !e.writers[h].closed && e.WriterSound(h)
    ensures e.Live() == Some(h) && e.started && !e.terminal
    ensures var w := e.writers[h]; Holding(a, e.ItemOf(h), w) && w.index in a.slots && w.index !in a.closed
  {
    var w := e.writers[h];
    assert LiveAt(e, w.index);
    assert a.Output()[w.index] == View(e, w.index);
  }

  lemma WriteFolds(a: Acc, e: Producer, h: nat, call: WriterCall)
    requires Agrees(a, e) && h < |e.writers| && WriterAllows(e.writers[h], call) && !e.writers[h].closed
             && e.WriterSound(h)
    ensures var index, l := e.writers[h].index, Perform(e.ItemOf(h), e.writers[h], call);
            && AllWellIndexed(l.events)
            && Fold(a, l.events) == if call.CloseWriter? then a.Place(index, l.item).(closed := a.closed + {index})
                                    else a.Place(index, Seen(l.item, l.writer))
  {
    var item, w := e.ItemOf(h), e.writers[h];
    LiveHolding(a, e, h);
    if call.CloseWriter? { CloseFolds(a, item, StatusOf(item), w); } else { CallFolds(a, item, w, call); }
  }

  lemma WriteFollowed(e: Producer, h: nat, call: WriterCall)
    requires Followed(e) && h < |e.writers| && WriterAllows(e.writers[h], call)
    ensures Followed(e.Do(Write(h, call)))
  {
    assert e.WriterSound(h);
    var l := Perform(e.ItemOf(h), e.writers[h], call);
    PerformFits(e.ItemOf(h), e.writers[h], call);
    if e.writers[h].closed {
      assert e.Do(Write(h, call)) == e;
    } else {
      var a := Fold(EMPTY, e.sent);
      WriteFolds(a, e, h, call);
      FoldAppend(EMPTY, e.sent, l.events);
      ApplySound(e, h, call);
      ApplyAgrees(a, Fold(a, l.events), e, e.Do(Write(h, call)), h, l);
    }
  }

  lemma StartFollowed(e: Producer)
    requires Followed(e)
    ensures Followed(e.EnsureStarted())
  {
    if !e.started {
      var d := e.EnsureStarted();
      var evs := [Snapshot(Created, Some(e.resp)), Snapshot(Started, Some(e.resp))];
      assert d.sent == evs && evs[1..] == [evs[1]];
      FoldOne(EMPTY.Add(evs[0]), evs[1]);
    }
  }

  lemma CloseOpenFollowed(e: Producer)
    requires Followed(e)
    ensures Followed(e.CloseOpen())
  {
    if e.open.Some? {
      var h := e.open.value;
      assert e.WriterSound(h);
      WriteFollowed(e, h, CloseWriter);
      PerformFits(e.ItemOf(h), e.writers[h], CloseWriter);
      var d, c := e.Do(Write(h, CloseWriter)), e.CloseOpen();
      assert c == d.(open := None);
      assert d.writers[h].closed && d.Live().None? && c.Live().None?;
      var a := Fold(EMPTY, c.sent);
      forall p | 0 <= p < |c.resp.output| ensures View(c, p) == View(d, p) {}
      if c.started && !c.terminal { assert forall p: nat :: LiveAt(c, p) == LiveAt(d, p); }
    }
  }

  /** A new item at the next index lands at the end of the consumer's list. */
  lemma AddNext(a: Acc, n: nat, item: Item)
    requires a.resp.Some? && a.reused == [] && |a.Output()| == n && !item.NilItem?
    requires (forall i :: i in a.slots <==> 0 <= i < n) && (forall i <- a.slots :: a.slots[i] == i)
    requires forall p: nat :: p in a.closed ==> p < n
    ensures var b := a.Add(ItemAdded(n, item));
            && b.resp.Some? && b.resp.value.status == a.resp.value.status && b.reused == []
            && b.Output() == a.Output() + [item] && b.closed == a.closed && b.slots == a.slots[n := n]
  {
    assert PlaceAt(a.Output(), n, item, NilItem) == a.Output() + [item];
    assert n !in a.closed;
  }

  /** With no item open the consumer holds exactly the producer's list. */
  lemma NothingLate(a: Acc, e: Producer)
    requires Agrees(a, e) && e.started && e.Live().None?
    ensures a.Output() == e.resp.output
    ensures !e.terminal ==> forall p: nat :: p in a.closed <==> p < |e.resp.output|
  {
    forall p | 0 <= p < |e.resp.output| ensures a.Output()[p] == e.resp.output[p] {
      assert a.Output()[p] == View(e, p);
    }
    assert forall p: nat :: !LiveAt(e, p);
  }

  /** The consumer right after output_item.added: the list with the new item,
      every earlier position closed. */
  ghost predicate JustAdded(b: Acc, d: Producer, n: nat, item: Item) {
    && d.started && !d.terminal && d.Live().None? && d.Sound()
    && b.resp.Some? && !b.resp.value.status.Terminal() && b.reused == []
    && b.Output() == d.resp.output && |b.Output()| == n + 1 && b.Output()[n] == item
    && (forall i :: i in b.slots <==> 0 <= i < n + 1) && (forall i <- b.slots :: b.slots[i] == i)
    && (forall p: nat :: p in b.closed <==> p < n)
  }

  lemma OpenItemFollowed(e: Producer, item: Item)
    requires Followed(e) && !e.terminal && !item.NilItem?
    ensures var d := e.OpenItem(item);
            AllWellIndexed(d.sent) && JustAdded(Fold(EMPTY, d.sent), d, |e.resp.output|, item)
  {
    hide Acc.Add, Producer.Sound;
    StartFollowed(e);
    CloseOpenFollowed(e.EnsureStarted());
    OpenItemSound(e, item);
    var c, d := e.EnsureStarted().CloseOpen(), e.OpenItem(item);
    var a := Fold(EMPTY, c.sent);
    NothingLate(a, c);
    var ev := ItemAdded(|c.resp.output|, item);
    FoldAppend(EMPTY, c.sent, [ev]);
    FoldOne(a, ev);
    AddNext(a, |c.resp.output|, item);
    assert d.sent == c.sent + [ev] && d.resp.output == c.resp.output + [item];
  }

  lemma OpenWithFollowed(e: Producer, item: Item, w: Writer)
    requires Followed(e) && !e.terminal && !item.NilItem?
    requires !w.closed && w.index == |e.resp.output| && Attached(item, w) && Seen(item, w) == item
    ensures Followed(e.OpenWith(item, w))
  {
    OpenItemFollowed(e, item);
    OpenWithSound(e, item, w);
    var d := e.OpenWith(item, w);
    var b := Fold(EMPTY, d.sent);
    assert d.WriterSound(|d.writers| - 1);
    assert d.Live() == Some(|d.writers| - 1);
    forall p | 0 <= p < |d.resp.output| ensures b.Output()[p] == View(d, p) {}
  }

  /** The done event of the item just added closes it in place. */
  lemma DoneNext(b: Acc, n: nat, item: Item, final: Item)
    requires b.resp.Some? && b.reused == [] && n in b.slots && b.slots[n] == n && n !in b.closed && b.Holds(n)
    requires b.Output()[n] == item && ItemId(final) == ItemId(item) && !final.NilItem?
    ensures var c := b.Add(ItemDone(n, final));
            c == b.(resp := Some(b.resp.value.(output := b.Output()[n := final])), closed := b.closed + {n})
  {
    assert b.slots[n := n] == b.slots;
  }

  lemma EmitFollowed(e: Producer, item: Item)
    requires Followed(e) && !e.terminal && !item.NilItem?
    ensures Followed(e.Do(EmitItem(item)))
  {
    OpenItemFollowed(e, item);
    EmitShape(e, item);
    hide Producer.OpenItem, Producer.Do, Producer.Sound, Producer.Live;
    var o, d := e.OpenItem(item), e.Do(EmitItem(item));
    var n := |e.resp.output|;
    var b := Fold(EMPTY, o.sent);
    var ev := ItemDone(n, FinalForm(item));
    FoldAppend(EMPTY, o.sent, [ev]);
    FoldOne(b, ev);
    DoneNext(b, n, item, FinalForm(item));
    var c := b.Add(ev);
    assert Fold(EMPTY, d.sent) == c;
    hide Acc.Add, Fold, FinalForm;
    EmittedAgrees(b, c, o, d, n, item, FinalForm(item));
  }

  lemma EmittedAgrees(b: Acc, c: Acc, o: Producer, d: Producer, n: nat, item: Item, final: Item)
    requires JustAdded(b, o, n, item)
    requires c == b.(resp := Some(b.resp.value.(output := b.Output()[n := final])), closed := b.closed + {n})
    requires d.Sound() && d.started && !d.terminal && d.Live().None? && d.resp.output == o.resp.output[n := final]
    ensures Agrees(c, d)
  {
    hide Producer.Sound;
    forall p | 0 <= p < |d.resp.output| ensures c.Output()[p] == View(d, p) {}
  }

  lemma FinishFollowed(e: Producer, kind: SnapshotKind, final: Response, d: Producer)
    requires Followed(e) && e.started && !e.terminal && e.open.None? && d == e.Finish(kind, final) && d.Sound()
    requires final.output == e.resp.output && final.status.Terminal()
    ensures Followed(d)
  {
    var a := Fold(EMPTY, e.sent);
    var ev := Snapshot(kind, Some(final));
    FoldAppend(EMPTY, e.sent, [ev]);
    FoldOne(a, ev);
    assert d.Live().None?;
    forall p | 0 <= p < |d.resp.output| ensures a.Add(ev).Output()[p] == View(d, p) {}
  }

  /** An item marked incomplete is closed in the same call, and the closing
      carries the mark: nothing is said about it in between. */
  lemma MarkedCloseFollowed(e: Producer)
    requires Followed(e) && !e.terminal
    ensures Followed(e.MarkOpenIncomplete().EnsureStarted().CloseOpen())
  {
    var m := e.MarkOpenIncomplete();
    if e.Live().None? {
      StartFollowed(e);
      CloseOpenFollowed(e.EnsureStarted());
    } else {
      var h := e.Live().value;
      assert e.WriterSound(h) && m.WriterSound(h);
      var a, item, w := Fold(EMPTY, e.sent), e.ItemOf(h), e.writers[h];
      assert LiveAt(e, w.index) && a.Output()[w.index] == View(e, w.index) == Seen(item, w);
      CloseFolds(a, item, Incomplete, w);
      var l := Close(WithStatus(item, Incomplete), w);
      FoldAppend(EMPTY, e.sent, l.events);
      var c := m.EnsureStarted().CloseOpen();
      assert c.sent == e.sent + l.events;
      assert c.Live().None?;
      var b := Fold(EMPTY, c.sent);
      forall p | 0 <= p < |c.resp.output| ensures b.Output()[p] == View(c, p) {
        if p != w.index { assert a.Output()[p] == View(e, p); }
      }
      assert Indexed(b, c);
    }
  }

  /** Every adapter call leaves the consumer with the producer's output. */
  lemma DoFollowed(e: Producer, call: Call)
    requires Followed(e) && e.Allows(call)
    ensures Followed(e.Do(call))
  {
    DoSound(e, call);
    match call
    case StartStream => StartFollowed(e);
    case SetDetails(_) =>
      var a, d := Fold(EMPTY, e.sent), e.Do(call);
      forall p | 0 <= p < |d.resp.output| ensures View(d, p) == View(e, p) {}
      assert forall p: nat :: LiveAt(d, p) == LiveAt(e, p);
    case Write(h, c) => WriteFollowed(e, h, c);
    case OpenMessage(id, phase) =>
      if !e.terminal {
        OpenWithFollowed(e, Message(id, InProgress, "assistant", phase, []),
                         MessageWriter(|e.resp.output|, false, false));
      }
    case OpenCall(id, callId, name) =>
      if !e.terminal {
        OpenWithFollowed(e, FunctionCall(id, InProgress, callId, name, ""), CallWriter(|e.resp.output|, false));
      }
    case OpenReasoning(id) =>
      if !e.terminal {
        OpenWithFollowed(e, Reasoning(id, InProgress, [], [], ""),
                         ReasoningWriter(|e.resp.output|, false, false, false, false));
      }
    case EmitItem(item) => if !e.terminal { EmitFollowed(e, item); }
    case CompleteStream => if !e.terminal { EndFollowed(e, call); }
    case StopStream(_) => if !e.terminal { EndFollowed(e, call); }
  }

  lemma EndFollowed(e: Producer, call: Call)
    requires Followed(e) && !e.terminal && (call.CompleteStream? || call.StopStream?)
    ensures Followed(e.Do(call))
  {
    assert e.Sound();
    DoSound(e, call);
    hide Followed, Producer.CloseOpen, Producer.MarkOpenIncomplete, Producer.EnsureStarted;
    if call.CompleteStream? {
      StartFollowed(e);
      CloseOpenFollowed(e.EnsureStarted());
      var c := e.EnsureStarted().CloseOpen();
      FinishFollowed(c, Finished, c.resp.Complete(), e.Do(call));
    } else {
      MarkedCloseFollowed(e);
      var c := e.MarkOpenIncomplete().EnsureStarted().CloseOpen();
      FinishFollowed(c, Stopped, c.resp.MarkIncomplete(call.reason), e.Do(call));
    }
  }

  lemma {:induction false} RunFollowed(e: Producer, calls: seq<Call>)
    requires Followed(e) && AllowsAll(e, calls)
    ensures Followed(DoAll(e, calls))
    decreases |calls|
  {
    if calls != [] {
      DoFollowed(e, calls[0]);
      RunFollowed(e.Do(calls[0]), calls[1..]);
    }
  }

  /** After every run of calls, whether or not the stream has ended, folding
      the sent events gives the emitter's output item by item; log
      probabilities of a text part still open and the encrypted content of a
      reasoning item still open are the only things not yet told. */
  lemma EveryRunAgrees(resp: Response, calls: seq<Call>)
    requires Fresh(resp) && (NewSound(resp); AllowsAll(NewProducer(resp), calls))
    ensures var e := (NewSound(resp); DoAll(NewProducer(resp), calls));
            && AllWellIndexed(e.sent)
            && var a := Fold(EMPTY, e.sent);
            && |a.Output()| == |e.resp.output|
            && (forall p :: 0 <= p < |e.resp.output| ==> a.Output()[p] == View(e, p))
            && (e.Live().None? ==> a.Output() == e.resp.output)
  {
    NewSound(resp);
    RunFollowed(NewProducer(resp), calls);
  }

  /** The late parts are late, not lost: closing the item tells all of it. */
  lemma ClosedIsSeenWhole(e: Producer, p: nat)
    requires e.Sound() && p < |e.resp.output|
    ensures (!LiveAt(e, p) ==> View(e, p) == e.resp.output[p])
    ensures LiveAt(e, p) ==>
              SameItem(View(e, p), e.resp.output[p]) && StatusOf(View(e, p)) == StatusOf(e.resp.output[p])
  {
    if LiveAt(e, p) { assert e.WriterSound(e.Live().value); }
  }
}

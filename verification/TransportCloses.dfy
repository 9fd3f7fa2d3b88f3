/** Producer, transport and checker together: when the frames an emitter-driven
    adapter leaves behind are a valid stream, wherever it stopped. */
module TransportCloses {
  import opened Types
  import opened Wrappers
  import opened EmitterSpec
  import opened SinkSpec
  import A = AccumulatorSpec
  import V = ValidatorSpec
  import P = ProducerConforms
  import C = ConsumerAgrees

  function StampAll(events: seq<Event>, previousId: string): (stamped: seq<Event>)
    ensures |stamped| == |events|
    ensures forall k :: 0 <= k < |events| ==> stamped[k] == Stamp(events[k], previousId)
  {
    seq(|events|, k requires 0 <= k < |events| => Stamp(events[k], previousId))
  }

  function Delivering(events: seq<Event>): seq<(Event, bool)> {
    seq(|events|, k requires 0 <= k < |events| => (events[k], true))
  }

  /** The streamed answer to one request: nothing when the adapter failed before
      its first event, which is answered as a plain error instead. */
  function StreamResponse(previousId: string, events: seq<Event>, error: Option<string>, blank: Response): seq<Wire>
    requires A.AllWellIndexed(events)
  {
    var s := SendAll(NewSink(previousId), Delivering(events));
    if error.Some? && !s.sent then [] else s.Finish(error, blank, (true, true, true)).wire
  }

  // ---- Stamping is invisible to checker and output ------------------------------------------

  lemma {:induction false} RunStamped(v: V.Checker, i: nat, events: seq<Event>, previousId: string)
    ensures V.Run(v, i, StampAll(events, previousId)) == V.Run(v, i, events)
    decreases |events|
  {
    if events != [] {
      StampKeeps(events[0], previousId);
      StepStamped(v, i, events[0], previousId);
      assert StampAll(events, previousId)[1..] == StampAll(events[1..], previousId);
      var next := v.Step(i, events[0]);
      if next.Some? { RunStamped(next.value, i + 1, events[1..], previousId); }
    }
  }

  lemma StepStamped(v: V.Checker, i: nat, ev: Event, previousId: string)
    ensures v.Step(i, Stamp(ev, previousId)) == v.Step(i, ev)
  {
  }

  /** The accumulator but for previous_response_id. */
  function Forget(a: A.Acc): A.Acc {
    if a.resp.None? then a else a.(resp := Some(a.resp.value.(previousId := None)))
  }

  lemma ItemStamped(a: A.Acc, b: A.Acc, index: nat, item: Item, same: bool)
    requires Forget(a) == Forget(b)
    ensures var (c, p), (d, q) := a.Target(index, item, same), b.Target(index, item, same);
            p == q && Forget(c) == Forget(d) && c.resp.Some? && d.resp.Some?
                && Forget(c.Place(p, item)) == Forget(d.Place(q, item))
  {
    assert a.Output() == b.Output();
  }

  lemma AddStamped(a: A.Acc, b: A.Acc, ev: Event, previousId: string)
    requires Forget(a) == Forget(b) && ev.WellIndexed()
    ensures Stamp(ev, previousId).WellIndexed()
    ensures Forget(a.Add(ev)) == Forget(b.Add(Stamp(ev, previousId)))
  {
    if ev.Snapshot? {
      if ev.response.Some? { SnapshotStamped(a, b, ev.response.value, Stamp(ev, previousId).response.value); }
    } else if ev.ItemAdded? || ev.ItemDone? {
      if !ev.item.NilItem? && ev.outputIndex >= 0 { ItemStamped(a, b, ev.outputIndex, ev.item, ev.ItemDone?); }
    } else if ev.Content() {
      EditStamped(a, b, ev);
    }
  }

  lemma EditStamped(a: A.Acc, b: A.Acc, ev: Event)
    requires Forget(a) == Forget(b) && ev.Content() && ev.WellIndexed()
    ensures Forget(a.EditAt(ev)) == Forget(b.EditAt(ev))
  {
    assert a.Output() == b.Output() && a.Position(ev.outputIndex) == b.Position(ev.outputIndex);
  }

  lemma SnapshotStamped(a: A.Acc, b: A.Acc, r: Response, q: Response)
    requires Forget(a) == Forget(b) && q == r.(previousId := q.previousId)
    ensures Forget(a.SetResponse(Some(r))) == Forget(b.SetResponse(Some(q)))
  {
    assert a.Output() == b.Output();
    assert forall p: nat :: a.IdAt(p) == b.IdAt(p);
    assert a.Adopts(r) == b.Adopts(q) && a.KeepsOutput(r) == b.KeepsOutput(q);
    if a.Adopts(r) {
      assert (set pos | pos in a.closed && a.IdAt(pos) != "" :: a.IdAt(pos)) == (set pos | pos in b.closed
          && b.IdAt(pos) != "" :: b.IdAt(pos));
      assert a.Relist(r).slots == b.Relist(q).slots && a.Relist(r).closed == b.Relist(q).closed;
    }
  }

  lemma {:induction false} FoldStamped(a: A.Acc, b: A.Acc, events: seq<Event>, previousId: string)
    requires Forget(a) == Forget(b) && A.AllWellIndexed(events)
    ensures A.AllWellIndexed(StampAll(events, previousId))
    ensures Forget(A.Fold(a, events)) == Forget(A.Fold(b, StampAll(events, previousId)))
    decreases |events|
  {
    forall k | 0 <= k < |events| ensures StampAll(events,
                                                  previousId)[k].WellIndexed() { StampKeeps(events[k], previousId); }
    if events != [] {
      AddStamped(a, b, events[0], previousId);
      assert StampAll(events, previousId)[1..] == StampAll(events[1..], previousId);
      FoldStamped(a.Add(events[0]), b.Add(Stamp(events[0], previousId)), events[1..], previousId);
    }
  }

  // ---- Delivering a run ------------------------------------------------------------------------

  ghost predicate EndsOnce(events: seq<Event>) {
    forall k :: 0 <= k < |events| - 1 ==> !events[k].Terminal()
  }

  function Wires(events: seq<Event>, from: nat): seq<Wire> {
    seq(|events|, k requires 0 <= k < |events| => Sent(Frame(from + k, events[k])))
  }

  lemma SendDelivers(s: Sink, ev: Event)
    requires ev.WellIndexed() && s.Works() && !s.terminal
    ensures Stamp(ev, s.previousId).WellIndexed()
    ensures var t, stamped := s.Send(ev, true), Stamp(ev, s.previousId);
            && t.previousId == s.previousId && t.number == s.number + 1 && t.acc == s.acc.Add(stamped)
            && t.wire == s.wire + [Sent(Frame(s.number, stamped))] && t.sent && t.terminal == ev.Terminal() && t.Works()
  {
    StampKeeps(ev, s.previousId);
  }

  /** A connection that does not fail delivers every event, stamped and numbered. */
  lemma {:induction false} DeliversAll(s: Sink, events: seq<Event>)
    requires A.AllWellIndexed(events) && EndsOnce(events) && s.Works() && !s.terminal && s.number == |s.wire|
    ensures A.AllWellIndexed(StampAll(events, s.previousId))
    ensures var t := SendAll(s, Delivering(events));
            && t.previousId == s.previousId && t.Works() && t.number == |t.wire| && t.sent == (s.sent || events != [])
            && t.terminal == (events != [] && events[|events| - 1].Terminal())
            && t.wire == s.wire + Wires(StampAll(events, s.previousId), |s.wire|)
            && t.acc == A.Fold(s.acc, StampAll(events, s.previousId))
    decreases |events|
  {
    hide Sink.Send, A.Acc.Add, Stamp;
    var stamped := StampAll(events, s.previousId);
    forall k | 0 <= k < |events| ensures stamped[k].WellIndexed() { StampKeeps(events[k], s.previousId); }
    if events != [] {
      var t := s.Send(events[0], true);
      SendDelivers(s, events[0]);
      assert Delivering(events)[1..] == Delivering(events[1..]) && Delivering(events)[0] == (events[0], true);
      assert stamped[1..] == StampAll(events[1..], s.previousId);
      assert Wires(stamped, |s.wire|) == [Sent(Frame(|s.wire|, stamped[0]))] + Wires(stamped[1..], |s.wire| + 1);
      if |events| > 1 {
        DeliversAll(t, events[1..]);
      } else {
        assert events[1..] == [] && stamped[1..] == [] && Wires(stamped[1..], |s.wire| + 1) == [];
        assert SendAll(t, Delivering(events[1..])) == t;
      }
    }
  }

  lemma {:induction false} FramesOfWires(events: seq<Event>, done: bool)
    ensures FramesOf(Wires(events, 0) + if done then [DoneMark] else []) == Numbered(events)
    decreases |events|, done
  {
    var w := Wires(events, 0);
    if done {
      FramesOfWires(events, false);
      assert (w + [DoneMark])[..|w|] == w && w + [] == w;
    } else if events != [] {
      var n := |events| - 1;
      FramesOfWires(events[..n], false);
      assert w + [] == w && w[..n] == Wires(events[..n], 0) + [];
      assert Numbered(events) == Numbered(events[..n]) + [Frame(n, events[n])];
    } else {
      assert w + [] == [];
    }
  }

  /** Acceptance of a numbered list of events. */
  lemma AcceptedNumbered(events: seq<Event>, allowReuse: bool)
    ensures V.Accepted(Numbered(events), allowReuse) <==>
              events != [] && V.IsCreated(events[0])
              && var v := V.Run(V.Start(allowReuse), 0, events); v.Some? && v.value.terminal
  {
    assert V.Events(Numbered(events)) == events;
  }

  // ---- The frames of an interrupted run -----------------------------------------------------------

  ghost predicate Ran(e: Producer, allowReuse: bool) {
    && P.Checked(e, allowReuse) && C.Followed(e) && EndsOnce(e.sent)
    && (e.sent != [] ==> V.IsCreated(e.sent[0]))
    && (e.sent != [] ==> (e.sent[|e.sent| - 1].Terminal() == e.terminal))
  }

  lemma RunEnds(e: Producer, allowReuse: bool)
    requires P.Checked(e, allowReuse)
    ensures EndsOnce(e.sent)
    ensures e.sent != [] ==> (e.sent[|e.sent| - 1].Terminal() == e.terminal)
  {
    V.PrefixExact(e.sent, |e.sent|, allowReuse);
    assert e.sent[..|e.sent|] == e.sent;
    forall k | 0 <= k < |e.sent| - 1 ensures !e.sent[k].Terminal() {
      assert V.Keeps(e.sent, k + 1, allowReuse);
    }
  }

  /** What the consumer inside the sink holds is the producer's list, by type and id. */
  lemma FoldedLists(e: Producer, previousId: string, allowReuse: bool)
    requires Ran(e, allowReuse) && e.sent != []
    ensures A.AllWellIndexed(StampAll(e.sent, previousId))
    ensures var a := A.Fold(A.EMPTY, StampAll(e.sent, previousId));
            && a.resp.Some? && a.Visible() == a.resp
            && V.Lists(a.Output(), V.Run(V.Start(allowReuse), 0, e.sent).value.items)
            && (e.Live().None? ==> a.Output() == e.resp.output)
  {
    FoldStamped(A.EMPTY, A.EMPTY, e.sent, previousId);
    var a := A.Fold(A.EMPTY, e.sent);
    forall p | 0 <= p < |e.resp.output| ensures SameItem(a.Output()[p], e.resp.output[p]) {
      assert a.Output()[p] == C.View(e, p);
      C.ClosedIsSeenWhole(e, p);
    }
    if e.Live().None? {
      forall p | 0 <= p < |e.resp.output| ensures a.Output()[p] == e.resp.output[p] {
        assert a.Output()[p] == C.View(e, p);
      }
    }
  }

  /** The events after the run: none when it ended itself, an error and
      response.failed, or response.completed over the folded response. */
  function Tail(a: A.Acc, terminal: bool, error: Option<string>, blank: Response, previousId: string): seq<Event> {
    if terminal then []
    else if error.Some? then
      var failing := a.Add(ErrorEvent(error.value));
      var resp := if failing.Visible().Some? then failing.Visible().value else blank;
      [ErrorEvent(error.value), Stamp(Snapshot(Failed, Some(resp.Fail(error.value))), previousId)]
    else
      var resp := if a.Visible().Some? then a.Visible().value else blank;
      [Stamp(Snapshot(Finished, Some(resp.Complete())), previousId)]
  }

  /** What ending the stream adds to the wire. */
  lemma EndedWire(s: Sink, stamped: seq<Event>, error: Option<string>, blank: Response)
    requires s.wire == Wires(stamped, 0) && s.number == |s.wire| && s.Works()
    ensures var tail := Tail(s.acc, s.terminal, error, blank, s.previousId);
            var e := s.Ended(error, blank, (true, true, true));
            e.wire == Wires(stamped + tail, 0) && e.Works()
  {
    var tail := Tail(s.acc, s.terminal, error, blank, s.previousId);
    var e := s.Ended(error, blank, (true, true, true));
    if s.terminal {
      assert stamped + tail == stamped;
    } else if error.Some? {
      var failing := s.Write(ErrorEvent(error.value), true);
      assert failing.wire == s.wire + [Sent(Frame(|stamped|, tail[0]))];
      assert e.wire == failing.wire + [Sent(Frame(|stamped| + 1, tail[1]))];
    } else {
      assert e.wire == s.wire + [Sent(Frame(|stamped|, tail[0]))];
    }
  }

  lemma ResponseFrames(previousId: string, events: seq<Event>, error: Option<string>, blank: Response)
    requires A.AllWellIndexed(events) && EndsOnce(events) && (events != [] || error.None?)
    ensures A.AllWellIndexed(StampAll(events, previousId))
    ensures var stamped := StampAll(events, previousId);
            var terminal := events != [] && events[|events| - 1].Terminal();
            FramesOf(StreamResponse(previousId, events, error, blank))
              == Numbered(stamped + Tail(A.Fold(A.EMPTY, stamped), terminal, error, blank, previousId))
  {
    DeliversAll(NewSink(previousId), events);
    var stamped := StampAll(events, previousId);
    var s := SendAll(NewSink(previousId), Delivering(events));
    var tail := Tail(s.acc, s.terminal, error, blank, previousId);
    assert s.wire == Wires(stamped, 0);
    EndedWire(s, stamped, error, blank);
    hide SendAll, Tail, Sink.Ended;
    assert StreamResponse(previousId, events, error, blank) == Wires(stamped + tail, 0) + [DoneMark];
    FramesOfWires(stamped + tail, true);
  }

  /** An error may end the stream wherever it stands. */
  lemma FailurePasses(v: V.Checker, i: nat, a: A.Acc, error: string, blank: Response, previousId: string)
    requires !v.terminal && !v.errorSeen
    ensures var end := V.Run(v, i, Tail(a, false, Some(error), blank, previousId));
            end.Some? && end.value.terminal
  {
    var tail := Tail(a, false, Some(error), blank, previousId);
    assert tail[1..] == [tail[1]];
    var mid := v.Step(i, tail[0]).value;
    V.RunOne(mid, i + 1, tail[1]);
  }

  /** A synthesized completion passes exactly when no item is open. */
  lemma CompletionPasses(v: V.Checker, i: nat, a: A.Acc, blank: Response, previousId: string)
    requires !v.terminal && !v.errorSeen && a.resp.Some? && V.Lists(a.Output(), v.items)
    ensures var end := V.Run(v, i, Tail(a, false, None, blank, previousId));
            (end.Some? && end.value.terminal) <==> v.open.None?
  {
    var tail := Tail(a, false, None, blank, previousId);
    V.RunOne(v, i, tail[0]);
  }

  /** The tail passes the checker exactly when it may. */
  lemma TailPasses(e: Producer, error: Option<string>, blank: Response, previousId: string, allowReuse: bool)
    requires Ran(e, allowReuse) && e.sent != []
    ensures A.AllWellIndexed(StampAll(e.sent, previousId))
    ensures var a := A.Fold(A.EMPTY, StampAll(e.sent, previousId));
            var v := V.Run(V.Start(allowReuse), 0, e.sent).value;
            var end := V.Run(v, |e.sent|, Tail(a, e.terminal, error, blank, previousId));
            (end.Some? && end.value.terminal) <==> (e.terminal || error.Some? || e.Live().None?)
  {
    FoldedLists(e, previousId, allowReuse);
    var a := A.Fold(A.EMPTY, StampAll(e.sent, previousId));
    var v := V.Run(V.Start(allowReuse), 0, e.sent).value;
    hide Tail, A.Fold;
    if e.terminal {
      assert Tail(a, true, error, blank, previousId) == [] by { TailEmpty(a, error, blank, previousId); }
    } else if error.Some? {
      FailurePasses(v, |e.sent|, a, error.value, blank, previousId);
    } else {
      CompletionPasses(v, |e.sent|, a, blank, previousId);
    }
  }

  lemma TailEmpty(a: A.Acc, error: Option<string>, blank: Response, previousId: string)
    ensures Tail(a, true, error, blank, previousId) == []
  {
  }

  /** An adapter that drives only an emitter and stops after any call leaves a
      valid stream if and only if it sent something and either ended the
      response itself, or returned an error, or left no item open. */
  lemma InterruptedRunsClose(resp: Response, calls: seq<Call>, error: Option<string>, blank: Response,
                             previousId: string, allowReuse: bool)
    requires Fresh(resp) && (NewSound(resp); AllowsAll(NewProducer(resp), calls))
    ensures var e := (NewSound(resp); DoAll(NewProducer(resp), calls));
            && A.AllWellIndexed(e.sent)
            && (V.Accepted(FramesOf(StreamResponse(previousId, e.sent, error, blank)), allowReuse)
                <==> e.sent != [] && (e.terminal || error.Some? || e.Live().None?))
  {
    hide V.Accepted, FramesOf, StreamResponse, Producer.Sound, Ran;
    NewSound(resp);
    RunRan(resp, calls, allowReuse);
    var e := DoAll(NewProducer(resp), calls);
    RanIndexed(e, allowReuse);
    RanCloses(e, error, blank, previousId, allowReuse);
  }

  lemma RunRan(resp: Response, calls: seq<Call>, allowReuse: bool)
    requires Fresh(resp) && (NewSound(resp); AllowsAll(NewProducer(resp), calls))
    ensures (NewSound(resp); Ran(DoAll(NewProducer(resp), calls), allowReuse))
  {
    hide Producer.Sound, V.Run, P.Tracks, A.Fold;
    NewSound(resp);
    var start := NewProducer(resp);
    StartRan(start, resp, allowReuse);
    P.RunChecked(start, calls, allowReuse);
    P.CreatedFirst(start, calls);
    C.RunFollowed(start, calls);
    RunEnds(DoAll(start, calls), allowReuse);
  }

  lemma StartRan(start: Producer, resp: Response, allowReuse: bool)
    requires Fresh(resp) && start == NewProducer(resp)
    ensures start.Sound() && P.Checked(start, allowReuse) && C.Followed(start) && start.sent == []
  {
    NewSound(resp);
  }

  lemma RanIndexed(e: Producer, allowReuse: bool)
    requires Ran(e, allowReuse)
    ensures A.AllWellIndexed(e.sent)
  {
  }

  lemma NothingCloses(error: Option<string>, blank: Response, previousId: string, allowReuse: bool)
    ensures !V.Accepted(FramesOf(StreamResponse(previousId, [], error, blank)), allowReuse)
  {
    hide V.Run;
    if error.Some? {
      DeliversAll(NewSink(previousId), []);
      assert StreamResponse(previousId, [], error, blank) == [];
    } else {
      ResponseFrames(previousId, [], error, blank);
      var tail := Tail(A.Fold(A.EMPTY, []), false, error, blank, previousId);
      assert StampAll([], previousId) == [] && [] + tail == tail;
      AcceptedNumbered(tail, allowReuse);
    }
  }

  lemma RanFacts(e: Producer, allowReuse: bool)
    requires Ran(e, allowReuse) && e.sent != []
    ensures A.AllWellIndexed(e.sent) && EndsOnce(e.sent) && V.IsCreated(e.sent[0])
    ensures e.sent[|e.sent| - 1].Terminal() == e.terminal
    ensures V.Run(V.Start(allowReuse), 0, e.sent).Some?
  {
  }

  lemma SomethingCloses(e: Producer, error: Option<string>, blank: Response, previousId: string, allowReuse: bool)
    requires Ran(e, allowReuse) && e.sent != []
    ensures V.Accepted(FramesOf(StreamResponse(previousId, e.sent, error, blank)), allowReuse) <==>
              e.terminal || error.Some? || e.Live().None?
  {
    RanFacts(e, allowReuse);
    ResponseFrames(previousId, e.sent, error, blank);
    StampKeeps(e.sent[0], previousId);
    RunStamped(V.Start(allowReuse), 0, e.sent, previousId);
    TailPasses(e, error, blank, previousId, allowReuse);
    hide *;
    var stamped := StampAll(e.sent, previousId);
    AcceptedAfter(stamped, Tail(A.Fold(A.EMPTY, stamped), e.terminal, error, blank, previousId), allowReuse);
  }

  /** A stream that runs well is accepted with a tail that ends it. */
  lemma AcceptedAfter(events: seq<Event>, tail: seq<Event>, allowReuse: bool)
    requires events != [] && V.IsCreated(events[0]) && V.Run(V.Start(allowReuse), 0, events).Some?
    ensures V.Accepted(Numbered(events + tail), allowReuse) <==>
              var end := V.Run(V.Run(V.Start(allowReuse), 0, events).value, |events|, tail);
              end.Some? && end.value.terminal
  {
    hide V.Run, V.Accepted;
    AcceptedNumbered(events + tail, allowReuse);
    assert (events + tail)[0] == events[0];
    V.RunAppend(V.Start(allowReuse), 0, events, tail);
  }

  lemma RanCloses(e: Producer, error: Option<string>, blank: Response, previousId: string, allowReuse: bool)
    requires Ran(e, allowReuse)
    ensures V.Accepted(FramesOf(StreamResponse(previousId, e.sent, error, blank)), allowReuse) <==>
              e.sent != [] && (e.terminal || error.Some? || e.Live().None?)
  {
    hide V.Accepted, StreamResponse;
    if e.sent == [] {
      NothingCloses(error, blank, previousId, allowReuse);
    } else {
      SomethingCloses(e, error, blank, previousId, allowReuse);
    }
  }
}

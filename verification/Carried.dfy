/** What reaches a client and what is folded and remembered, over both
    transports, stated about the events an adapter sends. */
module Carried {
  import opened Types
  import opened Wrappers
  import opened SinkSpec
  import A = AccumulatorSpec
  import T = TransportCloses
  import opened StoreSpec
  import W = ContinuationSpec

  // ---- The events of a run of sends ---------------------------------------------------------

  /** What a connection carries for an event: on one that continues a response,
      a snapshot's response names one, its own if the adapter gave it, else the
      one continued, every other field as sent; any other event as it was sent. */
  predicate Named(sent: Event, got: Event, previousId: string) {
    if previousId == "" || !sent.Snapshot? || sent.response.None? then got == sent
    else
      && got.Snapshot? && got.kind == sent.kind && got.response.Some?
      && NamedResponse(sent.response.value, got.response.value, previousId)
  }

  predicate NamedResponse(sent: Response, got: Response, previousId: string) {
    && got.previousId == (if sent.previousId.Some? || previousId == "" then sent.previousId else Some(previousId))
    && got.id == sent.id && got.status == sent.status && got.output == sent.output
    && got.error == sent.error && got.reason == sent.reason && got.details == sent.details
  }

  lemma StampNames(sent: Event, got: Event, previousId: string)
    ensures Named(sent, got, previousId) <==> got == Stamp(sent, previousId)
  {
  }

  /** The sends up to and with the first that fails to be written or is
      terminal, each as it is carried. */
  ghost predicate Carries(previousId: string, sends: seq<(Event, bool)>, events: seq<Event>) {
    && |events| <= |sends|
    && (forall k :: 0 <= k < |events| ==> Named(sends[k].0, events[k], previousId))
    && (forall k :: 0 <= k < |events| - 1 ==> !Stops(sends[k]))
    && (|events| < |sends| ==> events != [] && Stops(sends[|events| - 1]))
  }

  predicate Stops(send: (Event, bool)) { !send.1 || send.0.Terminal() }

  /** Whether the last send taken failed to be written, or was terminal. */
  predicate Fails(sends: seq<(Event, bool)>, n: nat) { 0 < n <= |sends| && !sends[n - 1].1 }

  predicate Ends(sends: seq<(Event, bool)>, n: nat) { 0 < n <= |sends| && sends[n - 1].0.Terminal() }

  /** What was written of it: all but a last send that failed. */
  function Written(sends: seq<(Event, bool)>, events: seq<Event>): (written: seq<Event>)
    ensures |written| == if Fails(sends, |events|) then |events| - 1 else |events|
    ensures written <= events
  {
    if Fails(sends, |events|) then events[..|events| - 1] else events
  }

  lemma {:induction false} CarriesSome(previousId: string, sends: seq<(Event, bool)>)
    ensures exists events :: Carries(previousId, sends, events)
    decreases |sends|
  {
    if sends == [] {
      assert Carries(previousId, sends, []);
    } else {
      var first := Stamp(sends[0].0, previousId);
      StampNames(sends[0].0, first, previousId);
      if Stops(sends[0]) {
        assert Carries(previousId, sends, [first]);
      } else {
        CarriesSome(previousId, sends[1..]);
        var rest :| Carries(previousId, sends[1..], rest);
        CarriesOne(previousId, sends, first, rest);
      }
    }
  }

  lemma CarriesOne(previousId: string, sends: seq<(Event, bool)>, first: Event, rest: seq<Event>)
    requires sends != [] && !Stops(sends[0]) && Named(sends[0].0, first, previousId)
    requires Carries(previousId, sends[1..], rest)
    ensures Carries(previousId, sends, [first] + rest)
  {
    hide Named, Stops;
    var events := [first] + rest;
    forall k | 0 <= k < |events| ensures Named(sends[k].0, events[k], previousId) {
      if k > 0 { assert events[k] == rest[k - 1] && sends[k] == sends[1..][k - 1]; }
    }
    forall k | 0 <= k < |events| - 1 ensures !Stops(sends[k]) {
      if k > 0 { assert sends[k] == sends[1..][k - 1]; }
    }
    if |events| < |sends| { assert sends[|events| - 1] == sends[1..][|rest| - 1]; }
  }

  lemma CarriedAt(previousId: string, sends: seq<(Event, bool)>, events: seq<Event>, k: nat)
    requires k < |events| && Carries(previousId, sends, events)
    ensures |events| <= |sends| && events[k] == Stamp(sends[k].0, previousId)
    ensures k < |events| - 1 ==> !Stops(sends[k])
  {
    StampNames(sends[k].0, events[k], previousId);
  }

  lemma CarriedIndexed(previousId: string, sends: seq<(Event, bool)>, events: seq<Event>)
    requires Carries(previousId, sends, events) && forall send <- sends :: send.0.WellIndexed()
    ensures A.AllWellIndexed(events)
  {
    forall k | 0 <= k < |events| ensures events[k].WellIndexed() {
      assert sends[k] in sends;
      StampNames(sends[k].0, events[k], previousId);
      StampKeeps(sends[k].0, previousId);
    }
  }

  // ---- Over HTTP ---------------------------------------------------------------------------------

  /** A sink after a run: what it wrote, folded and handed over. */
  ghost predicate Took(s: Sink, t: Sink, sends: seq<(Event, bool)>, events: seq<Event>)
    requires A.AllWellIndexed(events)
  {
    var n := |events|;
    && t.previousId == s.previousId && t.number == s.number + n && t.acc == A.Fold(s.acc, events)
    && t.wire == s.wire + T.Wires(Written(sends, events), s.number)
    && t.broken == t.down == Fails(sends, n) && t.terminal == Ends(sends, n)
    && t.sent == (s.sent || Written(sends, events) != [])
    && t.final == s.final + (if Ends(sends, n) then [t.acc.Visible()] else [])
  }

  lemma {:induction false} RefusesAll(s: Sink, sends: seq<(Event, bool)>)
    requires (forall send <- sends :: send.0.WellIndexed()) && (s.broken || s.terminal)
    ensures SendAll(s, sends) == s
    decreases |sends|
  {
    if sends != [] { RefusesAll(s, sends[1..]); }
  }

  lemma {:induction false} SinkTakes(s: Sink, sends: seq<(Event, bool)>, events: seq<Event>)
    requires s.Works() && !s.terminal && s.number == |s.wire|
    requires Carries(s.previousId, sends, events) && forall send <- sends :: send.0.WellIndexed()
    ensures A.AllWellIndexed(events) && Took(s, SendAll(s, sends), sends, events)
    decreases |sends|
  {
    CarriedIndexed(s.previousId, sends, events);
    if sends == [] {
      assert s.wire + T.Wires([], s.number) == s.wire;
    } else {
      var t := s.Send(sends[0].0, sends[0].1);
      assert sends[0] in sends && forall send <- sends[1..] :: send in sends;
      SinkTakesOne(s, sends, events);
      if Stops(sends[0]) {
        RefusesAll(t, sends[1..]);
        assert |events| == 1 && events == [events[0]];
      } else {
        CarriesRest(s.previousId, sends, events);
        SinkTakes(t, sends[1..], events[1..]);
        SinkTakesOn(s, t, SendAll(t, sends[1..]), sends, events);
      }
    }
  }

  lemma CarriesRest(previousId: string, sends: seq<(Event, bool)>, events: seq<Event>)
    requires sends != [] && Carries(previousId, sends, events) && !Stops(sends[0])
    ensures events != [] && Carries(previousId, sends[1..], events[1..])
  {
    hide Named, Stops;
    assert events != [];
    var rest, after := events[1..], sends[1..];
    forall k | 0 <= k < |rest| ensures Named(after[k].0, rest[k], previousId) {
      assert after[k] == sends[k + 1] && rest[k] == events[k + 1];
    }
    forall k | 0 <= k < |rest| - 1 ensures !Stops(after[k]) { assert after[k] == sends[k + 1]; }
  }

  lemma SinkTakesOne(s: Sink, sends: seq<(Event, bool)>, events: seq<Event>)
    requires s.Works() && !s.terminal && s.number == |s.wire| && sends != [] && events != []
    requires sends[0].0.WellIndexed() && events[0].WellIndexed() && Named(sends[0].0, events[0], s.previousId)
    ensures Took(s, s.Send(sends[0].0, sends[0].1), sends[..1], [events[0]])
  {
    StampNames(sends[0].0, events[0], s.previousId);
    var ev, ok := events[0], sends[0].1;
    StampKeeps(sends[0].0, s.previousId);
    var t := s.Send(sends[0].0, ok);
    FoldOne(s.acc, ev);
    assert T.Wires([ev], s.number) == [Sent(Frame(s.number, ev))];
    assert Written(sends[..1], [ev]) == if ok then [ev] else [];
    assert s.wire + [] == s.wire && T.Wires([], s.number) == [];
  }

  lemma FoldOne(a: A.Acc, ev: Event)
    requires ev.WellIndexed()
    ensures A.Fold(a, [ev]) == a.Add(ev)
  {
    assert ([ev])[1..] == [] && A.Fold(a.Add(ev), []) == a.Add(ev);
  }

  lemma SinkTakesOn(s: Sink, t: Sink, u: Sink, sends: seq<(Event, bool)>, events: seq<Event>)
    requires sends != [] && 0 < |events| <= |sends| && A.AllWellIndexed(events) && s.Works() && !s.terminal
    requires !Stops(sends[0])
    requires Took(s, t, sends[..1], [events[0]]) && A.AllWellIndexed(events[1..])
    requires Took(t, u, sends[1..], events[1..])
    ensures Took(s, u, sends, events)
  {
    hide A.Acc.Add, A.Acc.Visible, A.Fold, Written, T.Wires;
    FoldOne(s.acc, events[0]);
    FoldRest(s.acc, events);
    WrittenRest(sends, events, s.number);
    assert sends[..1][0] == sends[0];
    assert T.Wires(Written(sends[..1], [events[0]]), s.number) == T.Wires([events[0]], s.number);
  }

  lemma FoldRest(a: A.Acc, events: seq<Event>)
    requires A.AllWellIndexed(events) && events != []
    ensures A.Fold(a, events) == A.Fold(a.Add(events[0]), events[1..])
  {
  }

  lemma WrittenRest(sends: seq<(Event, bool)>, events: seq<Event>, number: nat)
    requires sends != [] && 0 < |events| <= |sends| && !Stops(sends[0])
    ensures var rest, n := Written(sends[1..], events[1..]), |events|;
            && T.Wires(Written(sends, events), number) == T.Wires([events[0]], number) + T.Wires(rest, number + 1)
            && Written(sends[..1], [events[0]]) == [events[0]]
            && Fails(sends[1..], n - 1) == Fails(sends, n) && Ends(sends[1..], n - 1) == Ends(sends, n)
  {
    var n := |events|;
    if n > 1 { assert sends[1..][n - 2] == sends[n - 1]; }
    var rest := Written(sends[1..], events[1..]);
    assert Written(sends, events) == [events[0]] + rest;
    assert T.Wires([events[0]] + rest, number) == T.Wires([events[0]], number) + T.Wires(rest, number + 1);
  }

  /** Any run of sends on the HTTP sink: the frames on the wire are numbered from
      zero and carry the sends in order, snapshots naming the response continued
      and everything else as sent; the response is folded from what was carried,
      and handed over once, when the stream ended. */
  lemma HttpCarries(previousId: string, sends: seq<(Event, bool)>, events: seq<Event>)
    requires Carries(previousId, sends, events) && forall send <- sends :: send.0.WellIndexed()
    ensures A.AllWellIndexed(events)
    ensures var s, written := SendAll(NewSink(previousId), sends), Written(sends, events);
            && |s.wire| == |written|
            && (forall k :: 0 <= k < |s.wire| ==> s.wire[k] == Sent(Frame(k, events[k])))
            && s.acc == A.Fold(A.EMPTY, events)
            && s.broken == Fails(sends, |events|) && s.terminal == Ends(sends, |events|) && s.sent == (written != [])
            && s.final == if s.terminal then [A.Fold(A.EMPTY, events).Visible()] else []
  {
    hide Carries, SendAll, Written, T.Wires, A.Fold, A.Acc.Visible, Fails, Ends;
    SinkTakes(NewSink(previousId), sends, events);
    FirstWires(Written(sends, events), events);
  }

  lemma FirstWires(written: seq<Event>, events: seq<Event>)
    requires written <= events
    ensures var wire := [] + T.Wires(written, 0);
            |wire| == |written| && forall k :: 0 <= k < |wire| ==> wire[k] == Sent(Frame(k, events[k]))
  {
  }

  /** What the adapter is told of its next send after any run: broken once a write
      has failed, sent after the end once one was terminal, else how its own
      write went; a send that is refused changes nothing. */
  lemma HttpAnswers(previousId: string, sends: seq<(Event, bool)>, events: seq<Event>, next: Event, ok: bool)
    requires Carries(previousId, sends, events) && (forall send <- sends :: send.0.WellIndexed()) && next.WellIndexed()
    ensures var s := SendAll(NewSink(previousId), sends);
            var failed, ended := Fails(sends, |events|), Ends(sends, |events|);
            && (s.SendOutcomeOf(next, ok) == Broken <==> failed || (!ended && !ok))
            && (s.SendOutcomeOf(next, ok) == AfterTerminal <==> !failed && ended)
            && (s.SendOutcomeOf(next, ok) == Delivered <==> !failed && !ended && ok)
            && (failed || ended ==> s.Send(next, ok) == s)
  {
    hide Carries, SendAll;
    SinkTakes(NewSink(previousId), sends, events);
  }

  // ---- What a reader has seen ---------------------------------------------------------------------

  /** An event that gives a reader a response: a snapshot with one, an item at a
      proper index, an error. */
  predicate Shows(ev: Event) {
    || (ev.Snapshot? && ev.response.Some?)
    || ((ev.ItemAdded? || ev.ItemDone?) && !ev.item.NilItem? && ev.outputIndex >= 0)
    || ev.ErrorEvent?
  }

  /** Nothing has been folded exactly when no event showed anything. */
  lemma {:induction false} FoldShows(a: A.Acc, events: seq<Event>)
    requires A.AllWellIndexed(events)
    ensures A.Fold(a, events).Visible().Some? <==> a.Visible().Some? || exists ev <- events :: Shows(ev)
    decreases |events|
  {
    hide A.Acc.Add, A.Acc.Visible, Shows;
    if events != [] {
      AddShows(a, events[0]);
      FoldShows(a.Add(events[0]), events[1..]);
      assert events == [events[0]] + events[1..];
    }
  }

  lemma AddShows(a: A.Acc, ev: Event)
    requires ev.WellIndexed()
    ensures a.Add(ev).Visible().Some? <==> a.Visible().Some? || Shows(ev)
  {
  }

  lemma NothingShown(events: seq<Event>)
    requires A.AllWellIndexed(events)
    ensures A.Fold(A.EMPTY, events).Visible().None? <==> forall ev <- events :: !Shows(ev)
  {
    FoldShows(A.EMPTY, events);
  }

  /** A snapshot that ends the response is the response from then on. */
  lemma EndTaken(a: A.Acc, kind: SnapshotKind, r: Response)
    requires r.status.Terminal()
    ensures a.Add(Snapshot(kind, Some(r))).Visible() == Some(r)
  {
  }

  // ---- How a stream is closed -----------------------------------------------------------------------

  /** `got` is `base` ended: its id, output, reason and details, the given
      status and error, and the name of the response continued. */
  predicate EndedAs(base: Response, got: Response, status: ResponseStatus, error: Option<string>, previousId: string) {
    NamedResponse(base.(status := status, error := error), got, previousId)
  }

  /** What is written after a run that did not end itself, from frame n on, as
      far as writing succeeds. */
  function Closing(n: nat, error: Option<string>, q: Response, oks: (bool, bool, bool)): seq<Wire> {
    var mark := if oks.2 then [DoneMark] else [];
    if !oks.0 then []
    else if error.None? then [Sent(Frame(n, Snapshot(Finished, Some(q))))] + mark
    else [Sent(Frame(n, ErrorEvent(error.value)))]
         + if !oks.1 then [] else [Sent(Frame(n + 1, Snapshot(Failed, Some(q))))] + mark
  }

  /** The response a reader has, if any, else the one given. */
  function Base(events: seq<Event>, blank: Response): Response
    requires A.AllWellIndexed(events)
  {
    var shown := A.Fold(A.EMPTY, events).Visible();
    if shown.Some? then shown.value else blank
  }

  const NOTHING := Response("", RFailed, [], None, None, None, "")

  /** A stream its adapter did not end is closed with what was folded: completed,
      the response built from the request standing in only when nothing was
      shown, or, after an error, failed with that error.  That response is the
      one handed over to be saved.  A stream that had ended gets the sentinel. */
  lemma HttpCloses(previousId: string, sends: seq<(Event, bool)>, events: seq<Event>, error: Option<string>,
                   blank: Response, oks: (bool, bool, bool))
    requires Carries(previousId, sends, events) && forall send <- sends :: send.0.WellIndexed()
    requires !Fails(sends, |events|)
    ensures A.AllWellIndexed(events)
    ensures var s := SendAll(NewSink(previousId), sends);
            var e := s.Finish(error, blank, oks);
            if Ends(sends, |events|) then
              e.final == s.final && e.wire == s.wire + if oks.2 then [DoneMark] else []
            else
              && |e.final| == 1 && e.final[0].Some?
              && e.wire == s.wire + Closing(|events|, error, e.final[0].value, oks)
              && (error.None? ==>
                    var base := Base(events, blank);
                    EndedAs(base, e.final[0].value, RCompleted, base.error, previousId))
              && (error.Some? ==> EndedAs(Base(events, NOTHING), e.final[0].value, RFailed, error, previousId))
  {
    hide Carries, SendAll, Sink.Ended, NamedResponse, A.Fold;
    SinkTakes(NewSink(previousId), sends, events);
    var s := SendAll(NewSink(previousId), sends);
    assert s.number == |events| && s.Works();
    if !s.terminal {
      assert s.final == [];
      if error.None? { CompletedSink(s, blank, oks); } else { FailedSink(s, error.value, blank, oks); }
    } else {
      StaysEnded(s, error, blank, oks);
    }
  }

  lemma StaysEnded(s: Sink, error: Option<string>, blank: Response, oks: (bool, bool, bool))
    requires s.terminal
    ensures s.Ended(error, blank, oks) == s
  {
  }

  lemma CompletedSink(s: Sink, blank: Response, oks: (bool, bool, bool))
    requires s.Works() && !s.terminal && s.final == []
    ensures var e := s.Finish(None, blank, oks);
            && |e.final| == 1 && e.final[0].Some?
            && e.wire == s.wire + Closing(s.number, None, e.final[0].value, oks)
            && var base := (if s.acc.Visible().Some? then s.acc.Visible().value else blank);
               EndedAs(base, e.final[0].value, RCompleted, base.error, s.previousId)
  {
    var base := if s.acc.Visible().Some? then s.acc.Visible().value else blank;
    var last := Snapshot(Finished, Some(base.Complete()));
    StampNames(last, Stamp(last, s.previousId), s.previousId);
    WritesEnd(s, last, oks.0);
    hide Sink.Write, A.Acc.Add, A.Acc.Visible, Stamp;
    var e := s.Ended(None, blank, oks);
    assert e == s.Write(last, oks.0);
    assert s.wire + [] == s.wire;
  }

  /** A terminal snapshot is numbered, handed over and written as it is carried. */
  lemma WritesEnd(s: Sink, last: Event, ok: bool)
    requires last.Terminal() && last.response.Some? && last.response.value.status.Terminal()
    ensures var e, got := s.Write(last, ok), Stamp(last, s.previousId);
            && got.Snapshot? && got.kind == last.kind && got.response.Some?
            && e.final == s.final + [got.response] && e.down == !(ok && !s.down)
            && e.wire == s.wire + if ok && !s.down then [Sent(Frame(s.number, got))] else []
  {
    var got := Stamp(last, s.previousId);
    StampKeeps(last, s.previousId);
    EndTaken(s.acc, got.kind, got.response.value);
    assert got == Snapshot(got.kind, Some(got.response.value));
    assert s.wire + [] == s.wire;
  }

  lemma FailedSink(s: Sink, error: string, blank: Response, oks: (bool, bool, bool))
    requires s.Works() && !s.terminal && s.final == []
    ensures var e := s.Finish(Some(error), blank, oks);
            && |e.final| == 1 && e.final[0].Some?
            && e.wire == s.wire + Closing(s.number, Some(error), e.final[0].value, oks)
            && var base := (if s.acc.Visible().Some? then s.acc.Visible().value else NOTHING);
               EndedAs(base, e.final[0].value, RFailed, Some(error), s.previousId)
  {
    hide Sink.Write, A.Acc.Add, A.Acc.Visible, Stamp, NamedResponse;
    var failing := s.Write(ErrorEvent(error), oks.0);
    FailingSink(s, error, oks.0);
    var last := Snapshot(Failed, Some(failing.acc.Visible().value.Fail(error)));
    StampNames(last, Stamp(last, s.previousId), s.previousId);
    WritesEnd(failing, last, oks.1);
    var e, got := failing.Write(last, oks.1), Stamp(last, s.previousId);
    EndsFailing(s, error, blank, oks);
    SaysSame(last.response.value, got.response.value, s.previousId);
    assert s.wire + [] == s.wire;
  }

  lemma EndsFailing(s: Sink, error: string, blank: Response, oks: (bool, bool, bool))
    requires s.Works() && !s.terminal && s.Write(ErrorEvent(error), oks.0).acc.Visible().Some?
    ensures var failing := s.Write(ErrorEvent(error), oks.0);
            var last := Snapshot(Failed, Some(failing.acc.Visible().value.Fail(error)));
            s.Finish(Some(error), blank, oks) == failing.Write(last, oks.1).WriteDone(oks.2)
  {
    hide Sink.Write, A.Acc.Visible;
  }

  lemma SaysSame(sent: Response, got: Response, previousId: string)
    requires previousId != "" ==> NamedResponse(sent, got, previousId)
    requires previousId == "" ==> got == sent
    ensures NamedResponse(sent, got, previousId)
  {
  }

  lemma FailingSink(s: Sink, error: string, ok: bool)
    requires s.Works() && !s.terminal && s.final == []
    ensures var t := s.Write(ErrorEvent(error), ok);
            && t.previousId == s.previousId && t.number == s.number + 1 && t.final == [] && !t.terminal && t.down == !ok
            && t.wire == s.wire + (if ok then [Sent(Frame(s.number, ErrorEvent(error)))] else [])
            && t.acc.Visible().Some?
            && var base := (if s.acc.Visible().Some? then s.acc.Visible().value else NOTHING);
               t.acc.Visible().value == base.(status := RFailed, error := Some(error))
  {
    assert s.wire + [] == s.wire;
  }

  // ---- Over WebSocket ---------------------------------------------------------------------------------

  lemma {:induction false} WsTakes(previousId: string, sends: seq<(Event, bool)>, events: seq<Event>)
    requires Carries(previousId, sends, events) && forall send <- sends :: send.0.WellIndexed()
    ensures A.AllWellIndexed(events)
    ensures var s, written := W.WsSendAll(W.NewWsSink(previousId), sends), Written(sends, events);
            && s.previousId == previousId && s.number == |events|
            && s.frames == Numbered(written) && s.acc == A.Fold(A.EMPTY, written)
            && s.failed == Fails(sends, |events|) && s.terminal == (Ends(sends, |events|) && !s.failed)
    decreases |sends|
  {
    CarriedIndexed(previousId, sends, events);
    hide Carries, Fails, Ends, Written, A.Fold, Numbered, W.WsSink.Send;
    if sends == [] {
      NothingTaken(previousId, events);
    } else {
      var before, n := Front(sends), |events|;
      assert forall send <- before :: send in sends;
      assert Last(sends) in sends;
      TakesMost(previousId, sends, events);
      if n < |sends| {
        CarriesFront(previousId, sends, events);
        WsTakes(previousId, before, events);
        FrontLength(sends, events);
        RefusesOne(W.WsSendAll(W.NewWsSink(previousId), before), Last(sends).0, Last(sends).1);
      } else {
        CarriesFront(previousId, sends, Front(events));
        WsTakes(previousId, before, Front(events));
        FrontStops(previousId, sends, events);
        CarriedIndexed(previousId, before, Front(events));
        WsTakesLast(previousId, sends, events);
      }
    }
  }

  lemma NothingTaken(previousId: string, events: seq<Event>)
    requires Carries(previousId, [], events)
    ensures A.AllWellIndexed(events)
    ensures events == [] && Written([], events) == [] && !Fails([], 0) && !Ends([], 0) && Numbered([]) == []
    ensures A.Fold(A.EMPTY, events) == A.EMPTY
  {
  }

  lemma TakesMost(previousId: string, sends: seq<(Event, bool)>, events: seq<Event>)
    requires Carries(previousId, sends, events)
    ensures |events| <= |sends| && (|events| < |sends| ==> events != [] && Stops(sends[|events| - 1]))
  {
  }

  /** A run that stopped before the last send is the same run without it. */
  lemma FrontLength(sends: seq<(Event, bool)>, events: seq<Event>)
    requires 0 < |events| < |sends| && Stops(sends[|events| - 1])
    ensures Written(Front(sends), events) == Written(sends, events)
    ensures Fails(Front(sends), |events|) == Fails(sends, |events|)
    ensures Ends(Front(sends), |events|) == Ends(sends, |events|)
    ensures Fails(sends, |events|) || Ends(sends, |events|)
  {
    assert Front(sends)[|events| - 1] == sends[|events| - 1];
  }

  /** A run that took all sends had not stopped before the last. */
  lemma FrontStops(previousId: string, sends: seq<(Event, bool)>, events: seq<Event>)
    requires sends != [] && |events| == |sends| && Carries(previousId, sends, events)
    ensures !Fails(Front(sends), |events| - 1) && !Ends(Front(sends), |events| - 1)
    ensures Written(Front(sends), Front(events)) == Front(events)
    ensures Fails(sends, |events|) == !Last(sends).1 && Ends(sends, |events|) == Last(sends).0.Terminal()
    ensures Written(sends, events) == if Last(sends).1 then events else Front(events)
  {
    var n := |events|;
    if n > 1 {
      CarriedAt(previousId, sends, events, n - 2);
      assert Front(sends)[n - 2] == sends[n - 2];
    }
  }

  lemma RefusesOne(s: W.WsSink, ev: Event, ok: bool)
    requires ev.WellIndexed() && (s.failed || s.terminal)
    ensures s.Send(ev, ok) == s
  {
  }

  lemma CarriesFront(previousId: string, sends: seq<(Event, bool)>, events: seq<Event>)
    requires sends != [] && |events| < |sends|
    requires Carries(previousId, sends, events)
             || exists more :: Carries(previousId, sends, more) && |more| == |sends| && Front(more) == events
    ensures Carries(previousId, Front(sends), events)
  {
    hide Named, Stops;
    var before := Front(sends);
    assert forall k :: 0 <= k < |before| ==> before[k] == sends[k];
    if !Carries(previousId, sends, events) {
      var more :| Carries(previousId, sends, more) && |more| == |sends| && Front(more) == events;
      assert forall k :: 0 <= k < |events| ==> events[k] == more[k];
    }
  }

  lemma WsTakesLast(previousId: string, sends: seq<(Event, bool)>, events: seq<Event>)
    requires sends != [] && |events| == |sends| && A.AllWellIndexed(events)
    requires Carries(previousId, sends, events) && forall send <- sends :: send.0.WellIndexed()
    requires A.AllWellIndexed(Front(events)) && forall send <- Front(sends) :: send.0.WellIndexed()
    requires var s, written := W.WsSendAll(W.NewWsSink(previousId), Front(sends)), Front(events);
             && s.previousId == previousId && s.number == |events| - 1 && !s.failed && !s.terminal
             && s.frames == Numbered(written) && s.acc == A.Fold(A.EMPTY, written)
    ensures var s, written := W.WsSendAll(W.NewWsSink(previousId), sends), Written(sends, events);
            && s.previousId == previousId && s.number == |events|
            && s.frames == Numbered(written) && s.acc == A.Fold(A.EMPTY, written)
            && s.failed == Fails(sends, |events|) && s.terminal == (Ends(sends, |events|) && !s.failed)
  {
    hide Named, Carries, A.Fold, Stamp, Numbered, W.WsSink.Send, Fails, Ends, Written;
    CarriedAt(previousId, sends, events, |events| - 1);
    FrontStops(previousId, sends, events);
    assert Last(sends) in sends && events == Front(events) + [Last(events)];
    var before := W.WsSendAll(W.NewWsSink(previousId), Front(sends));
    WsTakesOne(before, Last(sends).0, Last(sends).1, Front(events), Last(events));
  }

  lemma FoldOn(written: seq<Event>, got: Event)
    requires A.AllWellIndexed(written) && got.WellIndexed()
    ensures A.AllWellIndexed(written + [got])
    ensures A.Fold(A.EMPTY, written + [got]) == A.Fold(A.EMPTY, written).Add(got)
  {
    hide A.Acc.Add;
    FoldOne(A.Fold(A.EMPTY, written), got);
    A.FoldAppend(A.EMPTY, written, [got]);
  }

  lemma NumberOn(written: seq<Event>, got: Event)
    ensures Numbered(written + [got]) == Numbered(written) + [Frame(|written|, got)]
  {
  }

  lemma WsTakesOne(s: W.WsSink, sent: Event, ok: bool, written: seq<Event>, got: Event)
    requires sent.WellIndexed() && got == Stamp(sent, s.previousId) && !s.failed && !s.terminal
    requires A.AllWellIndexed(written) && s.number == |written|
    requires s.frames == Numbered(written) && s.acc == A.Fold(A.EMPTY, written)
    ensures A.AllWellIndexed(written + [got])
    ensures var t, all := s.Send(sent, ok), if ok then written + [got] else written;
            && t.previousId == s.previousId && t.number == |written| + 1
            && t.frames == Numbered(all) && t.acc == A.Fold(A.EMPTY, all)
            && t.failed == !ok && t.terminal == (sent.Terminal() && ok)
  {
    hide A.Acc.Add, A.Fold, Stamp, Numbered;
    StampKeeps(sent, s.previousId);
    FoldOn(written, got);
    NumberOn(written, got);
  }

  /** Any run of sends on the WebSocket sink: the frames written are numbered
      from zero and carry the sends in order, snapshots naming the response
      continued and everything else as sent, and the response is folded from
      exactly these. */
  lemma WsCarries(previousId: string, sends: seq<(Event, bool)>, events: seq<Event>)
    requires Carries(previousId, sends, events) && forall send <- sends :: send.0.WellIndexed()
    ensures A.AllWellIndexed(events)
    ensures var s, written := W.WsSendAll(W.NewWsSink(previousId), sends), Written(sends, events);
            && |s.frames| == |written|
            && (forall k :: 0 <= k < |s.frames| ==> s.frames[k] == Frame(k, events[k]))
            && s.acc == A.Fold(A.EMPTY, written)
            && s.failed == Fails(sends, |events|) && s.terminal == (Ends(sends, |events|) && !s.failed)
  {
    hide Carries, W.WsSendAll;
    WsTakes(previousId, sends, events);
  }

  // ---- How a turn ends -----------------------------------------------------------------------------------

  /** How a WebSocket turn ends, from what its adapter sent and returned: dead
      when a write failed; an error when one was returned and nothing terminal
      sent; else the response folded from what was carried, which is the blank
      one only when nothing was shown, completed when nothing had ended it. */
  lemma TurnEnds(w: W.Ws, events: seq<Event>)
    requires Carries(w.req.previousId, w.sends, events)
    ensures A.AllWellIndexed(events)
    ensures var fails, ends, outcome := Fails(w.sends, |events|), Ends(w.sends, |events|), W.WsOutcome(w);
            && (outcome.Dead? <==> fails || (!ends && !w.error && !w.lastOk))
            && (outcome.Errored? <==> !fails && !ends && w.error)
            && (outcome.Ended? && ends ==> outcome.resp == A.Fold(A.EMPTY, events).Visible())
            && (outcome.Ended? && !ends ==>
                  outcome.resp.Some? && Completes(Base(events, w.blank), outcome.resp.value))
  {
    hide Carries, W.WsSendAll, A.Fold;
    WsTakes(w.req.previousId, w.sends, events);
  }

  /** `got` is `base` completed. */
  predicate Completes(base: Response, got: Response) {
    && got.status == RCompleted && got.id == base.id && got.output == base.output && got.error == base.error
    && got.reason == base.reason && got.previousId == base.previousId && got.details == base.details
  }

  /** The completion of a turn nothing ended is a frame of its own, the next one. */
  lemma WsCloses(w: W.Ws, events: seq<Event>)
    requires Carries(w.req.previousId, w.sends, events)
    requires W.WsOutcome(w).Ended? && !Ends(w.sends, |events|)
    ensures A.AllWellIndexed(events)
    ensures var s := W.WsSendAll(W.NewWsSink(w.req.previousId), w.sends);
            var e := s.Send(Snapshot(Finished, W.WsOutcome(w).resp), w.lastOk);
            && |e.frames| == |events| + 1 && Front(e.frames) == s.frames
            && Last(e.frames).number == |events|
            && Last(e.frames).event.Snapshot? && Last(e.frames).event.kind == Finished
            && Last(e.frames).event.response.Some?
            && var base := Base(events, w.blank);
               EndedAs(base, Last(e.frames).event.response.value, RCompleted, base.error, w.req.previousId)
  {
    hide Carries, W.WsSendAll, A.Fold, A.Acc.Add;
    WsTakes(w.req.previousId, w.sends, events);
    var last := Snapshot(Finished, W.WsOutcome(w).resp);
    StampNames(last, Stamp(last, w.req.previousId), w.req.previousId);
  }

  // ---- What a turn remembers -------------------------------------------------------------------------------

  /** The turn gets as far as its adapter. */
  predicate Runs(s: W.Session, w: W.Ws) {
    var r := W.Resolve(w.req, s.Stores());
    && W.Valid(w.req, w.acceptable) && r.ok
    && (r.cont.id == "" || r.cont.resolved || (w.req.stored && s.shared.None?))
  }

  /** A turn whose writes all succeed and whose adapter returns no error is
      remembered under the id of the response a reader folds from it, ended or
      not, as the request input and then that response's output: on the
      connection, and in the shared store when it asked to be stored. */
  lemma TurnRemembers(s: W.Session, w: W.Ws, events: seq<Event>)
    requires s.cache.Valid() && (s.shared.Some? ==> s.shared.value.Valid())
    requires Carries(w.req.previousId, w.sends, events) && Runs(s, w)
    requires w.lastOk && !w.error && forall send <- w.sends :: send.1
    ensures A.AllWellIndexed(events)
    ensures var t, input, base := s.Turn(w), W.Resolve(w.req, s.Stores()).request.input, Base(events, w.blank);
            var ends, folded := Ends(w.sends, |events|), A.Fold(A.EMPTY, events).Visible();
            base.id != "" && (ends ==> folded.Some? && !base.status.RFailed?) ==>
              && t.cache.Load(base.id) == Some(input + base.output)
              && (w.req.stored && s.shared.Some? ==> t.shared.value.Load(base.id) == Some(input + base.output))
              && (!w.req.stored ==> t.shared == s.shared)
  {
    TurnEnds(w, events);
    NoWriteFails(w.sends, |events|);
    var outcome := W.WsOutcome(w);
    hide W.WsOutcome, A.Fold, W.Session.Turn, Carries, Fails, Ends, W.Resolve, W.AllAnswered;
    if outcome.Ended? && outcome.resp.Some? && outcome.resp.value.id != "" && !outcome.resp.value.status.RFailed? {
      W.FinishedTurnRemembers(s, w, outcome.resp.value);
    }
  }

  lemma NoWriteFails(sends: seq<(Event, bool)>, n: nat)
    requires forall send <- sends :: send.1
    ensures !Fails(sends, n)
  {
    if 0 < n <= |sends| { assert sends[n - 1] in sends; }
  }

  lemma StampedEnd(sent: Event, r: Response, previousId: string)
    requires sent.Snapshot? && sent.response == Some(r)
    ensures var got := Stamp(sent, previousId);
            && got.Snapshot? && got.response.Some? && got == Snapshot(got.kind, got.response)
            && got.response.value.status == r.status && NamedResponse(r, got.response.value, previousId)
  {
  }

  /** A terminal snapshot's own list is what is remembered: the response folded
      from a run that ends in one is the response it carried. */
  lemma EndedResponse(previousId: string, sends: seq<(Event, bool)>, events: seq<Event>, r: Response)
    requires Carries(previousId, sends, events) && forall send <- sends :: send.0.WellIndexed()
    requires Ends(sends, |events|) && sends[|events| - 1].0.response == Some(r) && r.status.Terminal()
    ensures A.AllWellIndexed(events)
    ensures var folded := A.Fold(A.EMPTY, events).Visible();
            folded.Some? && NamedResponse(r, folded.value, previousId)
  {
    hide Carries, A.Acc.Add, A.Fold, Stamp, Named, NamedResponse;
    CarriedIndexed(previousId, sends, events);
    CarriedAt(previousId, sends, events, |events| - 1);
    var before, last := Front(events), Last(events);
    StampedEnd(sends[|events| - 1].0, r, previousId);
    assert events == before + [last];
    FoldOn(before, last);
    EndTaken(A.Fold(A.EMPTY, before), last.kind, last.response.value);
  }

  /** The same over HTTP, when no write failed: the response handed over is saved
      under its id as the request's conversation and then its output. */
  lemma AnswerRemembers(shared: Store<W.History>, req: W.Request, acceptable: bool, sends: seq<(Event, bool)>,
                        events: seq<Event>, blank: Response, oks: (bool, bool, bool))
    requires shared.Valid() && req.stored && W.Valid(req, acceptable) && W.HttpResolve(Some(shared), req).ok
    requires Carries(req.previousId, sends, events) && forall send <- sends :: send.0.WellIndexed()
    requires !Fails(sends, |events|)
    ensures A.AllWellIndexed(events)
    ensures var finals := SendAll(NewSink(req.previousId), sends).Finish(None, blank, oks).final;
            var input, base := W.HttpResolve(Some(shared), req).request.input, Base(events, blank);
            var ends, folded := Ends(sends, |events|), A.Fold(A.EMPTY, events).Visible();
            base.id != "" && (ends ==> folded.Some? && base.status.Terminal() && !base.status.RFailed?) ==>
              && var t := W.HttpTurn(Some(shared), W.Http(req, acceptable, finals));
              && t.Some? && t.value.Load(base.id) == Some(input + base.output)
  {
    hide Carries, SendAll, Sink.Finish, A.Fold, W.HttpTurn, W.Resolve, W.AllAnswered, Store.Load;
    HttpCarries(req.previousId, sends, events);
    HttpCloses(req.previousId, sends, events, None, blank, oks);
    var finals := SendAll(NewSink(req.previousId), sends).Finish(None, blank, oks).final;
    if |finals| == 1 && W.WorthSaving(req, finals[0]) {
      assert finals == [Some(finals[0].value)];
      W.FinishedAnswerRemembers(shared, req, acceptable, finals[0].value);
    }
  }
}

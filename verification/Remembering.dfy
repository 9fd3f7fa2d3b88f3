/** From an adapter's calls to the conversation a later turn continues: what an
    emitter wrote is what the stores hold. */
module Remembering {
  import opened Types
  import opened Wrappers
  import opened EmitterSpec
  import opened Carried
  import A = AccumulatorSpec
  import K = SinkSpec
  import R = Reaching
  import T = TransportCloses
  import V = ValidatorSpec
  import opened StoreSpec
  import W = ContinuationSpec
  import E = EventsTrue

  // ---- The id a reader folds ---------------------------------------------------------------

  /** Every snapshot among the events is of the response `id`. */
  ghost predicate AllOf(events: seq<Event>, id: string) {
    forall ev <- events :: ev.Snapshot? && ev.response.Some? ==> ev.response.value.id == id
  }

  lemma {:induction false} FoldId(a: A.Acc, events: seq<Event>, id: string)
    requires A.AllWellIndexed(events) && AllOf(events, id)
    requires a.resp.Some? && a.resp.value.id == id
    ensures var b := A.Fold(a, events); b.resp.Some? && b.resp.value.id == id
    decreases |events|
  {
    hide A.Acc.Add;
    if events != [] {
      AddId(a, events[0], id);
      FoldId(a.Add(events[0]), events[1..], id);
    }
  }

  lemma AddId(a: A.Acc, ev: Event, id: string)
    requires ev.WellIndexed() && a.resp.Some? && a.resp.value.id == id
    requires ev.Snapshot? && ev.response.Some? ==> ev.response.value.id == id
    ensures a.Add(ev).resp.Some? && a.Add(ev).resp.value.id == id
  {
  }

  /** What a reader of the stamped events of a run holds: the emitter's id and,
      with no item open, its output. */
  lemma FoldedRun(e: Producer, resp: Response, previousId: string)
    requires R.Reached(e, resp) && e.sent != [] && e.Live().None?
    ensures A.AllWellIndexed(T.StampAll(e.sent, previousId)) && T.EndsOnce(e.sent)
    ensures var seen := A.Fold(A.EMPTY, T.StampAll(e.sent, previousId)).Visible();
            seen.Some? && seen.value.id == e.resp.id && seen.value.output == e.resp.output
  {
    hide A.Fold, T.Ran, V.Run, A.Acc.Add, E.EventTrue, V.Accepted;
    R.ReachedHolds(e, resp, false);
    RanRun(e, resp);
    RanParts(e);
    T.FoldedLists(e, previousId, false);
    var stamped := T.StampAll(e.sent, previousId);
    forall ev | ev in stamped ensures ev.Snapshot? && ev.response.Some? ==> ev.response.value.id == e.resp.id {
      var k :| 0 <= k < |stamped| && stamped[k] == ev;
      StampedId(e, e.sent[k], previousId);
    }
    FirstShows(e, stamped[0], previousId);
    assert stamped == [stamped[0]] + stamped[1..] && stamped[0] in stamped;
    assert AllOf(stamped[1..], e.resp.id);
    A.FoldAppend(A.EMPTY, [stamped[0]], stamped[1..]);
    FoldOne(A.EMPTY, stamped[0]);
    FoldId(A.EMPTY.Add(stamped[0]), stamped[1..], e.resp.id);
  }

  lemma RanRun(e: Producer, resp: Response)
    requires R.Reached(e, resp)
    ensures T.Ran(e, false)
  {
    hide T.Ran;
    NewSound(resp);
    var calls :| R.RunsTo(calls, resp, e);
    T.RunRan(resp, calls, false);
  }

  lemma RanParts(e: Producer)
    requires T.Ran(e, false)
    ensures A.AllWellIndexed(e.sent) && T.EndsOnce(e.sent)
    ensures e.sent != [] ==>
              && e.sent[0].Snapshot? && e.sent[0].kind == Created && Last(e.sent).Terminal() == e.terminal
  {
  }

  lemma StampedId(e: Producer, sent: Event, previousId: string)
    requires E.EventTrue(e, sent)
    ensures var got := K.Stamp(sent, previousId);
            got.Snapshot? ==> sent.Snapshot? && got.response.Some? && got.response.value.id == e.resp.id
  {
  }

  lemma FirstShows(e: Producer, first: Event, previousId: string)
    requires e.sent != [] && E.EventTrue(e, e.sent[0]) && e.sent[0].Snapshot? && first == K.Stamp(e.sent[0], previousId)
    requires first.WellIndexed()
    ensures A.EMPTY.Add(first).resp.Some? && A.EMPTY.Add(first).resp.value.id == e.resp.id
  {
  }

  // ---- Remembered ---------------------------------------------------------------------------

  lemma DeliveringCarries(e: Producer, previousId: string)
    requires T.EndsOnce(e.sent)
    ensures Carries(previousId, T.Delivering(e.sent), T.StampAll(e.sent, previousId))
    ensures forall send <- T.Delivering(e.sent) :: send.1
  {
    var sends, events := T.Delivering(e.sent), T.StampAll(e.sent, previousId);
    forall k | 0 <= k < |events| ensures Named(sends[k].0, events[k], previousId) {
      StampNames(e.sent[k], events[k], previousId);
    }
  }

  /** The response did not end in failure. */
  predicate NotFailed(e: Producer) { e.sent != [] && Last(e.sent).Terminal() ==> Last(e.sent).kind != Failed }

  /** An adapter drives an emitter through any calls and leaves no item open,
      whether or not it ended the response.  What the connection remembers
      under the emitter's id, and the shared store when asked, is the request's
      conversation and then the emitter's own output, item for item. */
  lemma EmitterRemembered(s: W.Session, w: W.Ws, e: Producer, resp: Response)
    requires s.cache.Valid() && (s.shared.Some? ==> s.shared.value.Valid()) && Runs(s, w)
    requires R.Reached(e, resp) && e.sent != [] && e.Live().None? && e.resp.id != "" && NotFailed(e)
    requires w.sends == T.Delivering(e.sent) && w.lastOk && !w.error
    ensures var t, input := s.Turn(w), W.Resolve(w.req, s.Stores()).request.input;
            && t.cache.Load(e.resp.id) == Some(input + e.resp.output)
            && (w.req.stored && s.shared.Some? ==> t.shared.value.Load(e.resp.id) == Some(input + e.resp.output))
            && (!w.req.stored ==> t.shared == s.shared)
  {
    var previousId := w.req.previousId;
    var events := T.StampAll(e.sent, previousId);
    hide Runs, R.Reached, A.Fold, W.Session.Turn, W.Resolve, Carries, NotFailed, T.EndsOnce, T.Delivering, Ends;
    FoldedRun(e, resp, previousId);
    DeliveringCarries(e, previousId);
    RunNotFailed(e, resp, previousId);
    TurnRemembers(s, w, events);
  }

  lemma RunNotFailed(e: Producer, resp: Response, previousId: string)
    requires R.Reached(e, resp) && e.sent != [] && e.Live().None? && NotFailed(e)
    requires A.AllWellIndexed(T.StampAll(e.sent, previousId))
    ensures var folded := A.Fold(A.EMPTY, T.StampAll(e.sent, previousId)).Visible();
            Ends(T.Delivering(e.sent), |e.sent|) ==>
              folded.Some? && folded.value.status.Terminal() && !folded.value.status.RFailed?
  {
    var events, sends := T.StampAll(e.sent, previousId), T.Delivering(e.sent);
    hide V.Accepted, E.EventTrue, V.Run, A.Fold, R.Reached, Carries, T.Ran, T.EndsOnce;
    if Ends(sends, |e.sent|) {
      R.ReachedHolds(e, resp, false);
      RanRun(e, resp);
      RanParts(e);
      DeliveringCarries(e, previousId);
      V.AcceptedFrame(Numbered(e.sent), false);
      assert Last(e.sent).response.value.status.Terminal() && !Last(e.sent).response.value.status.RFailed?;
      DeliveredIndexed(e.sent);
      EndedResponse(previousId, sends, events, Last(e.sent).response.value);
    }
  }

  lemma DeliveredIndexed(events: seq<Event>)
    requires A.AllWellIndexed(events)
    ensures forall send <- T.Delivering(events) :: send.0.WellIndexed()
  {
  }

  /** The same over HTTP, whichever of the closing writes succeed: the shared
      store holds the conversation and then the emitter's own output. */
  lemma EmitterAnswerRemembered(shared: Store<W.History>, req: W.Request, acceptable: bool, e: Producer, resp: Response,
                                blank: Response, oks: (bool, bool, bool))
    requires shared.Valid() && req.stored && W.Valid(req, acceptable) && W.HttpResolve(Some(shared), req).ok
    requires R.Reached(e, resp) && e.sent != [] && e.Live().None? && e.resp.id != "" && NotFailed(e)
    ensures A.AllWellIndexed(e.sent) && forall send <- T.Delivering(e.sent) :: send.0.WellIndexed()
    ensures var finals := K.SendAll(K.NewSink(req.previousId), T.Delivering(e.sent)).Finish(None, blank, oks).final;
            var t := W.HttpTurn(Some(shared), W.Http(req, acceptable, finals));
            t.Some? && t.value.Load(e.resp.id)
                       == Some(W.HttpResolve(Some(shared), req).request.input + e.resp.output)
  {
    var previousId := req.previousId;
    var events := T.StampAll(e.sent, previousId);
    hide R.Reached, A.Fold, W.HttpTurn, W.Resolve, Carries, T.EndsOnce, T.Delivering, Ends, K.SendAll, K.Sink.Finish;
    hide T.Ran, E.EventTrue, NotFailed;
    FoldedRun(e, resp, previousId);
    DeliveringCarries(e, previousId);
    RunNotFailed(e, resp, previousId);
    RanRun(e, resp);
    RanParts(e);
    DeliveredIndexed(e.sent);
    NoWriteFails(T.Delivering(e.sent), |events|);
    AnswerRemembers(shared, req, acceptable, T.Delivering(e.sent), events, blank, oks);
  }
}

/** What some run of calls leaves: whoever drives the emitter, everything proved
    of runs holds of it. */
module Reaching {
  import opened EmitterSpec
  import opened Types
  import opened Wrappers
  import A = AccumulatorSpec
  import C = ConsumerAgrees
  import F = FinalItems
  import I = ItemStatus
  import P = ProducerConforms
  import T = EventsTrue
  import V = ValidatorSpec

  /** The calls of a run, if any, that lead from a new emitter here. */
  ghost predicate RunsTo(calls: seq<Call>, resp: Response, e: Producer)
    requires Fresh(resp)
  {
    NewSound(resp);
    AllowsAll(NewProducer(resp), calls) && DoAll(NewProducer(resp), calls) == e
  }

  ghost predicate Reached(e: Producer, resp: Response) { Fresh(resp) && exists calls :: RunsTo(calls, resp, e) }

  lemma StartReached(resp: Response)
    requires Fresh(resp)
    ensures Reached(NewProducer(resp), resp)
  {
    NewSound(resp);
    assert RunsTo([], resp, NewProducer(resp));
  }

  lemma {:induction false} OneMore(e: Producer, calls: seq<Call>, call: Call)
    requires e.Sound() && AllowsAll(e, calls) && DoAll(e, calls).Allows(call)
    ensures AllowsAll(e, calls + [call]) && DoAll(e, calls + [call]) == DoAll(e, calls).Do(call)
    decreases |calls|
  {
    hide Producer.Do, Producer.Allows, Producer.Sound;
    var all := calls + [call];
    DoSound(DoAll(e, calls), call);
    if calls == [] {
      assert all == [call] && all[0] == call && all[1..] == [];
    } else {
      assert all[0] == calls[0] && all[1..] == calls[1..] + [call];
      DoSound(e, calls[0]);
      OneMore(e.Do(calls[0]), calls[1..], call);
    }
  }

  lemma DoReached(e: Producer, call: Call, resp: Response)
    requires Reached(e, resp) && e.Sound() && e.Allows(call)
    ensures Reached(e.Do(call), resp)
  {
    hide Producer.Do, Producer.Allows, Producer.Sound;
    NewSound(resp);
    var calls :| RunsTo(calls, resp, e);
    OneMore(NewProducer(resp), calls, call);
    assert RunsTo(calls + [call], resp, e.Do(call));
  }

  /** Everything reached passes the checker at every prefix, is accepted exactly
      when it has ended, folds to its own output, has only settled items, and
      every event in it is true. */
  lemma ReachedHolds(e: Producer, resp: Response, allowReuse: bool)
    requires Reached(e, resp)
    ensures e.Sound()
    ensures forall k :: 0 <= k <= |e.sent| ==> V.Run(V.Start(allowReuse), 0, e.sent[..k]).Some?
    ensures e.terminal <==> V.Accepted(Numbered(e.sent), allowReuse)
    ensures A.AllWellIndexed(e.sent) && (e.Live().None? ==> A.Fold(A.EMPTY, e.sent).Output() == e.resp.output)
    ensures I.Settled(e) && forall ev <- e.sent :: T.EventTrue(e, ev)
    ensures e.terminal ==>
              && e.sent != [] && Last(e.sent).Terminal() && Last(e.sent).response.Some?
              && Last(e.sent).response.value.output == F.DoneItems(e.sent)
  {
    hide V.Run, V.Accepted, Producer.Do, Producer.Allows, A.Fold, T.EventTrue, I.Settled, F.DoneItems;
    NewSound(resp);
    var calls :| RunsTo(calls, resp, e);
    P.EveryRunConforms(resp, calls, allowReuse);
    C.EveryRunAgrees(resp, calls);
    I.EveryItemSettles(resp, calls);
    T.EveryEventTrue(resp, calls);
    F.TerminalListsDone(resp, calls);
  }
}

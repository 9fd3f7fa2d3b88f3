/** The conversation store, the handler and the WebSocket session as the objects
    a server runs: fields edited in place turn by turn. */
module Continuation {
  import opened Types
  import opened Wrappers
  import opened Spec = ContinuationSpec
  import opened StoreSpec
  import A = AccumulatorSpec
  import Accumulator
  import K = SinkSpec
  import SseSink

  class MemoryStore {
    const capacity: nat
    var order: seq<string>
    var items: map<string, History>

    ghost function State(): Store<History>
      reads this
    {
      Store(capacity, order, items)
    }

    constructor (capacity: int)
      ensures State() == NewStore(capacity)
    {
      this.capacity, order, items := if capacity < 1 then 1 else capacity, [], map[];
    }

    method Load(id: string) returns (history: Option<History>)
      ensures history == State().Load(id)
    {
      history := if id in items then Some(items[id]) else None;
    }

    /** Record the history, evicting the oldest entries beyond the capacity. */
    method Save(id: string, history: History)
      modifies this
      ensures State() == old(State()).Save(id, history)
    {
      if id !in items { order := order + [id]; }
      items := items[id := history];
      while |order| > capacity
        invariant State().Evict() == old(State()).Save(id, history)
        decreases |order|
      {
        var oldest := order[0];
        order := order[1..];
        items := items - {oldest};
      }
    }

    method Delete(id: string)
      requires State().Valid()
      modifies this
      ensures State() == old(State()).Delete(id) && State().Valid()
    {
      DeleteRefines(State(), id);
      if id !in items { return; }
      ghost var was := order;
      assert id in was;
      items := items - {id};
      var i := 0;
      while i < |order| && order[i] != id
        invariant 0 <= i <= |order| && order == was && (forall j :: 0 <= j < i ==> order[j] != id)
      {
        i := i + 1;
      }
      WithoutAt(was, id, i);
      order := order[..i] + order[i + 1..];
    }

    method Len() returns (n: nat)
      requires State().Valid()
      ensures n == |order|
    {
      n := |items|;
      SameSize(order, items.Keys);
    }
  }

  /** A list without repetitions is as long as the set of its elements is big. */
  lemma {:induction false} SameSize(order: seq<string>, keys: set<string>)
    requires (forall i, j :: 0 <= i < j < |order| ==> order[i] != order[j]) && forall id :: id in order <==> id in keys
    ensures |order| == |keys|
  {
    if order == [] {
      assert keys == {};
    } else {
      var last := Last(order);
      forall id ensures id in Front(order) <==> id in keys - {last} {
        assert order == Front(order) + [last];
      }
      SameSize(Front(order), keys - {last});
    }
  }

  /** The place of the first output that answers no call before it. */
  method CheckFunctionCallOutputs(items: History) returns (bad: Option<nat>)
    ensures bad.None? <==> AllAnswered(items)
    ensures bad.Some? ==> bad.value < |items| && !Answered(items, bad.value) && forall i ::
              0 <= i < bad.value ==> Answered(items, i)
  {
    var calls: set<string> := {};
    var hidden := false;
    for i := 0 to |items|
      invariant forall k :: 0 <= k < i ==> Answered(items, k)
      invariant hidden <==> exists j :: 0 <= j < i && Opaque(items[j])
      invariant forall id :: id in calls <==> exists j :: 0 <= j < i && items[j].FunctionCall? && items[j].callId == id
    {
      var item := items[i];
      if item.FunctionCall? {
        calls := calls + {item.callId};
      } else if item.FunctionCallOutput? {
        if item.callId !in calls && !hidden {
          forall j | 0 <= j < i ensures !AnswersAt(items, i, j) {
            assert !Opaque(items[j]);
          }
          assert !Answered(items, i);
          return Some(i);
        }
        assert Answered(items, i) by {
          var j :| 0 <= j < i && (Opaque(items[j]) || (items[j].FunctionCall? && items[j].callId == item.callId));
          assert AnswersAt(items, i, j);
        }
      } else if Opaque(item) {
        hidden := true;
      }
    }
    bad := None;
  }

  /** The request as the transports rewrite it. */
  class PendingRequest {
    var input: History
    var previousId: string
    const stored: bool

    constructor (req: Request)
      ensures State() == req
    {
      input, previousId, stored := req.input, req.previousId, req.stored;
    }

    ghost function State(): Request
      reads this
    {
      Request(input, previousId, stored)
    }
  }

  /** The stores that are there; a nil one is skipped. */
  ghost function StatesOf(stores: seq<MemoryStore?>): seq<Store<History>>
    reads stores
  {
    if stores == [] then []
    else if stores[0] == null then StatesOf(stores[1..])
    else [stores[0].State()] + StatesOf(stores[1..])
  }

  /** Look the previous response up in the stores in order and inline it. */
  method ResolveContinuation(req: PendingRequest, stores: seq<MemoryStore?>) returns (cont: Spec.Continuation, ok: bool)
    modifies req
    ensures Resolution(req.State(), cont, ok) == Resolve(old(req.State()), StatesOf(stores))
  {
    cont := Spec.Continuation(req.previousId, false);
    if cont.id == "" { return cont, true; }
    for k := 0 to |stores|
      invariant Hit(StatesOf(stores), cont.id) == Hit(StatesOf(stores[k..]), cont.id)
      invariant req.State() == old(req.State())
    {
      assert stores[k..][0] == stores[k] && stores[k..][1..] == stores[k + 1..];
      if stores[k] == null { continue; }
      var history := stores[k].Load(cont.id);
      if history.None? {
        assert StatesOf(stores[k..])[1..] == StatesOf(stores[k + 1..]);
        continue;
      }
      var merged := history.value + req.input;
      cont := Spec.Continuation(cont.id, true);
      var bad := CheckFunctionCallOutputs(merged);
      if bad.Some? { return cont, false; }
      req.input, req.previousId := merged, "";
      return cont, true;
    }
    assert stores[|stores|..] == [];
    ok := true;
  }

  // ---- Over HTTP -------------------------------------------------------------------------------

  class Handler {
    const store: MemoryStore?

    constructor (store: MemoryStore?)
      ensures this.store == store
    {
      this.store := store;
    }

    ghost function Shared(): Option<Store<History>>
      reads store
    {
      if store == null then None else Some(store.State())
    }

    /** Apply the shared store to a request; an unknown id is an error. */
    method Resolve(req: PendingRequest) returns (cont: Spec.Continuation, ok: bool)
      modifies req
      ensures Resolution(req.State(), cont, ok) == HttpResolve(Shared(), old(req.State()))
    {
      if store == null { return Spec.Continuation(req.previousId, false), true; }
      assert StatesOf([store]) == [store.State()] by {
        assert ([store])[1..] == [] && StatesOf([]) == [];
      }
      cont, ok := ResolveContinuation(req, [store]);
      if ok && cont.id != "" && !cont.resolved { ok := false; }
    }

    /** Record a stored response that reached completed or incomplete. */
    method Save(req: Request, resp: Option<Response>)
      modifies store
      ensures Shared() == SaveShared(old(Shared()), req, resp)
    {
      if store == null || resp.None? || resp.value.id == "" || !req.stored { return; }
      if !resp.value.status.Terminal() || resp.value.status.RFailed? { return; }
      store.Save(resp.value.id, Remembered(req, resp.value));
    }

    method SaveAll(req: Request, finals: seq<Option<Response>>)
      modifies store
      ensures Shared() == SaveFinals(old(Shared()), req, finals)
    {
      for k := 0 to |finals|
        invariant Shared() == SaveFinals(old(Shared()), req, finals[..k])
      {
        Extends(finals, k);
        Save(req, finals[k]);
      }
      assert finals[..|finals|] == finals;
    }

    /** Check and resolve one request; nothing when it is refused. */
    method Begin(req: Request, acceptable: bool) returns (pending: Option<(Request, Spec.Continuation)>)
      ensures var r := HttpResolve(Shared(), req);
              pending == if Valid(req, acceptable) && r.ok then Some((r.request, r.cont)) else None
    {
      if !acceptable { return None; }
      if req.previousId == "" {
        var bad := CheckFunctionCallOutputs(req.input);
        if bad.Some? { return None; }
      }
      var box := new PendingRequest(req);
      var cont, ok := Resolve(box);
      if !ok { return None; }
      pending := Some((Request(box.input, box.previousId, box.stored), cont));
    }

    /** A plain request: the adapter's answer, if any, is saved and returned
        naming the response it continued. */
    method Create(req: Request, acceptable: bool, answer: Option<Response>) returns (reply: Option<Response>)
      modifies store
      ensures Shared() == HttpTurn(old(Shared()), Http(req, acceptable, if answer.Some? then [answer] else []))
      ensures var r := HttpResolve(old(Shared()), req);
              reply == if !Valid(req, acceptable) || !r.ok || answer.None? then None
                       else if r.cont.resolved && answer.value.previousId.None?
                       then Some(answer.value.(previousId := Some(req.previousId))) else answer
      ensures reply.Some? ==> answer.Some? && (reply.value == answer.value
                                               || reply.value == answer.value.(previousId := Some(req.previousId)))
    {
      var begun := Begin(req, acceptable);
      if begun.None? { return None; }
      var (resolved, cont) := begun.value;
      if answer.None? {
        assert SaveFinals(Shared(), resolved, []) == Shared();
        return None;
      }
      var resp := answer.value;
      if cont.resolved && resp.previousId.None? { resp := resp.(previousId := Some(cont.id)); }
      Save(resolved, Some(resp));
      OneFinal(old(Shared()), resolved, resp, answer.value);
      reply := Some(resp);
    }

    /** A streamed request: the frames, and in the store the response the
        terminal event carried. */
    method Stream(req: Request, acceptable: bool, sends: seq<(Event, bool)>, error: Option<string>, blank: Response,
                  oks: (bool, bool, bool)) returns (wire: seq<K.Wire>)
      requires forall send <- sends :: send.0.WellIndexed()
      modifies store
      ensures var r := HttpResolve(old(Shared()), req);
              var s := K.SendAll(K.NewSink(r.cont.id), sends);
              var t := if error.Some? && !s.sent then s else s.Finish(error, blank, oks);
              && Shared() == HttpTurn(old(Shared()), Http(req, acceptable, t.final))
              && wire == if Valid(req, acceptable) && r.ok then t.wire else []
    {
      var begun := Begin(req, acceptable);
      if begun.None? { return []; }
      var (resolved, cont) := begun.value;
      var finals, plain;
      wire, finals, plain := SseSink.StreamResponse(cont.id, sends, error, blank, oks);
      SaveAll(resolved, finals);
    }
  }

  /** previous_response_id plays no part in what is saved. */
  lemma OneFinal(shared: Option<Store<History>>, req: Request, resp: Response, answer: Response)
    requires resp == answer || resp == answer.(previousId := resp.previousId)
    ensures SaveShared(shared, req, Some(resp)) == SaveFinals(shared, req, [Some(answer)])
  {
    assert Front([Some(answer)]) == [];
  }

  // ---- Over WebSocket -----------------------------------------------------------------------------

  /** The sink of one WebSocket turn: one text frame per event. */
  class WsSink {
    const acc: Accumulator.Accumulator
    const previousId: string
    var number: nat
    var frames: seq<Frame>
    var terminal: bool
    var failed: bool

    ghost function State(): Spec.WsSink
      reads this, acc
    {
      Spec.WsSink(previousId, number, acc.State(), frames, terminal, failed)
    }

    constructor (previousId: string)
      ensures State() == NewWsSink(previousId) && acc.State().Consistent() && fresh(acc)
    {
      this.previousId := previousId;
      acc := new Accumulator.Accumulator();
      number, frames, terminal, failed := 0, [], false, false;
    }

    /** Number, write and only then record an event. */
    method Send(ev: Event, ok: bool)
      requires ev.WellIndexed() && acc.State().Consistent()
      modifies this, acc
      ensures State() == old(State()).Send(ev, ok) && acc.State().Consistent()
    {
      if failed || terminal { return; }
      K.StampKeeps(ev, previousId);
      var stamped := K.Stamp(ev, previousId);
      var at := number;
      number := number + 1;
      if !ok {
        failed := true;
        return;
      }
      frames := frames + [Frame(at, stamped)];
      A.AddConsistent(acc.State(), stamped);
      acc.Add(stamped);
      if ev.Terminal() { terminal := true; }
    }
  }

  class WsSession {
    const cache: MemoryStore
    const store: MemoryStore?

    ghost function State(): Spec.Session
      reads cache, store
    {
      Spec.Session(cache.State(), if store == null then None else Some(store.State()))
    }

    ghost predicate Sound()
      reads cache
    {
      cache.State().Valid() && store != cache
    }

    constructor (cacheSize: int, store: MemoryStore?)
      ensures fresh(cache) && this.store == store && Sound() && cache.State() == NewStore(cacheSize)
    {
      cache := new MemoryStore(cacheSize);
      this.store := store;
    }

    /** Forget the response a failed turn continued from. */
    method Drop(cont: Spec.Continuation)
      requires Sound()
      modifies cache
      ensures Sound() && State() == old(State()).Drop(cont)
    {
      if cont.resolved { cache.Delete(cont.id); }
    }

    method Keep(req: Request, resp: Response)
      requires Sound()
      modifies cache, store
      ensures Sound() && State() == old(State()).Keep(req, resp)
    {
      SaveRefines(cache.State(), resp.id, Remembered(req, resp));
      cache.Save(resp.id, Remembered(req, resp));
      if store != null && req.stored { store.Save(resp.id, Remembered(req, resp)); }
    }

    /** Run the adapter of one turn to its end. */
    method Outcome(w: Ws) returns (outcome: Spec.Outcome)
      ensures outcome == WsOutcome(w)
    {
      var sink := new WsSink(w.req.previousId);
      for k := 0 to |w.sends|
        invariant fresh(sink) && fresh(sink.acc) && sink.acc.State().Consistent()
        invariant (forall send <- w.sends[..k] :: send.0.WellIndexed())
        invariant sink.State() == WsSendAll(NewWsSink(w.req.previousId), w.sends[..k])
      {
        Extends(w.sends, k);
        assert w.sends[k] in w.sends && forall send <- w.sends[..k + 1] :: send in w.sends;
        sink.Send(w.sends[k].0, w.sends[k].1);
      }
      assert w.sends[..|w.sends|] == w.sends;
      if sink.failed { return Dead; }
      if w.error && !sink.terminal { return Errored; }
      var folded := sink.acc.Visible();
      if sink.terminal { return Ended(folded); }
      var done := (if folded.Some? then folded.value else w.blank).Complete();
      sink.Send(Snapshot(Finished, Some(done)), w.lastOk);
      outcome := if sink.failed then Dead else Ended(Some(done));
    }

    /** One create message: resolve, run, remember. */
    method Turn(w: Ws)
      requires Sound()
      modifies cache, store
      ensures Sound() && State() == old(State()).Turn(w)
    {
      hide WsOutcome, Store.Save, Store.Delete;
      if !w.acceptable { return; }
      if w.req.previousId == "" {
        var bad := CheckFunctionCallOutputs(w.req.input);
        if bad.Some? { return; }
      }
      var req := new PendingRequest(w.req);
      BothStores();
      var cont, ok := ResolveContinuation(req, [cache, store]);
      if !ok {
        Drop(cont);
        return;
      }
      if cont.id != "" && !cont.resolved && (!w.req.stored || store != null) { return; }
      var outcome := Outcome(w);
      match outcome {
        case Dead =>
        case Errored => Drop(cont);
        case Ended(resp) =>
          if resp.None? || resp.value.id == "" { return; }
          if resp.value.status.RFailed? {
            Drop(cont);
            return;
          }
          Keep(Request(req.input, req.previousId, req.stored), resp.value);
      }
    }

    lemma BothStores()
      ensures StatesOf([cache, store]) == State().Stores()
    {
      var both: seq<MemoryStore?> := [cache, store];
      assert both[1..] == [store] && ([store])[1..] == [];
      assert StatesOf([]) == [];
    }
  }
}

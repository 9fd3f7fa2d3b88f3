/** What the stores hold after any run of turns: for every id the whole chain of
    inputs and outputs that leads to it. */
module Chains {
  import opened Types
  import opened Wrappers
  import opened StoreSpec
  import opened ContinuationSpec

  /** One turn of a conversation: the id of its response, the id of the response
      it named as previous, what it put in and what it got out. */
  datatype Link = Link(id: string, previous: string, input: History, output: History)

  type Chain = seq<Link>

  /** input1 ++ output1 ++ ... ++ inputk ++ outputk */
  function Flat(chain: Chain): History {
    if chain == [] then [] else Flat(Front(chain)) + Last(chain).input + Last(chain).output
  }

  // ---- The same turns, keeping chains ------------------------------------------------------------

  /** A server that remembers chains instead of flat histories. */
  datatype Tracer = Tracer(shared: Option<Store<Chain>>, caches: seq<Store<Chain>>)

  /** The chain a request continues: the one its previous id names, or none. */
  function Base(stores: seq<Store<Chain>>, req: Request): Option<Chain> {
    if req.previousId == "" then None else Hit(stores, req.previousId)
  }

  /** Continuing is allowed when every output answers a call of the chain. */
  predicate Continues(base: Option<Chain>, req: Request) {
    base.None? || AllAnswered(Flat(base.value) + req.input)
  }

  function Extended(base: Option<Chain>, req: Request, resp: Response): Chain {
    (if base.Some? then base.value else []) + [Link(resp.id, req.previousId, req.input, resp.output)]
  }

  function TraceFinals(shared: Store<Chain>, base: Option<Chain>, req: Request,
                       finals: seq<Option<Response>>): Store<Chain>
    decreases |finals|
  {
    if finals == [] then shared
    else
      var before := TraceFinals(shared, base, req, Front(finals));
      if WorthSaving(req, Last(finals)) then before.Save(Last(finals).value.id, Extended(base, req, Last(finals).value))
      else before
  }

  function TraceHttp(shared: Option<Store<Chain>>, h: Http): Option<Store<Chain>> {
    if shared.None? then shared
    else
      var base := Base([shared.value], h.req);
      if !Valid(h.req, h.acceptable) || (h.req.previousId != "" && base.None?) || !Continues(base, h.req) then shared
      else Some(TraceFinals(shared.value, base, h.req, h.finals))
  }

  /** One WebSocket turn on a cache and the shared store. */
  function TraceWs(cache: Store<Chain>, shared: Option<Store<Chain>>, w: Ws): (Store<Chain>, Option<Store<Chain>>) {
    var base := Base([cache] + if shared.Some? then [shared.value] else [], w.req);
    var forgotten := if base.Some? then cache.Delete(w.req.previousId) else cache;
    var outcome := WsOutcome(w);
    if !Valid(w.req, w.acceptable) then (cache, shared)
    else if !Continues(base, w.req) then (forgotten, shared)
    else if w.req.previousId != "" && base.None? && (!w.req.stored || shared.Some?) then (cache, shared)
    else match outcome
      case Dead => (cache, shared)
      case Errored => (forgotten, shared)
      case Ended(resp) =>
        if resp.None? || resp.value.id == "" then (cache, shared)
        else if resp.value.status.RFailed? then (forgotten, shared)
        else
          var chain := Extended(base, w.req, resp.value);
          (cache.Save(resp.value.id, chain),
           if shared.Some? && w.req.stored then Some(shared.value.Save(resp.value.id, chain)) else shared)
  }

  function TraceStep(t: Tracer, turn: Turn): Tracer {
    match turn
    case OverHttp(h) => t.(shared := TraceHttp(t.shared, h))
    case OverWs(k, w) =>
      if k >= |t.caches| then t
      else
        var (cache, shared) := TraceWs(t.caches[k], t.shared, w);
        Tracer(shared, t.caches[k := cache])
  }

  function Trace(t: Tracer, turns: seq<Turn>): Tracer {
    if turns == [] then t else TraceStep(Trace(t, Front(turns)), Last(turns))
  }

  // ---- A store of chains, flattened ------------------------------------------------------------------

  function FlatItems(items: map<string, Chain>): (r: map<string, History>)
    ensures r.Keys == items.Keys
    ensures forall id <- items :: r[id] == Flat(items[id])
  {
    map id | id in items :: Flat(items[id])
  }

  function FlatStore(s: Store<Chain>): Store<History> { Store(s.capacity, s.order, FlatItems(s.items)) }

  function FlatShared(shared: Option<Store<Chain>>): Option<Store<History>> {
    if shared.Some? then Some(FlatStore(shared.value)) else None
  }

  function FlatStores(stores: seq<Store<Chain>>): (r: seq<Store<History>>)
    ensures |r| == |stores| && forall k :: 0 <= k < |stores| ==> r[k] == FlatStore(stores[k])
  {
    seq(|stores|, k requires 0 <= k < |stores| => FlatStore(stores[k]))
  }

  function FlatServer(t: Tracer): Server { Server(FlatShared(t.shared), FlatStores(t.caches)) }

  lemma {:induction false} FlatEvict(s: Store<Chain>)
    ensures FlatStore(s).Evict() == FlatStore(s.Evict())
    decreases |s.order|
  {
    hide Flat;
    if |s.order| > s.capacity && s.order != [] {
      var t := Store(s.capacity, s.order[1..], s.items - {s.order[0]});
      FlatEvict(t);
      assert FlatItems(t.items) == FlatItems(s.items) - {s.order[0]};
    }
  }

  lemma FlatSave(s: Store<Chain>, id: string, chain: Chain)
    ensures FlatStore(s).Save(id, Flat(chain)) == FlatStore(s.Save(id, chain))
  {
    hide Flat, Store.Evict;
    FlatEvict(Store(s.capacity, if id in s.items then s.order else s.order + [id], s.items[id := chain]));
    assert FlatItems(s.items[id := chain]) == FlatItems(s.items)[id := Flat(chain)];
  }

  lemma FlatDelete(s: Store<Chain>, id: string)
    ensures FlatStore(s).Delete(id) == FlatStore(s.Delete(id))
  {
    hide Flat, Without;
    assert FlatItems(s.items - {id}) == FlatItems(s.items) - {id};
  }

  lemma {:induction false} FlatHit(stores: seq<Store<Chain>>, id: string)
    ensures var hit, flat := Hit(stores, id), Hit(FlatStores(stores), id);
            flat == if hit.Some? then Some(Flat(hit.value)) else None
    decreases |stores|
  {
    hide Flat;
    if stores != [] {
      assert FlatStores(stores)[1..] == FlatStores(stores[1..]);
      FlatHit(stores[1..], id);
    }
  }

  lemma FlatExtended(base: Option<Chain>, req: Request, resp: Response)
    ensures Flat(Extended(base, req, resp)) == (if base.Some? then Flat(base.value) else []) + req.input + resp.output
  {
    var chain := Extended(base, req, resp);
    assert Front(chain) == if base.Some? then base.value else [];
  }

  // ---- Each turn ------------------------------------------------------------------------------------------

  /** The request a resolved continuation leaves, in terms of the chain. */
  lemma ResolvedRequest(stores: seq<Store<Chain>>, req: Request)
    ensures var r, base := Resolve(req, FlatStores(stores)), Base(stores, req);
            && r.ok == Continues(base, req) && r.cont == Continuation(req.previousId, base.Some?)
            && (r.ok ==> r.request.input == (if base.Some? then Flat(base.value) else []) + req.input)
            && (r.ok ==> r.request.stored == req.stored)
  {
    hide Flat, Hit, AllAnswered;
    FlatHit(stores, req.previousId);
    assert [] + req.input == req.input;
  }

  lemma {:induction false} FinalsTraced(shared: Store<Chain>, base: Option<Chain>, req: Request, resolved: Request,
                                        finals: seq<Option<Response>>)
    requires resolved.input == (if base.Some? then Flat(base.value) else []) + req.input
             && resolved.stored == req.stored
    ensures SaveFinals(Some(FlatStore(shared)), resolved, finals)
            == Some(FlatStore(TraceFinals(shared, base, req, finals)))
    decreases |finals|
  {
    hide Flat, Store.Save, FlatStore;
    if finals != [] {
      FinalsTraced(shared, base, req, resolved, Front(finals));
      var before, resp := TraceFinals(shared, base, req, Front(finals)), Last(finals);
      if WorthSaving(req, resp) {
        FlatExtended(base, req, resp.value);
        FlatSave(before, resp.value.id, Extended(base, req, resp.value));
      }
    }
  }

  lemma HttpTraced(shared: Option<Store<Chain>>, h: Http)
    ensures HttpTurn(FlatShared(shared), h) == FlatShared(TraceHttp(shared, h))
  {
    hide Flat, FlatStore, Base, Continues, AllAnswered, Resolve;
    if shared.Some? {
      assert FlatStores([shared.value]) == [FlatStore(shared.value)];
      ResolvedRequest([shared.value], h.req);
      var base := Base([shared.value], h.req);
      var r := Resolve(h.req, [FlatStore(shared.value)]);
      if r.ok { FinalsTraced(shared.value, base, h.req, r.request, h.finals); }
      NoBase([shared.value], h.req);
    } else {
      NothingShared(h);
    }
  }

  lemma NoBase(stores: seq<Store<Chain>>, req: Request)
    ensures req.previousId == "" ==> Base(stores, req).None?
  {
  }

  lemma {:induction false} NothingSaved(req: Request, finals: seq<Option<Response>>)
    ensures SaveFinals(None, req, finals) == None
    decreases |finals|
  {
    if finals != [] { NothingSaved(req, Front(finals)); }
  }

  lemma NothingShared(h: Http)
    ensures HttpTurn(None, h) == None
  {
    NothingSaved(h.req, h.finals);
  }

  lemma WsTraced(cache: Store<Chain>, shared: Option<Store<Chain>>, w: Ws)
    ensures var (c, s) := TraceWs(cache, shared, w);
            Session(FlatStore(cache), FlatShared(shared)).Turn(w) == Session(FlatStore(c), FlatShared(s))
  {
    hide Flat, FlatStore, Base, Continues, AllAnswered, Resolve, WsOutcome, Store.Save, Store.Delete, Extended;
    var stores := [cache] + if shared.Some? then [shared.value] else [];
    var session := Session(FlatStore(cache), FlatShared(shared));
    assert FlatStores(stores) == session.Stores();
    ResolvedRequest(stores, w.req);
    var base := Base(stores, w.req);
    FlatDelete(cache, w.req.previousId);
    var outcome := WsOutcome(w);
    if outcome.Ended? && outcome.resp.Some? {
      var resp := outcome.resp.value;
      FlatExtended(base, w.req, resp);
      FlatSave(cache, resp.id, Extended(base, w.req, resp));
      if shared.Some? { FlatSave(shared.value, resp.id, Extended(base, w.req, resp)); }
    }
  }

  // ---- Every run ----------------------------------------------------------------------------------------------

  /** Over any run of HTTP and WebSocket turns, what every store holds for an id
      is input1 ++ output1 ++ ... ++ inputk ++ outputk of the chain of turns
      that leads to it: the chain its turn continued, and that turn. */
  lemma {:induction false} StoresHoldChains(t: Tracer, turns: seq<Turn>)
    ensures Run(FlatServer(t), turns) == FlatServer(Trace(t, turns))
  {
    hide FlatStore, HttpTurn, Session.Turn, TraceHttp, TraceWs;
    if turns != [] {
      StoresHoldChains(t, Front(turns));
      StepTraced(Trace(t, Front(turns)), Last(turns));
    }
  }

  lemma StepTraced(t: Tracer, turn: Turn)
    ensures Step(FlatServer(t), turn) == FlatServer(TraceStep(t, turn))
  {
    hide FlatStore, HttpTurn, Session.Turn, TraceHttp, TraceWs;
    match turn
    case OverHttp(h) => HttpTraced(t.shared, h);
    case OverWs(k, w) =>
      if k < |t.caches| {
        WsTraced(t.caches[k], t.shared, w);
        var (c, s) := TraceWs(t.caches[k], t.shared, w);
        assert FlatStores(t.caches)[k := FlatStore(c)] == FlatStores(t.caches[k := c]);
      }
  }

  /** The chain held for an id ends in that response, each of its turns names
      the one before it as previous, and what was continued answers its calls. */
  ghost predicate Sensible(id: string, chain: Chain) {
    && chain != [] && Last(chain).id == id
    && (forall k :: 0 < k < |chain| ==> chain[k].previous == chain[k - 1].id)
    && (|chain| > 1 ==> AllAnswered(Flat(Front(chain)) + Last(chain).input))
  }

  ghost predicate AllSensible(s: Store<Chain>) { forall id <- s.items :: Sensible(id, s.items[id]) }

  ghost predicate SensibleServer(t: Tracer) {
    (t.shared.Some? ==> AllSensible(t.shared.value)) && forall k :: 0 <= k < |t.caches| ==> AllSensible(t.caches[k])
  }

  lemma {:induction false} EvictSensible(s: Store<Chain>)
    requires AllSensible(s)
    ensures AllSensible(s.Evict())
    decreases |s.order|
  {
    if |s.order| > s.capacity && s.order != [] {
      EvictSensible(Store(s.capacity, s.order[1..], s.items - {s.order[0]}));
    }
  }

  lemma SaveSensible(s: Store<Chain>, id: string, chain: Chain)
    requires AllSensible(s) && Sensible(id, chain)
    ensures AllSensible(s.Save(id, chain))
  {
    hide Sensible;
    EvictSensible(Store(s.capacity, if id in s.items then s.order else s.order + [id], s.items[id := chain]));
  }

  lemma {:induction false} HitSensible(stores: seq<Store<Chain>>, id: string)
    requires forall s <- stores :: AllSensible(s)
    ensures Hit(stores, id).Some? ==> Sensible(id, Hit(stores, id).value)
    decreases |stores|
  {
    if stores != [] {
      assert stores[0] in stores && forall s <- stores[1..] :: s in stores;
      HitSensible(stores[1..], id);
    }
  }

  lemma ExtendedSensible(base: Option<Chain>, req: Request, resp: Response)
    requires Continues(base, req) && (base.Some? ==> Sensible(req.previousId, base.value))
    ensures Sensible(resp.id, Extended(base, req, resp))
  {
    var chain := Extended(base, req, resp);
    assert Front(chain) == if base.Some? then base.value else [];
  }

  lemma {:induction false} FinalsSensible(shared: Store<Chain>, base: Option<Chain>, req: Request,
                                          finals: seq<Option<Response>>)
    requires AllSensible(shared) && Continues(base, req) && (base.Some? ==> Sensible(req.previousId, base.value))
    ensures AllSensible(TraceFinals(shared, base, req, finals))
    decreases |finals|
  {
    hide AllSensible, Continues, Sensible;
    if finals != [] {
      FinalsSensible(shared, base, req, Front(finals));
      if WorthSaving(req, Last(finals)) {
        ExtendedSensible(base, req, Last(finals).value);
        SaveSensible(TraceFinals(shared, base, req, Front(finals)), Last(finals).value.id,
                     Extended(base, req, Last(finals).value));
      }
    }
  }

  lemma BaseSensible(stores: seq<Store<Chain>>, req: Request)
    requires forall s <- stores :: AllSensible(s)
    ensures Base(stores, req).Some? ==> Sensible(req.previousId, Base(stores, req).value)
  {
    HitSensible(stores, req.previousId);
  }

  lemma WsSensible(cache: Store<Chain>, shared: Option<Store<Chain>>, w: Ws)
    requires AllSensible(cache) && (shared.Some? ==> AllSensible(shared.value))
    ensures var (c, s) := TraceWs(cache, shared, w); AllSensible(c) && (s.Some? ==> AllSensible(s.value))
  {
    hide Sensible, Continues, WsOutcome, Store.Save, Extended, Base;
    var stores := [cache] + if shared.Some? then [shared.value] else [];
    BaseSensible(stores, w.req);
    var base := Base(stores, w.req);
    var outcome := WsOutcome(w);
    if Continues(base, w.req) && outcome.Ended? && outcome.resp.Some? {
      var resp := outcome.resp.value;
      ExtendedSensible(base, w.req, resp);
      SaveSensible(cache, resp.id, Extended(base, w.req, resp));
      if shared.Some? { SaveSensible(shared.value, resp.id, Extended(base, w.req, resp)); }
    }
  }

  lemma StepSensible(t: Tracer, turn: Turn)
    requires SensibleServer(t)
    ensures SensibleServer(TraceStep(t, turn))
  {
    hide AllSensible, Sensible, Continues, TraceWs, Base, TraceFinals;
    match turn
    case OverHttp(h) =>
      if t.shared.Some? {
        var base := Base([t.shared.value], h.req);
        BaseSensible([t.shared.value], h.req);
        if Continues(base, h.req) { FinalsSensible(t.shared.value, base, h.req, h.finals); }
      }
    case OverWs(k, w) => if k < |t.caches| { WsSensible(t.caches[k], t.shared, w); }
  }

  /** Over any run, the chain a store holds for an id ends in the response of
      that id, each of its turns was sent with previous_response_id naming the
      response of the turn before it, and if it continued another its inputs'
      outputs all answered earlier calls. */
  lemma {:induction false} ChainsStaySensible(t: Tracer, turns: seq<Turn>)
    requires SensibleServer(t)
    ensures SensibleServer(Trace(t, turns))
  {
    hide SensibleServer, TraceStep;
    if turns != [] {
      ChainsStaySensible(t, Front(turns));
      StepSensible(Trace(t, Front(turns)), Last(turns));
    }
  }
}

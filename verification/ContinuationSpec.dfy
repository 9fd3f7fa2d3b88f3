/** Conversations that continue a stored response: HTTP and WebSocket turns over
    a shared store and connection caches, as steps on values. */
module ContinuationSpec {
  import opened Types
  import opened Wrappers
  import opened StoreSpec
  import A = AccumulatorSpec
  import K = SinkSpec

  type History = seq<Item>

  datatype Request = Request(input: History, previousId: string, stored: bool)

  datatype Continuation = Continuation(id: string, resolved: bool)

  // ---- Outputs must answer calls ------------------------------------------------------------

  /** History the library cannot see: a later output cannot be checked. */
  predicate Opaque(item: Item) { item.Compaction? || item.ItemReference? || item.UnknownItem? }

  predicate AnswersAt(items: History, i: nat, j: nat)
    requires i < |items| && j < |items| && items[i].FunctionCallOutput?
  {
    Opaque(items[j]) || (items[j].FunctionCall? && items[j].callId == items[i].callId)
  }

  /** An output at i answers a call before it, or one that may be hidden. */
  predicate Answered(items: History, i: nat)
    requires i < |items|
  {
    items[i].FunctionCallOutput? ==> exists j :: 0 <= j < i && AnswersAt(items, i, j)
  }

  predicate AllAnswered(items: History) {
    forall i :: 0 <= i < |items| ==> Answered(items, i)
  }

  /** What may stand before an output for it to be taken: a call of its id, or an
      item that stands for history nobody here can see. */
  predicate MayPrecede(item: Item, callId: string) {
    match item
    case FunctionCall(_, _, id, _, _) => id == callId
    case Compaction(_, _, _) => true
    case ItemReference(_) => true
    case UnknownItem(_, _, _, _) => true
    case _ => false
  }

  /** Every output must have such an item before it, somewhere, and only outputs must. */
  lemma AnsweredByPrefix(items: History)
    ensures AllAnswered(items) <==>
              forall i :: 0 <= i < |items| && items[i].FunctionCallOutput? ==>
                exists item <- items[..i] :: MayPrecede(item, items[i].callId)
  {
    forall i | 0 <= i < |items| && items[i].FunctionCallOutput?
      ensures Answered(items, i) <==> exists item <- items[..i] :: MayPrecede(item, items[i].callId)
    {
      if j :| 0 <= j < i && AnswersAt(items, i, j) {
        assert items[..i][j] == items[j] && items[j] in items[..i];
        assert MayPrecede(items[j], items[i].callId);
      }
      if item :| item in items[..i] && MayPrecede(item, items[i].callId) {
        var j :| 0 <= j < i && items[..i][j] == item;
        assert AnswersAt(items, i, j);
      }
    }
  }

  // ---- Resolving ------------------------------------------------------------------------------

  datatype Resolution = Resolution(request: Request, cont: Continuation, ok: bool)

  /** The first store that knows the id answers. */
  function Hit<H>(stores: seq<Store<H>>, id: string): Option<H> {
    if stores == [] then None
    else if stores[0].Load(id).Some? then stores[0].Load(id) else Hit(stores[1..], id)
  }

  function Resolve(req: Request, stores: seq<Store<History>>): Resolution {
    var hit := Hit(stores, req.previousId);
    if req.previousId == "" || hit.None? then Resolution(req, Continuation(req.previousId, false), true)
    else
      var merged := hit.value + req.input;
      if AllAnswered(merged) then Resolution(Request(merged, "", req.stored), Continuation(req.previousId, true), true)
      else Resolution(req, Continuation(req.previousId, true), false)
  }

  /** Store k has the id and no store before it does. */
  ghost predicate HeldFirstAt<H>(stores: seq<Store<H>>, id: string, k: nat) {
    k < |stores| && id in stores[k].items && forall j :: 0 <= j < k ==> id !in stores[j].items
  }

  ghost predicate HeldNowhere<H>(stores: seq<Store<H>>, id: string) {
    forall j :: 0 <= j < |stores| ==> id !in stores[j].items
  }

  lemma {:induction false} HitIsFirst<H>(stores: seq<Store<H>>, id: string, k: nat)
    ensures HeldFirstAt(stores, id, k) ==> Hit(stores, id) == Some(stores[k].items[id])
    ensures HeldNowhere(stores, id) <==> Hit(stores, id).None?
    decreases |stores|
  {
    if stores != [] {
      var rest := stores[1..];
      HitIsFirst(rest, id, if k > 0 then k - 1 else 0);
      if HeldFirstAt(stores, id, k) && k > 0 {
        forall j | 0 <= j < k - 1 ensures id !in rest[j].items { assert rest[j] == stores[j + 1]; }
      }
      if HeldNowhere(rest, id) && id !in stores[0].items {
        forall j | 0 <= j < |stores| ensures id !in stores[j].items { if j > 0 { assert stores[j] == rest[j - 1]; } }
      }
      if HeldNowhere(stores, id) {
        forall j | 0 <= j < |rest| ensures id !in rest[j].items { assert rest[j] == stores[j + 1]; }
      }
    }
  }

  /** The first store that has the id gives the history: the request becomes
      that history and then its own input, naming no response, unless one of
      its outputs then answers no call, which leaves it as it was. */
  lemma ResolvedFromFirst(req: Request, stores: seq<Store<History>>, k: nat)
    requires req.previousId != "" && HeldFirstAt(stores, req.previousId, k)
    ensures var r, merged := Resolve(req, stores), stores[k].items[req.previousId] + req.input;
            && r.cont == Continuation(req.previousId, true) && (r.ok <==> AllAnswered(merged))
            && r.request == if r.ok then Request(merged, "", req.stored) else req
  {
    HitIsFirst(stores, req.previousId, k);
  }

  /** A request that names no response, or one no store has, stays as it was. */
  lemma ResolvedFromNone(req: Request, stores: seq<Store<History>>)
    requires req.previousId == "" || HeldNowhere(stores, req.previousId)
    ensures Resolve(req, stores) == Resolution(req, Continuation(req.previousId, false), true)
  {
    HitIsFirst(stores, req.previousId, 0);
  }

  /** The conversation to remember: the request input, then the output. */
  function Remembered(req: Request, resp: Response): History { req.input + resp.output }

  // ---- Over HTTP ---------------------------------------------------------------------------------

  /** A request, whether it passes the checks the model does not make, and the
      responses the transport hands over to be saved. */
  datatype Http = Http(req: Request, acceptable: bool, finals: seq<Option<Response>>)

  predicate WorthSaving(req: Request, resp: Option<Response>) {
    resp.Some? && resp.value.id != "" && req.stored && resp.value.status.Terminal() && !resp.value.status.RFailed?
  }

  function SaveShared(shared: Option<Store<History>>, req: Request, resp: Option<Response>): Option<Store<History>> {
    if shared.None? || !WorthSaving(req, resp) then shared
    else Some(shared.value.Save(resp.value.id, Remembered(req, resp.value)))
  }

  function SaveFinals(shared: Option<Store<History>>, req: Request,
                      finals: seq<Option<Response>>): Option<Store<History>>
    decreases |finals|
  {
    if finals == [] then shared else SaveShared(SaveFinals(shared, req, Front(finals)), req, Last(finals))
  }

  /** With no store the request passes through; with one, an unknown id is an error. */
  function HttpResolve(shared: Option<Store<History>>, req: Request): Resolution {
    if shared.None? then Resolution(req, Continuation(req.previousId, false), true)
    else
      var r := Resolve(req, [shared.value]);
      if r.ok && r.cont.id != "" && !r.cont.resolved then r.(ok := false) else r
  }

  predicate Valid(req: Request, acceptable: bool) {
    acceptable && (req.previousId == "" ==> AllAnswered(req.input))
  }

  function HttpTurn(shared: Option<Store<History>>, h: Http): Option<Store<History>> {
    var r := HttpResolve(shared, h.req);
    if !Valid(h.req, h.acceptable) || !r.ok then shared else SaveFinals(shared, r.request, h.finals)
  }

  /** A request is answered over HTTP exactly when it passes the checks and, with
      a store, names no response or one the store has, its outputs all answering
      calls of that history or its own. */
  lemma AnsweredOverHttp(shared: Option<Store<History>>, req: Request, acceptable: bool)
    ensures (Valid(req, acceptable) && HttpResolve(shared, req).ok) <==>
              && acceptable && (req.previousId == "" ==> AllAnswered(req.input))
              && (shared.Some? && req.previousId != "" ==>
                    && req.previousId in shared.value.items
                    && AllAnswered(shared.value.items[req.previousId] + req.input))
    ensures var r := HttpResolve(shared, req);
            && (shared.None? || req.previousId == "" ==> r.request == req)
            && (shared.Some? && req.previousId != "" && r.ok ==>
                  && req.previousId in shared.value.items
                  && r.request == Request(shared.value.items[req.previousId] + req.input, "", req.stored))
  {
    if shared.Some? {
      HitIsFirst([shared.value], req.previousId, 0);
      assert HeldNowhere([shared.value], req.previousId) <==> req.previousId !in shared.value.items;
    }
  }

  /** A refused request leaves the store as it was. */
  lemma RefusedOverHttp(shared: Option<Store<History>>, h: Http)
    requires || !h.acceptable
             || (h.req.previousId == "" && !AllAnswered(h.req.input))
             || (shared.Some? && h.req.previousId != ""
                 && (h.req.previousId in shared.value.items ==>
                       !AllAnswered(shared.value.items[h.req.previousId] + h.req.input)))
    ensures HttpTurn(shared, h) == shared
  {
    hide AllAnswered, HttpResolve;
    AnsweredOverHttp(shared, h.req, h.acceptable);
  }

  /** Of the responses handed over, a store takes exactly those of a request that
      asked for it that have an id and completed or were cut off. */
  lemma SavedExactly(shared: Store<History>, req: Request, resp: Option<Response>)
    requires shared.Valid()
    ensures var given := resp.Some? && resp.value.id != "" && resp.value.status in {RCompleted, RIncomplete};
            var saved := req.stored && given;
            var after := SaveShared(Some(shared), req, resp);
            && after.Some?
            && (saved ==> resp.value.id in after.value.items
                          && after.value.items[resp.value.id] == req.input + resp.value.output)
            && (!saved ==> after.value == shared)
    ensures SaveShared(None, req, resp) == None
  {
    if resp.Some? { SavedIsLoadable(shared, resp.value.id, Remembered(req, resp.value)); }
  }

  // ---- Over WebSocket -----------------------------------------------------------------------------

  /** The WebSocket sink: an event is recorded once its frame is written. */
  datatype WsSink = WsSink(previousId: string, number: nat, acc: A.Acc, frames: seq<Frame>, terminal: bool,
                           failed: bool)
  {
    function Send(ev: Event, ok: bool): WsSink
      requires ev.WellIndexed()
    {
      K.StampKeeps(ev, previousId);
      var stamped := K.Stamp(ev, previousId);
      if failed || terminal then this
      else if !ok then this.(number := number + 1, failed := true)
      else WsSink(previousId, number + 1, acc.Add(stamped), frames + [Frame(number, stamped)], ev.Terminal(), false)
    }
  }

  function NewWsSink(previousId: string): WsSink { WsSink(previousId, 0, A.EMPTY, [], false, false) }

  function WsSendAll(s: WsSink, sends: seq<(Event, bool)>): WsSink
    requires forall send <- sends :: send.0.WellIndexed()
    decreases |sends|
  {
    if sends == [] then s
    else
      assert Last(sends) in sends && forall send <- Front(sends) :: send in sends;
      WsSendAll(s, Front(sends)).Send(Last(sends).0, Last(sends).1)
  }

  type Sends = s: seq<(Event, bool)> | forall send <- s :: send.0.WellIndexed()

  /** A create message: its request, what the adapter sends and whether it ends
      in an error, the response built from the request, and the last write. */
  datatype Ws = Ws(req: Request, acceptable: bool, sends: Sends, error: bool, blank: Response, lastOk: bool)

  datatype Outcome = Dead | Errored | Ended(resp: Option<Response>)

  /** How a turn ends: the connection fails, the adapter fails before a terminal
      event, or a response results, completed here when nothing ended it. */
  function WsOutcome(w: Ws): Outcome {
    var s := WsSendAll(NewWsSink(w.req.previousId), w.sends);
    if s.failed then Dead
    else if w.error && !s.terminal then Errored
    else if s.terminal then Ended(s.acc.Visible())
    else
      var done := (if s.acc.Visible().Some? then s.acc.Visible().value else w.blank).Complete();
      if s.Send(Snapshot(Finished, Some(done)), w.lastOk).failed then Dead else Ended(Some(done))
  }

  datatype Session = Session(cache: Store<History>, shared: Option<Store<History>>)
  {
    function Stores(): seq<Store<History>> { [cache] + if shared.Some? then [shared.value] else [] }

    /** Forget the response a failed turn continued from. */
    function Drop(cont: Continuation): Session {
      if cont.resolved then this.(cache := cache.Delete(cont.id)) else this
    }

    function Keep(req: Request, resp: Response): Session {
      Session(cache.Save(resp.id, Remembered(req, resp)),
              if shared.Some? && req.stored then Some(shared.value.Save(resp.id, Remembered(req, resp))) else shared)
    }

    function Turn(w: Ws): Session {
      var r := Resolve(w.req, Stores());
      if !Valid(w.req, w.acceptable) then this
      else if !r.ok then Drop(r.cont)
      else if r.cont.id != "" && !r.cont.resolved && (!w.req.stored || shared.Some?) then this
      else match WsOutcome(w)
        case Dead => this
        case Errored => Drop(r.cont)
        case Ended(resp) =>
          if resp.None? || resp.value.id == "" then this
          else if resp.value.status.RFailed? then Drop(r.cont)
          else Keep(r.request, resp.value)
    }
  }

  // ---- A server over many turns -------------------------------------------------------------------

  datatype Server = Server(shared: Option<Store<History>>, caches: seq<Store<History>>)

  datatype Turn = OverHttp(http: Http) | OverWs(session: nat, ws: Ws)

  function Step(s: Server, turn: Turn): Server {
    match turn
    case OverHttp(h) => s.(shared := HttpTurn(s.shared, h))
    case OverWs(k, w) =>
      if k >= |s.caches| then s
      else
        var after := Session(s.caches[k], s.shared).Turn(w);
        Server(after.shared, s.caches[k := after.cache])
  }

  function Run(s: Server, turns: seq<Turn>): Server {
    if turns == [] then s else Step(Run(s, Front(turns)), Last(turns))
  }

  // ---- What may be stored --------------------------------------------------------------------------

  /** The ids a turn may leave in the shared store: those of its responses when
      it asks to be stored and they did not fail. */
  function MayStore(turn: Turn): set<string> {
    match turn
    case OverHttp(h) => set resp <- h.finals | WorthSaving(h.req, resp) :: resp.value.id
    case OverWs(_, w) =>
      var outcome := WsOutcome(w);
      if w.req.stored && outcome.Ended? && outcome.resp.Some? && !outcome.resp.value.status.RFailed?
      then {outcome.resp.value.id} else {}
  }

  function Keys(shared: Option<Store<History>>): set<string> { if shared.Some? then shared.value.items.Keys else {} }

  lemma {:induction false} EvictKeys<H>(s: Store<H>)
    ensures s.Evict().items.Keys <= s.items.Keys
    decreases |s.order|
  {
    if |s.order| > s.capacity && s.order != [] { EvictKeys(Store(s.capacity, s.order[1..], s.items - {s.order[0]})); }
  }

  lemma SaveKeys<H>(s: Store<H>, id: string, history: H)
    ensures s.Save(id, history).items.Keys <= s.items.Keys + {id}
  {
    EvictKeys(Store(s.capacity, if id in s.items then s.order else s.order + [id], s.items[id := history]));
  }

  lemma {:induction false} FinalsKeys(shared: Option<Store<History>>, req: Request, finals: seq<Option<Response>>)
    ensures Keys(SaveFinals(shared, req, finals)) <= Keys(shared)
            + set resp <- finals | WorthSaving(req, resp) :: resp.value.id
    ensures (forall resp <- finals :: !WorthSaving(req, resp)) ==> SaveFinals(shared, req, finals) == shared
    decreases |finals|
  {
    if finals != [] {
      FinalsKeys(shared, req, Front(finals));
      var before := SaveFinals(shared, req, Front(finals));
      assert finals == Front(finals) + [Last(finals)] && Last(finals) in finals;
      if before.Some? && WorthSaving(req, Last(finals)) {
        SaveKeys(before.value, Last(finals).value.id, Remembered(req, Last(finals).value));
      }
    }
  }

  lemma StepStores(s: Server, turn: Turn)
    ensures Keys(Step(s, turn).shared) <= Keys(s.shared) + MayStore(turn)
    ensures MayStore(turn) == {} ==> Step(s, turn).shared == s.shared
  {
    hide WsOutcome, Store.Save;
    match turn {
      case OverHttp(h) =>
        var req := HttpResolve(s.shared, h.req).request;
        FinalsKeys(s.shared, req, h.finals);
        assert req.stored == h.req.stored;
        assert forall resp <- h.finals :: WorthSaving(req, resp) == WorthSaving(h.req, resp);
        assert (set resp <- h.finals | WorthSaving(req, resp) :: resp.value.id) == MayStore(turn);
        if exists resp <- h.finals :: WorthSaving(h.req, resp) {
          var resp :| resp in h.finals && WorthSaving(h.req, resp);
          assert resp.value.id in MayStore(turn);
        }
      case OverWs(k, w) =>
        if k < |s.caches| && s.shared.Some? {
          var session := Session(s.caches[k], s.shared);
          var req := Resolve(w.req, session.Stores()).request;
          var outcome := WsOutcome(w);
          if outcome.Ended? && outcome.resp.Some? {
            SaveKeys(s.shared.value, outcome.resp.value.id, Remembered(req, outcome.resp.value));
          }
        }
    }
  }

  /** Over any run, every id the shared store comes to hold is that of a response
      that did not fail, of a turn that asked to be stored. */
  lemma {:induction false} OnlyStoredResponses(s: Server, turns: seq<Turn>)
    ensures forall id <- Keys(Run(s, turns).shared) ::
              id in Keys(s.shared) || exists turn <- turns :: id in MayStore(turn)
  {
    hide MayStore, Step;
    if turns != [] {
      OnlyStoredResponses(s, Front(turns));
      StepStores(Run(s, Front(turns)), Last(turns));
      assert Last(turns) in turns && forall turn <- Front(turns) :: turn in turns;
    }
  }

  /** The ids of the responses a turn ends in. */
  function ResponseIds(turn: Turn): set<string> {
    match turn
    case OverHttp(h) => set resp <- h.finals | resp.Some? :: resp.value.id
    case OverWs(_, w) =>
      var outcome := WsOutcome(w);
      if outcome.Ended? && outcome.resp.Some? then {outcome.resp.value.id} else {}
  }

  /** The turn did not ask to be stored, or none of its responses got to an end
      without failing. */
  predicate KeepsToItself(turn: Turn) {
    match turn
    case OverHttp(h) => !h.req.stored || forall resp <- h.finals :: resp.Some? ==> resp.value.status.RFailed?
    case OverWs(_, w) =>
      var outcome := WsOutcome(w);
      !w.req.stored || (outcome.Ended? && outcome.resp.Some? ==> outcome.resp.value.status.RFailed?)
  }

  lemma MayStoreOwn(turn: Turn)
    ensures MayStore(turn) <= ResponseIds(turn)
    ensures KeepsToItself(turn) ==> MayStore(turn) == {}
  {
    hide WsOutcome;
  }

  /** A store:false or failed response, its id given to no other turn, is never
      in the shared store. */
  lemma NeverStored(s: Server, turns: seq<Turn>, k: nat, id: string)
    requires k < |turns| && KeepsToItself(turns[k]) && id !in Keys(s.shared)
    requires forall j :: 0 <= j < |turns| && j != k ==> id !in ResponseIds(turns[j])
    ensures id !in Keys(Run(s, turns).shared)
  {
    hide ResponseIds, MayStore, KeepsToItself, Run;
    OnlyStoredResponses(s, turns);
    forall j | 0 <= j < |turns| ensures id !in MayStore(turns[j]) {
      MayStoreOwn(turns[j]);
    }
    assert forall turn <- turns :: exists j :: 0 <= j < |turns| && turns[j] == turn;
  }

  // ---- What one turn leaves ---------------------------------------------------------------------

  lemma DeletedIsGone<H>(s: Store<H>, id: string)
    ensures s.Delete(id).Load(id).None? && forall other :: other != id ==> s.Delete(id).Load(other) == s.Load(other)
  {
  }

  /** A turn fails: its outputs answer no call, its adapter errs before a
      terminal event, or its response failed. */
  predicate Fails(s: Session, w: Ws) {
    var r, outcome := Resolve(w.req, s.Stores()), WsOutcome(w);
    || !r.ok
    || ((r.cont.id == "" || r.cont.resolved || (w.req.stored && s.shared.None?))
        && (outcome.Errored? || (outcome.Ended? && outcome.resp.Some? && outcome.resp.value.id != ""
                                 && outcome.resp.value.status.RFailed?)))
  }

  /** A failed turn forgets the response it continued and nothing else; one that
      continued nothing, and one on a dead connection, leave everything. */
  lemma FailedTurnForgets(s: Session, w: Ws)
    requires Valid(w.req, w.acceptable)
    ensures var r, t := Resolve(w.req, s.Stores()), s.Turn(w);
            && (Fails(s, w) ==> t.shared == s.shared && (!r.cont.resolved ==> t == s))
            && (Fails(s, w) && r.cont.resolved ==>
                  t.cache.Load(w.req.previousId).None? &&
                  forall other :: other != w.req.previousId ==> t.cache.Load(other) == s.cache.Load(other))
            && (r.ok && WsOutcome(w).Dead? ==> t == s)
  {
    hide Store.Delete, Store.Load, WsOutcome, Hit, AllAnswered;
    DeletedIsGone(s.cache, w.req.previousId);
  }

  /** A turn whose response has an id and did not fail can be continued on its
      connection, and everywhere when it asked to be stored: the whole
      conversation is there, whatever was evicted for it. */
  lemma FinishedTurnRemembers(s: Session, w: Ws, resp: Response)
    requires s.cache.Valid() && (s.shared.Some? ==> s.shared.value.Valid())
    requires Valid(w.req, w.acceptable) && WsOutcome(w) == Ended(Some(resp)) && resp.id != "" && !resp.status.RFailed?
    ensures var r, t := Resolve(w.req, s.Stores()), s.Turn(w);
            r.ok && (r.cont.id == "" || r.cont.resolved || (w.req.stored && s.shared.None?)) ==>
              && t.cache.Load(resp.id) == Some(r.request.input + resp.output)
              && (w.req.stored && s.shared.Some? ==> t.shared.value.Load(resp.id) == Some(r.request.input
                  + resp.output))
              && (!w.req.stored ==> t.shared == s.shared)
  {
    hide Store.Save, Store.Load, WsOutcome, AllAnswered;
    var r := Resolve(w.req, s.Stores());
    SavedIsLoadable(s.cache, resp.id, Remembered(r.request, resp));
    if s.shared.Some? { SavedIsLoadable(s.shared.value, resp.id, Remembered(r.request, resp)); }
  }

  /** The same over HTTP: a stored answer that completed can be continued. */
  lemma FinishedAnswerRemembers(shared: Store<History>, req: Request, acceptable: bool, resp: Response)
    requires shared.Valid() && WorthSaving(req, Some(resp)) && Valid(req, acceptable)
             && HttpResolve(Some(shared), req).ok
    ensures var r, t := HttpResolve(Some(shared), req), HttpTurn(Some(shared), Http(req, acceptable, [Some(resp)]));
            t.Some? && t.value.Load(resp.id) == Some(r.request.input + resp.output)
  {
    var r, one := HttpResolve(Some(shared), req), [Some(resp)];
    assert Front(one) == [] && Last(one) == Some(resp) && r.request.stored == req.stored;
    assert SaveFinals(Some(shared), r.request, one) == SaveShared(Some(shared), r.request, Some(resp));
    SavedIsLoadable(shared, resp.id, Remembered(r.request, resp));
  }

  /** A turn that names a response neither its connection nor the shared store
      has, and that either asks for no storing or has a shared store to ask, is
      refused and leaves everything; so is one that fails the checks. */
  lemma UnknownRefused(s: Session, w: Ws)
    requires !w.acceptable
             || (w.req.previousId == "" && !AllAnswered(w.req.input))
             || (w.req.previousId != "" && HeldNowhere(s.Stores(), w.req.previousId)
                 && (!w.req.stored || s.shared.Some?))
    ensures s.Turn(w) == s
  {
    hide WsOutcome, AllAnswered;
    if w.req.previousId != "" && HeldNowhere(s.Stores(), w.req.previousId) { ResolvedFromNone(w.req, s.Stores()); }
  }

  // ---- What a WebSocket turn stores beyond HTTP -----------------------------------------------------

  /** The last terminal event of a sink gave the response its status. */
  ghost predicate EndsAs(s: WsSink) {
    s.terminal ==>
      && s.frames != [] && Last(s.frames).event.Terminal()
      && var carried := Last(s.frames).event.response;
         carried.Some? ==> s.acc.resp.Some? && s.acc.resp.value.status == carried.value.status
  }

  lemma {:induction false} SinkEnds(s: WsSink, sends: seq<(Event, bool)>)
    requires EndsAs(s) && forall send <- sends :: send.0.WellIndexed()
    ensures EndsAs(WsSendAll(s, sends))
    decreases |sends|
  {
    if sends != [] {
      assert Last(sends) in sends && forall send <- Front(sends) :: send in sends;
      SinkEnds(s, Front(sends));
      var ev := Last(sends).0;
      K.StampKeeps(ev, WsSendAll(s, Front(sends)).previousId);
    }
  }

  /** Of the responses a WebSocket turn stores, those HTTP would not save are
      exactly the ones whose status is not terminal; the turn then sent a
      terminal event, and the status is the one its response carried, if any. */
  lemma StoresBeyondHttp(s: Session, w: Ws, resp: Response)
    requires Valid(w.req, w.acceptable) && WsOutcome(w) == Ended(Some(resp)) && resp.id != "" && !resp.status.RFailed?
    requires s.shared.Some? && w.req.stored
    ensures var r, t := Resolve(w.req, s.Stores()), s.Turn(w);
            var sink := WsSendAll(NewWsSink(w.req.previousId), w.sends);
            && (r.ok && (r.cont.id == "" || r.cont.resolved) ==>
                  t.shared == Some(s.shared.value.Save(resp.id, Remembered(r.request, resp))))
            && (!WorthSaving(w.req, Some(resp)) <==> !resp.status.Terminal())
            && (!resp.status.Terminal() ==>
                  && sink.terminal && sink.frames != [] && Last(sink.frames).event.Terminal()
                  && (Last(sink.frames).event.response.Some?
                      ==> Last(sink.frames).event.response.value.status == resp.status))
  {
    hide Store.Save, Hit, AllAnswered, Session.Drop, WsOutcome, WsSendAll;
    if !resp.status.Terminal() { OutcomeEnds(w, resp); }
  }

  lemma OutcomeEnds(w: Ws, resp: Response)
    requires WsOutcome(w) == Ended(Some(resp)) && !resp.status.Terminal()
    ensures var sink := WsSendAll(NewWsSink(w.req.previousId), w.sends);
            && sink.terminal && sink.frames != [] && Last(sink.frames).event.Terminal()
            && (Last(sink.frames).event.response.Some? ==> Last(sink.frames).event.response.value.status == resp.status)
  {
    hide WsSendAll, K.Stamp;
    SinkEnds(NewWsSink(w.req.previousId), w.sends);
  }

  /** response.completed with a response that says in_progress. */
  lemma UnfinishedStored(s: Session)
    requires s.shared.Some? && s.shared.value.Valid()
    ensures var resp := Response("r", RInProgress, [], None, None, None, "");
            var w := Ws(Request([], "", true), true, [(Snapshot(Finished, Some(resp)), true)], false, resp, true);
            && WsOutcome(w) == Ended(Some(resp)) && s.Turn(w).shared.value.Load("r") == Some([])
            && !WorthSaving(w.req, Some(resp))
  {
    var resp := Response("r", RInProgress, [], None, None, None, "");
    var sends := [(Snapshot(Finished, Some(resp)), true)];
    var w := Ws(Request([], "", true), true, sends, false, resp, true);
    assert Front(sends) == [];
    assert WsSendAll(NewWsSink(""), Front(sends)) == NewWsSink("");
    hide Store.Save, Store.Load;
    SavedIsLoadable(s.shared.value, "r", []);
    StoresBeyondHttp(s, w, resp);
  }
}

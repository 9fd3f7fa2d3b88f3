/** The HTTP transport's sink as a state machine on values: it numbers events,
    refuses anything after a terminal one, and repairs a stream its adapter
    left unfinished. */
module SinkSpec {
  import opened Types
  import opened Wrappers
  import opened AccumulatorSpec

  /** What goes over the connection: numbered frames and the end sentinel. */
  datatype Wire = Sent(frame: Frame) | DoneMark

  datatype SendOutcome = Delivered | AfterTerminal | Broken

  /** Restore previous_response_id on the snapshot an event carries. */
  function Stamp(ev: Event, previousId: string): Event {
    if previousId != "" && ev.Snapshot? && ev.response.Some? && ev.response.value.previousId.None?
    then Snapshot(ev.kind, Some(ev.response.value.(previousId := Some(previousId))))
    else ev
  }

  lemma StampKeeps(ev: Event, previousId: string)
    ensures var s := Stamp(ev, previousId);
            && s.WellIndexed() == ev.WellIndexed() && s.Terminal() == ev.Terminal() && s.Snapshot? == ev.Snapshot?
            && (ev.Snapshot? ==> s.kind == ev.kind && s.response.Some? == ev.response.Some?)
            && (!ev.Snapshot? ==> s == ev)
  {
  }

  /** The sink: number is the next sequence number, final the responses handed
      to the store, broken whether writing an event has failed and down whether
      writing anything has, the sentinel included. */
  datatype Sink = Sink(previousId: string, number: nat, acc: Acc, wire: seq<Wire>, final: seq<Option<Response>>,
                       sent: bool, terminal: bool, broken: bool, down: bool)
  {
    /** Number, record and write one event; ok says whether the write succeeds.
        A connection that failed once stays failed. */
    function Write(ev: Event, ok: bool): Sink
      requires ev.WellIndexed()
    {
      StampKeeps(ev, previousId);
      var stamped := Stamp(ev, previousId);
      var next := acc.Add(stamped);
      var good := ok && !down;
      Sink(previousId, number + 1, next,
           if good then wire + [Sent(Frame(number, stamped))] else wire,
           if ev.Terminal() then final + [next.Visible()] else final,
           sent || good, terminal || ev.Terminal(), broken || !good, !good)
    }

    function Send(ev: Event, ok: bool): Sink
      requires ev.WellIndexed()
    {
      if broken || terminal then this else Write(ev, ok)
    }

    function SendOutcomeOf(ev: Event, ok: bool): SendOutcome {
      if broken then Broken else if terminal then AfterTerminal else if ok then Delivered else Broken
    }

    /** The response folded so far, or the one built from the request. */
    function Folded(blank: Response): Response {
      if acc.Visible().Some? then acc.Visible().value else blank
    }

    /** Make sure the stream has a terminal event: error and response.failed for
        an adapter error, response.completed for a missing end. */
    function Ended(error: Option<string>, blank: Response, oks: (bool, bool, bool)): Sink {
      if terminal then this
      else if error.Some? then
        var failing := Write(ErrorEvent(error.value), oks.0);
        failing.Write(Snapshot(Failed, Some(failing.Folded(blank).Fail(error.value))), oks.1)
      else Write(Snapshot(Finished, Some(Folded(blank).Complete())), oks.0)
    }

    /** Close out the stream after the adapter returned. */
    function Finish(error: Option<string>, blank: Response, oks: (bool, bool, bool)): Sink {
      if broken then this else Ended(error, blank, oks).WriteDone(oks.2)
    }

    /** The sentinel; nobody is told when it cannot be written. */
    function WriteDone(ok: bool): Sink {
      if ok && !down then this.(wire := wire + [DoneMark]) else this.(down := true)
    }

    /** Nothing has failed to be written. */
    predicate Works() { !broken && !down }

    function Frames(): seq<Frame> { FramesOf(wire) }
  }

  function NewSink(previousId: string): Sink {
    Sink(previousId, 0, EMPTY, [], [], false, false, false, false)
  }

  function FramesOf(wire: seq<Wire>): seq<Frame> {
    if wire == [] then []
    else FramesOf(wire[..|wire| - 1]) + if wire[|wire| - 1].Sent? then [wire[|wire| - 1].frame] else []
  }

  /** A run of sends, each with the outcome of its write. */
  function SendAll(s: Sink, sends: seq<(Event, bool)>): Sink
    requires forall send <- sends :: send.0.WellIndexed()
    decreases |sends|
  {
    if sends == [] then s
    else SendAll(s.Send(sends[0].0, sends[0].1), sends[1..])
  }

  // ---- Every adapter behaviour ----------------------------------------------------------

  predicate OnlyFrames(wire: seq<Wire>) {
    forall k :: 0 <= k < |wire| ==> wire[k].Sent? && wire[k].frame.number == k
  }

  predicate TerminalOnlyLast(wire: seq<Wire>) {
    forall k :: 0 <= k < |wire| - 1 ==> wire[k].Sent? ==> !wire[k].frame.event.Terminal()
  }

  /** Until finish: frames numbered from zero without gaps, at most the last of
      them terminal, and while nothing has failed the counters match. */
  ghost predicate Orderly(s: Sink) {
    && OnlyFrames(s.wire) && TerminalOnlyLast(s.wire) && s.down == s.broken
    && (!s.broken ==>
          && s.number == |s.wire| && s.sent == (s.wire != [])
          && s.terminal == (s.wire != [] && s.wire[|s.wire| - 1].frame.event.Terminal()))
  }

  lemma WriteOrderly(s: Sink, ev: Event, ok: bool)
    requires Orderly(s) && !s.broken && !s.terminal && ev.WellIndexed()
    ensures Orderly(s.Write(ev, ok))
  {
    StampKeeps(ev, s.previousId);
  }

  lemma {:induction false} SendsOrderly(s: Sink, sends: seq<(Event, bool)>)
    requires Orderly(s) && forall send <- sends :: send.0.WellIndexed()
    ensures Orderly(SendAll(s, sends))
    decreases |sends|
  {
    if sends != [] {
      if !s.broken && !s.terminal { WriteOrderly(s, sends[0].0, sends[0].1); }
      SendsOrderly(s.Send(sends[0].0, sends[0].1), sends[1..]);
    }
  }

  /** Frames numbered without gaps, exactly the last of them terminal. */
  ghost predicate EndsFinally(wire: seq<Wire>) {
    wire != [] && OnlyFrames(wire) && TerminalOnlyLast(wire) && Last(wire).frame.event.Terminal()
  }

  /** A stream that has ended for good: one terminal frame, the last, and the
      end sentinel after it. */
  ghost predicate Closed(wire: seq<Wire>) {
    wire != [] && Last(wire) == DoneMark && EndsFinally(Front(wire))
  }

  /** Whatever an adapter sends and whatever it returns: when no event failed to
      be written, the frames are numbered 0, 1, 2, ... without gaps, exactly the
      last is terminal, and only the end sentinel follows it, if that could be
      written.  Every later send is refused, as sent after the end or, when an
      event failed, as sent on a broken connection, and leaves all as it is. */
  lemma FinishedStream(previousId: string, sends: seq<(Event, bool)>, error: Option<string>, blank: Response,
                       oks: (bool, bool, bool), late: Event)
    requires (forall send <- sends :: send.0.WellIndexed()) && late.WellIndexed()
    ensures var s := SendAll(NewSink(previousId), sends).Finish(error, blank, oks);
            && (s.broken ==> s.SendOutcomeOf(late, true).Broken?)
            && (!s.broken ==> s.SendOutcomeOf(late, true).AfterTerminal?)
            && (!s.broken ==> if oks.2 then Closed(s.wire) else EndsFinally(s.wire))
            && s.Send(late, true) == s
  {
    hide SendAll, Sink.Ended, Sink.Write, Sink.WriteDone, Orderly, Closed, EndsFinally;
    NewOrderly(previousId);
    SendsOrderly(NewSink(previousId), sends);
    var s := SendAll(NewSink(previousId), sends);
    EndedOrderly(s, error, blank, oks);
    if !s.broken { DoneCloses(s.Ended(error, blank, oks), oks.2); }
  }

  lemma NewOrderly(previousId: string)
    ensures Orderly(NewSink(previousId))
  {
  }

  lemma DoneCloses(e: Sink, ok: bool)
    requires Orderly(e) && e.terminal
    ensures var t := e.WriteDone(ok);
            t.terminal && t.broken == e.broken && (!t.broken ==> if ok then Closed(t.wire) else EndsFinally(t.wire))
  {
    var t := e.WriteDone(ok);
    if !t.broken && ok { assert Front(t.wire) == e.wire; }
  }

  /** Before the sentinel is written the stream is orderly and has ended. */
  lemma EndedOrderly(s: Sink, error: Option<string>, blank: Response, oks: (bool, bool, bool))
    requires Orderly(s)
    ensures !s.broken ==> Orderly(s.Ended(error, blank, oks)) && s.Ended(error, blank, oks).terminal
  {
    if !s.broken && !s.terminal {
      if error.Some? {
        var failing := s.Write(ErrorEvent(error.value), oks.0);
        WriteOrderly(s, ErrorEvent(error.value), oks.0);
        if failing.broken {
          StampKeeps(ErrorEvent(error.value), s.previousId);
        } else {
          WriteOrderly(failing, Snapshot(Failed, Some(failing.Folded(blank).Fail(error.value))), oks.1);
        }
      } else {
        WriteOrderly(s, Snapshot(Finished, Some(s.Folded(blank).Complete())), oks.0);
      }
    }
  }

  /** However writes fail, what reached the client is numbered without gaps. */
  lemma BrokenStreamIsPrefix(previousId: string, sends: seq<(Event, bool)>)
    requires forall send <- sends :: send.0.WellIndexed()
    ensures OnlyFrames(SendAll(NewSink(previousId), sends).wire)
    ensures var s := SendAll(NewSink(previousId), sends);
            s.broken ==> forall error, blank, oks :: s.Finish(error, blank, oks) == s
  {
    SendsOrderly(NewSink(previousId), sends);
  }

  /** A remark, read off the definitions: after an error event something is
      folded, so the response built from the request never stands in for a
      failed one. */
  lemma FailureNeverBlank(s: Sink, error: string, ok: bool)
    ensures s.Write(ErrorEvent(error), ok).acc.Visible().Some?
  {
  }
}

/** The HTTP transport's sink as the object the handler gives an adapter, and
    one streamed answer driven through it. */
module SseSink {
  import opened Types
  import opened Wrappers
  import opened SinkSpec
  import A = AccumulatorSpec
  import Accumulator

  /** A streaming connection.  Which writes fail is up to the network; one that
      failed once stays failed. */
  class Connection {
    var wire: seq<Wire>
    var broken: bool

    constructor ()
      ensures wire == [] && !broken
    {
      wire, broken := [], false;
    }

    method Write(piece: Wire, ok: bool) returns (good: bool)
      modifies this
      ensures good == (ok && !old(broken)) && broken == !good
      ensures wire == if good then old(wire) + [piece] else old(wire)
    {
      good := ok && !broken;
      if good { wire := wire + [piece]; }
      broken := !good;
    }
  }

  class SseSink {
    const conn: Connection
    const acc: Accumulator.Accumulator
    const previousId: string
    var number: nat
    var final: seq<Option<Response>>
    var sent: bool
    var terminal: bool
    var failed: bool

    ghost predicate Valid()
      reads this, conn, acc
    {
      acc.State().Consistent() && (failed ==> conn.broken) && (conn.broken && !failed ==> terminal)
    }

    ghost function State(): Sink
      reads this, conn, acc
    {
      Sink(previousId, number, acc.State(), conn.wire, final, sent, terminal, failed, conn.broken)
    }

    constructor (previousId: string)
      ensures Valid() && State() == NewSink(previousId) && fresh(conn) && fresh(acc)
    {
      this.previousId := previousId;
      conn := new Connection();
      acc := new Accumulator.Accumulator();
      number, final, sent, terminal, failed := 0, [], false, false, false;
    }

    /** Refuse after a failed write or a terminal event; otherwise number,
        record and write. */
    method Send(ev: Event, ok: bool) returns (outcome: SendOutcome)
      requires Valid() && ev.WellIndexed()
      modifies this, conn, acc
      ensures Valid() && State() == old(State()).Send(ev, ok)
      ensures outcome == old(State()).SendOutcomeOf(ev, ok)
    {
      if failed { return Broken; }
      if terminal { return AfterTerminal; }
      var good := WriteLocked(ev, ok);
      outcome := if good then Delivered else Broken;
    }

    method WriteLocked(ev: Event, ok: bool) returns (good: bool)
      requires Valid() && ev.WellIndexed()
      modifies this, conn, acc
      ensures Valid() && State() == old(State()).Write(ev, ok) && good == !conn.broken
    {
      var stamped := Stamp(ev, previousId);
      StampKeeps(ev, previousId);
      A.AddConsistent(acc.State(), stamped);
      hide A.Acc.Consistent, A.Acc.Add, A.Acc.Visible, Stamp;
      var position := number;
      number := number + 1;
      acc.Add(stamped);
      if stamped.Terminal() {
        terminal := true;
        var latest := acc.Visible();
        final := final + [latest];
      }
      good := conn.Write(Sent(Frame(position, stamped)), ok);
      if good { sent := true; } else { failed := true; }
    }

    /** Close out the stream after the adapter returned: an adapter error
        becomes error and response.failed, a missing terminal event is
        synthesised from the response folded so far, the sentinel ends it. */
    method Finish(error: Option<string>, blank: Response, oks: (bool, bool, bool))
      requires Valid()
      modifies this, conn, acc
      ensures Valid() && State() == old(State()).Finish(error, blank, oks)
      ensures failed || terminal
    {
      if failed { return; }
      ghost var before := State();
      if error.Some? && !terminal {
        var _ := WriteLocked(ErrorEvent(error.value), oks.0);
        var folded := Current(blank);
        var _ := WriteLocked(Snapshot(Failed, Some(folded.Fail(error.value))), oks.1);
      } else if !terminal {
        var folded := Current(blank);
        var _ := WriteLocked(Snapshot(Finished, Some(folded.Complete())), oks.0);
      }
      assert State() == before.Ended(error, blank, oks);
      var _ := conn.Write(DoneMark, oks.2);
    }

    method Current(blank: Response) returns (r: Response)
      requires Valid()
      ensures r == State().Folded(blank)
    {
      var folded := acc.Visible();
      r := if folded.Some? then folded.value else blank;
    }
  }

  /** Answer one streaming request: run an adapter that sends `sends` and
      returns `error`, then finish.  An adapter that fails before its first
      frame leaves the stream to a plain error answer. */
  method StreamResponse(previousId: string, sends: seq<(Event, bool)>, error: Option<string>, blank: Response,
                        oks: (bool, bool, bool)) returns (wire: seq<Wire>, saved: seq<Option<Response>>, plain: bool)
    requires forall send <- sends :: send.0.WellIndexed()
    ensures var s := SendAll(NewSink(previousId), sends);
            && plain == (error.Some? && !s.sent)
            && wire == (if plain then s else s.Finish(error, blank, oks)).wire
            && saved == (if plain then s else s.Finish(error, blank, oks)).final
  {
    var sink := new SseSink(previousId);
    var i := 0;
    while i < |sends|
      invariant 0 <= i <= |sends| && fresh(sink) && fresh(sink.conn) && fresh(sink.acc) && sink.Valid()
      invariant SendAll(sink.State(), sends[i..]) == SendAll(NewSink(previousId), sends)
    {
      assert sends[i] in sends && sends[i..][1..] == sends[i + 1..];
      var _ := sink.Send(sends[i].0, sends[i].1);
      i := i + 1;
    }
    plain := error.Some? && !sink.sent;
    if !plain { sink.Finish(error, blank, oks); }
    wire, saved := sink.conn.wire, sink.final;
  }
}

/** Putting tool calls together: what the fragments of a run of tool-call deltas
    become, however names, ids and arguments are spread over them. */
module ChatReassembly {
  import opened BareItems
  import opened ChatCompletes
  import opened ChatDecoderSpec
  import opened Wrappers
  import Types
  import S = EmitterSpec

  // ---- What a run of fragments means ---------------------------------------------------------

  /** The last id given before the name was known or with it. */
  function IdOf(run: seq<Fragment>): string {
    if run == [] then ""
    else if NameOf(Front(run)) != "" || Last(run).id == "" then IdOf(Front(run)) else Last(run).id
  }

  /** All the argument fragments in order. */
  function Joined(run: seq<Fragment>): string {
    if run == [] then "" else Joined(Front(run)) + Last(run).arguments
  }

  function Named(ids: Ids, n: nat, run: seq<Fragment>, arguments: string): Types.Item {
    Types.FunctionCall(ids.item(n), Types.Unset, if IdOf(run) != "" then IdOf(run) else ids.call(n), NameOf(run),
                       arguments)
  }

  /** The call a whole run stands for, the n-th item of its response. */
  function Whole(ids: Ids, n: nat, run: seq<Fragment>): Types.Item {
    Named(ids, n, run, if Joined(run) == "" then "{}" else Joined(run))
  }

  /** One call for each run, in order. */
  function Calls(ids: Ids, n: nat, fragments: seq<Fragment>): seq<Types.Item> {
    if fragments == [] then []
    else
      var s := LastRun(fragments);
      var before := Calls(ids, n, fragments[..s]);
      before + [Whole(ids, n + |before|, fragments[s..])]
  }

  // ---- What the items are, but for their status ------------------------------------------------

  function Shown(d: Decoder): seq<Types.Item> { BareAll(d.em.resp.output) }

  lemma WriteShown(e: S.Producer, h: nat, call: S.WriterCall)
    requires e.Sound() && h < |e.writers| && !e.writers[h].closed && S.WriterAllows(e.writers[h], call)
    ensures e.resp.output != [] && e.WriterSound(h) && e.ItemOf(h) == Last(e.resp.output)
    ensures var l := S.Perform(e.ItemOf(h), e.writers[h], call);
            BareAll(e.Do(S.Write(h, call)).resp.output) == Front(BareAll(e.resp.output)) + [Bare(l.item)]
  {
    assert e.WriterSound(h);
  }

  lemma ShutShown(d: Decoder, h: nat)
    requires d.Valid() && d.Open(h)
    ensures Shown(d.Shut(h)) == Shown(d)
  {
    hide BareAll;
    ShutBare(d.em, h);
  }

  /** More arguments for the call whose writer is open. */
  lemma ArgumentsShown(d: Decoder, h: nat, text: string)
    requires d.Valid() && d.Open(h) && d.em.writers[h].CallWriter?
    ensures Shown(d) != [] && Last(Shown(d)).FunctionCall? && d.em.WriterSound(h) && d.em.ItemOf(h).FunctionCall?
    ensures var c := Last(Shown(d));
            && d.em.ItemOf(h).arguments == c.arguments
            && Shown(d.Write(h, S.Arguments(text))) ==
                 Front(Shown(d)) + [Types.FunctionCall(c.id, Types.Unset, c.callId, c.name, c.arguments + text)]
  {
    WriteShown(d.em, h, S.Arguments(text));
  }

  // ---- One fragment ---------------------------------------------------------------------------------

  /** The decoder mirrors the fragments of a run of tool-call deltas: earlier
      runs are whole calls after the items it started from, the last run is the
      call being streamed. */
  ghost predicate Mirrors(ids: Ids, d: Decoder, base: seq<Types.Item>, fragments: seq<Fragment>) {
    && d.Valid()
    && if fragments == [] then d.call.None? && Shown(d) == base
       else
         var s := LastRun(fragments);
         Streams(ids, d, base + Calls(ids, |base|, fragments[..s]), fragments[s..])
  }

  ghost predicate Streams(ids: Ids, d: Decoder, closed: seq<Types.Item>, run: seq<Fragment>) {
    && d.Valid() && d.call.Some? && run != [] && d.call.value.index == Last(run).index
    && if d.call.value.writer.Some? then
         && NameOf(run) != "" && Shown(d) == closed + [Named(ids, |closed|, run, Joined(run))]
       else
         && NameOf(run) == "" && d.call.value.id == IdOf(run) && d.call.value.buffered == Joined(run)
             && Shown(d) == closed
  }

  /** Opening the call shows it with the arguments buffered so far. */
  lemma NamedShown(ids: Ids, d: Decoder, name: string)
    requires d.em.Sound() && !d.em.terminal && d.call.Some? && d.msg.None? && d.reasoning.None?
    ensures var c, n := d.call.value, |d.em.resp.output|;
            Shown(d.Named(ids, name)) ==
              Shown(d) + [Types.FunctionCall(ids.item(n), Types.Unset, if c.id != "" then c.id else ids.call(n), name,
                                             c.buffered)]
  {
    var c, n, h := d.call.value, |d.em.resp.output|, |d.em.writers|;
    var callId := if c.id != "" then c.id else ids.call(n);
    OpenedShown(d.em, ids.item(n), callId, name);
    S.OpenKeeps(d.em);
    S.DoSound(d.em, S.OpenCall(ids.item(n), callId, name));
    hide S.Producer.OpenWith, S.Producer.OpenItem, S.Producer.Sound, Decoder.Write;
    var e := Decoder(d.em.Do(S.OpenCall(ids.item(n), callId, name)), None, None,
                     Some(CallState(c.index, c.id, name, "", Some(h))));
    if c.buffered != "" {
      ArgumentsShown(e, h, c.buffered);
      assert "" + c.buffered == c.buffered && Front(Shown(e)) == Shown(d);
    }
  }

  lemma OpenedShown(em: S.Producer, id: string, callId: string, name: string)
    requires em.Sound() && !em.terminal
    ensures BareAll(em.Do(S.OpenCall(id, callId, name)).resp.output) ==
              BareAll(em.resp.output) + [Types.FunctionCall(id, Types.Unset, callId, name, "")]
    ensures var e := em.Do(S.OpenCall(id, callId, name));
            |e.writers| == |em.writers| + 1 && e.writers[|em.writers|] == S.CallWriter(|em.resp.output|, false)
                && !e.terminal
  {
    S.OpenKeeps(em);
    OpenBare(em, Types.FunctionCall(id, Types.InProgress, callId, name, ""));
  }

  /** Ending the call being streamed leaves it whole; without a name that crashes. */
  lemma EndCallShown(ids: Ids, d: Decoder, closed: seq<Types.Item>, run: seq<Fragment>)
    requires Streams(ids, d, closed, run)
    ensures d.EndCall(ids) == Crashed <==> NameOf(run) == ""
    ensures d.CloseCall(ids) == Crashed <==> NameOf(run) == ""
    ensures NameOf(run) != "" ==>
              && d.EndCall(ids).Done? && Shown(d.EndCall(ids).value) == closed + [Whole(ids, |closed|, run)]
              && d.CloseCall(ids).Done? && Shown(d.CloseCall(ids).value) == closed + [Whole(ids, |closed|, run)]
  {
    hide Decoder.Write, Bare, S.Producer.Sound;
    if d.call.value.writer.Some? {
      var h := d.call.value.writer.value;
      ArgumentsShown(d, h, "{}");
      assert "" + "{}" == "{}" && Front(Shown(d)) == closed;
      ShutShown(d.Argued(), h);
    }
  }

  /** A fragment of the run being streamed. */
  lemma TakeStreams(ids: Ids, d: Decoder, closed: seq<Types.Item>, run: seq<Fragment>, f: Fragment)
    requires Streams(ids, d, closed, run) && f.index == d.call.value.index
    ensures Streams(ids, d.Take(ids, f), closed, run + [f])
  {
    hide Decoder.Named, Decoder.Write, Bare, S.Producer.Sound;
    assert Front(run + [f]) == run;
    var c := d.call.value;
    if c.writer.None? {
      assert "" + f.name == f.name;
      var e := d.(call := Some(CallState(c.index, if f.id != "" then f.id else c.id, c.name + f.name,
                                         c.buffered + f.arguments, None)));
      if f.name != "" {
        NamedShown(ids, e, f.name);
        assert Shown(d.Take(ids, f)) == closed + [Named(ids, |closed|, run + [f], Joined(run + [f]))];
      }
    } else {
      var e := d.(call := Some(CallState(c.index, if f.id != "" then f.id else c.id, c.name + f.name, "", c.writer)));
      if f.arguments != "" {
        ArgumentsShown(e, c.writer.value, f.arguments);
        assert Front(Shown(e)) == closed;
      } else {
        assert Joined(run) + "" == Joined(run);
      }
    }
  }

  /** The first fragment of a run. */
  lemma FirstStreams(ids: Ids, d: Decoder, f: Fragment)
    requires d.Valid() && d.Idle()
    ensures var t := d.(call := Some(CallState(f.index, "", "", "", None)));
            Streams(ids, t.Take(ids, f), Shown(d), [f])
  {
    hide Decoder.Named, Bare, S.Producer.Sound;
    var t := d.(call := Some(CallState(f.index, "", "", "", None)));
    assert Front([f]) == [] && "" + f.name == f.name && "" + f.arguments == f.arguments;
    assert NameOf([]) == "" && IdOf([]) == "" && Joined([]) == "";
    assert NameOf([f]) == f.name && IdOf([f]) == f.id && Joined([f]) == f.arguments;
    var e := d.(call := Some(CallState(f.index, f.id, f.name, f.arguments, None)));
    if f.name != "" {
      NamedShown(ids, e, f.name);
      assert Shown(t.Take(ids, f)) == Shown(d) + [Named(ids, |Shown(d)|, [f], Joined([f]))];
    }
  }

  lemma NextOfRun(ids: Ids, d: Decoder, base: seq<Types.Item>, fragments: seq<Fragment>, f: Fragment)
    requires fragments != [] && Mirrors(ids, d, base, fragments) && d.call.Some? && f.index == d.call.value.index
    ensures Mirrors(ids, d.Take(ids, f), base, fragments + [f])
  {
    hide Decoder.Take, Decoder.Valid, Streams, S.Producer.Sound, Calls, LastRun;
    var s, all := LastRun(fragments), fragments + [f];
    var closed := base + Calls(ids, |base|, fragments[..s]);
    StreamsIndex(ids, d, closed, fragments[s..]);
    TakeStreams(ids, d, closed, fragments[s..], f);
    LastRunExtends(fragments, f);
    assert all[..s] == fragments[..s] && all[s..] == fragments[s..] + [f];
  }

  lemma FirstOfRun(ids: Ids, d: Decoder, base: seq<Types.Item>, fragments: seq<Fragment>, f: Fragment)
    requires fragments != [] ==> Last(fragments).index != f.index
    requires d.Valid() && d.Idle() && Shown(d) == base + Calls(ids, |base|, fragments)
    ensures var t := d.(call := Some(CallState(f.index, "", "", "", None)));
            Mirrors(ids, t.Take(ids, f), base, fragments + [f])
  {
    hide Decoder.Take, Streams, S.Producer.Sound;
    var all := fragments + [f];
    FirstStreams(ids, d, f);
    if fragments != [] { LastRunExtends(fragments, f); }
    assert LastRun(all) == |fragments|;
    assert all[..|fragments|] == fragments && all[|fragments|..] == [f];
  }

  /** Closing what is open, a call of the earlier run perhaps. */
  lemma ClosedMirrors(ids: Ids, d: Decoder, base: seq<Types.Item>, fragments: seq<Fragment>)
    requires Mirrors(ids, d, base, fragments)
    ensures d.CloseOpen(ids).Done? ==> Shown(d.CloseOpen(ids).value) == base + Calls(ids, |base|, fragments)
  {
    hide Decoder.CloseCall, Decoder.CloseOpen, Decoder.Valid, Streams, Whole, Shown, Calls, LastRun;
    if fragments == [] {
      TalkCloses(ids, d);
      NoCalls(ids, |base|);
      assert base + [] == base;
    } else {
      var s := LastRun(fragments);
      var closed := base + Calls(ids, |base|, fragments[..s]);
      StreamsIndex(ids, d, closed, fragments[s..]);
      EndCallShown(ids, d, closed, fragments[s..]);
      CallCloses(ids, d);
      CallsSplit(ids, base, fragments);
    }
  }

  /** The last run is the last call. */
  lemma CallsSplit(ids: Ids, base: seq<Types.Item>, fragments: seq<Fragment>)
    requires fragments != []
    ensures var s := LastRun(fragments);
            var closed := base + Calls(ids, |base|, fragments[..s]);
            base + Calls(ids, |base|, fragments) == closed + [Whole(ids, |closed|, fragments[s..])]
  {
    hide Whole, LastRun;
  }

  lemma NoCalls(ids: Ids, n: nat)
    ensures Calls(ids, n, []) == []
  {
  }

  lemma TalkCloses(ids: Ids, d: Decoder)
    requires d.Valid() && d.call.None?
    ensures d.CloseOpen(ids).Done? && Shown(d.CloseOpen(ids).value) == Shown(d)
  {
    if d.msg.Some? { ShutShown(d, d.msg.value); }
    else if d.reasoning.Some? { ShutShown(d, d.reasoning.value); }
  }

  lemma CallCloses(ids: Ids, d: Decoder)
    requires d.Valid() && d.call.Some?
    ensures d.CloseOpen(ids) == d.CloseCall(ids)
  {
  }

  lemma NextMirrors(ids: Ids, d: Decoder, base: seq<Types.Item>, fragments: seq<Fragment>, f: Fragment)
    requires Mirrors(ids, d, base, fragments) && d.ToolCall(ids, f).Done?
    ensures Mirrors(ids, d.ToolCall(ids, f).value, base, fragments + [f])
  {
    MirrorsIndex(ids, d, base, fragments);
    hide Decoder.Take, Decoder.CloseOpen, Mirrors, S.Producer.Sound;
    if fragments != [] && f.index == Last(fragments).index {
      NextOfRun(ids, d, base, fragments, f);
    } else {
      ClosedMirrors(ids, d, base, fragments);
      FirstOfRun(ids, d.CloseOpen(ids).value, base, fragments, f);
    }
  }

  lemma StreamsIndex(ids: Ids, d: Decoder, closed: seq<Types.Item>, run: seq<Fragment>)
    requires Streams(ids, d, closed, run)
    ensures d.call.Some? && d.msg.None? && d.reasoning.None? && run != [] && d.call.value.index == Last(run).index
  {
  }

  // ---- A whole run -------------------------------------------------------------------------------------

  lemma {:induction false} RunMirrors(ids: Ids, d: Decoder, fragments: seq<Fragment>)
    requires d.Valid() && d.call.None? && ToolCalls(ids, d, fragments).Done?
    ensures Mirrors(ids, ToolCalls(ids, d, fragments).value, Shown(d), fragments)
  {
    hide Mirrors, Decoder.ToolCall, S.Producer.Sound;
    if fragments == [] {
      NothingMirrors(ids, d);
    } else {
      RunMirrors(ids, d, Front(fragments));
      assert fragments == Front(fragments) + [Last(fragments)];
      NextMirrors(ids, ToolCalls(ids, d, Front(fragments)).value, Shown(d), Front(fragments), Last(fragments));
    }
  }

  lemma NothingMirrors(ids: Ids, d: Decoder)
    requires d.Valid() && d.call.None?
    ensures Mirrors(ids, d, Shown(d), [])
  {
  }

  lemma MirrorsIndex(ids: Ids, d: Decoder, base: seq<Types.Item>, fragments: seq<Fragment>)
    requires Mirrors(ids, d, base, fragments)
    ensures d.call.Some? <==> fragments != []
    ensures fragments != [] ==> d.call.value.index == Last(fragments).index
  {
  }

  /** A run of tool-call deltas goes through to the end exactly when no index
      resumes after a later one and every run of an index has a fragment with a
      name.  Once finished, the response then has one call for each run, in
      order, after what it had: named by its first non-empty name, with all of
      its argument fragments joined, or the empty object. */
  lemma Reassembled(ids: Ids, d: Decoder, fragments: seq<Fragment>, stop: Option<string>)
    requires d.Valid() && d.call.None?
    ensures var r := ToolCalls(ids, d, fragments);
            && (r.Done? && Finish(ids, r.value, stop).Done? <==> NonDecreasing(fragments) && AllNamed(fragments))
            && (r.Done? && Finish(ids, r.value, stop).Done? && fragments != [] ==>
                  BareAll(Finish(ids, r.value, stop).value.resp.output) ==
                    BareAll(d.em.resp.output) + Calls(ids, |d.em.resp.output|, fragments))
  {
    hide Mirrors, ToolCalls, Calls, BareAll, Finish, Live, AllNamed, NonDecreasing, Decoder.Nameless;
    FragmentsExactly(ids, d, fragments);
    ClosesNamed(fragments);
    var r := ToolCalls(ids, d, fragments);
    if r.Done? {
      EndsNamed(r.value, fragments);
      RunMirrors(ids, d, fragments);
      if !r.value.Nameless() && fragments != [] { FinishedMirrors(ids, r.value, Shown(d), fragments, stop); }
    }
  }

  lemma EndsNamed(d: Decoder, fragments: seq<Fragment>)
    requires Tracks(d, fragments)
    ensures d.Nameless() <==> !LastNamed(fragments)
  {
    NothingNamed();
  }

  lemma FinishedMirrors(ids: Ids, d: Decoder, base: seq<Types.Item>, fragments: seq<Fragment>, stop: Option<string>)
    requires Mirrors(ids, d, base, fragments) && fragments != [] && !d.Nameless()
    ensures BareAll(Finish(ids, d, stop).value.resp.output) == base + Calls(ids, |base|, fragments)
  {
    hide Decoder.EndCall, S.Producer.Sound, S.Producer.Do, BareAll, Calls, LastRun, Whole;
    var s := LastRun(fragments);
    CallsSplit(ids, base, fragments);
    EndCallShown(ids, d, base + Calls(ids, |base|, fragments[..s]), fragments[s..]);
    EndedBare(d.EndCall(ids).value.em, if stop.None? then S.CompleteStream else S.StopStream(stop.value));
  }

  /** The run that goes through stops short of the call it cannot close. */
  lemma FirstFailure(ids: Ids, d: Decoder, fragments: seq<Fragment>, f: Fragment)
    requires d.Valid() && d.call.None? && ToolCalls(ids, d, fragments).Done?
    ensures var r := ToolCalls(ids, d, fragments + [f]);
            && (r.Resumed? <==> fragments != [] && f.index < Last(fragments).index)
            && (r.Crashed? <==>
                fragments != [] && Last(fragments).index < f.index && NameOf(fragments[LastRun(fragments)..]) == "")
  {
    hide Decoder.ToolCall, Live, NameOf, LastRun, Decoder.Valid;
    FragmentsExactly(ids, d, fragments);
    assert Front(fragments + [f]) == fragments;
    EndsNamed(ToolCalls(ids, d, fragments).value, fragments);
  }

  /** How the fragments are spread over deltas does not matter. */
  lemma {:induction false} SpreadOverDeltas(ids: Ids, d: Decoder, a: seq<Fragment>, b: seq<Fragment>)
    requires d.Valid()
    ensures var first := ToolCalls(ids, d, a);
            ToolCalls(ids, d, a + b) == if first.Done? then ToolCalls(ids, first.value, b) else first
    decreases |b|
  {
    hide Decoder.ToolCall, S.Producer.Sound;
    if b == [] {
      assert a + b == a;
    } else {
      SpreadOverDeltas(ids, d, a, Front(b));
      assert Front(a + b) == a + Front(b);
    }
  }
}

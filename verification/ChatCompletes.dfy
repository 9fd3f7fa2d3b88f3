/** Which Chat Completions streams are decoded to their end: exactly those in
    which, between two texts, indices never fall and every call is named. */
module ChatCompletes {
  import opened ChatDecoderSpec
  import opened Wrappers
  import Types
  import S = EmitterSpec

  // ---- Runs of fragments -----------------------------------------------------------------------

  /** Where the last run of fragments of one index starts. */
  function LastRun(fragments: seq<Fragment>): (s: nat)
    requires fragments != []
    ensures s < |fragments|
  {
    var front := Front(fragments);
    if front != [] && Last(front).index == Last(fragments).index then LastRun(front) else |fragments| - 1
  }

  /** The first name that is not empty. */
  function NameOf(run: seq<Fragment>): string {
    if run == [] then "" else if NameOf(Front(run)) != "" then NameOf(Front(run)) else Last(run).name
  }

  predicate NonDecreasing(fragments: seq<Fragment>) {
    forall k :: 0 < k < |fragments| ==> fragments[k - 1].index <= fragments[k].index
  }

  /** The last run has a name. */
  predicate LastNamed(fragments: seq<Fragment>) {
    fragments == [] || NameOf(fragments[LastRun(fragments)..]) != ""
  }

  /** Every run but the last has a name. */
  predicate EarlierNamed(fragments: seq<Fragment>) {
    fragments == [] || AllNamed(fragments[..LastRun(fragments)])
  }

  /** Every run has a name. */
  predicate AllNamed(fragments: seq<Fragment>)
    decreases |fragments|
  {
    fragments == [] || (LastNamed(fragments) && AllNamed(fragments[..LastRun(fragments)]))
  }

  lemma LastRunExtends(fragments: seq<Fragment>, f: Fragment)
    requires fragments != []
    ensures LastRun(fragments + [f]) == if Last(fragments).index == f.index then LastRun(fragments) else |fragments|
  {
    assert Front(fragments + [f]) == fragments;
  }

  lemma NonDecreasingLast(fragments: seq<Fragment>, f: Fragment)
    ensures NonDecreasing(fragments + [f]) <==>
              NonDecreasing(fragments) && (fragments != [] ==> Last(fragments).index <= f.index)
  {
    var all := fragments + [f];
    assert forall k :: 0 <= k < |fragments| ==> all[k] == fragments[k];
    if fragments != [] { assert all[|fragments|] == f && all[|fragments| - 1] == Last(fragments); }
  }

  /** A fragment of the same index names the run it extends. */
  lemma NextRun(t: seq<Fragment>, f: Fragment)
    requires t != [] && Last(t).index == f.index
    ensures EarlierNamed(t + [f]) == EarlierNamed(t)
    ensures LastNamed(t + [f]) <==> LastNamed(t) || f.name != ""
  {
    var s := LastRun(t);
    LastRunExtends(t, f);
    assert (t + [f])[..s] == t[..s] && (t + [f])[s..] == t[s..] + [f];
    assert Front(t[s..] + [f]) == t[s..];
  }

  /** A fragment of another index starts a run. */
  lemma NewRun(t: seq<Fragment>, f: Fragment)
    requires t != [] ==> Last(t).index != f.index
    ensures EarlierNamed(t + [f]) == AllNamed(t)
    ensures LastNamed(t + [f]) <==> f.name != ""
  {
    if t != [] { LastRunExtends(t, f); }
    assert LastRun(t + [f]) == |t|;
    assert (t + [f])[..|t|] == t && (t + [f])[|t|..] == [f];
    assert Front([f]) == [] && NameOf([]) == "";
    assert NameOf([f]) == f.name;
  }

  // ---- The call being streamed --------------------------------------------------------------------

  /** The fragments since the last text can be taken in. */
  predicate Live(t: seq<Fragment>) { NonDecreasing(t) && EarlierNamed(t) }

  /** And the call they end in can be closed. */
  predicate Closes(t: seq<Fragment>) { NonDecreasing(t) && AllNamed(t) }

  lemma ClosesNamed(t: seq<Fragment>)
    ensures Closes(t) <==> Live(t) && LastNamed(t)
  {
  }

  /** The decoder knows of the fragments since the last text what their last run says. */
  predicate Tracks(d: Decoder, t: seq<Fragment>) {
    && (d.call.Some? <==> t != [])
    && (t != [] ==> d.call.value.index == Last(t).index && (d.Nameless() <==> !LastNamed(t)))
  }

  lemma TakeTracks(ids: Ids, d: Decoder, f: Fragment)
    requires d.Valid() && d.call.Some? && f.index == d.call.value.index
    ensures d.Take(ids, f).Nameless() <==> d.Nameless() && f.name == ""
  {
    hide Decoder.Write, Decoder.Named;
    if d.call.value.writer.None? { assert "" + f.name == f.name; }
  }

  /** One more fragment goes through exactly when what it ends can be closed. */
  lemma ToolCallTracks(ids: Ids, d: Decoder, t: seq<Fragment>, f: Fragment)
    requires d.Valid() && Tracks(d, t) && Live(t)
    ensures d.ToolCall(ids, f).Done? <==> Live(t + [f])
    ensures d.ToolCall(ids, f).Resumed? <==> !NonDecreasing(t + [f])
    ensures d.ToolCall(ids, f).Done? ==> Tracks(d.ToolCall(ids, f).value, t + [f])
  {
    hide Decoder.Take, Decoder.CloseOpen, LastRun, AllNamed, NameOf, NonDecreasing, EarlierNamed, LastNamed;
    NonDecreasingLast(t, f);
    ClosesNamed(t);
    if t != [] && Last(t).index == f.index {
      NextRun(t, f);
      TakeTracks(ids, d, f);
    } else {
      NewRun(t, f);
      if t == [] { NothingNamed(); }
      var turned := d.Turn(ids, f.index);
      if turned.Done? { TakeTracks(ids, turned.value, f); }
    }
  }

  lemma NothingNamed()
    ensures AllNamed([]) && Live([]) && LastNamed([])
  {
  }

  lemma LivePrefix(t: seq<Fragment>, f: Fragment)
    requires Live(t + [f])
    ensures Live(t)
  {
    NonDecreasingLast(t, f);
    if t != [] && Last(t).index == f.index { NextRun(t, f); } else { NewRun(t, f); ClosesNamed(t); }
  }

  // ---- What a stream does ---------------------------------------------------------------------------

  /** What matters of a stream for its tool calls: that something else is said,
      which ends them, and their fragments. */
  datatype Action = Talk | Piece(f: Fragment)

  function Pieces(fragments: seq<Fragment>): (r: seq<Action>)
    ensures |r| == |fragments| && forall k :: 0 <= k < |r| ==> r[k] == Piece(fragments[k])
  {
    seq(|fragments|, k requires 0 <= k < |fragments| => Piece(fragments[k]))
  }

  function If(talk: bool): seq<Action> { if talk then [Talk] else [] }

  function Spoken(dl: Delta): bool { dl.reasoning != "" || dl.content != "" || dl.refusal != "" }

  function ActionsOf(dl: Delta): seq<Action> {
    If(Spoken(dl)) + Pieces(dl.toolCalls) + If(dl.citations != []) + If(dl.logprobs != [])
  }

  function Actions(deltas: seq<Delta>): seq<Action> {
    if deltas == [] then [] else Actions(Front(deltas)) + ActionsOf(Last(deltas))
  }

  /** The fragments since the last text. */
  function Since(actions: seq<Action>): seq<Fragment> {
    if actions == [] || Last(actions).Talk? then [] else Since(Front(actions)) + [Last(actions).f]
  }

  /** Before every text the calls can be closed. */
  predicate TextsFit(actions: seq<Action>) {
    forall k :: 0 <= k < |actions| && actions[k].Talk? ==> Closes(Since(actions[..k]))
  }

  predicate Runs(actions: seq<Action>) { TextsFit(actions) && Live(Since(actions)) }

  /** Between two texts, and after the last, no index falls and every run of an
      index has a fragment with a name. */
  predicate Completes(actions: seq<Action>) { TextsFit(actions) && Closes(Since(actions)) }

  lemma TextsFitLast(actions: seq<Action>, a: Action)
    ensures TextsFit(actions + [a]) <==> TextsFit(actions) && (a.Talk? ==> Closes(Since(actions)))
    ensures Since(actions + [a]) == if a.Talk? then [] else Since(actions) + [a.f]
  {
    var all := actions + [a];
    assert Front(all) == actions && all[..|actions|] == actions;
    assert forall k :: 0 <= k < |actions| ==> all[..k] == actions[..k] && all[k] == actions[k];
    if TextsFit(all) {
      forall k | 0 <= k < |actions| && actions[k].Talk? ensures Closes(Since(actions[..k])) {
        assert all[k].Talk? && all[..k] == actions[..k];
      }
      assert a.Talk? ==> all[|actions|].Talk?;
    }
  }

  lemma RunsLast(actions: seq<Action>, a: Action)
    ensures Runs(actions + [a]) ==> Runs(actions)
    ensures a.Talk? ==> (Runs(actions + [a]) <==> Completes(actions)) && Since(actions + [a]) == []
    ensures a.Piece? ==> Since(actions + [a]) == Since(actions) + [a.f]
    ensures a.Piece? ==> (Runs(actions + [a]) <==> Runs(actions) && Live(Since(actions) + [a.f]))
  {
    hide TextsFit, Live, Closes;
    TextsFitLast(actions, a);
    ClosesNamed(Since(actions));
    NothingNamed();
    if a.Piece? && Live(Since(actions) + [a.f]) { LivePrefix(Since(actions), a.f); }
  }

  lemma {:induction false} RunsPrefix(a: seq<Action>, b: seq<Action>)
    requires Runs(a + b)
    ensures Runs(a)
    decreases |b|
  {
    hide Runs;
    if b == [] {
      assert a + b == a;
    } else {
      assert a + b == (a + Front(b)) + [Last(b)];
      RunsLast(a + Front(b), Last(b));
      RunsPrefix(a, Front(b));
    }
  }

  // ---- The decoder follows the actions ---------------------------------------------------------------

  ghost predicate Follows(d: Decoder, actions: seq<Action>) {
    d.Valid() && Tracks(d, Since(actions)) && Runs(actions)
  }

  /** A step goes through exactly when the actions it adds run, and follows them. */
  ghost predicate Steps(r: Outcome<Decoder>, actions: seq<Action>) {
    && (r.Done? <==> Runs(actions))
    && (r.Done? ==> Follows(r.value, actions))
  }

  lemma FollowsNamed(d: Decoder, actions: seq<Action>)
    requires Follows(d, actions)
    ensures d.Nameless() <==> !Completes(actions)
  {
    ClosesNamed(Since(actions));
    NothingNamed();
  }

  /** Saying something ends the call being streamed. */
  lemma TellSteps(d: Decoder, actions: seq<Action>, r: Outcome<Decoder>)
    requires Follows(d, actions) && (r.Done? <==> !d.Nameless())
    requires r.Done? ==> r.value.Valid() && (r.value.msg.Some? || r.value.reasoning.Some?)
    ensures Steps(r, actions + [Talk])
  {
    hide Runs, Completes, Decoder.Nameless;
    FollowsNamed(d, actions);
    RunsLast(actions, Talk);
  }

  /** Saying more after that changes nothing for the tool calls. */
  lemma TellAgain(d: Decoder, actions: seq<Action>, r: Outcome<Decoder>)
    requires Follows(d, actions) && Since(actions) == [] && (r.Done? <==> !d.Nameless())
    requires r.Done? ==> r.value.Valid() && (r.value.msg.Some? || r.value.reasoning.Some?)
    ensures Steps(r, actions)
  {
  }

  /** One text of a delta, or none: the first of them ends the calls. */
  lemma MaybeTells(d: Decoder, before: seq<Action>, spoke: bool, speaks: bool, r: Outcome<Decoder>)
    requires Follows(d, before + If(spoke))
    requires !speaks ==> r == Done(d)
    requires speaks ==> (r.Done? <==> !d.Nameless())
    requires speaks && r.Done? ==> r.value.Valid() && (r.value.msg.Some? || r.value.reasoning.Some?)
    ensures Steps(r, before + If(spoke || speaks))
  {
    hide Runs, Decoder.Nameless, Tracks, Since;
    if spoke {
      RunsLast(before, Talk);
      if speaks { TellAgain(d, before + [Talk], r); }
    } else {
      assert before + [] == before;
      if speaks { TellSteps(d, before, r); }
    }
  }

  lemma SpeakSteps(ids: Ids, d: Decoder, before: seq<Action>, dl: Delta)
    requires Follows(d, before)
    ensures Steps(d.Speak(ids, dl), before + If(Spoken(dl)))
  {
    hide Runs, Decoder.Reason, Decoder.Tell, Decoder.Nameless, Tracks, Since;
    assert before + If(false) == before;
    var reasoned, told := dl.reasoning != "", dl.content != "";
    var r := if reasoned then d.Reason(ids, dl.reasoning) else Done(d);
    MaybeTells(d, before, false, reasoned, r);
    if r.Done? {
      var t := if told then r.value.Tell(ids, S.Text(dl.content)) else r;
      MaybeTells(r.value, before, reasoned, told, t);
      if t.Done? {
        MaybeTells(t.value, before, reasoned || told, dl.refusal != "", d.Speak(ids, dl));
      }
    }
  }

  lemma {:induction false} ToolCallsStep(ids: Ids, d: Decoder, before: seq<Action>, fragments: seq<Fragment>)
    requires Follows(d, before)
    ensures Steps(ToolCalls(ids, d, fragments), before + Pieces(fragments))
    decreases |fragments|
  {
    hide Runs, Tracks, Live, Decoder.ToolCall;
    if fragments == [] {
      assert before + Pieces(fragments) == before;
    } else {
      var front, f := Front(fragments), Last(fragments);
      var so_far := before + Pieces(front);
      assert before + Pieces(fragments) == so_far + [Piece(f)];
      ToolCallsStep(ids, d, before, front);
      RunsLast(so_far, Piece(f));
      if ToolCalls(ids, d, front).Done? { PieceSteps(ids, ToolCalls(ids, d, front).value, so_far, f); }
    }
  }

  lemma PieceSteps(ids: Ids, d: Decoder, before: seq<Action>, f: Fragment)
    requires Follows(d, before)
    ensures Steps(d.ToolCall(ids, f), before + [Piece(f)])
  {
    hide Decoder.ToolCall, Live, Tracks;
    RunsLast(before, Piece(f));
    assert Live(Since(before));
    ToolCallTracks(ids, d, Since(before), f);
  }

  lemma {:induction false} AnnotateSteps(ids: Ids, d: Decoder, before: seq<Action>, citations: seq<string>)
    requires Follows(d, before)
    ensures Steps(d.Annotate(ids, citations), before + If(citations != []))
    decreases |citations|
  {
    hide Runs, Tracks, Decoder.Tell, Decoder.Nameless;
    if citations == [] {
      assert before + [] == before;
    } else {
      AnnotateSteps(ids, d, before, Front(citations));
      var noted := d.Annotate(ids, Front(citations));
      if noted.Done? {
        MaybeTells(noted.value, before, Front(citations) != [], true, d.Annotate(ids, citations));
      }
    }
  }

  /** One step after another. */
  lemma Chained(first: Outcome<Decoder>, a: seq<Action>, both: Outcome<Decoder>, b: seq<Action>)
    requires Steps(first, a)
    requires first.Done? ==> Steps(both, a + b)
    requires !first.Done? ==> !both.Done?
    ensures Steps(both, a + b)
  {
    hide Runs;
    if Runs(a + b) { RunsPrefix(a, b); }
  }

  lemma Associate(a: seq<Action>, b: seq<Action>, c: seq<Action>)
    ensures a + b + c == a + (b + c)
  {
  }

  lemma Associated(before: seq<Action>, dl: Delta)
    ensures var a, b := If(Spoken(dl)), Pieces(dl.toolCalls);
            var c := If(dl.citations != []) + If(dl.logprobs != []);
            before + ActionsOf(dl) == before + a + b + c == before + a + (b + c)
  {
    hide If, Pieces;
    var a, b := If(Spoken(dl)), Pieces(dl.toolCalls);
    var c, e := If(dl.citations != []), If(dl.logprobs != []);
    Associate(a + b, c, e);
    Associate(a, b, c + e);
    Associate(before, a, b + (c + e));
    Associate(before + a, b, c + e);
  }

  lemma DeltaSteps(ids: Ids, d: Decoder, before: seq<Action>, dl: Delta)
    requires Follows(d, before)
    ensures Steps(d.Delta(ids, dl), before + ActionsOf(dl))
  {
    hide Runs, Tracks, Since, If, Pieces, Spoken, ActionsOf, Decoder.Valid, Decoder.Speak, ToolCalls, Decoder.Note;
    var a, b := If(Spoken(dl)), Pieces(dl.toolCalls);
    var c := If(dl.citations != []) + If(dl.logprobs != []);
    var r := d.Delta(ids, dl);
    Associated(before, dl);
    SpeakSteps(ids, d, before, dl);
    var spoken := d.Speak(ids, dl);
    if spoken.Done? {
      var called := ToolCalls(ids, spoken.value, dl.toolCalls);
      ToolCallsStep(ids, spoken.value, before + a, dl.toolCalls);
      if called.Done? { NoteSteps(ids, called.value, before + a + b, dl.citations, dl.logprobs); }
      Chained(called, before + a + b, r, c);
    }
    Chained(spoken, before + a, r, b + c);
  }

  lemma NoteSteps(ids: Ids, d: Decoder, before: seq<Action>, citations: seq<string>, logprobs: seq<string>)
    requires Follows(d, before)
    ensures Steps(d.Note(ids, citations, logprobs), before + (If(citations != []) + If(logprobs != [])))
  {
    hide Runs, Decoder.Annotate, Decoder.Tell, Decoder.Nameless, Tracks;
    var a, b := If(citations != []), If(logprobs != []);
    assert before + (a + b) == before + a + b && before + a + [] == before + a;
    var noted, r := d.Annotate(ids, citations), d.Note(ids, citations, logprobs);
    AnnotateSteps(ids, d, before, citations);
    if noted.Done? { MaybeTells(noted.value, before + a, false, logprobs != [], r); }
    Chained(noted, before + a, r, b);
  }

  lemma {:induction false} DecodeSteps(ids: Ids, d: Decoder, before: seq<Action>, deltas: seq<Delta>)
    requires Follows(d, before)
    ensures Steps(Decode(ids, d, deltas), before + Actions(deltas))
    decreases |deltas|
  {
    hide Runs, Tracks, Decoder.Valid, Decoder.Delta, ActionsOf;
    if deltas == [] {
      assert before + Actions(deltas) == before;
    } else {
      var front := before + Actions(Front(deltas));
      assert before + Actions(deltas) == front + ActionsOf(Last(deltas));
      DecodeSteps(ids, d, before, Front(deltas));
      if Runs(before + Actions(deltas)) { RunsPrefix(front, ActionsOf(Last(deltas))); }
      if Decode(ids, d, Front(deltas)).Done? {
        DeltaSteps(ids, Decode(ids, d, Front(deltas)).value, front, Last(deltas));
      }
    }
  }

  /** An answer is decoded to its end exactly when, between two texts and after
      the last, no index falls and every run of an index has a name. */
  lemma DecodesExactly(ids: Ids, d: Decoder, deltas: seq<Delta>, stop: Option<string>)
    requires d.Valid() && d.call.None?
    ensures Decode(ids, d, deltas).Done? <==> Runs(Actions(deltas))
    ensures Answer(ids, d, deltas, stop).Done? <==> Completes(Actions(deltas))
  {
    hide Decode, Finish, Runs, Completes, Actions, Tracks, Decoder.Valid, Decoder.Nameless;
    NothingFollows(d);
    assert [] + Actions(deltas) == Actions(deltas);
    DecodeSteps(ids, d, [], deltas);
    CompletesRuns(Actions(deltas));
    if Decode(ids, d, deltas).Done? { FollowsNamed(Decode(ids, d, deltas).value, Actions(deltas)); }
  }

  lemma NothingFollows(d: Decoder)
    requires d.Valid() && d.call.None?
    ensures Follows(d, [])
  {
    NothingNamed();
  }

  lemma CompletesRuns(actions: seq<Action>)
    ensures Completes(actions) ==> Runs(actions)
  {
    ClosesNamed(Since(actions));
  }

  /** The run of one delta's fragments after an item that is not a call. */
  lemma FragmentsExactly(ids: Ids, d: Decoder, fragments: seq<Fragment>)
    requires d.Valid() && d.call.None?
    ensures ToolCalls(ids, d, fragments).Done? <==> Live(fragments)
    ensures ToolCalls(ids, d, fragments).Done? ==> Tracks(ToolCalls(ids, d, fragments).value, fragments)
  {
    NothingFollows(d);
    ToolCallsStep(ids, d, [], fragments);
    assert [] + Pieces(fragments) == Pieces(fragments);
    PiecesSince(fragments);
  }

  lemma {:induction false} PiecesSince(fragments: seq<Fragment>)
    ensures Since(Pieces(fragments)) == fragments && TextsFit(Pieces(fragments))
  {
    if fragments != [] {
      PiecesSince(Front(fragments));
      assert Front(Pieces(fragments)) == Pieces(Front(fragments));
    }
  }

  /** A call whose name never comes: one nameless fragment, and then the end. */
  lemma NamelessCallCrashes(ids: Ids, d: Decoder, stop: Option<string>)
    requires d.Valid() && d.call.None?
    ensures var nameless := Delta("", "", "", [Fragment(0, "x", "", "{}")], [], []);
            Decode(ids, d, [nameless]).Done? && Answer(ids, d, [nameless], stop).Crashed?
  {
    var f := Fragment(0, "x", "", "{}");
    var nameless := Delta("", "", "", [f], [], []);
    DecodesExactly(ids, d, [nameless], stop);
    FragmentsExactly(ids, d, [f]);
  }
}

/** Items but for their status: what closing, ending and announcing leave as it
    was.  Two decoders' results are stated over them. */
module BareItems {
  import opened Wrappers
  import S = EmitterSpec
  import Types

  function Bare(item: Types.Item): Types.Item { S.WithStatus(item, Types.Unset) }

  function BareAll(items: seq<Types.Item>): (r: seq<Types.Item>)
    ensures |r| == |items|
    ensures forall k :: 0 <= k < |items| ==> r[k] == Bare(items[k])
  {
    seq(|items|, k requires 0 <= k < |items| => Bare(items[k]))
  }

  lemma CloseLeaves(item: Types.Item, w: S.Writer)
    requires w.closed || S.Attached(item, w)
    ensures Bare(S.Close(item, w).item) == Bare(item)
  {
  }

  lemma StatusUnseen(item: Types.Item)
    ensures Bare(S.WithStatus(item, Types.Incomplete)) == Bare(item)
  {
  }

  lemma CloseBare(e: S.Producer)
    requires e.Sound()
    ensures BareAll(e.CloseOpen().resp.output) == BareAll(e.resp.output)
  {
    hide Bare;
    if e.open.Some? {
      var h := e.open.value;
      assert e.WriterSound(h);
      CloseLeaves(e.ItemOf(h), e.writers[h]);
    }
  }

  /** Closing one writer. */
  lemma ShutBare(e: S.Producer, h: nat)
    requires e.Sound() && h < |e.writers| && !e.writers[h].closed
    ensures BareAll(e.Do(S.Write(h, S.CloseWriter)).resp.output) == BareAll(e.resp.output)
  {
    hide Bare;
    assert e.WriterSound(h);
    CloseLeaves(e.ItemOf(h), e.writers[h]);
  }

  /** A new item comes last. */
  lemma OpenBare(e: S.Producer, item: Types.Item)
    requires e.Sound()
    ensures BareAll(e.OpenItem(item).resp.output) == BareAll(e.resp.output) + [Bare(item)]
  {
    hide Bare;
    CloseBare(e.EnsureStarted());
  }

  /** Ending the response changes no item but its status. */
  lemma EndedBare(e: S.Producer, ending: S.Call)
    requires e.Sound() && !e.terminal && (ending.CompleteStream? || ending.StopStream?)
    ensures BareAll(e.Do(ending).resp.output) == BareAll(e.resp.output)
  {
    hide Bare;
    var marked := if ending.StopStream? then e.MarkOpenIncomplete() else e;
    if e.Live().Some? && ending.StopStream? {
      assert e.WriterSound(e.Live().value);
      StatusUnseen(e.ItemOf(e.Live().value));
    }
    CloseBare(marked.EnsureStarted());
  }
}

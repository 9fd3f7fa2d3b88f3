/** The types of the items of an output, under the emitter's calls. */
module ItemTypes {
  import opened Wrappers
  import S = EmitterSpec
  import Types

  function TypesOf(items: seq<Types.Item>): (types: seq<Types.ItemType>)
    ensures |types| == |items| && forall p :: 0 <= p < |items| ==> types[p] == Types.ItemTypeOf(items[p])
  {
    seq(|items|, p requires 0 <= p < |items| => Types.ItemTypeOf(items[p]))
  }

  lemma WriteTypes(e: S.Producer, h: nat, call: S.WriterCall)
    requires e.Sound() && h < |e.writers| && S.WriterAllows(e.writers[h], call)
    ensures TypesOf(e.Do(S.Write(h, call)).resp.output) == TypesOf(e.resp.output)
  {
    assert e.WriterSound(h);
    S.PerformFits(e.ItemOf(h), e.writers[h], call);
    hide S.Perform;
  }

  lemma ClosedTypes(e: S.Producer)
    requires e.Sound()
    ensures TypesOf(e.EnsureStarted().CloseOpen().resp.output) == TypesOf(e.resp.output)
  {
    var s := e.EnsureStarted();
    if s.open.Some? {
      assert s.WriterSound(s.open.value);
      WriteTypes(s, s.open.value, S.CloseWriter);
    }
  }

  lemma OpenedLast(e: S.Producer, item: Types.Item, w: S.Writer)
    requires e.Sound()
    ensures TypesOf(e.OpenWith(item, w).resp.output) == TypesOf(e.resp.output) + [Types.ItemTypeOf(item)]
  {
    ClosedTypes(e);
    hide S.Producer.CloseOpen, S.Producer.EnsureStarted, S.Producer.Sound;
    var closed := e.EnsureStarted().CloseOpen();
    assert e.OpenWith(item, w).resp.output == closed.resp.output + [item];
  }

  lemma OpenTypes(e: S.Producer, opening: S.Call)
    requires e.Sound() && !e.terminal
    requires opening.OpenMessage? || opening.OpenCall? || opening.OpenReasoning?
    ensures TypesOf(e.Do(opening).resp.output) == TypesOf(e.resp.output)
            + [if opening.OpenMessage? then Types.TypeMessage
               else if opening.OpenCall? then Types.TypeFunctionCall else Types.TypeReasoning]
  {
    hide S.Producer.OpenWith, S.Producer.Sound;
    var n := |e.resp.output|;
    match opening
    case OpenMessage(id, phase) =>
      OpenedLast(e, Types.Message(id, Types.InProgress, "assistant", phase, []), S.MessageWriter(n, false, false));
    case OpenCall(id, callId, name) =>
      OpenedLast(e, Types.FunctionCall(id, Types.InProgress, callId, name, ""), S.CallWriter(n, false));
    case OpenReasoning(id) =>
      OpenedLast(e, Types.Reasoning(id, Types.InProgress, [], [], ""),
                 S.ReasoningWriter(n, false, false, false, false));
  }

  lemma MarkedTypes(e: S.Producer)
    requires e.Sound()
    ensures TypesOf(e.MarkOpenIncomplete().resp.output) == TypesOf(e.resp.output)
  {
    if e.Live().Some? { assert e.WriterSound(e.Live().value); }
  }

  lemma EndTypes(e: S.Producer, ending: S.Call)
    requires e.Sound() && !e.terminal && (ending.CompleteStream? || ending.StopStream?)
    ensures TypesOf(e.Do(ending).resp.output) == TypesOf(e.resp.output)
  {
    MarkedTypes(e);
    ClosedTypes(if ending.StopStream? then e.MarkOpenIncomplete() else e);
    hide S.Producer.CloseOpen, S.Producer.EnsureStarted, S.Producer.Sound, S.Producer.MarkOpenIncomplete;
  }

  lemma OpensCall(e: S.Producer, opening: S.Call)
    requires e.Sound() && !e.terminal && opening.OpenCall?
    ensures |e.Do(opening).writers| == |e.writers| + 1 && e.Do(opening).writers[|e.writers|].CallWriter?
    ensures !e.Do(opening).writers[|e.writers|].closed
  {
    S.OpenKeeps(e);
  }

  /** An item added whole is one more, of its own type. */
  lemma EmitTypes(e: S.Producer, item: Types.Item)
    requires e.Sound() && !e.terminal && !item.NilItem?
    ensures TypesOf(e.Do(S.EmitItem(item)).resp.output) == TypesOf(e.resp.output) + [Types.ItemTypeOf(item)]
  {
    ClosedTypes(e);
    S.EmitShape(e, item);
    hide S.Producer.CloseOpen, S.Producer.EnsureStarted, S.Producer.Sound, S.Producer.Do, S.FinalForm;
    var closed, n := e.EnsureStarted().CloseOpen(), |e.resp.output|;
    assert e.OpenItem(item).resp.output == closed.resp.output + [item];
    assert (closed.resp.output + [item])[n := S.FinalForm(item)] == closed.resp.output + [S.FinalForm(item)];
  }
}

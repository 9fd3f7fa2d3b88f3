/** Steps of whoever drives the emitter, by what they add to the output: the
    tokens they say and the items they announce. */
module Saying {
  import opened EmitterSpec
  import opened OutputSays
  import opened Types
  import opened Wrappers

  function Annotations(citations: seq<string>): (r: seq<Annotation>)
    ensures |r| == |citations| && forall k :: 0 <= k < |r| ==> r[k] == Annotation(citations[k])
  {
    seq(|citations|, k requires 0 <= k < |citations| => Annotation(citations[k]))
  }

  /** What the item at a place may be announced as. */
  type Fits = (nat, Item) -> bool

  predicate HeadsFit(fits: Fits, tokens: seq<Token>) {
    forall p :: 0 <= p < |tokens| ==> tokens[p].Headed? && fits(p, tokens[p].item)
  }

  function SoFar(ch: Channel, e: Producer): seq<Token> { Said(ch, e.resp.output) }

  /** A step says exactly these tokens; the items it announces fit. */
  ghost predicate Says(ch: Channel, fits: Fits, e: Producer, d: Producer, tokens: seq<Token>) {
    if ch.Heads? then HeadsFit(fits, SoFar(ch, e)) ==> HeadsFit(fits, SoFar(ch, d))
    else SoFar(ch, d) == SoFar(ch, e) + tokens
  }

  lemma SaysNothing(ch: Channel, fits: Fits, e: Producer)
    ensures Says(ch, fits, e, e, [])
  {
    assert SoFar(ch, e) + [] == SoFar(ch, e);
  }

  lemma SaysBoth(ch: Channel, fits: Fits, e: Producer, d: Producer, a: seq<Token>, f: Producer, b: seq<Token>)
    requires Says(ch, fits, e, d, a) && Says(ch, fits, d, f, b)
    ensures Says(ch, fits, e, f, a + b)
    ensures b == [] ==> Says(ch, fits, e, f, a)
    ensures a == [] ==> Says(ch, fits, e, f, b)
  {
    hide SoFar, HeadsFit;
    if !ch.Heads? { assert SoFar(ch, f) == SoFar(ch, e) + a + b == SoFar(ch, e) + (a + b); }
    assert a == [] ==> a + b == b;
    assert b == [] ==> a + b == a;
  }

  /** A call on an open writer says what it writes. */
  lemma OpenWriteSays(ch: Channel, fits: Fits, e: Producer, h: nat, call: WriterCall)
    requires e.Sound() && h < |e.writers| && !e.writers[h].closed && WriterAllows(e.writers[h], call)
    ensures Says(ch, fits, e, e.Do(Write(h, call)), Writes(ch, call))
  {
    hide Said, Producer.Do, Writes, Perform, Attached;
    WriteSays(ch, e, h, call);
    assert e.WriterSound(h);
    WriterAnswers(ch, e.ItemOf(h), e.writers[h], call);
    if ch.Heads? {
      NoHeads(call);
      assert SoFar(ch, e) + [] == SoFar(ch, e);
    }
  }

  lemma {:induction false} HeadsCount(items: seq<Item>)
    ensures |Said(Heads, items)| == |items|
    ensures forall p :: 0 <= p < |items| ==> Said(Heads, items)[p] == Headed(Head(items[p]))
  {
    if items != [] { HeadsCount(Front(items)); }
  }

  predicate Opens(call: Call) { call.OpenMessage? || call.OpenCall? || call.OpenReasoning? || call.EmitItem? }

  /** A new item, announced as it may be, says what it holds. */
  lemma OpeningSays(ch: Channel, fits: Fits, e: Producer, opening: Call, head: Item)
    requires Opens(opening) && e.Sound() && !e.terminal && e.Allows(opening)
    requires fits(|e.resp.output|, head) && Tells(Heads, opening) == [Headed(head)]
    ensures Says(ch, fits, e, e.Do(opening), Tells(ch, opening))
  {
    hide Said, Producer.Do, Producer.Sound, Producer.Allows, Tells, Producer.OutcomeOf;
    DoSays(ch, e, opening);
    OpeningAnswers(e, opening);
    HeadsCount(e.resp.output);
  }

  lemma OpeningAnswers(e: Producer, opening: Call)
    requires Opens(opening) && e.Sound() && !e.terminal && e.Allows(opening)
    ensures e.OutcomeOf(opening).Ok?
  {
  }

  /** An item to be written says nothing yet. */
  lemma OpeningSilent(ch: Channel, fits: Fits, e: Producer, opening: Call, head: Item)
    requires Opens(opening) && !opening.EmitItem? && e.Sound() && !e.terminal && e.Allows(opening)
    requires fits(|e.resp.output|, head) && Tells(Heads, opening) == [Headed(head)]
    ensures Says(ch, fits, e, e.Do(opening), [])
  {
    hide Said, Producer.Do, Producer.Sound;
    OpeningSays(ch, fits, e, opening, head);
    if !ch.Heads? { assert Tells(ch, opening) == []; }
  }

  /** Ending a stream says nothing. */
  lemma EndingSays(ch: Channel, fits: Fits, e: Producer, ending: Call)
    requires e.Sound() && !e.terminal && (ending.CompleteStream? || ending.StopStream?)
    ensures Says(ch, fits, e, e.Do(ending), [])
  {
    hide Said, Producer.Do, Producer.Sound;
    EndSays(ch, e, ending);
    assert SoFar(ch, e) + [] == SoFar(ch, e);
  }

  /** From nothing on, the output is what was said, and every item fits. */
  lemma SaidInAll(ch: Channel, fits: Fits, e: Producer, d: Producer, tokens: seq<Token>)
    requires Says(ch, fits, e, d, tokens) && e.resp.output == []
    ensures !ch.Heads? ==> Said(ch, d.resp.output) == tokens
    ensures ch.Heads? ==> forall p :: 0 <= p < |d.resp.output| ==> fits(p, Head(d.resp.output[p]))
  {
    assert Said(ch, []) == [] && [] + tokens == tokens;
    HeadsCount(d.resp.output);
    hide Head;
    if ch.Heads? {
      forall p | 0 <= p < |d.resp.output| ensures fits(p, Head(d.resp.output[p])) {
        assert Said(Heads, d.resp.output)[p].item == Head(d.resp.output[p]);
      }
    }
  }
}

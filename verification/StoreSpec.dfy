/** The in-memory response store as a value: a list of ids beside a map, and the
    insertion-ordered bounded map it stands for. */
module StoreSpec {
  import opened Wrappers

  datatype Store<H> = Store(capacity: nat, order: seq<string>, items: map<string, H>)
  {
    /** order lists exactly the keys of items, once each, within capacity. */
    ghost predicate Valid() {
      && 1 <= capacity && |order| <= capacity
      && (forall i, j :: 0 <= i < j < |order| ==> order[i] != order[j])
      && (forall id :: id in order <==> id in items)
    }

    function Load(id: string): Option<H> { if id in items then Some(items[id]) else None }

    /** Drop the oldest while there are more than capacity. */
    function Evict(): (s: Store<H>)
      decreases |order|
      ensures s.capacity == capacity
    {
      if |order| <= capacity || order == [] then this
      else Store(capacity, order[1..], items - {order[0]}).Evict()
    }

    function Save(id: string, history: H): Store<H> {
      Store(capacity, if id in items then order else order + [id], items[id := history]).Evict()
    }

    function Delete(id: string): Store<H> {
      if id !in items then this else Store(capacity, Without(order, id), items - {id})
    }
  }

  function NewStore<H>(capacity: int): (s: Store<H>)
    ensures s.Valid()
  {
    Store(if capacity < 1 then 1 else capacity, [], map[])
  }

  /** The list without the first occurrence of id. */
  function Without(order: seq<string>, id: string): seq<string> {
    if order == [] then [] else if order[0] == id then order[1..] else [order[0]] + Without(order[1..], id)
  }

  lemma {:induction false} WithoutAt(order: seq<string>, id: string, k: nat)
    requires k < |order| && order[k] == id && forall j :: 0 <= j < k ==> order[j] != id
    ensures Without(order, id) == order[..k] + order[k + 1..]
  {
    if k > 0 {
      WithoutAt(order[1..], id, k - 1);
      assert order[..k] == [order[0]] + order[1..][..k - 1] && order[1..][k..] == order[k + 1..];
    }
  }

  // ---- The insertion-ordered bounded map -------------------------------------------------------

  type Entries<H> = seq<(string, H)>

  /** The entries, oldest first insertion first. */
  function EntriesOf<H>(s: Store<H>): Entries<H>
    requires forall id <- s.order :: id in s.items
  {
    seq(|s.order|, k requires 0 <= k < |s.order| => (s.order[k], s.items[s.order[k]]))
  }

  /** A new id goes last; one already there keeps its place. */
  function Put<H>(entries: Entries<H>, id: string, history: H): Entries<H> {
    if entries == [] then [(id, history)]
    else if entries[0].0 == id then [(id, history)] + entries[1..]
    else [entries[0]] + Put(entries[1..], id, history)
  }

  function Remove<H>(entries: Entries<H>, id: string): Entries<H> {
    if entries == [] then []
    else if entries[0].0 == id then entries[1..]
    else [entries[0]] + Remove(entries[1..], id)
  }

  /** The last n. */
  function Latest<H>(entries: Entries<H>, n: nat): Entries<H> {
    if |entries| <= n then entries else entries[|entries| - n..]
  }

  function Find<H>(entries: Entries<H>, id: string): Option<H> {
    if entries == [] then None else if entries[0].0 == id then Some(entries[0].1) else Find(entries[1..], id)
  }

  // ---- Every operation ----------------------------------------------------------------------------

  lemma {:induction false} PutNew<H>(entries: Entries<H>, id: string, history: H)
    requires forall k :: 0 <= k < |entries| ==> entries[k].0 != id
    ensures Put(entries, id, history) == entries + [(id, history)]
  {
    if entries != [] {
      PutNew(entries[1..], id, history);
    }
  }

  lemma {:induction false} PutAgain<H>(entries: Entries<H>, id: string, history: H, k: nat)
    requires k < |entries| && entries[k].0 == id && forall j :: 0 <= j < k ==> entries[j].0 != id
    ensures Put(entries, id, history) == entries[k := (id, history)]
  {
    if k > 0 {
      PutAgain(entries[1..], id, history, k - 1);
      assert entries[k := (id, history)] == [entries[0]] + entries[1..][k - 1 := (id, history)];
    }
  }

  lemma {:induction false} RemovePlaces<H>(entries: Entries<H>, id: string, k: nat)
    requires k < |entries| && entries[k].0 == id && forall j :: 0 <= j < k ==> entries[j].0 != id
    ensures Remove(entries, id) == entries[..k] + entries[k + 1..]
  {
    if k > 0 {
      var rest := entries[1..];
      RemovePlaces(rest, id, k - 1);
      assert entries[..k] == [entries[0]] + rest[..k - 1] && rest[k..] == entries[k + 1..];
      assert Remove(entries, id) == [entries[0]] + (rest[..k - 1] + rest[k..]);
    }
  }

  /** At most the oldest entry is evicted by a save. */
  lemma SaveEvictsOne<H>(s: Store<H>, id: string, history: H)
    requires s.Valid()
    ensures var grown := Store(s.capacity, s.order + [id], s.items[id := history]);
            s.Save(id, history) ==
              if id in s.items then Store(s.capacity, s.order, s.items[id := history])
              else if |s.order| < s.capacity then grown
              else Store(s.capacity, grown.order[1..], grown.items - {grown.order[0]})
  {
    if id !in s.items && |s.order| == s.capacity {
      var grown := Store(s.capacity, s.order + [id], s.items[id := history]);
      var cut := Store(s.capacity, grown.order[1..], grown.items - {grown.order[0]});
      assert |cut.order| == s.capacity;
      assert cut.Evict() == cut;
      assert grown.Evict() == cut.Evict();
    }
  }

  /** Saving keeps the store valid and is Put, cut to the latest entries. */
  lemma SaveRefines<H>(s: Store<H>, id: string, history: H)
    requires s.Valid()
    ensures var t := s.Save(id, history);
            t.Valid() && EntriesOf(t) == Latest(Put(EntriesOf(s), id, history), s.capacity)
  {
    SaveEvictsOne(s, id, history);
    hide Store.Save;
    if id in s.items {
      SaveKnown(s, id, history);
    } else {
      SaveNew(s, id, history);
    }
  }

  lemma SaveKnown<H>(s: Store<H>, id: string, history: H)
    requires s.Valid() && id in s.items
    ensures var t := Store(s.capacity, s.order, s.items[id := history]);
            t.Valid() && EntriesOf(t) == Put(EntriesOf(s), id, history)
  {
    var t := Store(s.capacity, s.order, s.items[id := history]);
    var entries := EntriesOf(s);
    var k :| 0 <= k < |s.order| && s.order[k] == id;
    PutAgain(entries, id, history, k);
    assert EntriesOf(t) == entries[k := (id, history)];
  }

  lemma SaveNew<H>(s: Store<H>, id: string, history: H)
    requires s.Valid() && id !in s.items
    ensures var grown := Store(s.capacity, s.order + [id], s.items[id := history]);
            var cut := Store(s.capacity, grown.order[1..], grown.items - {grown.order[0]});
            && (|s.order| < s.capacity ==> grown.Valid() && EntriesOf(grown) == Put(EntriesOf(s), id, history))
            && (|s.order| == s.capacity ==> cut.Valid() && EntriesOf(cut) == Put(EntriesOf(s), id, history)[1..])
  {
    var grown := Store(s.capacity, s.order + [id], s.items[id := history]);
    GrownShape(s, id, history);
    hide Put;
    if |s.order| == s.capacity {
      CutValid(grown);
      CutEntries(grown);
    }
  }

  lemma CutEntries<H>(grown: Store<H>)
    requires grown.order != [] && forall x :: x in grown.order <==> x in grown.items
    requires forall i, j :: 0 <= i < j < |grown.order| ==> grown.order[i] != grown.order[j]
    ensures var cut := Store(grown.capacity, grown.order[1..], grown.items - {grown.order[0]});
            EntriesOf(cut) == EntriesOf(grown)[1..]
  {
    var cut := Store(grown.capacity, grown.order[1..], grown.items - {grown.order[0]});
    forall k | 0 <= k < |cut.order| ensures EntriesOf(cut)[k] == EntriesOf(grown)[1..][k] {
      assert cut.order[k] == grown.order[k + 1] && cut.order[k] in cut.order;
    }
  }

  /** Before any eviction. */
  lemma GrownShape<H>(s: Store<H>, id: string, history: H)
    requires s.Valid() && id !in s.items
    ensures var grown := Store(s.capacity, s.order + [id], s.items[id := history]);
            && (forall i, j :: 0 <= i < j < |grown.order| ==> grown.order[i] != grown.order[j])
            && (forall x :: x in grown.order <==> x in grown.items)
            && EntriesOf(grown) == Put(EntriesOf(s), id, history)
  {
    PutNew(EntriesOf(s), id, history);
    assert forall k :: 0 <= k < |s.order| ==> s.order[k] in s.order;
    var grown := Store(s.capacity, s.order + [id], s.items[id := history]);
    assert EntriesOf(grown) == EntriesOf(s) + [(id, history)];
  }

  lemma CutValid<H>(s: Store<H>)
    requires s.order != [] && |s.order| <= s.capacity + 1 && 1 <= s.capacity
    requires (forall i, j :: 0 <= i < j < |s.order| ==> s.order[i] != s.order[j]) && forall id ::
               id in s.order <==> id in s.items
    ensures Store(s.capacity, s.order[1..], s.items - {s.order[0]}).Valid()
  {
    var t := Store(s.capacity, s.order[1..], s.items - {s.order[0]});
    forall id ensures id in t.order <==> id in t.items {
      if id in s.order[1..] {
        var k :| 1 <= k < |s.order| && s.order[k] == id;
        assert s.order[0] != id;
      }
      assert id in s.order <==> id == s.order[0] || id in s.order[1..];
    }
  }

  /** Deleting keeps the store valid and removes the entry, if any. */
  lemma DeleteRefines<H>(s: Store<H>, id: string)
    requires s.Valid()
    ensures s.Delete(id).Valid() && EntriesOf(s.Delete(id)) == Remove(EntriesOf(s), id)
  {
    if id in s.items {
      var k :| 0 <= k < |s.order| && s.order[k] == id;
      DeletedShape(s, id, k);
      DeletedValid(s, id, k);
      DeletedEntries(s, id, k);
      RemovePlaces(EntriesOf(s), id, k);
    } else {
      NothingToRemove(EntriesOf(s), id);
    }
  }

  lemma DeletedShape<H>(s: Store<H>, id: string, k: nat)
    requires s.Valid() && k < |s.order| && s.order[k] == id
    ensures s.Delete(id) == Store(s.capacity, s.order[..k] + s.order[k + 1..], s.items - {id})
  {
    WithoutAt(s.order, id, k);
  }

  lemma DeletedValid<H>(s: Store<H>, id: string, k: nat)
    requires s.Valid() && k < |s.order| && s.order[k] == id
    ensures Store(s.capacity, s.order[..k] + s.order[k + 1..], s.items - {id}).Valid()
  {
    var order := s.order[..k] + s.order[k + 1..];
    forall x ensures x in order <==> x in s.items && x != id {
      OthersStay(s.order, k, x);
    }
  }

  lemma OthersStay(order: seq<string>, k: nat, x: string)
    requires k < |order| && forall i, j :: 0 <= i < j < |order| ==> order[i] != order[j]
    ensures x in order[..k] + order[k + 1..] <==> x in order && x != order[k]
  {
    assert order == order[..k] + [order[k]] + order[k + 1..];
  }

  lemma DeletedEntries<H>(s: Store<H>, id: string, k: nat)
    requires s.Valid() && k < |s.order| && s.order[k] == id
    ensures var t := Store(s.capacity, s.order[..k] + s.order[k + 1..], s.items - {id});
            && (forall x <- t.order :: x in t.items)
            && EntriesOf(t) == EntriesOf(s)[..k] + EntriesOf(s)[k + 1..]
  {
    DeletedValid(s, id, k);
    var t := Store(s.capacity, s.order[..k] + s.order[k + 1..], s.items - {id});
    var entries := EntriesOf(s)[..k] + EntriesOf(s)[k + 1..];
    forall i | 0 <= i < |t.order| ensures EntriesOf(t)[i] == entries[i] {
      assert t.order[i] == s.order[if i < k then i else i + 1];
    }
  }

  lemma {:induction false} NothingToRemove<H>(entries: Entries<H>, id: string)
    requires forall e <- entries :: e.0 != id
    ensures Remove(entries, id) == entries && Find(entries, id).None?
  {
    if entries != [] {
      assert entries[0] in entries && forall e <- entries[1..] :: e in entries;
      NothingToRemove(entries[1..], id);
    }
  }

  lemma {:induction false} FindAt<H>(entries: Entries<H>, id: string, k: nat)
    requires k < |entries| && entries[k].0 == id && forall j :: 0 <= j < k ==> entries[j].0 != id
    ensures Find(entries, id) == Some(entries[k].1)
  {
    if k > 0 {
      assert entries[1..][k - 1].0 == id && forall j :: 0 <= j < k - 1 ==> entries[1..][j].0 == entries[j + 1].0;
      FindAt(entries[1..], id, k - 1);
    }
  }

  lemma LoadRefines<H>(s: Store<H>, id: string)
    requires s.Valid()
    ensures s.Load(id) == Find(EntriesOf(s), id)
  {
    if id in s.items {
      var k :| 0 <= k < |s.order| && s.order[k] == id;
      FindAt(EntriesOf(s), id, k);
    } else {
      NothingToRemove(EntriesOf(s), id);
    }
  }

  // ---- Every run -------------------------------------------------------------------------------------

  datatype Op<H> = Save(id: string, history: H) | Delete(id: string)

  function RunOps<H>(s: Store<H>, ops: seq<Op<H>>): Store<H> {
    if ops == [] then s
    else
      var t := RunOps(s, Front(ops));
      match Last(ops) case Save(id, history) => t.Save(id, history) case Delete(id) => t.Delete(id)
  }

  /** The same operations on an insertion-ordered list bounded to the latest n. */
  function RunEntries<H>(n: nat, ops: seq<Op<H>>): Entries<H> {
    if ops == [] then []
    else
      var t := RunEntries(n, Front(ops));
      match Last(ops) case Save(id, history) => Latest(Put(t, id, history), n) case Delete(id) => Remove(t, id)
  }

  /** Over any run the store is a bounded map ordered by first insertion: its
      order lists its keys once each within capacity, it loads what that map
      holds, eviction is first in first out, and a repeated save refreshes
      nothing. */
  lemma {:induction false} RunRefines<H>(capacity: int, ops: seq<Op<H>>)
    ensures var s := RunOps(NewStore(capacity), ops);
            && s.Valid() && s.capacity == (if capacity < 1 then 1 else capacity)
            && EntriesOf(s) == RunEntries(s.capacity, ops)
            && forall id :: s.Load(id) == Find(RunEntries(s.capacity, ops), id)
  {
    var s := RunOps(NewStore(capacity), ops);
    if ops == [] {
      assert EntriesOf(s) == [];
    } else {
      RunRefines(capacity, Front(ops));
      var t := RunOps(NewStore(capacity), Front(ops));
      match Last(ops) {
        case Save(id, history) => SaveRefines(t, id, history);
        case Delete(id) => DeleteRefines(t, id);
      }
      forall id ensures s.Load(id) == Find(EntriesOf(s), id) { LoadRefines(s, id); }
    }
  }

  /** The id just saved can be loaded, whatever was evicted for it; other ids
      keep what they had or are gone. */
  lemma SavedIsLoadable<H>(s: Store<H>, id: string, history: H)
    requires s.Valid()
    ensures s.Save(id, history).Load(id) == Some(history)
    ensures forall other :: other != id ==>
              s.Save(id, history).Load(other) == s.Load(other) || s.Save(id, history).Load(other).None?
    ensures forall other :: other in s.Save(id, history).items ==> other == id || other in s.items
  {
    SaveEvictsOne(s, id, history);
    hide Store.Save;
    if id !in s.items && |s.order| == s.capacity { assert s.order[0] in s.order; }
  }
}

/** The three stores of the bounded in-memory queue and the steps its users take. */
module ScheduleStores {
  import opened Common
  import opened ObjectHandler

  type Uri = Text

  /** The columns of a queue row that the crawler carries along once it has read them. */
  datatype Item = Item(uri: Uri, state: int, aux: Option<Aux>)

  datatype Entry = Entry(at: real, item: Item)

  /** `available_items`, `unavailable`, the tracker's local `waiting_items`, the
      semaphore's free slots, the two counters, and the history of what went in
      and what came out. */
  datatype Stores = Stores(
    size: nat, free: int, available: int, total: int,
    ready: seq<Entry>, unavailable: seq<Entry>, waiting: seq<Entry>,
    put: multiset<Item>, got: multiset<Item>)

  function EmptyStores(size: nat): Stores {
    Stores(size, size, 0, 0, [], [], [], multiset{}, multiset{})
  }

  /** `put`, from the moment the semaphore is acquired. */
  function Put(q: Stores, t: real, item: Item): Stores {
    q.(free := q.free - 1, available := q.available + 1, total := q.total + 1,
       ready := q.ready + [Entry(t, item)], put := q.put + multiset{item})
  }

  /** A round of `get_first_available` whose item is not ready. */
  function Miss(q: Stores): Stores
    requires q.ready != []
  {
    q.(available := q.available - 1, ready := q.ready[1..], unavailable := q.unavailable + [q.ready[0]])
  }

  /** A round of `get_first_available` that returns its item. */
  function Hit(q: Stores): Stores
    requires q.ready != []
  {
    q.(available := q.available - 1, free := q.free + 1, total := q.total - 1,
       ready := q.ready[1..], got := q.got + multiset{q.ready[0].item})
  }

  function InsertByTime(s: seq<Entry>, e: Entry): seq<Entry> {
    if s == [] || s[|s| - 1].at <= e.at then s + [e]
    else InsertByTime(s[..|s| - 1], e) + [s[|s| - 1]]
  }

  /** `list.sort(key=lambda x: x[0])`: stable, ascending. */
  function SortByTime(s: seq<Entry>): seq<Entry> {
    if s == [] then [] else InsertByTime(SortByTime(s[..|s| - 1]), s[|s| - 1])
  }

  function Keep(s: seq<Entry>, p: Item -> bool): seq<Entry> {
    if s == [] then []
    else Keep(s[..|s| - 1], p) + if p(s[|s| - 1].item) then [s[|s| - 1]] else []
  }

  function Not(p: Item -> bool): Item -> bool { (i: Item) => !p(i) }

  /** One pass of `_track_waiting` between two sleeps. */
  function Pass(q: Stores, isReady: Item -> bool): Stores {
    var all := SortByTime(q.waiting + q.unavailable);
    var freed := Keep(all, isReady);
    q.(unavailable := [], waiting := Keep(all, Not(isReady)),
       ready := q.ready + freed, available := q.available + |freed|)
  }

  // ----------------------------------------------------------------- counting

  /** How many entries hold an item with property `p`. */
  function Count(s: seq<Entry>, p: Item -> bool): nat {
    if s == [] then 0 else Count(s[..|s| - 1], p) + if p(s[|s| - 1].item) then 1 else 0
  }

  function CountStored(q: Stores, p: Item -> bool): nat {
    Count(q.ready, p) + Count(q.unavailable, p) + Count(q.waiting, p)
  }

  function Any(): Item -> bool { (i: Item) => true }

  function IsItem(x: Item): Item -> bool { (i: Item) => i == x }

  function HasUri(u: Uri): Item -> bool { (i: Item) => i.uri == u }

  lemma {:induction false} CountAppend(a: seq<Entry>, b: seq<Entry>, p: Item -> bool)
    ensures Count(a + b, p) == Count(a, p) + Count(b, p)
  {
    if b == [] {
      assert a + b == a;
    } else {
      var c := b[..|b| - 1];
      assert (a + b)[..|a + b| - 1] == a + c;
      CountAppend(a, c, p);
    }
  }

  lemma CountOne(e: Entry, p: Item -> bool)
    ensures Count([e], p) == if p(e.item) then 1 else 0
  {
    assert [e][..0] == [];
  }

  lemma CountHead(s: seq<Entry>, p: Item -> bool)
    requires s != []
    ensures Count(s, p) == Count(s[1..], p) + if p(s[0].item) then 1 else 0
  {
    CountAppend([s[0]], s[1..], p);
    CountOne(s[0], p);
    assert s == [s[0]] + s[1..];
  }

  lemma {:induction false} CountAny(s: seq<Entry>)
    ensures Count(s, Any()) == |s|
  {
    if s != [] { CountAny(s[..|s| - 1]); }
  }

  lemma {:induction false} CountInsert(s: seq<Entry>, e: Entry, p: Item -> bool)
    ensures Count(InsertByTime(s, e), p) == Count(s, p) + if p(e.item) then 1 else 0
  {
    if s == [] || s[|s| - 1].at <= e.at {
      CountAppend(s, [e], p);
      CountOne(e, p);
    } else {
      var c := s[..|s| - 1];
      CountInsert(c, e, p);
      CountAppend(InsertByTime(c, e), [s[|s| - 1]], p);
      CountOne(s[|s| - 1], p);
    }
  }

  lemma {:induction false} CountSort(s: seq<Entry>, p: Item -> bool)
    ensures Count(SortByTime(s), p) == Count(s, p)
  {
    if s != [] {
      CountSort(s[..|s| - 1], p);
      CountInsert(SortByTime(s[..|s| - 1]), s[|s| - 1], p);
    }
  }

  lemma KeepLast(s: seq<Entry>, r: Item -> bool, p: Item -> bool)
    requires s != []
    ensures var (c, e) := (s[..|s| - 1], s[|s| - 1]);
            Count(Keep(s, r), p) == Count(Keep(c, r), p) + if r(e.item) && p(e.item) then 1 else 0
  {
    var c, e := s[..|s| - 1], s[|s| - 1];
    if r(e.item) {
      CountAppend(Keep(c, r), [e], p);
      CountOne(e, p);
    } else {
      assert Keep(s, r) == Keep(c, r);
    }
  }

  lemma {:induction false} CountKeep(s: seq<Entry>, r: Item -> bool, p: Item -> bool)
    ensures Count(Keep(s, r), p) + Count(Keep(s, Not(r)), p) == Count(s, p)
  {
    if s != [] {
      CountKeep(s[..|s| - 1], r, p);
      KeepLast(s, r, p);
      KeepLast(s, Not(r), p);
    }
  }

  /** A pass of the tracker moves entries between the stores and loses none. */
  lemma PassCount(q: Stores, isReady: Item -> bool, p: Item -> bool)
    ensures CountStored(Pass(q, isReady), p) == CountStored(q, p)
  {
    var all := SortByTime(q.waiting + q.unavailable);
    CountAppend(q.waiting, q.unavailable, p);
    CountSort(q.waiting + q.unavailable, p);
    CountKeep(all, isReady, p);
    CountAppend(q.ready, Keep(all, isReady), p);
  }

  lemma PutCount(q: Stores, t: real, item: Item, p: Item -> bool)
    ensures CountStored(Put(q, t, item), p) == CountStored(q, p) + if p(item) then 1 else 0
  {
    CountAppend(q.ready, [Entry(t, item)], p);
    CountOne(Entry(t, item), p);
  }

  lemma MissCount(q: Stores, p: Item -> bool)
    requires q.ready != []
    ensures CountStored(Miss(q), p) == CountStored(q, p)
  {
    CountHead(q.ready, p);
    CountAppend(q.unavailable, [q.ready[0]], p);
    CountOne(q.ready[0], p);
  }

  lemma HitCount(q: Stores, p: Item -> bool)
    requires q.ready != []
    ensures CountStored(Hit(q), p) == CountStored(q, p) - if p(q.ready[0].item) then 1 else 0
  {
    CountHead(q.ready, p);
  }

  lemma {:induction false} CountPositive(s: seq<Entry>, k: nat, p: Item -> bool)
    requires k < |s| && p(s[k].item)
    ensures Count(s, p) > 0
  {
    if k < |s| - 1 { CountPositive(s[..|s| - 1], k, p); }
  }

  lemma {:induction false} CountWitness(s: seq<Entry>, p: Item -> bool) returns (k: nat)
    requires Count(s, p) > 0
    ensures k < |s| && p(s[k].item)
  {
    if p(s[|s| - 1].item) { k := |s| - 1; } else { k := CountWitness(s[..|s| - 1], p); }
  }

  // ------------------------------------------------------------- conservation

  /** Slots, counters and contents agree, and every item put in was either
      returned once or is still stored once. */
  ghost predicate Conserved(q: Stores) {
    && 0 <= q.free
    && q.free + q.total == q.size
    && q.available == |q.ready|
    && q.total == |q.ready| + |q.unavailable| + |q.waiting|
    && forall i :: q.put[i] == q.got[i] + CountStored(q, IsItem(i))
  }

  lemma EmptyConserved(size: nat)
    ensures Conserved(EmptyStores(size))
  {
  }

  lemma PutConserved(q: Stores, t: real, item: Item)
    requires Conserved(q) && q.free > 0
    ensures Conserved(Put(q, t, item))
  {
    forall i ensures Put(q, t, item).put[i] == q.got[i] + CountStored(Put(q, t, item), IsItem(i)) {
      PutCount(q, t, item, IsItem(i));
    }
  }

  lemma MissConserved(q: Stores)
    requires Conserved(q) && q.ready != []
    ensures Conserved(Miss(q))
  {
    forall i ensures CountStored(Miss(q), IsItem(i)) == CountStored(q, IsItem(i)) { MissCount(q, IsItem(i)); }
  }

  lemma HitConserved(q: Stores)
    requires Conserved(q) && q.ready != []
    ensures Conserved(Hit(q))
  {
    forall i ensures q.put[i] == Hit(q).got[i] + CountStored(Hit(q), IsItem(i)) { HitCount(q, IsItem(i)); }
  }

  lemma PassConserved(q: Stores, isReady: Item -> bool)
    requires Conserved(q)
    ensures Conserved(Pass(q, isReady))
  {
    forall i ensures CountStored(Pass(q, isReady), IsItem(i)) == CountStored(q, IsItem(i)) {
      PassCount(q, isReady, IsItem(i));
    }
    PassCount(q, isReady, Any());
    CountAny(q.ready); CountAny(q.unavailable); CountAny(q.waiting);
    var q' := Pass(q, isReady);
    CountAny(q'.ready); CountAny(q'.unavailable); CountAny(q'.waiting);
  }

  function ItemsOf(s: seq<Entry>): (r: seq<Item>)
    ensures |r| == |s| && forall k :: 0 <= k < |s| ==> r[k] == s[k].item
  {
    if s == [] then [] else ItemsOf(s[..|s| - 1]) + [s[|s| - 1].item]
  }

  lemma {:induction false} CountIsMultiplicity(s: seq<Entry>, i: Item)
    ensures Count(s, IsItem(i)) == multiset(ItemsOf(s))[i]
  {
    if s != [] { CountIsMultiplicity(s[..|s| - 1], i); }
  }

  /** Nothing is lost and nothing duplicated: as multisets, what was put is what
      was returned plus what the stores hold. */
  lemma NothingLost(q: Stores)
    requires Conserved(q)
    ensures q.put == q.got + multiset(ItemsOf(q.ready)) + multiset(ItemsOf(q.unavailable)) + multiset(ItemsOf(q.waiting))
  {
    forall i ensures q.put[i] == (q.got + multiset(ItemsOf(q.ready)) + multiset(ItemsOf(q.unavailable)) + multiset(ItemsOf(q.waiting)))[i] {
      CountIsMultiplicity(q.ready, i);
      CountIsMultiplicity(q.unavailable, i);
      CountIsMultiplicity(q.waiting, i);
    }
  }

  // ------------------------------------------------------------------ sorting

  ghost predicate Ascending(s: seq<Entry>) {
    forall i, j :: 0 <= i <= j < |s| ==> s[i].at <= s[j].at
  }

  lemma {:induction false} InsertBag(s: seq<Entry>, e: Entry)
    ensures multiset(InsertByTime(s, e)) == multiset(s) + multiset{e}
  {
    if s != [] && s[|s| - 1].at > e.at {
      InsertBag(s[..|s| - 1], e);
      assert s == s[..|s| - 1] + [s[|s| - 1]];
    }
  }

  lemma {:induction false} InsertAscending(s: seq<Entry>, e: Entry)
    requires Ascending(s)
    ensures Ascending(InsertByTime(s, e))
  {
    if s != [] && s[|s| - 1].at > e.at {
      var c, last := s[..|s| - 1], s[|s| - 1];
      InsertAscending(c, e);
      InsertBag(c, e);
      forall x | x in InsertByTime(c, e) ensures x.at <= last.at {
        assert x in multiset(InsertByTime(c, e));
      }
    }
  }

  /** The sort in the tracker only reorders, into ascending put times. */
  lemma {:induction false} SortAscending(s: seq<Entry>)
    ensures Ascending(SortByTime(s)) && Permutation(SortByTime(s), s)
  {
    if s != [] {
      SortAscending(s[..|s| - 1]);
      InsertAscending(SortByTime(s[..|s| - 1]), s[|s| - 1]);
      InsertBag(SortByTime(s[..|s| - 1]), s[|s| - 1]);
      assert s == s[..|s| - 1] + [s[|s| - 1]];
    }
  }

  lemma {:induction false} KeepBag(s: seq<Entry>, p: Item -> bool, e: Entry)
    ensures multiset(Keep(s, p))[e] == if p(e.item) then multiset(s)[e] else 0
  {
    if s != [] {
      var before, last := s[..|s| - 1], s[|s| - 1];
      KeepBag(before, p, e);
      assert s == before + [last];
      assert multiset(s) == multiset(before) + multiset{last};
      assert Keep(s, p) == Keep(before, p) + if p(last.item) then [last] else [];
    }
  }

  lemma {:induction false} KeepAscending(s: seq<Entry>, p: Item -> bool)
    requires Ascending(s)
    ensures Ascending(Keep(s, p)) && forall e :: e in Keep(s, p) ==> e in s
  {
    if s != [] {
      var before, last := s[..|s| - 1], s[|s| - 1];
      KeepAscending(before, p);
      forall e | e in Keep(before, p) ensures e.at <= last.at { assert e in before; }
    }
  }

  /** A round of the tracker: of what waited, exactly the ready entries go behind the
      available ones, the oldest first; the others go on waiting. */
  lemma PassExactly(q: Stores, isReady: Item -> bool)
    ensures var q', all := Pass(q, isReady), q.waiting + q.unavailable;
            && |q.ready| <= |q'.ready| && q'.ready[..|q.ready|] == q.ready && q'.unavailable == []
            && Ascending(q'.ready[|q.ready|..]) && Ascending(q'.waiting)
            && (forall e :: multiset(q'.ready[|q.ready|..])[e] == if isReady(e.item) then multiset(all)[e] else 0)
            && (forall e :: multiset(q'.waiting)[e] == if isReady(e.item) then 0 else multiset(all)[e])
  {
    var sorted := SortByTime(q.waiting + q.unavailable);
    SortAscending(q.waiting + q.unavailable);
    KeepAscending(sorted, isReady);
    KeepAscending(sorted, Not(isReady));
    assert Pass(q, isReady).ready[|q.ready|..] == Keep(sorted, isReady);
    forall e ensures multiset(Keep(sorted, isReady))[e]
        == if isReady(e.item) then multiset(sorted)[e] else 0 { KeepBag(sorted, isReady, e); }
    forall e ensures multiset(Keep(sorted, Not(isReady)))[e]
        == if isReady(e.item) then 0 else multiset(sorted)[e] { KeepBag(sorted, Not(isReady), e); }
    hide Keep, SortByTime, Ascending;
  }
}

/** The bounded queue between the scheduler and the fetch tasks, changed in place
    by its users and by the task that re-checks what waits. */
module ScheduleQueueObject {
  import opened Common
  import opened DomainIndex
  import opened ScheduleStores

  /** A domain's record, shared by the crawler and the queue's entries. */
  class Domain {
    var nextReq: real
    var failStreak: nat
    var tempUnreachable: bool
    var state: DomainState
    var scheduledItems: int
    var failedItems: nat
    var fetchedItems: nat
    var hasWaiting: bool
    var notScheduled: bool

    constructor (nextReq: real, failStreak: nat, state: DomainState, now: real)
      ensures Rec() == NewDomain(nextReq, failStreak, state, now)
    {
      this.nextReq := nextReq;
      this.failStreak := failStreak;
      this.tempUnreachable := failStreak > 0 && nextReq > now;
      this.state := state;
      scheduledItems := 0;
      failedItems := 0;
      fetchedItems := 0;
      hasWaiting := false;
      notScheduled := false;
    }

    function Rec(): DomainRec
      reads this
    {
      DomainRec(nextReq, failStreak, tempUnreachable, state, scheduledItems, failedItems, fetchedItems, hasWaiting,
          notScheduled)
    }

    /** `state > DomainState.Unknown` */
    predicate Down()
      reads this
    {
      !state.Safe? && !state.Unknown?
    }

    method IsTempUnreachable(now: real) returns (r: bool)
      modifies this`tempUnreachable
      ensures Rec() == old(Rec()).AfterTempCheck(now)
      ensures r == tempUnreachable
    {
      if tempUnreachable {
        if nextReq < now { tempUnreachable := false; } else { return true; }
      }
      return false;
    }

    /** The test made on an entry's domain before the entry is handed out. */
    predicate IsReady(now: real)
      reads this
      ensures IsReady(now) == Rec().ReadyAt(now)
    {
      nextReq < now || tempUnreachable || Down()
    }
  }

  /** A queue entry: when it was put, what, and its domain. */
  datatype Slot = Slot(at: real, item: Item, domain: Domain)

  function Entries(s: seq<Slot>): (r: seq<Entry>)
    ensures |r| == |s| && forall k :: 0 <= k < |s| ==> r[k] == Entry(s[k].at, s[k].item)
  {
    seq(|s|, k requires 0 <= k < |s| => Entry(s[k].at, s[k].item))
  }

  lemma EntriesConcat(a: seq<Slot>, b: seq<Slot>)
    ensures Entries(a + b) == Entries(a) + Entries(b)
  {
  }

  lemma EntriesOne(x: Slot)
    ensures Entries([x]) == [Entry(x.at, x.item)]
  {
  }

  lemma EntriesEmpty()
    ensures Entries([]) == []
  {
  }

  lemma KeepEnds(s: seq<Entry>, p: Item -> bool)
    ensures Keep(s[..0], p) == [] && Keep(s[..|s|], p) == Keep(s, p)
  {
    assert s[..|s|] == s;
  }

  lemma KeepNext(s: seq<Entry>, i: nat, p: Item -> bool)
    requires i < |s|
    ensures Keep(s[..i + 1], p) == Keep(s[..i], p) + if p(s[i].item) then [s[i]] else []
  {
    assert s[..i + 1][..i] == s[..i];
  }

  /** `isReady` tells of an item what its slot's domain says now. */
  ghost predicate Tells(isReady: Item -> bool, s: seq<Slot>, now: real)
    reads set x | x in s :: x.domain
  {
    forall x :: x in s ==> isReady(x.item) == x.domain.IsReady(now)
  }

  /** Rounds of `get_first_available` until one returns an item or nothing is left. */
  function Rounds(q: Stores, isReady: Item -> bool): (Stores, Option<Item>)
    decreases |q.ready|
  {
    if q.ready == [] then (q, None)
    else if isReady(q.ready[0].item) then (Hit(q), Some(q.ready[0].item))
    else Rounds(Miss(q), isReady)
  }

  /** Rounds conserve the items, and take out the one returned. */
  lemma {:induction false} RoundsConserved(q: Stores, isReady: Item -> bool)
    requires Conserved(q)
    ensures var (q', r) := Rounds(q, isReady);
            Conserved(q') && q'.got == q.got + (if r.Some? then multiset{r.value} else multiset{})
    decreases |q.ready|
  {
    hide Conserved;
    if q.ready != [] {
      if isReady(q.ready[0].item) {
        HitConserved(q);
      } else {
        MissConserved(q);
        RoundsConserved(Miss(q), isReady);
      }
    }
  }

  /** The item returned is the first ready one; without one, all were tried. */
  lemma {:induction false} RoundsFirst(q: Stores, isReady: Item -> bool)
    ensures var (q', r) := Rounds(q, isReady);
            && (r.Some? ==> isReady(r.value) && IsFirst(q.ready, isReady, r.value))
            && (r.None? ==> q'.ready == [] && forall k :: 0 <= k < |q.ready| ==> !isReady(q.ready[k].item))
    decreases |q.ready|
  {
    if q.ready != [] && !isReady(q.ready[0].item) {
      RoundsFirst(Miss(q), isReady);
      var rest, r := q.ready[1..], Rounds(q, isReady).1;
      assert forall k :: 0 < k < |q.ready| ==> q.ready[k] == rest[k - 1];
      if r.Some? {
        var k :| 0 <= k < |rest| && rest[k].item == r.value && forall j :: 0 <= j < k ==> !isReady(rest[j].item);
        assert q.ready[k + 1].item == r.value;
      }
    }
  }

  /** `item` is the first of the entries with a ready item. */
  ghost predicate IsFirst(s: seq<Entry>, isReady: Item -> bool, item: Item) {
    exists k :: 0 <= k < |s| && s[k].item == item && forall j :: 0 <= j < k ==> !isReady(s[j].item)
  }

  lemma {:induction false} InsertAt(s: seq<Entry>, e: Entry, j: nat)
    requires j <= |s| && (j > 0 ==> s[j - 1].at <= e.at) && forall k :: j <= k < |s| ==> s[k].at > e.at
    ensures InsertByTime(s, e) == s[..j] + [e] + s[j..]
  {
    if j < |s| {
      InsertAt(s[..|s| - 1], e, j);
      assert s[..|s| - 1][j..] + [s[|s| - 1]] == s[j..];
      assert s[..|s| - 1][..j] == s[..j];
    } else {
      assert s[..j] == s && s[j..] == [];
    }
  }

  /** The place of a new slot among slots in ascending order of time. */
  method InsertSlot(s: seq<Slot>, x: Slot) returns (r: seq<Slot>)
    ensures Entries(r) == InsertByTime(Entries(s), Entry(x.at, x.item))
    ensures forall y :: y in r ==> y in s || y == x
  {
    hide InsertByTime;
    var j := |s|;
    while j > 0 && s[j - 1].at > x.at
      invariant 0 <= j <= |s|
      invariant forall k :: j <= k < |s| ==> s[k].at > x.at
    {
      j := j - 1;
    }
    InsertAt(Entries(s), Entry(x.at, x.item), j);
    r := s[..j] + [x] + s[j..];
    assert Entries(r) == Entries(s)[..j] + [Entry(x.at, x.item)] + Entries(s)[j..];
  }

  lemma SortNext(s: seq<Entry>, i: nat)
    requires i < |s|
    ensures SortByTime(s[..i + 1]) == InsertByTime(SortByTime(s[..i]), s[i])
  {
    assert s[..i + 1][..i] == s[..i];
  }

  /** `list.sort(key=lambda x: x[0])` */
  method SortSlots(s: seq<Slot>) returns (r: seq<Slot>)
    ensures Entries(r) == SortByTime(Entries(s))
    ensures forall x :: x in r ==> x in s
  {
    hide InsertByTime, SortByTime;
    r := [];
    ghost var all := Entries(s);
    assert all[..0] == [] && SortByTime([]) == [] by { SortNothing(); }
    for i := 0 to |s|
      invariant Entries(r) == SortByTime(all[..i])
      invariant forall x :: x in r ==> x in s
    {
      SortNext(all, i);
      r := InsertSlot(r, s[i]);
    }
    assert all[..|s|] == all;
  }

  lemma SortNothing()
    ensures SortByTime([]) == []
  {
  }

  class ScheduleQueue {
    const size: nat
    var free: int  // the semaphore
    var available: int
    var total: int
    var ready: seq<Slot>
    var unavailable: seq<Slot>
    var waiting: seq<Slot>  // local to the tracking task
    ghost var puts: multiset<Item>
    ghost var gets: multiset<Item>

    constructor (size: nat)
      ensures this.size == size && Model() == EmptyStores(size)
    {
      this.size := size;
      free := size;
      available := 0;
      total := 0;
      ready := [];
      unavailable := [];
      waiting := [];
      puts := multiset{};
      gets := multiset{};
    }

    ghost function Model(): Stores
      reads this
    {
      Stores(size, free, available, total, Entries(ready), Entries(unavailable), Entries(waiting), puts, gets)
    }

    /** Every slot held. */
    ghost function Slots(): seq<Slot>
      reads this
    {
      ready + unavailable + waiting
    }

    /** `put`, once the semaphore has a free space. */
    method Put(item: Item, domain: Domain, now: real)
      requires free > 0
      modifies this
      ensures Model() == ScheduleStores.Put(old(Model()), now, item)
      ensures Slots() == old(ready) + [Slot(now, item, domain)] + old(unavailable) + old(waiting)
    {
      free := free - 1;
      available := available + 1;
      total := total + 1;
      ready := ready + [Slot(now, item, domain)];
      puts := puts + multiset{item};
      assert Entries(ready) == old(Entries(ready)) + [Entry(now, item)];
    }

    /** One round of `get_first_available`. */
    method GetRound(now: real) returns (x: Slot, hit: bool)
      requires ready != []
      modifies this
      ensures x == old(ready[0]) && hit == x.domain.IsReady(now)
      ensures Model() == if hit then Hit(old(Model())) else Miss(old(Model()))
      ensures ready == old(ready[1..]) && waiting == old(waiting)
      ensures unavailable == old(unavailable) + if hit then [] else [x]
    {
      x := ready[0];
      ready := ready[1..];
      available := available - 1;
      hit := x.domain.IsReady(now);
      assert old(Entries(ready))[1..] == Entries(ready);
      if hit {
        free := free + 1;
        total := total - 1;
        gets := gets + multiset{x.item};
      } else {
        unavailable := unavailable + [x];
        EntriesConcat(old(unavailable), [x]);
        EntriesOne(x);
      }
    }

    /** `get_first_available`, until it would wait for an entry. */
    method GetFirstAvailable(now: real, ghost isReady: Item -> bool) returns (r: Option<Slot>)
      requires Tells(isReady, ready, now)
      modifies this
      ensures Model() == Rounds(old(Model()), isReady).0
      ensures Rounds(old(Model()), isReady).1 == if r.Some? then Some(r.value.item) else None
      ensures r.Some? ==> r.value in old(ready)
      ensures forall x :: x in Slots() ==> x in old(Slots())
    {
      ghost var q := Model();
      while ready != []
        invariant Rounds(Model(), isReady) == Rounds(q, isReady)
        invariant Tells(isReady, ready, now)
        invariant forall x :: x in ready ==> x in old(ready)
        invariant forall x :: x in Slots() ==> x in old(Slots())
        decreases |ready|
      {
        hide Hit, Miss;
        ghost var was := Model();
        assert was.ready[0].item == ready[0].item;
        var x, hit := GetRound(now);
        if hit { return Some(x); }
      }
      return None;
    }

    /** A pass of `_track_waiting` between two sleeps. */
    method TrackWaiting(now: real, ghost isReady: Item -> bool)
      requires Tells(isReady, unavailable, now) && Tells(isReady, waiting, now)
      modifies this
      ensures Model() == Pass(old(Model()), isReady)
      ensures forall x :: x in Slots() ==> x in old(Slots())
    {
      hide Entries, Keep, SortByTime;
      EntriesConcat(waiting, unavailable);
      var items := SortSlots(waiting + unavailable);
      unavailable := [];
      var newWaiting: seq<Slot> := [];
      ghost var all, first := Entries(items), Entries(ready);
      KeepEnds(all, isReady);
      KeepEnds(all, Not(isReady));
      EntriesEmpty();
      for i := 0 to |items|
        invariant unavailable == [] && waiting == old(waiting) && free == old(free) && total == old(total)
            && puts == old(puts) && gets == old(gets)
        invariant Entries(ready) == first + Keep(all[..i], isReady)
        invariant Entries(newWaiting) == Keep(all[..i], Not(isReady))
        invariant available == old(available) + |ready| - |old(ready)|
        invariant forall x :: x in newWaiting ==> x in old(Slots())
        invariant forall x :: x in ready ==> x in old(Slots())
      {
        var x := items[i];
        assert x in old(waiting) + old(unavailable);
        KeepNext(all, i, isReady);
        KeepNext(all, i, Not(isReady));
        if x.domain.IsReady(now) {
          EntriesConcat(ready, [x]);
          ready := ready + [x];
          available := available + 1;
        } else {
          EntriesConcat(newWaiting, [x]);
          newWaiting := newWaiting + [x];
        }
        EntriesOne(x);
      }
      waiting := newWaiting;
    }
  }
}

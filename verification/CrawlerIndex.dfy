/** On every run of the crawler: the index list is exactly what it should be,
    the per-domain counters equal the contents of memory, and the queue loses
    and duplicates nothing. */
module CrawlerIndex {
  import opened Common
  import opened Json
  import opened DomainIndex
  import opened ScheduleStores
  import opened CrawlerModel

  /** The item of domain `n` that the scheduler has counted but not yet put. */
  function InHand(c: Settings, sched: Scheduler, n: Name): nat {
    match sched
    case MarkingRow(item, _) => if NameOf(c, item.uri) == n then 1 else 0
    case Putting(item, _) => if NameOf(c, item.uri) == n then 1 else 0
    case _ => 0
  }

  /** The counter of domain `n` is the number of its items in memory. */
  ghost predicate SlotsAt(c: Settings, s: State, n: Name) {
    && RecordOf(s.book, n).scheduledItems == CountStored(s.queue, OfName(c, n)) + InHand(c, s.sched, n)
    && RecordOf(s.book, n).scheduledItems <= c.maxPerDomain
  }

  ghost predicate IndexInv(c: Settings, s: State) {
    && Agree(s.book)
    && Conserved(s.queue)
    && forall n :: SlotsAt(c, s, n)
  }

  /** The book still agrees and no counter moved. */
  ghost predicate Kept(b: Book, b': Book) {
    && Agree(b')
    && forall n :: RecordOf(b', n).scheduledItems == RecordOf(b, n).scheduledItems
  }

  /** The counter of `n` moved by `k`, all others stayed. */
  ghost predicate Moved(b: Book, b': Book, n: Name, k: int) {
    && Agree(b')
    && forall m :: RecordOf(b', m).scheduledItems == RecordOf(b, m).scheduledItems + if m == n then k else 0
  }

  lemma KeptEnsure(b: Book, n: Name)
    requires Agree(b)
    ensures Kept(b, Ensure(b, n))
  {
    EnsureAgree(b, n);
  }

  /** Replacing a record without touching its counter and flags. */
  lemma KeptRecord(b: Book, n: Name, d: DomainRec)
    requires Agree(b) && n in b.domains
    requires var e := b.domains[n];
             d.scheduledItems == e.scheduledItems && d.hasWaiting == e.hasWaiting && d.notScheduled == e.notScheduled
    ensures Kept(b, b.(domains := b.domains[n := d]))
  {
    assert AgreeAt(b, n);
    AgreeExcept(b, b.(domains := b.domains[n := d]), n);
  }

  lemma KeptNoteWaiting(b: Book, n: Name)
    requires Agree(b)
    ensures Kept(b, NoteWaiting(Ensure(b, n), n))
  {
    EnsureAgree(b, n);
    NoteWaitingAgree(Ensure(b, n), n);
  }

  lemma KeptMarkEmpty(b: Book, n: Name)
    requires Agree(b)
    ensures Kept(b, MarkEmpty(Ensure(b, n), n))
  {
    EnsureAgree(b, n);
    MarkEmptyAgree(Ensure(b, n), n);
  }

  lemma {:induction false} KeptCollect(b: Book, names: seq<Name>, got: map<Name, seq<Item>>)
    requires Agree(b)
    ensures Kept(b, Collect(b, names, got).0)
    decreases names
  {
    hide Agree;
    if names != [] {
      var n := names[0];
      var answer := if n in got then got[n] else [];
      if answer == [] {
        KeptMarkEmpty(b, n);
        KeptCollect(MarkEmpty(Ensure(b, n), n), names[1..], got);
      } else {
        KeptCollect(b, names[1..], got);
      }
    }
  }

  lemma KeptSelect(c: Settings, b: Book, order: seq<Name>, t: real)
    requires Agree(b) && Permutation(b.index, order) && Listed(b.(index := order))
    ensures Kept(b, SelectFrom(b.(index := order), 0, [], c.maxPerDomain, c.domainChunk, t).0)
  {
    var b0 := b.(index := order);
    ShuffleAgree(b, order);
    SelectAgree(b0, 0, [], c.maxPerDomain, c.domainChunk, t);
    var b1 := SelectFrom(b0, 0, [], c.maxPerDomain, c.domainChunk, t).0;
    assert SameSlots(b0, b1);
    forall n ensures RecordOf(b1, n).scheduledItems == RecordOf(b, n).scheduledItems {
      if n in b.domains { assert n in b0.domains; }
    }
  }

  lemma MovedTake(b: Book, n: Name, t: real)
    requires Agree(b) && n in b.domains && b.domains[n].scheduledItems >= 0
    ensures Moved(b, TakeSlot(TempCheck(b, n, t), n), n, 1)
  {
    KeptRecord(b, n, b.domains[n].AfterTempCheck(t));
    TakeSlotAgree(TempCheck(b, n, t), n);
  }

  lemma MovedRelease(b: Book, n: Name)
    requires Agree(b) && n in b.domains && b.domains[n].scheduledItems > 0
    ensures Moved(b, ReleaseSlot(b, n), n, -1)
  {
    ReleaseSlotAgree(b, n);
  }

  // --------------------------------------------------------------------- steps

  /** A step that changes neither the queue, nor the counters, nor what the
      scheduler holds in hand. */
  lemma StepKept(c: Settings, s: State, s': State)
    requires IndexInv(c, s) && s'.queue == s.queue && Kept(s.book, s'.book)
    requires forall n :: InHand(c, s'.sched, n) == InHand(c, s.sched, n)
    ensures IndexInv(c, s')
  {
    forall n ensures SlotsAt(c, s', n) { assert SlotsAt(c, s, n); }
  }

  lemma StepNextItem(c: Settings, s: State, t: real)
    requires IndexInv(c, s) && s.sched.Batch? && s.sched.items != []
    ensures IndexInv(c, NextItem(c, s, t))
  {
    hide Agree, Conserved, TakeSlot;
    var n := NameOf(c, s.sched.items[0].uri);
    var b := Ensure(s.book, n);
    KeptEnsure(s.book, n);
    KeptRecord(b, n, b.domains[n].AfterTempCheck(t));
    var s' := NextItem(c, s, t);
    assert SlotsAt(c, s, n);
    if s'.sched.MarkingRow? {
      MovedTake(b, n, t);
      forall m ensures SlotsAt(c, s', m) { assert SlotsAt(c, s, m); }
    } else {
      StepKept(c, s, s');
    }
  }

  lemma StepPut(c: Settings, s: State, t: real)
    requires IndexInv(c, s) && s.sched.Putting? && s.queue.free > 0
    ensures IndexInv(c, PutItem(s, t))
  {
    PutConserved(s.queue, t, s.sched.item);
    forall n ensures SlotsAt(c, PutItem(s, t), n) {
      assert SlotsAt(c, s, n);
      PutCount(s.queue, t, s.sched.item, OfName(c, n));
    }
  }

  lemma StepTrack(c: Settings, s: State, p: Item -> bool)
    requires IndexInv(c, s)
    ensures IndexInv(c, s.(queue := Pass(s.queue, p)))
  {
    PassConserved(s.queue, p);
    forall n ensures SlotsAt(c, s.(queue := Pass(s.queue, p)), n) {
      assert SlotsAt(c, s, n);
      PassCount(s.queue, p, OfName(c, n));
    }
  }

  lemma StepMiss(c: Settings, s: State)
    requires IndexInv(c, s) && s.queue.ready != []
    ensures IndexInv(c, s.(queue := Miss(s.queue)))
  {
    MissConserved(s.queue);
    forall n ensures SlotsAt(c, s.(queue := Miss(s.queue)), n) {
      assert SlotsAt(c, s, n);
      MissCount(s.queue, OfName(c, n));
    }
  }

  /** An entry's domain is known and has a counted item. */
  lemma HeadCounted(c: Settings, s: State)
    requires IndexInv(c, s) && s.queue.ready != []
    ensures var n := NameOf(c, s.queue.ready[0].item.uri); n in s.book.domains && s.book.domains[n].scheduledItems > 0
  {
    var n := NameOf(c, s.queue.ready[0].item.uri);
    CountPositive(s.queue.ready, 0, OfName(c, n));
    assert SlotsAt(c, s, n);
  }

  lemma AdmitMoved(c: Settings, b: Book, n: Name, t: real)
    requires Agree(b) && n in b.domains && b.domains[n].scheduledItems > 0
    ensures Moved(b, Admit(c, b, n, t).0, n, -1)
  {
    MovedRelease(b, n);
    KeptTimes(ReleaseSlot(b, n), n, t);
    hide Agree, ReleaseSlot;
  }

  lemma StepTake(c: Settings, s: State, t: real, i: nat)
    requires IndexInv(c, s) && s.queue.ready != []
    ensures IndexInv(c, Take(c, s, t, i))
  {
    hide Agree, Conserved, Admit;
    var n := NameOf(c, s.queue.ready[0].item.uri);
    HeadCounted(c, s);
    HitConserved(s.queue);
    AdmitMoved(c, s.book, n, t);
    var s' := Take(c, s, t, i);
    forall m ensures SlotsAt(c, s', m) {
      assert SlotsAt(c, s, m);
      HitCount(s.queue, OfName(c, m));
    }
  }

  /** The readiness test and the reservation leave counters and flags alone. */
  lemma KeptTimes(b: Book, n: Name, t: real)
    requires Agree(b) && n in b.domains
    ensures Kept(b, TempCheck(b, n, t))
    ensures forall r: real :: Kept(b,
        b.(domains := TempCheck(b, n, t).domains[n := TempCheck(b, n, t).domains[n].(nextReq := r)]))
  {
    var b1 := TempCheck(b, n, t);
    KeptRecord(b, n, b.domains[n].AfterTempCheck(t));
    forall r: real ensures Kept(b, b.(domains := b1.domains[n := b1.domains[n].(nextReq := r)])) {
      var d := b1.domains[n].(nextReq := r);
      KeptRecord(b, n, d);
      assert b1.domains[n := d] == b.domains[n := d];
    }
  }

  lemma StepSelect(c: Settings, s: State, t: real, order: seq<Name>)
    requires IndexInv(c, s) && s.sched.Idle? && Permutation(s.book.index, order) && Listed(s.book.(index := order))
    ensures IndexInv(c, SelectDomains(c, s, t, order))
  {
    KeptSelect(c, s.book, order, t);
    StepKept(c, s, SelectDomains(c, s, t, order));
  }

  lemma StepGathered(c: Settings, s: State)
    requires IndexInv(c, s) && s.sched.Gathering?
    ensures IndexInv(c, Gathered(s))
  {
    KeptCollect(s.book, s.sched.names, s.sched.got);
    StepKept(c, s, Gathered(s));
  }

  /** A fetch task's change to the record of one domain. */
  lemma StepRecord(c: Settings, s: State, s': State, n: Name, d: DomainRec)
    requires IndexInv(c, s) && s'.queue == s.queue && s'.sched == s.sched
    requires var e := RecordOf(s.book, n);
             d.scheduledItems == e.scheduledItems && d.hasWaiting == e.hasWaiting && d.notScheduled == e.notScheduled
    requires s'.book == (var b := Ensure(s.book, n); b.(domains := b.domains[n := d]))
    ensures IndexInv(c, s')
  {
    KeptEnsure(s.book, n);
    KeptRecord(Ensure(s.book, n), n, d);
    StepKept(c, s, s');
  }

  lemma StepFailed(c: Settings, s: State, t: real, i: nat)
    requires IndexInv(c, s) && i in s.tasks && s.tasks[i].Fetching?
    ensures IndexInv(c, FetchFailedForNow(c, s, t, i))
  {
    var n := NameOf(c, s.tasks[i].item.uri);
    var s' := FetchFailedForNow(c, s, t, i);
    if s'.book == s.book { StepKept(c, s, s'); }
    else { StepRecord(c, s, s', n, s'.book.domains[n]); }
  }

  lemma StepWork(c: Settings, s: State, t: real, i: nat)
    requires IndexInv(c, s) && i in s.tasks && s.tasks[i].Working?
    ensures IndexInv(c, Work(c, s, t, i))
  {
    var s' := Work(c, s, t, i);
    var todo := s.tasks[i].todo;
    if todo != [] && todo[0].Call? && todo[0].effect.Report? {
      KeptEnsure(s.book, NameOf(c, todo[0].effect.uri));
    }
    StepKept(c, s, s');
  }

  lemma StepAfterInsert(c: Settings, s: State, i: nat)
    requires IndexInv(c, s) && i in s.tasks && s.tasks[i].Inserted?
    ensures IndexInv(c, AfterInsert(c, s, i))
  {
    var n := NameOf(c, s.tasks[i].uri);
    KeptEnsure(s.book, n);
    KeptNoteWaiting(s.book, n);
    StepKept(c, s, AfterInsert(c, s, i));
  }

  /** Every step of every task keeps the index, the counters and the queue right. */
  lemma IndexStep(c: Settings, s: State, t: real, a: Action)
    requires IndexInv(c, s) && Enabled(c, s, t, a)
    ensures IndexInv(c, Next(c, s, t, a))
  {
    hide Agree, Conserved, Take, Pass, SelectDomains, NextItem, Gathered, FetchFailedForNow, Work, AfterInsert, PutItem;
    var s' := Apply(c, s, t, a);
    assert IndexInv(c, s') by {
      match a
      case DoSelect(order) => StepSelect(c, s, t, order);
      case DoGathered => StepGathered(c, s);
      case DoNextItem => StepNextItem(c, s, t);
      case DoPut => StepPut(c, s, t);
      case DoTrack => StepTrack(c, s, Ready(c, s.book, t));
      case DoMiss => StepMiss(c, s);
      case DoTake(i) => StepTake(c, s, t, i);
      case DoCountFailure(i) => StepCount(c, s, i);
      case DoFetchSucceeded(i, obj) => StepSucceeded(c, s, i, obj);
      case DoFetchFailedForNow(i) => StepFailed(c, s, t, i);
      case DoWork(i) => StepWork(c, s, t, i);
      case DoAfterInsert(i) => StepAfterInsert(c, s, i);
      case _ => StepKept(c, s, s');
    }
    StepClock(c, s', t);
  }

  lemma StepClock(c: Settings, s: State, t: real)
    requires IndexInv(c, s)
    ensures IndexInv(c, s.(now := t))
  {
    forall n ensures SlotsAt(c, s.(now := t), n) { assert SlotsAt(c, s, n); }
  }

  lemma StepCount(c: Settings, s: State, i: nat)
    requires IndexInv(c, s) && i in s.tasks && s.tasks[i].FailCount?
    ensures IndexInv(c, CountFailure(c, s, i))
  {
    var n := NameOf(c, s.tasks[i].item.uri);
    StepRecord(c, s, CountFailure(c, s, i), n, CountFailure(c, s, i).book.domains[n]);
  }

  lemma StepSucceeded(c: Settings, s: State, i: nat, obj: Json)
    requires IndexInv(c, s) && i in s.tasks && s.tasks[i].Fetching? && obj.Obj?
    ensures IndexInv(c, FetchSucceeded(c, s, i, obj))
  {
    hide AfterFetch;
    var n := NameOf(c, s.tasks[i].item.uri);
    StepRecord(c, s, FetchSucceeded(c, s, i, obj), n, FetchSucceeded(c, s, i, obj).book.domains[n]);
  }

  lemma {:induction false} IndexRun(c: Settings, s: State, run: seq<Timed>, s': State)
    requires IndexInv(c, s) && Run(c, s, run, s')
    ensures IndexInv(c, s')
    decreases run
  {
    hide IndexInv, Enabled, Next;
    if run != [] {
      IndexStep(c, s, run[0].at, run[0].action);
      IndexRun(c, Next(c, s, run[0].at, run[0].action), run[1..], s');
    }
  }

  // -------------------------------------------------- what it means for readers

  /** At every suspension point of every run the list holds, once each, exactly
      the domains with waiting elements and nothing scheduled. */
  lemma IndexIsExact(c: Settings, s: State, run: seq<Timed>, s': State)
    requires IndexInv(c, s) && Run(c, s, run, s')
    ensures NoDup(s'.book.index) && !s'.book.raised
    ensures forall n :: n in s'.book.index <==>
                        n in s'.book.domains && s'.book.domains[n].hasWaiting && s'.book.domains[n].scheduledItems == 0
    ensures forall n :: n in s'.book.domains ==> (s'.book.domains[n].notScheduled <==> n in s'.book.index)
  {
    IndexRun(c, s, run, s');
    forall n ensures n in s'.book.index <==>
                     n in s'.book.domains && s'.book.domains[n].hasWaiting && s'.book.domains[n].scheduledItems == 0 {
      assert AgreeAt(s'.book, n);
    }
    forall n | n in s'.book.domains ensures s'.book.domains[n].notScheduled <==> n in s'.book.index {
      assert AgreeAt(s'.book, n);
    }
  }

  /** At every suspension point the counter of a domain is the number of its
      items in the three stores, plus the one being put, and within its bound. */
  lemma CountersAreExact(c: Settings, s: State, run: seq<Timed>, s': State, n: Name)
    requires IndexInv(c, s) && Run(c, s, run, s') && n in s'.book.domains
    ensures s'.book.domains[n].scheduledItems
         == Count(s'.queue.ready, OfName(c, n)) + Count(s'.queue.unavailable, OfName(c, n))
            + Count(s'.queue.waiting, OfName(c, n)) + InHand(c, s'.sched, n)
    ensures 0 <= s'.book.domains[n].scheduledItems <= c.maxPerDomain
  {
    IndexRun(c, s, run, s');
    assert SlotsAt(c, s', n);
  }

  /** At every suspension point free slots and contents add up to the size, and
      the items put so far are the items returned and the items stored. */
  lemma QueueLosesNothing(c: Settings, s: State, run: seq<Timed>, s': State)
    requires IndexInv(c, s) && Run(c, s, run, s')
    ensures var q := s'.queue;
            && 0 <= q.free && q.free + q.total == q.size && q.available == |q.ready|
            && q.total == |q.ready| + |q.unavailable| + |q.waiting|
            && q.put == q.got + multiset(ItemsOf(q.ready)) + multiset(ItemsOf(q.unavailable)) + multiset(ItemsOf(q.waiting))
  {
    IndexRun(c, s, run, s');
    NothingLost(s'.queue);
  }
}

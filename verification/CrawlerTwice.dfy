/** Runs on which a row is marked fetched by another task: while its resource waits
    in the queue, where it is revived and queued twice; and while it awaits
    scheduling, where the mark is overwritten. */
module CrawlerTwice {
  import opened Common
  import opened ScheduleStores
  import opened RowTable
  import opened CrawlerModel
  import opened CrawlerLimits
  import opened CrawlerStages
  import opened CrawlerRecovery

  const AGAIN := Item(U, WAITING_PRIORITY, None)

  /** Both resources are read and queued, `V` first. */
  lemma QueueBoth(c: Settings) returns (run: seq<Timed>, s: State)
    requires Fitting(c, 2)
    ensures Run(c, BothWaiting(c), run, s)
    ensures s.now == 1.0 && s.sched == Idle && s.tasks == map[]
    ensures s.queue == Put(Put(EmptyStores(c.queueSize), 1.0, ITEM_V), 1.0, ITEM)
    ensures U in s.table && s.table[U].aux == None
    ensures Up(c, s) && Scheduled(c, s) == 2 && RecOf(c, s).nextReq == 0.0
  {
    var run1, s1 := QueueOther(c);
    assert [ITEM] == [ITEM] + [];
    assert s1.queue.free == c.queueSize - 1;
    hide Run, Up, RecOf, Put, BothWaiting;
    var run2, s2 := QueueItem(c, s1, 1.0, ITEM, []);
    RunAppend(c, BothWaiting(c), run1, s1, run2, s2);
    BatchOver(c, s2);
    hide Enabled, Next;
    run, s := Then(c, BothWaiting(c), run1 + run2, s2, 1.0, DoBatchEnd);
  }

  /** The row of `U` is marked fetched, and revived once its update is due. */
  lemma MarkAndRevive(c: Settings, s: State) returns (run: seq<Timed>, s': State)
    requires ReadsU(s) && U in s.table && s.table[U].aux == None
    ensures Run(c, s, run, s')
    ensures s'.sched == s.sched && s'.queue == s.queue && s'.book == s.book
    ensures U in s'.table && s'.table[U].state == WAITING_PRIORITY && s'.table[U].aux == None
  {
    NoSteps(c, s);
    hide Run;
    run, s' := Then(c, s, [], s, s.now, DoMark(0));
    assert U in s'.table && s'.table[U].state == FETCHED && s'.table[U].aux == None;
    var due := s'.table[U].nextUpdate.value as real;
    run, s' := Then(c, s, run, s', if due > s.now then due else s.now, DoRevive);
  }

  /** The revived row is read and put into the queue again. */
  lemma QueueAgain(c: Settings, s: State) returns (run: seq<Timed>, s': State)
    requires Fitting(c, 2) && s.sched.Idle? && s.queue.free > 0 && Up(c, s) && Scheduled(c, s) == 1
    requires U in s.table && s.table[U].state == WAITING_PRIORITY && s.table[U].aux == None
    ensures Run(c, s, run, s') && s'.queue == Put(s.queue, s.now, AGAIN)
  {
    NoSteps(c, s);
    assert [AGAIN] == [AGAIN] + [];
    var s1 := s.(sched := Batch([AGAIN]));
    assert Snapshot(s.table, [AGAIN]);
    assert Enabled(c, s, s.now, DoReadAll([AGAIN])) && Next(c, s, s.now, DoReadAll([AGAIN])) == s1;
    assert Up(c, s1) && Scheduled(c, s1) == 1;
    hide Run, Enabled, Next, Put, Up, RecOf;
    run, s' := Then(c, s, [], s, s.now, DoReadAll([AGAIN]));
    var more, last := QueueItem(c, s1, s.now, AGAIN, []);
    RunAppend(c, s, run, s1, more, last);
    run, s' := run + more, last;
  }

  /** From a table with two waiting rows of one domain, a run that puts one of the
      two resources into the queue twice: both are queued, the object fetched for
      the other carries the first one's id, and before the first one's turn comes
      its row falls due for an update and is scheduled again. */
  lemma QueuedTwice(c: Settings) returns (run: seq<Timed>, s: State)
    requires Fitting(c, 2)
    ensures Begins(c, BothWaiting(c)) && Run(c, BothWaiting(c), run, s)
    ensures CountStored(s.queue, HasUri(U)) == 2
  {
    var s0 := BothWaiting(c);
    BothWaitingIs(c);
    OneLeft(c);
    hide Run, BothWaiting, Begins, Up, RecOf, Scheduled, Put, Hit, CountStored, ReadsU;
    var run1, s1 := QueueBoth(c);
    var run2, s2 := FetchOther(c, s1);
    var run3, s3 := MarkAndRevive(c, s2);
    SameUp(c, s2, s3);
    var run4, s4 := QueueAgain(c, s3);
    RunAppend(c, s0, run1, s1, run2, s2);
    RunAppend(c, s0, run1 + run2, s2, run3, s3);
    RunAppend(c, s0, run1 + run2 + run3, s3, run4, s4);
    run, s := run1 + run2 + run3 + run4, s4;
    PutCount(s3.queue, s3.now, AGAIN, HasUri(U));
  }

  lemma SameUp(c: Settings, s: State, s': State)
    requires s'.book == s.book && Up(c, s)
    ensures Up(c, s') && Scheduled(c, s') == Scheduled(c, s)
  {
  }

  /** The queue with both items, and what taking the first leaves. */
  lemma OneLeft(c: Settings)
    ensures var q := Put(Put(EmptyStores(c.queueSize), 1.0, ITEM_V), 1.0, ITEM);
            && q.ready != [] && q.ready[0].item == ITEM_V
            && Hit(q).free == c.queueSize - 1 && CountStored(Hit(q), HasUri(U)) == 1
  {
    var q := Put(Put(EmptyStores(c.queueSize), 1.0, ITEM_V), 1.0, ITEM);
    assert q.ready == [Entry(1.0, ITEM_V), Entry(1.0, ITEM)] && q.ready[1..] == [Entry(1.0, ITEM)];
    CountOne(Entry(1.0, ITEM), HasUri(U));
  }

  // ------------------------------------------------------ an overwritten mark

  /** A row read for scheduling is marked fetched, then marked as processing. */
  lemma MarkOver(c: Settings, s: State) returns (run: seq<Timed>, s': State)
    requires Fitting(c, 2) && ReadsU(s) && s.sched == Batch([ITEM]) && Up(c, s) && Scheduled(c, s) == 0 && s.now == 1.0
    requires U in s.table && s.table[U].state == WAITING
    ensures Run(c, s, run, s')
    ensures U in s'.table && s'.table[U].state == PROCESSING && U in s'.hist.origin && s'.hist.origin[U] == FETCHED
  {
    NoSteps(c, s);
    assert [ITEM] == [ITEM] + [];
    hide Run;
    run, s' := Then(c, s, [], s, 1.0, DoMark(0));
    assert U in s'.table && s'.table[U].state == FETCHED && s'.sched == s.sched && s'.book == s.book && s'.now == 1.0;
    SameUp(c, s, s');
    ItemMarked(c, s', 1.0, ITEM, []);
    hide Up, RecOf;
    run, s' := Then(c, s, run, s', 1.0, DoNextItem);
    run, s' := Then(c, s, run, s', 1.0, DoScheduleWrite);
  }

  /** From a table with two waiting rows of one domain, a run after which a crash is
      not undone: one row is read for scheduling, the object fetched for the other
      carries its id and its row is marked fetched, and the scheduler then marks it
      as processing. After a crash it would wait again, though it was fetched. */
  lemma MarkOverwritten(c: Settings) returns (run: seq<Timed>, s: State)
    requires Fitting(c, 2)
    ensures Begins(c, BothWaiting(c)) && Run(c, BothWaiting(c), run, s) && !Recovers(s)
    ensures U in s.table && U in s.hist.origin && s.hist.origin[U] == FETCHED && Recover(s.table)[U].state == WAITING
  {
    var s0 := BothWaiting(c);
    BothWaitingIs(c);
    hide Run, BothWaiting, Begins, Up, RecOf, Scheduled, Hit, ReadsU;
    var run1, s1 := QueueOther(c);
    var run2, s2 := FetchOther(c, s1);
    var run3, s3 := MarkOver(c, s2);
    RunAppend(c, s0, run1, s1, run2, s2);
    RunAppend(c, s0, run1 + run2, s2, run3, s3);
    run, s := run1 + run2 + run3, s3;
  }
}

/** A run on which a fetch that began before a reset of its domain's streak fails
    after it, at an equal streak, and is counted. */
module CrawlerStale {
  import opened Common
  import opened Json
  import opened DomainIndex
  import opened ScheduleStores
  import opened RowTable
  import opened Backoff
  import opened CrawlerModel
  import opened CrawlerRows
  import opened CrawlerBackoff
  import opened CrawlerStart
  import opened CrawlerLimits
  import opened CrawlerStages

  const W: Uri := [3]
  const ITEM_W := Item(W, WAITING, None)

  /** Three resources of one domain, and room for their items. */
  ghost predicate ThreeFit(c: Settings) {
    Fitting(c, 3) && NameOf(c, W) == NameOf(c, U)
  }

  /** The starting state on a table with three waiting rows of one domain, stored with
      one failure. */
  function Failing(c: Settings): State {
    var n := NameOf(c, U);
    var row := Row(n, WAITING, None, 0, None, None);
    StartState(c, FindNone(), map[U := row, V := row, W := row], [], [StoredDomain(n, 0.0, 1, Unknown)], [n], 1.0)
  }

  lemma FailingIs(c: Settings)
    requires ThreeFit(c)
    ensures Begins(c, Failing(c)) && FreshHistory(Failing(c))
    ensures var s := Failing(c);
            && Up(c, s) && Scheduled(c, s) == 0 && RecOf(c, s).nextReq == 0.0 && RecOf(c, s).failStreak == 1
            && s.now == 1.0 && s.sched.Idle? && s.tasks == map[] && s.queue == EmptyStores(c.queueSize)
            && s.table.Keys == {U, V, W} && forall u ::
                u in s.table
                ==> s.table[u].state == WAITING && s.table[u].aux == None
  {
    var n := NameOf(c, U);
    var row := Row(n, WAITING, None, 0, None, None);
    var stored := [StoredDomain(n, 0.0, 1, Unknown)];
    assert NamedRows(c, map[U := row, V := row, W := row]);
    assert Restore(EMPTY_BOOK, stored, 1.0)
        == Restore(EMPTY_BOOK.(domains := map[n := NewDomain(0.0, 1, Unknown, 1.0)]), [], 1.0);
    var b := Restore(EMPTY_BOOK, stored, 1.0);
    assert ListAll(b, [n]) == ListWaiting(b, n);
  }

  /** Three items wait in the queue; nothing else is under way. */
  ghost predicate AllQueued(c: Settings, s: State) {
    && s.now == 1.0 && s.sched.Idle? && s.tasks == map[] && s.queue.free >= 0
    && s.queue.ready == [Entry(1.0, ITEM_V), Entry(1.0, ITEM_W), Entry(1.0, ITEM)]
    && U in s.table && s.table[U].state == PROCESSING && s.table[U].aux == None
    && Up(c, s) && Scheduled(c, s) == 3 && RecOf(c, s).nextReq == 0.0 && RecOf(c, s).failStreak == 1
  }

  lemma ReadAll(c: Settings)
    requires ThreeFit(c)
    ensures var s := Failing(c);
            var s' := s.(sched := Batch([ITEM_V, ITEM_W, ITEM]));
            && Enabled(c, s, 1.0, DoReadAll([ITEM_V, ITEM_W, ITEM]))
            && Next(c, s, 1.0, DoReadAll([ITEM_V, ITEM_W, ITEM])) == s'
            && Up(c, s') && Scheduled(c, s') == 0 && RecOf(c, s').nextReq == 0.0 && RecOf(c, s').failStreak == 1
  {
    FailingIs(c);
    hide Failing;
  }

  lemma QueueTwo(c: Settings) returns (run: seq<Timed>, s: State)
    requires ThreeFit(c)
    ensures Run(c, Failing(c), run, s)
    ensures s.now == 1.0 && s.sched == Batch([ITEM]) && s.tasks == map[]
    ensures s.queue == Put(Put(EmptyStores(c.queueSize), 1.0, ITEM_V), 1.0, ITEM_W)
    ensures U in s.table && s.table[U].state == WAITING && s.table[U].aux == None
    ensures Up(c, s) && Scheduled(c, s) == 2 && RecOf(c, s).nextReq == 0.0 && RecOf(c, s).failStreak == 1
  {
    var s0 := Failing(c);
    FailingIs(c);
    ReadAll(c);
    NoSteps(c, s0);
    hide Run, Failing, Begins, FreshHistory, Enabled, Next, RecOf, Up, Put;
    var run1, s1 := Then(c, s0, [], s0, 1.0, DoReadAll([ITEM_V, ITEM_W, ITEM]));
    assert [ITEM_V, ITEM_W, ITEM] == [ITEM_V] + [ITEM_W, ITEM] && [ITEM_W, ITEM] == [ITEM_W] + [ITEM];
    var run2, s2 := QueueItem(c, s1, 1.0, ITEM_V, [ITEM_W, ITEM]);
    assert s2.queue.free == c.queueSize - 1 by { PutFree(EmptyStores(c.queueSize), 1.0, ITEM_V); }
    RunAppend(c, s0, run1, s1, run2, s2);
    var run3, s3 := QueueItem(c, s2, 1.0, ITEM_W, [ITEM]);
    RunAppend(c, s0, run1 + run2, s2, run3, s3);
    run, s := run1 + run2 + run3, s3;
  }

  lemma PutFree(q: Stores, t: real, item: Item)
    ensures Put(q, t, item).free == q.free - 1
  {
  }

  lemma QueueAll(c: Settings) returns (run: seq<Timed>, s: State)
    requires ThreeFit(c)
    ensures Run(c, Failing(c), run, s) && AllQueued(c, s)
  {
    var run1, s1 := QueueTwo(c);
    assert [ITEM] == [ITEM] + [];
    hide Run, Failing, RecOf, Up;
    var run2, s2 := QueueItem(c, s1, 1.0, ITEM, []);
    RunAppend(c, Failing(c), run1, s1, run2, s2);
    BatchOver(c, s2);
    hide Enabled, Next;
    run, s := Then(c, Failing(c), run1 + run2, s2, 1.0, DoBatchEnd);
  }

  /** The fetches of `V` and `U` run, `V`'s from before the reset. */
  ghost predicate BothRun(c: Settings, s: State) {
    && s.sched.Idle? && s.queue.free > 0 && s.queue.ready == []
    && U in s.table && s.table[U].state == PROCESSING && s.table[U].aux == None
    && Up(c, s) && Scheduled(c, s) == 0 && RecOf(c, s).failStreak == 0
    && s.tasks.Keys == {0, 1}
    && s.tasks[0].Fetching? && s.tasks[0].item == ITEM && s.tasks[0].oldNextReq <= s.now
        && s.tasks[0].oldFailStreak == 0
    && s.tasks[1].Fetching? && s.tasks[1].item == ITEM_V && s.tasks[1].oldNextReq <= s.now
        && s.tasks[1].oldFailStreak == 1
  }

  /** `V` is fetched by task 1, then `W` by task 2. */
  lemma FetchTwo(c: Settings, s: State) returns (run: seq<Timed>, s': State)
    requires ThreeFit(c) && AllQueued(c, s)
    ensures Run(c, s, run, s') && s'.now == c.requestPeriod + 2.0 && s'.sched.Idle?
    ensures s'.queue.ready == [Entry(1.0, ITEM)] && s'.queue.free > 0 && s'.table == s.table
    ensures s'.tasks.Keys == {1, 2} && s'.tasks[1] == Fetching(ITEM_V, 0.0, 1, 1.0)
        && s'.tasks[2].Fetching? && s'.tasks[2].item == ITEM_W
    ensures Up(c, s') && Scheduled(c, s') == 1 && RecOf(c, s').nextReq == s'.now + c.requestPeriod
  {
    NoSteps(c, s);
    TakeFirst(c, s, 1.0, 1, ITEM_V);
    hide Run, Enabled, Next, RecOf, Up;
    run, s' := Then(c, s, [], s, 1.0, DoTake(1));
    var t := c.requestPeriod + 2.0;
    TakeFirst(c, s', t, 2, ITEM_W);
    run, s' := Then(c, s, run, s', t, DoTake(2));
  }

  /** `W` is fetched with success, then `U` is fetched. */
  lemma Overtake(c: Settings, s: State) returns (run: seq<Timed>, s': State)
    requires ThreeFit(c) && AllQueued(c, s)
    ensures Run(c, s, run, s') && BothRun(c, s')
  {
    var run1, s1 := FetchTwo(c, s);
    hide AllQueued, SameFailures, Run, Enabled, Next, RecOf, Up, BothRun;
    var run2, s2 := Succeed(c, s1, s1.now);
    RunAppend(c, s, run1, s1, run2, s2);
    var t := s1.now + c.requestPeriod + 1.0;
    FetchLast(c, s2, t);
    run, s' := Then(c, s, run1 + run2, s2, t, DoTake(0));
  }

  lemma FetchLast(c: Settings, s: State, t: real)
    requires Up(c, s) && Scheduled(c, s) == 1 && RecOf(c, s).nextReq < t && RecOf(c, s).failStreak == 0
    requires 0.0 <= s.now <= t && s.sched.Idle? && s.queue.ready == [Entry(1.0, ITEM)] && s.queue.free > 0
        && c.requestPeriod >= 0.0
    requires s.tasks.Keys == {1} && s.tasks[1] == Fetching(ITEM_V, 0.0, 1, 1.0)
    requires U in s.table && s.table[U].state == PROCESSING && s.table[U].aux == None
    ensures Enabled(c, s, t, DoTake(0)) && BothRun(c, Next(c, s, t, DoTake(0)))
  {
    TakeFirst(c, s, t, 0, ITEM);
    hide Enabled, Next, RecOf, Up, SameFailures;
  }

  /** Task 2 receives an object without id and type, and ends. */
  lemma Succeed(c: Settings, s: State, t: real) returns (run: seq<Timed>, s': State)
    requires 2 in s.tasks && s.tasks[2].Fetching? && s.tasks[2].item == ITEM_W && NameOf(c, W) == NameOf(c, U)
        && s.now <= t
        && Up(c, s)
    ensures Run(c, s, run, s')
    ensures s'.now == t && s'.sched == s.sched && s'.queue == s.queue && s'.table == s.table
        && s'.tasks == s.tasks - {2} && Up(c, s') && Scheduled(c, s') == Scheduled(c, s)
        && RecOf(c, s').failStreak == 0 && RecOf(c, s').nextReq == RecOf(c, s).nextReq
  {
    NoSteps(c, s);
    NothingToDo(c);
    hide Run, AfterFetch;
    run, s' := Then(c, s, [], s, t, DoFetchSucceeded(2, Obj([])));
    run, s' := Then(c, s, run, s', t, DoWork(2));
  }

  lemma NothingToDo(c: Settings)
    ensures AfterFetch(c, ITEM_W, Obj([])) == []
  {
  }

  /** Both fetches fail, `U`'s first; both failures are counted. */
  lemma FailBoth(c: Settings, s: State) returns (run: seq<Timed>, s': State)
    requires ThreeFit(c) && BothRun(c, s)
    ensures Run(c, s, run, s') && Quiescent(c, s', WAITING) && s'.tasks == map[]
    ensures s'.now == s.now && s'.hist.firstFail == s.hist.firstFail[NameOf(c, U) := s.now]
    ensures RecOf(c, s').failStreak == 2 && RecOf(c, s').nextReq == s.now + RetryTimer(1)
  {
    NoSteps(c, s);
    hide Run;
    run, s' := Then(c, s, [], s, s.now, DoFetchFailedForNow(0));
    run, s' := Then(c, s, run, s', s.now, DoFinalWrite(0));
    run, s' := Then(c, s, run, s', s.now, DoFetchFailedForNow(1));
    run, s' := Then(c, s, run, s', s.now, DoFinalWrite(1));
  }

  /** `U` is fetched and fails again as soon as it may, until all periods are used. */
  lemma {:induction false} Climb(c: Settings, s: State) returns (run: seq<Timed>, s': State)
    requires Quiescent(c, s, WAITING) && s.tasks == map[] && s.now <= RecOf(c, s).nextReq && c.maxPerDomain > 0
        && c.requestPeriod >= 0.0
    requires 0 < RecOf(c, s).failStreak <= RETRIES
    ensures Run(c, s, run, s') && SameFailures(s, s') && Quiescent(c, s', WAITING) && s'.tasks == map[]
    ensures s'.now <= RecOf(c, s').nextReq && RecOf(c, s').failStreak == RETRIES
    ensures var k := RecOf(c, s).failStreak;
            RecOf(c, s').nextReq - RecOf(c, s).nextReq
              == RetrySum(RETRIES) - RetrySum(k) + 0.1 * (RETRIES - k) as real
    decreases RETRIES - RecOf(c, s).failStreak
  {
    NoSteps(c, s);
    run, s' := [], s;
    hide Run, Quiescent, RecOf, RetryTimer;
    if RecOf(c, s).failStreak < RETRIES {
      var t := RecOf(c, s).nextReq + 0.1;
      FirstTimerLeast(RecOf(c, s).failStreak);
      assert RetrySum(RecOf(c, s).failStreak + 1)
          == RetrySum(RecOf(c, s).failStreak) + RetryTimer(RecOf(c, s).failStreak);
      hide RetrySum;
      var run1, s1 := FetchOne(c, s, t);
      var run2, s2 := FailOne(c, s1, t);
      var run3, s3 := Climb(c, s2);
      RunAppend(c, s, run1, s1, run2, s2);
      RunAppend(c, s, run1 + run2, s2, run3, s3);
      run, s' := run1 + run2 + run3, s3;
    }
  }

  /** The last fetch fails and gives the domain up. */
  lemma GiveUp(c: Settings, s: State) returns (run: seq<Timed>, s': State)
    requires Quiescent(c, s, WAITING) && s.tasks == map[] && s.now <= RecOf(c, s).nextReq && c.maxPerDomain > 0
        && c.requestPeriod >= 0.0
    requires RecOf(c, s).failStreak == RETRIES
    ensures Run(c, s, run, s') && s'.hist.firstFail == s.hist.firstFail
    ensures s'.hist.downAt == s.hist.downAt[NameOf(c, U) := RecOf(c, s).nextReq + 0.1]
        && RecOf(c, s').state.Unreachable?
  {
    var t := RecOf(c, s).nextReq + 0.1;
    run, s' := FetchOne(c, s, t);
    hide Run;
    run, s' := Then(c, s, run, s', t, DoFetchFailedForNow(0));
  }

  /** With a domain stored at one failure, a run on which it is given up in less than
      the sum of all periods after the first failure counted since its streak was 0:
      a fetch of it that began before the reset fails right after that failure. */
  lemma StaleFailureCounts(c: Settings) returns (run: seq<Timed>, s: State)
    requires ThreeFit(c)
    ensures Begins(c, Failing(c)) && FreshHistory(Failing(c)) && Run(c, Failing(c), run, s)
    ensures var n := NameOf(c, U);
            && RecordOf(s.book, n).state.Unreachable? && n in s.hist.firstFail && n in s.hist.downAt
            && 0.0 < s.hist.downAt[n] - s.hist.firstFail[n] < 4359060.0
  {
    var s0 := Failing(c);
    FailingIs(c);
    RetryTotal();
    assert RetrySum(2) == RetrySum(1) + RetryTimer(1) && RetrySum(1) == 10.0;
    hide Failing, Begins, FreshHistory, Run, AllQueued, BothRun, Quiescent, RetrySum, RetryTimer;
    var run1, s1 := QueueAll(c);
    var run2, s2 := Overtake(c, s1);
    var run3, s3 := FailBoth(c, s2);
    var run4, s4 := Climb(c, s3);
    var run5, s5 := GiveUp(c, s4);
    RunAppend(c, s0, run1, s1, run2, s2);
    RunAppend(c, s0, run1 + run2, s2, run3, s3);
    RunAppend(c, s0, run1 + run2 + run3, s3, run4, s4);
    RunAppend(c, s0, run1 + run2 + run3 + run4, s4, run5, s5);
    run, s := run1 + run2 + run3 + run4 + run5, s5;
  }
}

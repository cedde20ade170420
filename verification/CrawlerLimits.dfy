/** Where the crawler's guarantees end: runs that break them when their
    conditions do not hold. */
module CrawlerLimits {
  import opened Common
  import opened DomainIndex
  import opened ScheduleStores
  import opened RowTable
  import opened Backoff
  import opened CrawlerModel
  import opened CrawlerTiming
  import opened CrawlerRows
  import opened CrawlerStart

  lemma {:induction false} RunThen(c: Settings, s: State, run: seq<Timed>, s1: State, t: real, a: Action)
    requires Run(c, s, run, s1) && Enabled(c, s1, t, a)
    ensures Run(c, s, run + [Timed(t, a)], Next(c, s1, t, a))
    decreases run
  {
    hide Next, Enabled;
    var x := Timed(t, a);
    if run == [] {
      assert ([] + [x])[1..] == [];
      assert Run(c, Next(c, s1, t, a), [], Next(c, s1, t, a));
    } else {
      assert (run + [x])[0] == run[0] && (run + [x])[1..] == run[1..] + [x];
      RunThen(c, Next(c, s, run[0].at, run[0].action), run[1..], s1, t, a);
    }
  }

  // ---------------------------------------------------------- one resource only

  const U: Uri := [1]

  const ITEM := Item(U, WAITING, None)

  /** The row of `U` has state `state`, its domain is up, has nothing scheduled
      and is the only one listed, and the queue is empty. */
  ghost predicate Quiescent(c: Settings, s: State, state: int) {
    var n := NameOf(c, U);
    && s.sched.Idle? && s.queue.ready == [] && s.queue.free > 0
    && U in s.table && s.table[U].state == state && s.table[U].aux.None?
    && n in s.book.domains && !s.book.domains[n].Down() && s.book.domains[n].scheduledItems == 0
    && s.book.domains[n].hasWaiting && s.book.domains[n].notScheduled && s.book.index == [n]
  }

  function RecOf(c: Settings, s: State): DomainRec { RecordOf(s.book, NameOf(c, U)) }

  /** No failure was counted and no domain given up. */
  ghost predicate SameFailures(s: State, s': State) {
    s'.hist.firstFail == s.hist.firstFail && s'.hist.downAt == s.hist.downAt
  }

  /** The run `run` followed by one more step. */
  lemma Then(c: Settings, s: State, run: seq<Timed>, s1: State, t: real, a: Action)
    returns (run': seq<Timed>, s': State)
    requires Run(c, s, run, s1) && Enabled(c, s1, t, a)
    ensures Run(c, s, run', s') && s' == Next(c, s1, t, a) && run' == run + [Timed(t, a)]
  {
    RunThen(c, s, run, s1, t, a);
    run', s' := run + [Timed(t, a)], Next(c, s1, t, a);
  }

  lemma NoSteps(c: Settings, s: State)
    ensures Run(c, s, [], s)
  {
  }

  /** Scheduling the resource: its row is marked and its item is put. */
  lemma QueueOne(c: Settings, s: State, t: real) returns (run: seq<Timed>, s': State)
    requires Quiescent(c, s, WAITING) && s.now <= t && c.maxPerDomain > 0 && RecOf(c, s).nextReq < t
    ensures Run(c, s, run, s')
    ensures s'.now == t && s'.sched == Batch([]) && s'.tasks == s.tasks && s'.hist.starts == s.hist.starts
        && SameFailures(s, s')
    ensures s'.queue.ready == [Entry(t, ITEM)] && s'.queue.free == s.queue.free - 1
    ensures U in s'.table && s'.table[U].state == PROCESSING && s'.table[U].aux.None?
    ensures s'.book.index == [] && NameOf(c, U) in s'.book.domains
    ensures RecOf(c, s') == RecOf(c, s).(tempUnreachable := false, scheduledItems := 1, notScheduled := false)
  {
    NoSteps(c, s);
    hide Run;
    run, s' := Then(c, s, [], s, t, DoReadAll([ITEM]));
    run, s' := Then(c, s, run, s', t, DoNextItem);
    run, s' := Then(c, s, run, s', t, DoScheduleWrite);
    run, s' := Then(c, s, run, s', t, DoPut);
  }

  /** The item is handed to task 0, which starts a fetch. */
  lemma FetchOne(c: Settings, s: State, t: real) returns (run: seq<Timed>, s': State)
    requires Quiescent(c, s, WAITING) && s.now <= t && c.maxPerDomain > 0 && RecOf(c, s).nextReq < t && s.tasks == map[]
    requires c.requestPeriod >= 0.0
    ensures Run(c, s, run, s') && SameFailures(s, s')
    ensures s'.now == t && s'.hist.starts == s.hist.starts + [Start(NameOf(c, U), t)]
    ensures s'.tasks == map[0 := Fetching(ITEM, RecOf(c, s).nextReq, RecOf(c, s).failStreak, t)]
    ensures Quiescent(c, s', PROCESSING)
    ensures RecOf(c, s') == RecOf(c, s).(tempUnreachable := false, nextReq := t + c.requestPeriod)
  {
    run, s' := QueueOne(c, s, t);
    hide Run;
    run, s' := Then(c, s, run, s', t, DoBatchEnd);
    TakeOne(c, s', t);
    hide Next, Enabled;
    run, s' := Then(c, s, run, s', t, DoTake(0));
  }

  lemma TakeOne(c: Settings, s: State, t: real)
    requires s.now == t && s.sched.Idle? && s.tasks == map[] && s.queue.ready == [Entry(t, ITEM)] && s.queue.free >= 0
    requires U in s.table && s.table[U].state == PROCESSING && s.table[U].aux.None?
    requires s.book.index == [] && NameOf(c, U) in s.book.domains && c.requestPeriod >= 0.0
    requires var d := RecOf(c, s);
        d.scheduledItems == 1 && !d.tempUnreachable && !d.notScheduled && d.hasWaiting
        && !d.Down() && d.nextReq < t
    ensures Enabled(c, s, t, DoTake(0))
    ensures var s' := Next(c, s, t, DoTake(0));
            && s'.now == t && s'.hist.starts == s.hist.starts + [Start(NameOf(c, U), t)] && SameFailures(s, s')
            && s'.tasks == map[0 := Fetching(ITEM, RecOf(c, s).nextReq, RecOf(c, s).failStreak, t)]
            && Quiescent(c, s', PROCESSING)
            && RecOf(c, s') == RecOf(c, s).(scheduledItems := 0, notScheduled := true, nextReq := t + c.requestPeriod)
  {
  }

  lemma {:induction false} RunAppend(c: Settings, s: State, run: seq<Timed>, s1: State, run1: seq<Timed>, s2: State)
    requires Run(c, s, run, s1) && Run(c, s1, run1, s2)
    ensures Run(c, s, run + run1, s2)
    decreases run
  {
    hide Next, Enabled;
    if run == [] {
      assert run + run1 == run1;
    } else {
      assert (run + run1)[0] == run[0] && (run + run1)[1..] == run[1..] + run1;
      RunAppend(c, Next(c, s, run[0].at, run[0].action), run[1..], s1, run1, s2);
    }
  }

  /** The fetch fails for now and the row is given back. */
  lemma FailOne(c: Settings, s: State, t: real) returns (run: seq<Timed>, s': State)
    requires Quiescent(c, s, PROCESSING) && s.now <= t && s.tasks.Keys == {0} && s.tasks[0].Fetching?
        && s.tasks[0].item == ITEM
    requires s.tasks[0].oldNextReq <= t && s.tasks[0].oldFailStreak == RecOf(c, s).failStreak < RETRIES
    ensures Run(c, s, run, s')
    ensures s'.now == t && s'.hist.starts == s.hist.starts && s'.tasks == map[] && Quiescent(c, s', WAITING)
    ensures RecOf(c, s).failStreak > 0 ==> SameFailures(s, s')
    ensures RecOf(c, s') == RecOf(c, s).(tempUnreachable := true, nextReq := t + RetryTimer(RecOf(c, s).failStreak),
        failStreak := RecOf(c, s).failStreak + 1)
  {
    NoSteps(c, s);
    hide Run;
    run, s' := Then(c, s, [], s, t, DoFetchFailedForNow(0));
    run, s' := Then(c, s, run, s', t, DoFinalWrite(0));
  }

  // ----------------------------------------------------------------- politeness

  /** With a request period above the first retry period, a failed fetch is
      retried too early: the failure moved the recorded time back. */
  lemma Impolite(c: Settings, s: State) returns (run: seq<Timed>, s': State)
    requires c.requestPeriod > RetryTimer(0) && c.maxPerDomain > 0
    requires Quiescent(c, s, WAITING) && s.tasks == map[] && s.hist.starts == []
    requires RecOf(c, s).nextReq < s.now && RecOf(c, s).failStreak == 0
    ensures Run(c, s, run, s') && |s'.hist.starts| == 2
    ensures s'.hist.starts[0].name == s'.hist.starts[1].name
    ensures s'.hist.starts[1].at - s'.hist.starts[0].at < c.requestPeriod
  {
    FirstTimerLeast(0);
    var t := s.now;
    var t1 := t + (10.0 + c.requestPeriod) / 2.0;
    hide Run, Quiescent;
    var run1, s1 := FetchOne(c, s, t);
    var run2, s2 := FailOne(c, s1, t);
    RunAppend(c, s, run1, s1, run2, s2);
    var run3, s3 := FetchOne(c, s2, t1);
    RunAppend(c, s, run1 + run2, s2, run3, s3);
    run, s' := run1 + run2 + run3, s3;
  }

  ghost predicate Begins(c: Settings, s: State) {
    exists find, table, uris, stored, names, now :: NamedRows(c, table)
        && s == StartState(c, find, table, uris, stored, names, now)
  }

  /** On all runs from all starting states, fetches of one domain are spaced. */
  ghost predicate AlwaysPolite(c: Settings) {
    forall s, run, s', j, k ::
      Begins(c, s) && Run(c, s, run, s') && 0 <= j < k < |s'.hist.starts|
          && s'.hist.starts[j].name == s'.hist.starts[k].name
      ==> s'.hist.starts[k].at - s'.hist.starts[j].at > c.requestPeriod
  }

  /** The crawler keeps its spacing promise exactly with the settings whose
      request period is at most the first retry period. */
  lemma PoliteExactly(c: Settings)
    requires c.requestPeriod >= 0.0 && c.maxPerDomain > 0 && c.queueSize > 0
    ensures AlwaysPolite(c) <==> c.requestPeriod <= RetryTimer(0)
  {
    if c.requestPeriod <= RetryTimer(0) {
      forall s, run, s', j, k |
        Begins(c, s) && Run(c, s, run, s') && 0 <= j < k < |s'.hist.starts|
            && s'.hist.starts[j].name == s'.hist.starts[k].name
        ensures s'.hist.starts[k].at - s'.hist.starts[j].at > c.requestPeriod {
        assert s.tasks == map[] && s.hist.starts == [];
        hide Begins, Run;
        Polite(c, s, run, s', j, k);
      }
    } else {
      var s := OneWaiting(c);
      OneWaitingQuiescent(c);
      var run, s' := Impolite(c, s);
    }
  }

  function FindNone(): Uri -> Option<Uri> { u => None }

  /** The starting state on a table with one waiting row. */
  function OneWaiting(c: Settings): State {
    var n := NameOf(c, U);
    StartState(c, FindNone(), map[U := Row(n, WAITING, None, 0, None, None)], [], [], [n], 1.0)
  }

  lemma OneWaitingQuiescent(c: Settings)
    requires c.queueSize > 0
    ensures Begins(c, OneWaiting(c)) && Quiescent(c, OneWaiting(c), WAITING)
        && RecOf(c, OneWaiting(c)) == FRESH.(hasWaiting := true, notScheduled := true)
    ensures OneWaiting(c).now == 1.0 && OneWaiting(c).tasks == map[] && OneWaiting(c).hist.starts == []
  {
    var n := NameOf(c, U);
    var table: Table := map[U := Row(n, WAITING, None, 0, None, None)];
    assert ListAll(EMPTY_BOOK, [n]) == ListWaiting(EMPTY_BOOK, n);
    assert NamedRows(c, table);
  }

  // ------------------------------------------------------- a revived queue item

  /** How a resource in memory comes to have a waiting row: another task, whose
      object carries its id, marks the row fetched; if the item is still there
      when the update is due, the row is revived under it. */
  lemma MarkedThenRevived(c: Settings, s: State, i: nat) returns (run: seq<Timed>, s': State)
    requires RowsInv(c, s) && i in s.tasks && s.tasks[i].MarkWriting? && s.tasks[i].digest.Some?
        && s.tasks[i].before.Some?
    requires var u := s.tasks[i].uri; u in s.table && InQueue(s, u)
    ensures Run(c, s, run, s')
    ensures var u := s.tasks[i].uri; Held(s', u) && u in s'.table && s'.table[u].state == WAITING_PRIORITY
  {
    var u := s.tasks[i].uri;
    NoSteps(c, s);
    var t := s.now;
    run, s' := Then(c, s, [], s, t, DoMark(i));
    assert s'.queue == s.queue && u in s'.table && s'.table[u].state == FETCHED && s'.table[u].nextUpdate.Some?;
    var due := s'.table[u].nextUpdate.value as real;
    hide Run;
    run, s' := Then(c, s, run, s', if due > t then due else t, DoRevive);
  }
}

/** What becomes of a fetched object, of a failed fetch, and of the rows that a
    handled object marks and reports. */
module CrawlerOutcomes {
  import opened Common
  import opened Json
  import opened SigningData
  import opened ObjectHandler
  import opened HandlerCalls
  import opened DomainIndex
  import opened ScheduleStores
  import opened RowTable
  import opened Backoff
  import opened CrawlerModel
  import opened CrawlerLimits

  // ------------------------------------------------------------ a fetched object

  /** The calls of the object handler for an object fetched for `item`. */
  function HandlerCallsFor(c: Settings, item: Item, obj: Json): seq<Effect> {
    Handle(c.env, obj, Some(c.env.netloc(item.uri)), item.state == 2, true, item.aux, Walk(false, 0))
  }

  ghost predicate AreCalls(todo: seq<Todo>, es: seq<Effect>) {
    |todo| == |es| && forall k :: 0 <= k < |es| ==> todo[k] == Call(es[k])
  }

  lemma AfterFetchExactly(c: Settings, item: Item, obj: Json)
    requires obj.Obj?
    ensures FetchedAs(c, item, obj, AfterFetch(c, item, obj))
  {
    hide Handle;
  }

  /** What a task has to do for an object: one without an id, or with the id it was
      fetched under, is handed to the handler, with the domain, the priority and the
      dictionary of its row. One with another id on that domain is handed over after
      its row was marked redirected. For an id on another domain only that id is
      reported, with the row's priority, after the same mark. */
  ghost predicate FetchedAs(c: Settings, item: Item, obj: Json, todo: seq<Todo>)
    requires obj.Obj?
  {
    var id, es := AsId(c.env, obj.fields), HandlerCallsFor(c, item, obj);
    if id.None? || id.value == item.uri then AreCalls(todo, es)
    else if c.env.netloc(id.value) == c.env.netloc(item.uri) then
      todo != [] && todo[0] == SetRedirected && AreCalls(todo[1..], es)
    else todo == [SetRedirected, Call(Report(id.value, item.state == 2, None, Walk(true, 0)))]
  }

  /** An actor fetched under its own id is marked with its digest and stored with its
      WebFinger name, before anything else is done with it. */
  lemma ActorIsStored(c: Settings, item: Item, obj: Json)
    requires Trusted(c.env, obj, c.env.netloc(item.uri)) && AsId(c.env, obj.fields) == Some(item.uri)
    requires ActorType(Get(obj.fields, T("type"), Null))
    ensures var todo := AfterFetch(c, item, obj);
            && |todo| >= 2
            && todo[0] == Call(Mark(item.uri, Some(c.env.digest(obj))))
            && todo[1] == Call(Store(item.uri, obj, Actor, c.env.webfinger(obj)))
  {
    var host := c.env.netloc(item.uri);
    AfterFetchExactly(c, item, obj);
    RootActorFirst(c.env, obj, host, item.state == 2, item.aux, Walk(false, 0));
    hide Handle, Trusted, ActorType, T, SigningData.Get;
  }

  /** So is a collection, without a WebFinger name, when collections are archived. */
  lemma CollectionIsMarked(c: Settings, item: Item, obj: Json)
    requires Trusted(c.env, obj, c.env.netloc(item.uri)) && AsId(c.env, obj.fields) == Some(item.uri)
    requires CollectionType(Get(obj.fields, T("type"), Null))
    ensures var todo := AfterFetch(c, item, obj);
            && todo != [] && todo[0] == Call(Mark(item.uri, Some(c.env.digest(obj))))
            && (c.env.archiveCollections ==> |todo| >= 2 && todo[1] == Call(Store(item.uri, obj, Feed, None)))
  {
    AfterFetchExactly(c, item, obj);
    RootCollectionFirst(c.env, obj, c.env.netloc(item.uri), item.state == 2, item.aux, Walk(false, 0));
    hide Handle, Trusted, CollectionType, T, SigningData.Get;
  }

  // ------------------------------------------------------------------ the rows

  /** Only the row of `u` may have changed, to state `state`, which is not due for an
      update; a resource without a row gets none. */
  ghost predicate RowSet(t: Table, t': Table, u: Uri, state: int) {
    && t'.Keys == t.Keys
    && forall v :: v in t ==>
         t'[v] == if v == u then Row(t[v].domain, state, None, t[v].updateTime, t[v].hash, t[v].aux) else t[v]
  }

  lemma SetRow(t: Table, u: Uri, state: int)
    ensures RowSet(t, RowTable.UpdateState(t, u, state), u, state)
  {
  }

  /** The record of `n`, and of no other domain, became `d`. */
  ghost predicate RecordSet(b: Book, b': Book, n: Name, d: DomainRec) {
    b'.domains == b.domains[n := d] && b'.index == b.index && b'.raised == b.raised
  }

  /** The record after a fetch that failed for good. */
  function WithFailure(d: DomainRec): DomainRec {
    DomainRec(d.nextReq, d.failStreak, d.tempUnreachable,
        if d.failedItems + 1 >= 50 && 2 * (d.failedItems + 1) > d.failedItems + 1 + d.fetchedItems
        then AutoBlocked else d.state,
        d.scheduledItems, d.failedItems + 1, d.fetchedItems, d.hasWaiting, d.notScheduled)
  }

  /** The record after a fetch that succeeded. */
  function WithSuccess(d: DomainRec): DomainRec {
    DomainRec(d.nextReq, 0, d.tempUnreachable, d.state, d.scheduledItems, d.failedItems, d.fetchedItems + 1,
        d.hasWaiting, d.notScheduled)
  }

  lemma OutcomeRecords(b: Book, n: Name)
    ensures RecordSet(b, Failure(Ensure(b, n), n), n, WithFailure(RecordOf(b, n)))
    ensures RecordSet(b, Success(Ensure(b, n), n), n, WithSuccess(RecordOf(b, n)))
  {
  }

  /** The record after fetches that succeeded or failed for good, in this order. */
  function AfterOutcomes(d: DomainRec, failed: seq<bool>): DomainRec {
    if failed == [] then d
    else
      var d1 := AfterOutcomes(d, failed[..|failed| - 1]);
      if failed[|failed| - 1] then WithFailure(d1) else WithSuccess(d1)
  }

  function Failures(failed: seq<bool>): nat {
    if failed == [] then 0
    else Failures(failed[..|failed| - 1]) + if failed[|failed| - 1] then 1 else 0
  }

  /** The `j`-th outcome is a failure by which at least 50 fetches, and more than
      half of all, have failed. */
  ghost predicate TooMany(d: DomainRec, failed: seq<bool>, j: nat)
    requires j < |failed|
  {
    var bad := d.failedItems + Failures(failed[..j + 1]);
    var all := d.failedItems + d.fetchedItems + j + 1;
    failed[j] && bad >= 50 && 2 * bad > all
  }

  /** A domain is blocked by its outcomes exactly when some failure among them is
      one too many; nothing unblocks it. */
  lemma {:induction false} BlockedExactly(d: DomainRec, failed: seq<bool>)
    requires !d.state.AutoBlocked?
    ensures AfterOutcomes(d, failed).state.AutoBlocked? <==> exists j :: 0 <= j < |failed| && TooMany(d, failed, j)
    ensures var d' := AfterOutcomes(d, failed);
            && d'.failedItems == d.failedItems + Failures(failed)
            && d'.failedItems + d'.fetchedItems == d.failedItems + d.fetchedItems + |failed|
  {
    if failed != [] {
      var k := |failed| - 1;
      var before := failed[..k];
      BlockedExactly(d, before);
      assert failed[..k + 1] == failed;
      forall j | 0 <= j < k ensures TooMany(d, failed, j) <==> TooMany(d, before, j) {
        assert failed[..j + 1] == before[..j + 1];
      }
      if AfterOutcomes(d, failed).state.AutoBlocked? && !AfterOutcomes(d, before).state.AutoBlocked? {
        assert TooMany(d, failed, k);
      }
      if j :| 0 <= j < |failed| && TooMany(d, failed, j) {
        if j < k { assert TooMany(d, before, j); }
      }
    }
  }

  lemma {:induction false} AllFailures(failed: seq<bool>)
    requires forall k :: 0 <= k < |failed| ==> failed[k]
    ensures Failures(failed) == |failed|
  {
    if failed != [] { AllFailures(failed[..|failed| - 1]); }
  }

  /** A new domain whose fetches all fail for good is blocked by the 50th. */
  lemma FiftyFailures(failed: seq<bool>)
    requires forall k :: 0 <= k < |failed| ==> failed[k]
    ensures AfterOutcomes(FRESH, failed).state.AutoBlocked? <==> |failed| >= 50
  {
    BlockedExactly(FRESH, failed);
    forall j | 0 <= j < |failed| ensures TooMany(FRESH, failed, j) <==> j + 1 >= 50 { AllFailures(failed[..j + 1]); }
    if |failed| >= 50 { assert TooMany(FRESH, failed, 49); }
  }

  /** The run goes on with a step of task `i` after its fetch failed. */
  lemma FailThen(c: Settings, s: State, run: seq<Timed>, s1: State, t: real, a: Action)
    returns (run': seq<Timed>, s': State)
    requires Run(c, s, run, s1) && s1.now <= t && (a.DoFetchFailed? || a.DoFetchFailedForNow? || a.DoFinalWrite?
                                                   || a.DoCountFailure?) && a.i in s1.tasks
    requires a.DoFetchFailed? || a.DoFetchFailedForNow? ==> s1.tasks[a.i].Fetching?
    requires a.DoFinalWrite? ==> s1.tasks[a.i].RequeueWrite? || s1.tasks[a.i].FailWrite?
    requires a.DoCountFailure? ==> s1.tasks[a.i].FailCount?
    ensures Run(c, s, run', s') && run' == run + [Timed(t, a)]
    ensures a.DoFetchFailed? ==> s' == s1.(now := t, tasks := s1.tasks[a.i := FailWrite(s1.tasks[a.i].item, true)])
    ensures a.DoFetchFailedForNow? ==> s' == FetchFailedForNow(c, s1, t, a.i).(now := t)
    ensures a.DoFinalWrite? ==> s' == FinalWrite(s1, a.i).(now := t)
    ensures a.DoCountFailure? ==> s' == CountFailure(c, s1, a.i).(now := t)
  {
    hide Run, FetchFailedForNow, FinalWrite, CountFailure;
    run', s' := Then(c, s, run, s1, t, a);
  }

  /** A fetch that fails for good: the row is failed, the failure is counted, and its
      domain is blocked when at least 50 fetches, and more than half, failed. */
  lemma FailedForGood(c: Settings, s: State, t: real, i: nat) returns (s': State)
    requires i in s.tasks && s.tasks[i].Fetching? && s.now <= t
    ensures Run(c, s, [Timed(t, DoFetchFailed(i)), Timed(t, DoFinalWrite(i)), Timed(t, DoCountFailure(i))], s')
    ensures s'.tasks == s.tasks - {i} && s'.queue == s.queue && s'.sched == s.sched
    ensures RowSet(s.table, s'.table, s.tasks[i].item.uri, -3)
    ensures var n := NameOf(c, s.tasks[i].item.uri); RecordSet(s.book, s'.book, n, WithFailure(RecordOf(s.book, n)))
  {
    var u := s.tasks[i].item.uri;
    SetRow(s.table, u, FAILED);
    OutcomeRecords(s.book, NameOf(c, u));
    NoSteps(c, s);
    hide Run, RowTable.UpdateState, RowSet, RecordSet, Failure, Ensure, RecordOf, WithFailure;
    var run;
    run, s' := FailThen(c, s, [], s, t, DoFetchFailed(i));
    run, s' := FailThen(c, s, run, s', t, DoFinalWrite(i));
    run, s' := FailThen(c, s, run, s', t, DoCountFailure(i));
    assert s'.tasks == s.tasks - {i};
  }

  /** A fetch that succeeds: it is counted, the streak of its domain begins again at
      0, and the task has to do what the object asks for. */
  lemma SucceededExactly(c: Settings, s: State, t: real, i: nat, obj: Json)
    requires s.now <= t && i in s.tasks && s.tasks[i].Fetching? && obj.Obj?
    ensures Enabled(c, s, t, DoFetchSucceeded(i, obj))
    ensures var s', item := Next(c, s, t, DoFetchSucceeded(i, obj)), s.tasks[i].item;
            var n := NameOf(c, item.uri);
            && i in s'.tasks && s'.tasks[i].Working? && s'.tasks == s.tasks[i := Working(item, s'.tasks[i].todo)]
            && FetchedAs(c, item, obj, s'.tasks[i].todo)
            && RecordSet(s.book, s'.book, n, WithSuccess(RecordOf(s.book, n)))
            && s'.table == s.table && s'.queue == s.queue && s'.sched == s.sched
  {
    var item := s.tasks[i].item;
    AfterFetchExactly(c, item, obj);
    OutcomeRecords(s.book, NameOf(c, item.uri));
    hide FetchedAs, RecordSet, Success, Ensure, WithSuccess, AfterFetch;
  }

  /** The record after a failure for now that counts. */
  function Delayed(d: DomainRec, t: real): DomainRec {
    if d.failStreak < 56 then
      DomainRec(t + RetryTimer(d.failStreak), d.failStreak + 1, true, d.state, d.scheduledItems, d.failedItems,
          d.fetchedItems, d.hasWaiting, d.notScheduled)
    else d.(state := Unreachable)
  }

  lemma CountedRecord(b: Book, n: Name, oldNextReq: real, oldFailStreak: nat, t: real)
    requires oldNextReq <= t && oldFailStreak == RecordOf(b, n).failStreak
    ensures var (b', what) := TemporaryFailure(Ensure(b, n), n, oldNextReq, oldFailStreak, t);
            && RecordSet(b, b', n, Delayed(RecordOf(b, n), t))
            && what == if oldFailStreak < 56 then TryLater else GoneDown
  {
    hide RetryTimer;
  }

  /** A fetch that fails for now under the current streak: below 56 failures in a row
      the row gets its state back and its domain waits one period more; after 56 the
      row is failed and the domain is given up. */
  lemma FailedForNow(c: Settings, s: State, t: real, i: nat) returns (s': State)
    requires i in s.tasks && s.tasks[i].Fetching? && s.now <= t && s.tasks[i].oldNextReq <= t
    requires s.tasks[i].oldFailStreak == RecordOf(s.book, NameOf(c, s.tasks[i].item.uri)).failStreak
    ensures Run(c, s, [Timed(t, DoFetchFailedForNow(i)), Timed(t, DoFinalWrite(i))], s')
    ensures s'.tasks == s.tasks - {i} && s'.queue == s.queue && s'.sched == s.sched
    ensures var n, item := NameOf(c, s.tasks[i].item.uri), s.tasks[i].item;
            var d := RecordOf(s.book, n);
            && RowSet(s.table, s'.table, item.uri, if d.failStreak < 56 then item.state else -3)
            && RecordSet(s.book, s'.book, n, Delayed(d, t))
  {
    var item := s.tasks[i].item;
    SetRow(s.table, item.uri, item.state);
    SetRow(s.table, item.uri, FAILED);
    CountedRecord(s.book, NameOf(c, item.uri), s.tasks[i].oldNextReq, s.tasks[i].oldFailStreak, t);
    NoSteps(c, s);
    hide Run, RowTable.UpdateState, RowSet, Delayed, RecordSet, TemporaryFailure, Ensure;
    var run;
    run, s' := FailThen(c, s, [], s, t, DoFetchFailedForNow(i));
    run, s' := FailThen(c, s, run, s', t, DoFinalWrite(i));
    assert s'.tasks == s.tasks - {i};
  }

  /** One that began under an older streak changes nothing: its task is over, and the
      row stays in processing. */
  lemma FailedLate(c: Settings, s: State, t: real, i: nat)
    requires s.now <= t && i in s.tasks && s.tasks[i].Fetching?
    requires s.tasks[i].oldFailStreak != RecordOf(s.book, NameOf(c, s.tasks[i].item.uri)).failStreak
    ensures Enabled(c, s, t, DoFetchFailedForNow(i))
    ensures var s', n := Next(c, s, t, DoFetchFailedForNow(i)), NameOf(c, s.tasks[i].item.uri);
            && s' == s.(now := t, tasks := s.tasks - {i}, book := s'.book)
            && RecordSet(s.book, s'.book, n, RecordOf(s.book, n))
  {
  }
}

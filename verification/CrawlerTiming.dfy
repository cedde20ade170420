/** Request spacing and back-off, on every run of the crawler. */
module CrawlerTiming {
  import opened Common
  import opened Json
  import opened DomainIndex
  import opened ScheduleStores
  import opened Backoff
  import opened CrawlerModel

  // ------------------------------------------------- who may change the clocks

  /** No domain's next request time, streak or state moved. */
  ghost predicate ClocksKept(b: Book, b': Book) {
    forall n ::
      && RecordOf(b', n).nextReq == RecordOf(b, n).nextReq
      && RecordOf(b', n).failStreak == RecordOf(b, n).failStreak
  }

  lemma CheckKeepsClocks(b: Book, n: Name, maxPerDomain: nat, t: real)
    requires n in b.domains
    ensures ClocksKept(b, CheckForScheduling(b, n, maxPerDomain, t).0)
  {
  }

  lemma {:induction false} SelectKeepsClocks(b: Book, i: nat, chosen: seq<Name>, maxPerDomain: nat, chunk: nat, t: real)
    requires Listed(b)
    ensures ClocksKept(b, SelectFrom(b, i, chosen, maxPerDomain, chunk, t).0)
    decreases |b.index| - i
  {
    if i < |b.index| {
      hide CheckForScheduling;
      var n := b.index[i];
      var (b1, ok) := CheckForScheduling(b, n, maxPerDomain, t);
      var chosen1 := if ok then chosen + [n] else chosen;
      CheckKeepsClocks(b, n, maxPerDomain, t);
      SelectFromStep(b, i, maxPerDomain, t);
      if |chosen1| < chunk { SelectKeepsClocks(b1, i + 1, chosen1, maxPerDomain, chunk, t); }
    }
  }

  lemma SelectFromStep(b: Book, i: nat, maxPerDomain: nat, t: real)
    requires Listed(b) && i < |b.index|
    ensures var b1 := CheckForScheduling(b, b.index[i], maxPerDomain, t).0; Listed(b1) && |b1.index| <= |b.index|
  {
    RemoveFirstSubset(b.index, b.index[i]);
  }

  lemma MarkEmptyKeepsClocks(b: Book, n: Name)
    ensures ClocksKept(b, MarkEmpty(Ensure(b, n), n))
  {
  }

  lemma {:induction false} CollectKeepsClocks(b: Book, names: seq<Name>, got: map<Name, seq<Item>>)
    ensures ClocksKept(b, Collect(b, names, got).0)
    decreases names
  {
    hide MarkEmpty;
    if names != [] {
      var n := names[0];
      var answer := if n in got then got[n] else [];
      if answer == [] {
        MarkEmptyKeepsClocks(b, n);
        CollectKeepsClocks(MarkEmpty(Ensure(b, n), n), names[1..], got);
      } else {
        CollectKeepsClocks(b, names[1..], got);
      }
    }
  }

  lemma TakeSlotKeepsClocks(b: Book, n: Name)
    requires n in b.domains
    ensures ClocksKept(b, TakeSlot(b, n))
  {
  }

  lemma TempCheckKeepsClocks(b: Book, n: Name, t: real)
    requires n in b.domains
    ensures ClocksKept(b, TempCheck(b, n, t))
  {
  }

  lemma NextItemKeepsClocks(c: Settings, s: State, t: real)
    requires s.sched.Batch? && s.sched.items != []
    ensures ClocksKept(s.book, NextItem(c, s, t).book)
  {
    hide TakeSlot;
    var n := NameOf(c, s.sched.items[0].uri);
    var b := Ensure(s.book, n);
    assert ClocksKept(s.book, b);
    TempCheckKeepsClocks(b, n, t);
    TakeSlotKeepsClocks(TempCheck(b, n, t), n);
  }

  /** Handing out an item changes the counter and the flag of its domain only. */
  lemma ReleaseEffect(b: Book, n: Name)
    requires n in b.domains
    ensures var b' := ReleaseSlot(b, n);
            && n in b'.domains
            && b'.domains[n] == b.domains[n].(scheduledItems := b'.domains[n].scheduledItems,
                notScheduled := b'.domains[n].notScheduled)
            && forall m :: m != n ==> RecordOf(b', m) == RecordOf(b, m)
  {
  }

  lemma AfterInsertKeepsClocks(c: Settings, s: State, i: nat)
    requires i in s.tasks && s.tasks[i].Inserted?
    ensures ClocksKept(s.book, AfterInsert(c, s, i).book)
  {
  }

  lemma SelectDomainsKeepsClocks(c: Settings, s: State, t: real, order: seq<Name>)
    requires Listed(s.book.(index := order))
    ensures ClocksKept(s.book, SelectDomains(c, s, t, order).book)
  {
    SelectKeepsClocks(s.book.(index := order), 0, [], c.maxPerDomain, c.domainChunk, t);
  }

  /** Steps that start no fetch and end none for now. */
  predicate Quiet(a: Action) {
    !a.DoTake? && !a.DoFetchSucceeded? && !a.DoFetchFailedForNow?
  }

  /** Quiet steps move no clock, record nothing and start no fetch. */
  lemma QuietStep(c: Settings, s: State, t: real, a: Action)
    requires Enabled(c, s, t, a) && Quiet(a)
    ensures var s' := Next(c, s, t, a);
            && ClocksKept(s.book, s'.book)
            && s'.hist == s.hist.(origin := s'.hist.origin)
            && forall i :: i in s'.tasks && s'.tasks[i].Fetching? ==> i in s.tasks && s'.tasks[i] == s.tasks[i]
  {
    hide SelectDomains, Gathered, NextItem, Pass, Ready, FinalWrite, CountFailure, Work, MarkDone, InsertDone,
        AfterInsert;
    match a
    case DoSelect(order) => SelectDomainsEffect(c, s, t, order);
    case DoGathered => GatheredEffect(s);
    case DoNextItem => NextItemEffect(c, s, t);
    case DoAfterInsert(i) => AfterInsertEffect(c, s, i);
    case DoFinalWrite(i) => FinalWriteEffect(s, i);
    case DoCountFailure(i) => CountFailureEffect(c, s, i);
    case DoWork(i) => WorkQuiet(c, s, t, i);
    case DoInsert(i) => InsertEffect(s, i);
    case DoMark(i) => MarkEffect(c, s, t, i);
    case _ =>
  }

  /** Clocks and history stay, and no fetch starts. */
  ghost predicate QuietEffect(s: State, s': State) {
    && ClocksKept(s.book, s'.book) && s'.hist == s.hist
    && forall i :: i in s'.tasks && s'.tasks[i].Fetching? ==> i in s.tasks && s'.tasks[i] == s.tasks[i]
  }

  lemma AfterInsertEffect(c: Settings, s: State, i: nat)
    requires i in s.tasks && s.tasks[i].Inserted?
    ensures QuietEffect(s, AfterInsert(c, s, i))
  {
    hide NoteWaiting, Ensure;
    AfterInsertKeepsClocks(c, s, i);
  }

  lemma FinalWriteEffect(s: State, i: nat)
    requires i in s.tasks && (s.tasks[i].BlockWrite? || s.tasks[i].RequeueWrite? || s.tasks[i].FailWrite?)
    ensures QuietEffect(s, FinalWrite(s, i))
  {
    hide RowTable.UpdateState;
  }

  lemma CountFailureEffect(c: Settings, s: State, i: nat)
    requires i in s.tasks && s.tasks[i].FailCount?
    ensures QuietEffect(s, CountFailure(c, s, i))
  {
  }

  lemma WorkQuiet(c: Settings, s: State, t: real, i: nat)
    requires i in s.tasks && s.tasks[i].Working?
    ensures QuietEffect(s, Work(c, s, t, i))
  {
    hide RowTable.UpdateState, NewRow, T;
  }

  lemma InsertEffect(s: State, i: nat)
    requires i in s.tasks && s.tasks[i].Inserting?
    ensures QuietEffect(s, InsertDone(s, i))
  {
  }

  lemma MarkEffect(c: Settings, s: State, t: real, i: nat)
    requires i in s.tasks && s.tasks[i].MarkWriting?
    ensures QuietEffect(s, MarkDone(c, s, t, i))
  {
    hide RowTable.UpdateState, RowTable.UpdateStateTime, RowTable.InsertRow, UpdatePeriod;
  }

  lemma SelectDomainsEffect(c: Settings, s: State, t: real, order: seq<Name>)
    requires Listed(s.book.(index := order))
    ensures var s' := SelectDomains(c, s, t, order);
        ClocksKept(s.book, s'.book) && s'.hist == s.hist
        && s'.tasks == s.tasks
  {
    SelectDomainsKeepsClocks(c, s, t, order);
  }

  lemma GatheredEffect(s: State)
    requires s.sched.Gathering?
    ensures var s' := Gathered(s); ClocksKept(s.book, s'.book) && s'.hist == s.hist && s'.tasks == s.tasks
  {
    CollectKeepsClocks(s.book, s.sched.names, s.sched.got);
  }

  lemma NextItemEffect(c: Settings, s: State, t: real)
    requires s.sched.Batch? && s.sched.items != []
    ensures var s' := NextItem(c, s, t); ClocksKept(s.book, s'.book) && s'.hist == s.hist && s'.tasks == s.tasks
  {
    NextItemKeepsClocks(c, s, t);
  }

  /** A ready domain is either down or not to be asked yet, or its recorded time
      has passed and is moved at least one period ahead. */
  ghost predicate Admitted(c: Settings, b: Book, n: Name, t: real, b': Book, verdict: Admission) {
    && (forall m :: RecordOf(b', m).failStreak == RecordOf(b, m).failStreak)
    && (forall m :: m != n ==> RecordOf(b', m).nextReq == RecordOf(b, m).nextReq)
    && RecordOf(b', n).nextReq >= RecordOf(b, n).nextReq
    && (verdict.Go? ==>
          && verdict == Go(RecordOf(b, n).nextReq, RecordOf(b, n).failStreak)
          && RecordOf(b, n).nextReq < t
          && RecordOf(b', n).nextReq >= t + c.requestPeriod)
  }

  lemma AdmitEffect(c: Settings, b: Book, n: Name, t: real)
    requires RecordOf(b, n).ReadyAt(t)
    ensures var (b', verdict) := Admit(c, b, n, t); Admitted(c, b, n, t, b', verdict)
  {
    hide ReleaseSlot;
    var b0 := Ensure(b, n);
    assert forall m :: RecordOf(b0, m) == RecordOf(b, m);
    ReleaseEffect(b0, n);
  }

  /** What taking an item does to clocks, tasks and history. */
  lemma TakeEffect(c: Settings, s: State, t: real, i: nat)
    requires HeadReady(c, s, t) && i !in s.tasks
    ensures var s' := Take(c, s, t, i);
            var item := s.queue.ready[0].item;
            var n := NameOf(c, item.uri);
            var (b, verdict) := Admit(c, s.book, n, t);
            && Admitted(c, s.book, n, t, s'.book, verdict)
            && s'.tasks.Keys == s.tasks.Keys + {i}
            && (forall j :: j in s.tasks ==> s'.tasks[j] == s.tasks[j])
            && (s'.tasks[i].Fetching? <==> verdict.Go?)
            && (if verdict.Go? then
                  && s'.tasks[i] == Fetching(item, verdict.oldNextReq, verdict.oldFailStreak, t)
                  && s'.hist == s.hist.(starts := s.hist.starts + [Start(n, t)])
                else s'.hist == s.hist)
  {
    hide Admit, Admitted, Hit;
    var n := NameOf(c, s.queue.ready[0].item.uri);
    var (b, verdict) := Admit(c, s.book, n, t);
    AdmitEffect(c, s.book, n, t);
    assert Take(c, s, t, i).book == b;
    match verdict
    case GiveUp =>
    case PutBack =>
    case Go(_, _) =>
  }

  // ---------------------------------------------------------------- politeness

  /** Fetches started so far are spaced, and the record of each domain lies at
      least one period after every start; running fetches started in the past,
      after the time that was then recorded. */
  ghost predicate SpacingInv(c: Settings, s: State) {
    && (forall k :: 0 <= k < |s.hist.starts| ==>
          var x := s.hist.starts[k]; x.at <= s.now && RecordOf(s.book, x.name).nextReq >= x.at + c.requestPeriod)
    && (forall j, k :: 0 <= j < k < |s.hist.starts| && s.hist.starts[j].name == s.hist.starts[k].name ==>
          s.hist.starts[k].at - s.hist.starts[j].at > c.requestPeriod)
    && RunningInv(s)
  }

  ghost predicate RunningInv(s: State) {
    forall i :: i in s.tasks && s.tasks[i].Fetching? ==> s.tasks[i].oldNextReq < s.tasks[i].started <= s.now
  }

  lemma RunningStep(c: Settings, s: State, t: real, a: Action)
    requires RunningInv(s) && Enabled(c, s, t, a)
    ensures RunningInv(Next(c, s, t, a))
  {
    hide Take;
    if Quiet(a) { QuietStep(c, s, t, a); }
    else if a.DoTake? { TakeEffect(c, s, t, a.i); }
    else { assert forall i ::
        i in Next(c, s, t, a).tasks && Next(c, s, t, a).tasks[i].Fetching?
        ==> i in s.tasks && Next(c, s, t, a).tasks[i] == s.tasks[i]; }
  }

  /** What a failed fetch does: a failure under an older streak leaves its domain's
      record as it is; one under the current streak adds 1 to the streak and puts
      the next request that many periods off, or gives the domain up once all
      periods are used. No other domain changes, and no fetch starts. */
  ghost predicate FailedAs(c: Settings, s: State, t: real, i: nat, s': State)
    requires i in s.tasks && s.tasks[i].Fetching?
  {
    var n := NameOf(c, s.tasks[i].item.uri);
    var d := RecordOf(s.book, n);
    var counts := s.tasks[i].oldFailStreak == d.failStreak;
    && RecordOf(s'.book, n) == (if !counts then d
                                else if d.failStreak >= RETRIES then d.(state := Unreachable)
                                else d.(failStreak := d.failStreak + 1, nextReq := t + RetryTimer(d.failStreak),
                                        tempUnreachable := true))
    && (forall m :: m != n ==> RecordOf(s'.book, m) == RecordOf(s.book, m))
    && s'.now == t && s'.hist.starts == s.hist.starts && s'.hist.reset == s.hist.reset
    && s'.hist.downAt == (if counts && d.failStreak >= RETRIES then s.hist.downAt[n := t] else s.hist.downAt)
    && s'.hist.firstFail == (if counts && d.failStreak == 0 then s.hist.firstFail[n := t] else s.hist.firstFail)
    && forall j :: j in s'.tasks && s'.tasks[j].Fetching? ==> j in s.tasks && s'.tasks[j] == s.tasks[j]
  }

  lemma FailureEffect(c: Settings, s: State, t: real, i: nat)
    requires RunningInv(s) && Enabled(c, s, t, DoFetchFailedForNow(i))
    ensures FailedAs(c, s, t, i, Next(c, s, t, DoFetchFailedForNow(i)))
  {
    hide RetryTimer;
  }

  lemma SpacingStep(c: Settings, s: State, t: real, a: Action)
    requires 0.0 <= c.requestPeriod <= RetryTimer(0)
    requires SpacingInv(c, s) && Enabled(c, s, t, a)
    ensures SpacingInv(c, Next(c, s, t, a))
  {
    RunningStep(c, s, t, a);
    if Quiet(a) { QuietStep(c, s, t, a); }
    else if a.DoTake? { SpacingTake(c, s, t, a.i); }
    else if a.DoFetchFailedForNow? { SpacingFailed(c, s, t, a.i); }
    else { SpacingSucceeded(c, s, t, a.i, a.obj); }
  }

  lemma SpacingTake(c: Settings, s: State, t: real, i: nat)
    requires 0.0 <= c.requestPeriod
    requires SpacingInv(c, s) && Enabled(c, s, t, DoTake(i)) && RunningInv(Next(c, s, t, DoTake(i)))
    ensures SpacingInv(c, Next(c, s, t, DoTake(i)))
  {
    hide Take, Admit, Ready;
    TakeEffect(c, s, t, i);
    var s' := Next(c, s, t, DoTake(i));
    var n := NameOf(c, s.queue.ready[0].item.uri);
    forall k | 0 <= k < |s'.hist.starts| ensures
      var x := s'.hist.starts[k]; x.at <= s'.now && RecordOf(s'.book, x.name).nextReq >= x.at + c.requestPeriod {
      if k < |s.hist.starts| {
        assert s'.hist.starts[k] == s.hist.starts[k];
      }
    }
    forall j, k | 0 <= j < k < |s'.hist.starts| && s'.hist.starts[j].name == s'.hist.starts[k].name
      ensures s'.hist.starts[k].at - s'.hist.starts[j].at > c.requestPeriod {
      assert s'.hist.starts[j] == s.hist.starts[j];
    }
  }

  lemma SpacingFailed(c: Settings, s: State, t: real, i: nat)
    requires c.requestPeriod <= RetryTimer(0)
    requires SpacingInv(c, s) && Enabled(c, s, t, DoFetchFailedForNow(i))
        && RunningInv(Next(c, s, t, DoFetchFailedForNow(i)))
    ensures SpacingInv(c, Next(c, s, t, DoFetchFailedForNow(i)))
  {
    FailureEffect(c, s, t, i);
    assert s.now <= t;
    hide Next, Enabled, RetryTimer, RunningInv;
    var n := NameOf(c, s.tasks[i].item.uri);
    if RecordOf(s.book, n).failStreak < RETRIES { FirstTimerLeast(RecordOf(s.book, n).failStreak); }
  }

  lemma SpacingSucceeded(c: Settings, s: State, t: real, i: nat, obj: Json)
    requires SpacingInv(c, s) && Enabled(c, s, t, DoFetchSucceeded(i, obj))
        && RunningInv(Next(c, s, t, DoFetchSucceeded(i, obj)))
    ensures SpacingInv(c, Next(c, s, t, DoFetchSucceeded(i, obj)))
  {
    hide AfterFetch;
  }

  lemma {:induction false} SpacingRun(c: Settings, s: State, run: seq<Timed>, s': State)
    requires 0.0 <= c.requestPeriod <= RetryTimer(0)
    requires SpacingInv(c, s) && Run(c, s, run, s')
    ensures SpacingInv(c, s')
    decreases run
  {
    hide SpacingInv, Enabled, Next;
    if run != [] {
      SpacingStep(c, s, run[0].at, run[0].action);
      SpacingRun(c, Next(c, s, run[0].at, run[0].action), run[1..], s');
    }
  }

  /** Any two fetches of one domain, on any run, start more than the request
      period apart, when that period is at most the first retry period. */
  lemma Polite(c: Settings, s: State, run: seq<Timed>, s': State, j: nat, k: nat)
    requires 0.0 <= c.requestPeriod <= RetryTimer(0)
    requires s.hist.starts == [] && s.tasks == map[]
    requires Run(c, s, run, s')
    requires j < k < |s'.hist.starts| && s'.hist.starts[j].name == s'.hist.starts[k].name
    ensures s'.hist.starts[k].at - s'.hist.starts[j].at > c.requestPeriod
  {
    SpacingRun(c, s, run, s');
  }

  /** The first half of the test on a failed fetch never holds: a fetch never
      fails before the time its domain had recorded when the fetch started. */
  lemma {:induction false} OldTimeAlwaysPassed(c: Settings, s: State, run: seq<Timed>, s': State, i: nat, t: real)
    requires s.tasks == map[] && Run(c, s, run, s')
    requires i in s'.tasks && s'.tasks[i].Fetching? && t >= s'.now
    ensures !(t < s'.tasks[i].oldNextReq)
  {
    RunningRun(c, s, run, s');
  }

  lemma {:induction false} RunningRun(c: Settings, s: State, run: seq<Timed>, s': State)
    requires RunningInv(s) && Run(c, s, run, s')
    ensures RunningInv(s')
    decreases run
  {
    hide RunningInv, Enabled, Next;
    if run != [] {
      RunningStep(c, s, run[0].at, run[0].action);
      RunningRun(c, Next(c, s, run[0].at, run[0].action), run[1..], s');
    }
  }
}

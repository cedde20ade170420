/** How long a domain must fail before the crawler gives it up. */
module CrawlerBackoff {
  import opened Json
  import opened DomainIndex
  import opened Backoff
  import opened CrawlerModel
  import opened CrawlerTiming

  /** Task `i` is fetching from domain `n`. */
  predicate Fetches(c: Settings, s: State, i: nat, n: Name) {
    i in s.tasks && s.tasks[i].Fetching? && NameOf(c, s.tasks[i].item.uri) == n
  }

  /** What the back-off of domain `n` has reached: after `k` counted failures the
      recorded time lies `k` retry periods behind the first of them. */
  ghost predicate BackoffAt(c: Settings, s: State, n: Name) {
    var d := RecordOf(s.book, n);
    && (n in s.hist.firstFail ==>
          && d.failStreak <= RETRIES
          && (d.failStreak > 0 ==> d.nextReq >= s.hist.firstFail[n] + RetrySum(d.failStreak)))
    && (n !in s.hist.reset && (d.failStreak > 0 || n in s.hist.downAt) ==> n in s.hist.firstFail)
    && (n !in s.hist.reset && n in s.hist.downAt ==>
          d.failStreak == RETRIES && s.hist.downAt[n] > s.hist.firstFail[n] + RetrySum(RETRIES))
  }

  /** A running fetch of domain `n` never carries a later streak than the domain, and
      at the same positive streak it began after the periods reached so far. */
  ghost predicate TaskAt(c: Settings, s: State, n: Name, i: nat) {
    Fetches(c, s, i, n) ==>
      var k := s.tasks[i];
      var d := RecordOf(s.book, n);
      && k.oldFailStreak <= d.failStreak
      && (n in s.hist.firstFail && d.failStreak <= RETRIES && k.oldFailStreak == d.failStreak > 0 ==>
            k.started > s.hist.firstFail[n] + RetrySum(d.failStreak))
  }

  ghost predicate BackoffInv(c: Settings, s: State, n: Name) {
    RunningInv(s) && BackoffAt(c, s, n) && forall i :: TaskAt(c, s, n, i)
  }

  /** When a success resets the streak of domain `n`, no other fetch of `n` that
      began under a positive streak is running. */
  ghost predicate CleanReset(c: Settings, s: State, a: Action, n: Name) {
    a.DoFetchSucceeded? && Fetches(c, s, a.i, n) && RecordOf(s.book, n).failStreak > 0 ==>
      forall j :: j != a.i && Fetches(c, s, j, n) ==> s.tasks[j].oldFailStreak == 0
  }

  lemma BackoffQuiet(c: Settings, s: State, t: real, a: Action, n: Name)
    requires BackoffInv(c, s, n) && Enabled(c, s, t, a) && Quiet(a)
    ensures BackoffInv(c, Next(c, s, t, a), n)
  {
    RunningStep(c, s, t, a);
    QuietStep(c, s, t, a);
    hide Next, Enabled, RetrySum;
    forall i ensures TaskAt(c, Next(c, s, t, a), n, i) { assert TaskAt(c, s, n, i); }
  }

  lemma BackoffTake(c: Settings, s: State, t: real, i: nat, n: Name)
    requires BackoffInv(c, s, n) && Enabled(c, s, t, DoTake(i))
    ensures BackoffInv(c, Next(c, s, t, DoTake(i)), n)
  {
    hide Take, Admit, RetrySum;
    RunningStep(c, s, t, DoTake(i));
    TakeEffect(c, s, t, i);
    forall j ensures TaskAt(c, Next(c, s, t, DoTake(i)), n, j) { assert TaskAt(c, s, n, j); }
  }

  lemma BackoffSucceeded(c: Settings, s: State, t: real, i: nat, obj: Json, n: Name)
    requires BackoffInv(c, s, n) && Enabled(c, s, t, DoFetchSucceeded(i, obj))
        && CleanReset(c, s, DoFetchSucceeded(i, obj), n)
    ensures BackoffInv(c, Next(c, s, t, DoFetchSucceeded(i, obj)), n)
  {
    hide AfterFetch, RetrySum;
    RunningStep(c, s, t, DoFetchSucceeded(i, obj));
    forall j ensures TaskAt(c, Next(c, s, t, DoFetchSucceeded(i, obj)), n, j) { assert TaskAt(c, s, n, j); }
  }

  /** The back-off reached so far is kept: a counted failure adds one period. */
  lemma BackoffFailed(c: Settings, s: State, t: real, i: nat, n: Name)
    requires BackoffInv(c, s, n) && Enabled(c, s, t, DoFetchFailedForNow(i))
    ensures BackoffInv(c, Next(c, s, t, DoFetchFailedForNow(i)), n)
  {
    RunningStep(c, s, t, DoFetchFailedForNow(i));
    FailureEffect(c, s, t, i);
    assert TaskAt(c, s, n, i);
    assert s.tasks[i].started <= t;
    var s' := Next(c, s, t, DoFetchFailedForNow(i));
    hide Next, Enabled;
    FailedBackoffAt(c, s, t, i, s', n);
    hide BackoffAt, TaskAt, FailedAs;
    forall j ensures TaskAt(c, s', n, j) { FailedTaskAt(c, s, t, i, s', n, j); }
  }

  lemma FailedBackoffAt(c: Settings, s: State, t: real, i: nat, s': State, n: Name)
    requires i in s.tasks && s.tasks[i].Fetching? && s.tasks[i].started <= t && FailedAs(c, s, t, i, s')
    requires BackoffAt(c, s, n) && TaskAt(c, s, n, i)
    ensures BackoffAt(c, s', n)
  {
    hide RetryTimer;
    var d := RecordOf(s.book, n);
    if NameOf(c, s.tasks[i].item.uri) == n && s.tasks[i].oldFailStreak == d.failStreak < RETRIES {
      assert RetrySum(d.failStreak + 1) == RetrySum(d.failStreak) + RetryTimer(d.failStreak);
    }
  }

  lemma FailedTaskAt(c: Settings, s: State, t: real, i: nat, s': State, n: Name, j: nat)
    requires i in s.tasks && s.tasks[i].Fetching? && FailedAs(c, s, t, i, s')
    requires BackoffAt(c, s, n) && TaskAt(c, s, n, i) && TaskAt(c, s, n, j)
    ensures TaskAt(c, s', n, j)
  {
    hide RetryTimer;
  }

  lemma BackoffStep(c: Settings, s: State, t: real, a: Action, n: Name)
    requires BackoffInv(c, s, n) && Enabled(c, s, t, a) && CleanReset(c, s, a, n)
    ensures BackoffInv(c, Next(c, s, t, a), n)
  {
    hide BackoffInv, Next, CleanReset;
    if Quiet(a) { BackoffQuiet(c, s, t, a, n); }
    else if a.DoTake? { BackoffTake(c, s, t, a.i, n); }
    else if a.DoFetchSucceeded? { BackoffSucceeded(c, s, t, a.i, a.obj, n); }
    else { BackoffFailed(c, s, t, a.i, n); }
  }

  /** Every reset of the streak of domain `n` along the run is clean. */
  ghost predicate CleanResets(c: Settings, s: State, run: seq<Timed>, n: Name)
    decreases run
  {
    run == [] ||
    (Enabled(c, s, run[0].at, run[0].action) && CleanReset(c, s, run[0].action, n)
     && CleanResets(c, Next(c, s, run[0].at, run[0].action), run[1..], n))
  }

  lemma {:induction false} BackoffRun(c: Settings, s: State, run: seq<Timed>, s': State, n: Name)
    requires BackoffInv(c, s, n) && Run(c, s, run, s') && CleanResets(c, s, run, n)
    ensures BackoffInv(c, s', n)
    decreases run
  {
    hide BackoffInv, Enabled, Next, CleanReset;
    if run != [] {
      BackoffStep(c, s, run[0].at, run[0].action, n);
      BackoffRun(c, Next(c, s, run[0].at, run[0].action), run[1..], s', n);
    }
  }

  /** History as it is when the fetch tasks are created: `reset` names the
      domains that were stored with a positive streak. */
  ghost predicate FreshHistory(s: State) {
    && s.hist.starts == [] && s.hist.firstFail == map[] && s.hist.downAt == map[] && s.hist.origin == map[]
    && s.tasks == map[]
    && forall n :: n in s.book.domains && s.book.domains[n].failStreak > 0 ==> n in s.hist.reset
  }

  /** On any run whose resets of domain `n` are clean, a failure gives `n` up only
      more than 4,359,060 seconds after the first failure counted since the streak
      of `n` was last 0. */
  lemma GivenUpAfterCleanResets(c: Settings, s: State, run: seq<Timed>, s': State, t: real, i: nat, n: Name)
    requires FreshHistory(s) && Run(c, s, run, s') && CleanResets(c, s, run, n)
    requires Fetches(c, s', i, n) && Enabled(c, s', t, DoFetchFailedForNow(i)) && n in s'.hist.firstFail
    requires RecordOf(Next(c, s', t, DoFetchFailedForNow(i)).book, n).state.Unreachable?
        && !RecordOf(s'.book, n).state.Unreachable?
    ensures t - s'.hist.firstFail[n] > 4359060.0
  {
    BackoffRun(c, s, run, s', n);
    FailureEffect(c, s', t, i);
    assert s'.now <= t;
    hide Next, Enabled, Run, CleanResets, FreshHistory, RetrySum, RetryTimer;
    assert TaskAt(c, s', n, i);
    RetryTotal();
  }

  /** A domain without a reset has only clean ones. */
  lemma {:induction false} NoResetIsClean(c: Settings, s: State, run: seq<Timed>, s': State, n: Name)
    requires Run(c, s, run, s') && n !in s'.hist.reset && RunningInv(s)
    ensures CleanResets(c, s, run, n) && n !in s.hist.reset
    decreases run
  {
    hide RunningInv;
    if run != [] {
      var t, a := run[0].at, run[0].action;
      RunningStep(c, s, t, a);
      NoResetIsClean(c, Next(c, s, t, a), run[1..], s', n);
      ResetsStay(c, s, t, a, n);
    }
  }

  lemma ResetsStay(c: Settings, s: State, t: real, a: Action, n: Name)
    requires RunningInv(s) && Enabled(c, s, t, a) && n !in Next(c, s, t, a).hist.reset
    ensures CleanReset(c, s, a, n) && n !in s.hist.reset
  {
    if Quiet(a) { QuietStep(c, s, t, a); }
    else if a.DoTake? { TakeEffect(c, s, t, a.i); }
    else if a.DoFetchFailedForNow? { FailureEffect(c, s, t, a.i); }
  }

  /** On any run in which no success resets the streak of domain `n`, which
      began at 0, the retry path gives `n` up only more than 4,359,060 seconds
      after the first counted failure. */
  lemma GivenUpOnlyAfterAllRetries(c: Settings, s: State, run: seq<Timed>, s': State, n: Name)
    requires FreshHistory(s) && Run(c, s, run, s')
    requires n !in s'.hist.reset && n in s'.hist.downAt
    ensures n in s'.hist.firstFail && s'.hist.downAt[n] - s'.hist.firstFail[n] > 4359060.0
  {
    NoResetIsClean(c, s, run, s', n);
    BackoffRun(c, s, run, s', n);
    RetryTotal();
  }
}

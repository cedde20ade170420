/** The verifier's circuit breaker: when a domain is asked, how failures are
    weighed, and when it is given up. */
module Breaker {
  import opened Common

  const INF_TIME := 10000000000000000.0
  const TIMERS := 9

  // Weights and threshold in fifths, so that 0.4, 1 and 5 are 2, 5 and 25.
  const LIGHT := 2
  const FULL := 5
  const THRESHOLD := 25

  /** `Config.domain_retry_timers[i]` */
  function Timer(i: nat): real
    requires i < TIMERS
  {
    (2 * Power5(i)) as real
  }

  function TimerSum(k: nat): real
    requires k <= TIMERS
  {
    if k == 0 then 0.0 else TimerSum(k - 1) + Timer(k - 1)
  }

  lemma {:induction false} TimerSumClosed(k: nat)
    requires k <= TIMERS
    ensures TimerSum(k) == ((Power5(k) - 1) as real) / 2.0
  {
    if k > 0 { TimerSumClosed(k - 1); }
  }

  /** All retry periods together: 976,562 seconds, a little over 11 days. */
  lemma TimerTotal()
    ensures TimerSum(TIMERS) == 976562.0
  {
    TimerSumClosed(TIMERS);
    assert Power5(3) == 125;
    assert Power5(6) == 15625;
    assert Power5(9) == 1953125;
  }

  /** A value of the `domains` dictionary. */
  datatype Dom = Dom(fails: nat, nextTry: real, reserved: Option<real>)

  /** A down mark: when, and how many counted failures led to it. */
  datatype MarkDown = MarkDown(at: real, failures: nat, fails: nat)

  /** One domain as the fetcher sees it, with the history of its current series
      of marks (empty after a success that reset it) and of counted failures. */
  datatype View = View(dom: Dom, weight: int, counted: nat, marks: seq<MarkDown>)

  function WeightOf(temporary: bool): int { if temporary then FULL else LIGHT }

  /** A counted failure at time `t`. */
  function Count(v: View, temporary: bool, t: real): View {
    var w := v.weight + WeightOf(temporary);
    if w < THRESHOLD then v.(weight := w, counted := v.counted + 1)
    else
      var next := if v.dom.fails < TIMERS then t + Timer(v.dom.fails) else INF_TIME;
      View(v.dom.(nextTry := next, fails := v.dom.fails + 1), 0, 0,
          v.marks + [MarkDown(t, v.counted + 1, v.dom.fails + 1)])
  }

  /** A failed fetch (or a refused one, at its second look at the clock). */
  function Failed(v: View, temporary: bool, t: real): View {
    if t < v.dom.nextTry then v else Count(v, temporary, t)
  }

  function Succeeded(v: View): View {
    if v.dom.fails > 0 then v.(dom := v.dom.(fails := 0, nextTry := 0.0), marks := []) else v
  }

  /** Entering `fetch_ap`: `t1` and `t2` are the two readings of the clock made
      when the domain is down at the first one. */
  function Entered(v: View, t1: real, t2: real): View {
    if t1 < v.dom.nextTry then Failed(v, false, t2) else v
  }

  function Reserve(v: View, t: real, timeout: real): View {
    var a := t + timeout;
    var b := if v.dom.nextTry > a then v.dom.nextTry else a;
    var last := (if v.dom.reserved.Some? then v.dom.reserved.value else 0.0) + timeout;
    v.(dom := v.dom.(reserved := Some(if last > b then last else b)))
  }

  datatype Event =
    | Enter(second: real)
    | Fail(temporary: bool)
    | Succeed
    | ReserveSlot(timeout: real)
    | Restart  // the stored fail count and next try come back, the rest is lost

  datatype Timed = Timed(at: real, event: Event)

  function After(v: View, x: Timed): View {
    match x.event
    case Enter(second) => Entered(v, x.at, second)
    case Fail(temporary) => Failed(v, temporary, x.at)
    case Succeed => Succeeded(v)
    case ReserveSlot(timeout) => Reserve(v, x.at, timeout)
    case Restart => v.(dom := v.dom.(reserved := None), weight := 0, counted := 0)
  }

  /** When the event is over. */
  function EndOf(x: Timed): real {
    if x.event.Enter? then x.event.second else x.at
  }

  /** Events of one domain in the order of the clock; fetches may overlap freely. */
  ghost predicate Run(now: real, v: View, run: seq<Timed>, v': View, end: real)
    decreases run
  {
    if run == [] then v == v' && now == end
    else now <= run[0].at <= EndOf(run[0]) && Run(EndOf(run[0]), After(v, run[0]), run[1..], v', end)
  }

  // ---------------------------------------------------------------- invariants

  /** A mark used up between 5 and 13 failures, and the k-th mark of a series
      came at least k - 1 periods after the first. */
  ghost predicate MarkOk(marks: seq<MarkDown>, k: int)
    requires 0 <= k < |marks|
  {
    && 5 <= marks[k].failures <= 13
    && marks[k].fails == k + 1 <= TIMERS + 1
    && marks[k].at >= marks[0].at + TimerSum(k)
  }

  ghost predicate Sound(v: View) {
    && 0 <= v.weight < THRESHOLD
    && LIGHT * v.counted <= v.weight <= FULL * v.counted
    && v.dom.fails == |v.marks| <= TIMERS + 1
    && (forall k :: 0 <= k < |v.marks| ==> MarkOk(v.marks, k))
    && (0 < |v.marks| <= TIMERS ==> v.dom.nextTry >= v.marks[0].at + TimerSum(|v.marks|))
    && (|v.marks| == TIMERS + 1 ==> v.dom.nextTry == INF_TIME)
  }

  lemma CountSound(v: View, temporary: bool, t: real)
    requires Sound(v) && v.dom.nextTry <= t < INF_TIME
    ensures Sound(Count(v, temporary, t))
  {
    var v' := Count(v, temporary, t);
    var n := |v.marks|;
    if v'.counted == 0 {
      forall k | 0 <= k < |v'.marks| ensures MarkOk(v'.marks, k) {
        if k < n { assert MarkOk(v.marks, k); }
      }
    }
  }

  lemma AfterSound(v: View, x: Timed)
    requires Sound(v) && x.at <= EndOf(x) < INF_TIME
    ensures Sound(After(v, x))
  {
    match x.event
    case Enter(second) => if x.at < v.dom.nextTry <= second { CountSound(v, false, second); }
    case Fail(temporary) => if v.dom.nextTry <= x.at { CountSound(v, temporary, x.at); }
    case Succeed =>
    case ReserveSlot(_) =>
    case Restart =>
  }

  lemma {:induction false} RunSound(now: real, v: View, run: seq<Timed>, v': View, end: real)
    requires Sound(v) && Run(now, v, run, v', end) && end < INF_TIME
    ensures Sound(v')
    decreases run
  {
    if run != [] {
      RunEnds(EndOf(run[0]), After(v, run[0]), run[1..], v', end);
      AfterSound(v, run[0]);
      RunSound(EndOf(run[0]), After(v, run[0]), run[1..], v', end);
    }
  }

  lemma {:induction false} RunEnds(now: real, v: View, run: seq<Timed>, v': View, end: real)
    requires Run(now, v, run, v', end)
    ensures now <= end
    decreases run
  {
    if run != [] { RunEnds(EndOf(run[0]), After(v, run[0]), run[1..], v', end); }
  }

  /** A domain nobody has asked yet. */
  function Unknown(t: real): View { View(Dom(0, t, None), 0, 0, []) }

  /** On every run up to the infinity constant: the accumulated weight rests
      below the threshold, every down mark used up 5 to 13 counted failures, and
      the fail count is the number of marks of the series, at most ten. */
  lemma BreakerBounds(t: real, run: seq<Timed>, v: View, end: real)
    requires Run(t, Unknown(t), run, v, end) && end < INF_TIME
    ensures 0 <= v.weight < THRESHOLD
    ensures v.dom.fails == |v.marks| <= TIMERS + 1
    ensures forall k :: 0 <= k < |v.marks| ==> 5 <= v.marks[k].failures <= 13
  {
    RunSound(t, Unknown(t), run, v, end);
    forall k | 0 <= k < |v.marks| ensures 5 <= v.marks[k].failures <= 13 { assert MarkOk(v.marks, k); }
  }

  /** The tenth mark, which gives the domain up, comes at least 976,562 seconds
      after the first mark since the last success. */
  lemma GivenUpLate(t: real, run: seq<Timed>, v: View, end: real)
    requires Run(t, Unknown(t), run, v, end) && end < INF_TIME && v.dom.fails > TIMERS
    ensures v.dom.nextTry == INF_TIME && |v.marks| == TIMERS + 1
    ensures v.marks[TIMERS].at - v.marks[0].at >= 976562.0
  {
    RunSound(t, Unknown(t), run, v, end);
    assert MarkOk(v.marks, TIMERS);
    TimerTotal();
  }

  /** A given-up domain stays given up, and nothing more is counted against it,
      until a fetch that was already under way succeeds. */
  lemma {:induction false} GivenUpStays(now: real, v: View, run: seq<Timed>, v': View, end: real)
    requires Sound(v) && v.dom.fails > TIMERS && Run(now, v, run, v', end) && end < INF_TIME
    requires forall k :: 0 <= k < |run| ==> !run[k].event.Succeed?
    ensures v'.dom.fails == v.dom.fails && v'.dom.nextTry == INF_TIME && v'.weight <= v.weight && v'.marks == v.marks
    decreases run
  {
    if run != [] {
      RunEnds(EndOf(run[0]), After(v, run[0]), run[1..], v', end);
      AfterSound(v, run[0]);
      assert !run[0].event.Succeed?;
      GivenUpStays(EndOf(run[0]), After(v, run[0]), run[1..], v', end);
    }
  }

  // ------------------------------------------------------- what leads to a mark

  /** The nine retry periods. */
  lemma TimersAre()
    ensures Timer(0) == 2.0 && Timer(1) == 10.0 && Timer(2) == 50.0 && Timer(3) == 250.0 && Timer(4) == 1250.0
        && Timer(5) == 6250.0 && Timer(6) == 31250.0 && Timer(7) == 156250.0 && Timer(8) == 781250.0
  {
    assert Power5(2) == 25 && Power5(4) == 625 && Power5(6) == 15625;
    assert Power5(8) == 390625;
  }

  /** A failed request: whether the failure was temporary, and when. */
  datatype FailedAt = FailedAt(temporary: bool, at: real)

  function AfterFailures(v: View, fs: seq<FailedAt>): View {
    if fs == [] then v
    else Failed(AfterFailures(v, fs[..|fs| - 1]), fs[|fs| - 1].temporary, fs[|fs| - 1].at)
  }

  function Temporary(fs: seq<FailedAt>): nat {
    if fs == [] then 0 else Temporary(fs[..|fs| - 1]) + if fs[|fs| - 1].temporary then 1 else 0
  }

  /** Five temporary failures mark a domain as down, each other failure counting two
      fifths of one. */
  predicate Enough(fs: seq<FailedAt>) { 5 * Temporary(fs) + 2 * (|fs| - Temporary(fs)) >= 25 }

  lemma {:induction false} NotYetDown(v: View, fs: seq<FailedAt>)
    requires v.weight == 0 && v.counted == 0 && !Enough(fs)
    requires forall k :: 0 <= k < |fs| ==> v.dom.nextTry <= fs[k].at
    ensures var v' := AfterFailures(v, fs);
            && v'.dom == v.dom && v'.marks == v.marks && v'.counted == |fs|
            && v'.weight == 5 * Temporary(fs) + 2 * (|fs| - Temporary(fs))
  {
    if fs != [] {
      var before := fs[..|fs| - 1];
      assert !Enough(before);
      NotYetDown(v, before);
    }
  }

  /** From a domain without counted failures: failures while it may be asked lead to a
      mark with the first that makes them enough, of whatever kinds they are; before it
      nothing but the count changes, and it puts the next try one retry period off. */
  lemma {:induction false} DownExactly(v: View, fs: seq<FailedAt>)
    requires v.weight == 0 && v.counted == 0 && fs != [] && !Enough(fs[..|fs| - 1])
    requires forall k :: 0 <= k < |fs| ==> v.dom.nextTry <= fs[k].at
    ensures var v', last := AfterFailures(v, fs), fs[|fs| - 1].at;
            if Enough(fs) then
              && v'.dom.nextTry == (if v.dom.fails < 9 then last + Timer(v.dom.fails) else 10000000000000000.0)
              && v'.dom.fails == v.dom.fails + 1 && v'.dom.reserved == v.dom.reserved && v'.weight == 0
              && v'.marks == v.marks + [MarkDown(last, |fs|, v.dom.fails + 1)]
            else v'.dom == v.dom && v'.marks == v.marks
  {
    var before := fs[..|fs| - 1];
    NotYetDown(v, before);
    if !Enough(fs) { NotYetDown(v, fs); }
  }

  lemma {:induction false} AllOfKind(fs: seq<FailedAt>, temporary: bool)
    requires forall k :: 0 <= k < |fs| ==> fs[k].temporary == temporary
    ensures Temporary(fs) == if temporary then |fs| else 0
  {
    if fs != [] { AllOfKind(fs[..|fs| - 1], temporary); }
  }

  /** Failures of one kind alone: the fifth temporary one, or the thirteenth other one,
      marks the domain. */
  lemma OneKindExactly(v: View, fs: seq<FailedAt>, temporary: bool)
    requires v.weight == 0 && v.counted == 0 && |fs| <= (if temporary then 5 else 13)
    requires forall k :: 0 <= k < |fs| ==> fs[k].temporary == temporary && v.dom.nextTry <= fs[k].at
    ensures AfterFailures(v, fs).marks != v.marks <==> |fs| == (if temporary then 5 else 13)
  {
    AllOfKind(fs, temporary);
    if fs != [] {
      AllOfKind(fs[..|fs| - 1], temporary);
      DownExactly(v, fs);
    }
  }

  /** While a domain may not be asked, failures do not count; a success lets it be asked
      at once and begins a new series, but keeps the weight of what was counted. */
  lemma UncountedAndReset(v: View, temporary: bool, t: real)
    ensures t < v.dom.nextTry ==> Failed(v, temporary, t) == v
    ensures v.dom.fails > 0 ==> Succeeded(v) == View(Dom(0, 0.0, v.dom.reserved), v.weight, v.counted, [])
    ensures v.dom.fails == 0 ==> Succeeded(v) == v
  {
  }

  /** A request is refused exactly while its domain is down at the first look at the
      clock; the refusal counts as a failure that is not temporary when the domain is
      up at the second look. */
  lemma RefusedExactly(v: View, t1: real, t2: real)
    ensures Entered(v, t1, t2) == if t1 < v.dom.nextTry <= t2 then AfterFailures(v, [FailedAt(false, t2)]) else v
  {
    assert [FailedAt(false, t2)][..0] == [];
    assert AfterFailures(v, [FailedAt(false, t2)]) == Failed(v, false, t2);
  }

  // --------------------------------------------------------------- reservations

  /** Each reservation lies after now, after the domain's next try, and at least
      one timeout after the reservation before it, and no later than that asks for. */
  lemma ReservationsSpaced(v: View, t: real, timeout: real)
    requires timeout >= 0.0
    ensures var r := Reserve(v, t, timeout).dom.reserved;
            && r.Some? && r.value >= t + timeout && r.value >= v.dom.nextTry
            && (v.dom.reserved.Some? ==> r.value >= v.dom.reserved.value + timeout)
    ensures var r, last := Reserve(v, t, timeout).dom.reserved,
                if v.dom.reserved.Some? then v.dom.reserved.value else 0.0;
            r.value in {t + timeout, v.dom.nextTry, last + timeout}
    ensures Reserve(v, t, timeout).(dom := v.dom) == v
        && Reserve(v, t, timeout).dom.(reserved := v.dom.reserved) == v.dom
  {
  }
}

/** What the scheduler and a fetch task decide about an item, and what each decision
    leaves of the row, the queue and the domain's record. */
module CrawlerDecisions {
  import opened Common
  import opened DomainIndex
  import opened ScheduleStores
  import opened RowTable
  import opened CrawlerModel
  import opened CrawlerLimits
  import opened CrawlerOutcomes
  import opened Selection

  /** The domain is still to be waited for after its last failure. */
  predicate Resting(d: DomainRec, t: real) { d.tempUnreachable && !(d.nextReq < t) }

  /** The domain is given up or blocked. */
  predicate Shut(d: DomainRec) { d.state.Unreachable? || d.state.AutoBlocked? || d.state.Blocked? }

  // --------------------------------------------------------------- scheduling

  /** The choice between the scheduler's domains: it asks the first fit ones it comes
      to, or none. */
  lemma ChosenExactly(c: Settings, s: State, t: real, order: seq<Name>)
    requires s.now <= t && s.sched.Idle? && Permutation(s.book.index, order) && Agree(s.book) && c.domainChunk > 0
    ensures Enabled(c, s, t, DoSelect(order)) && Known(s.book, order) && Known(s.book, Visited(s.book, order, t))
    ensures var names := First(Fits(s.book, Visited(s.book, order, t), c.maxPerDomain, t), c.domainChunk);
            var s' := Next(c, s, t, DoSelect(order));
            && s' == s.(now := t, book := s'.book, sched := if names == [] then Idle else Gathering(names, map[]))
  {
    var b := s.book.(index := order);
    ShuffleAgree(s.book, order);
    assert Listed(b) by { KnownIndex(b); }
    SelectedExactly(b, c.maxPerDomain, c.domainChunk, t);
    SameWalk(s.book, b, order, c.maxPerDomain, t);
    hide Agree, SelectFrom, Visited, Fits, First, Permutation;
  }

  /** Walk and choice depend on the records only. */
  lemma {:induction false} SameWalk(b: Book, b1: Book, names: seq<Name>, maxPerDomain: nat, t: real)
    requires b1.domains == b.domains && Known(b1, names)
    ensures Known(b, names) && Visited(b, names, t) == Visited(b1, names, t)
    ensures Fits(b, names, maxPerDomain, t) == Fits(b1, names, maxPerDomain, t)
    ensures Known(b, Visited(b, names, t))
        && Fits(b, Visited(b, names, t), maxPerDomain, t) == Fits(b1, Visited(b1, names, t), maxPerDomain, t)
    decreases |names|
  {
    VisitedSame(b, b1, names, t);
    VisitedKnown(b, names, t);
    FitsSame(b, b1, names, maxPerDomain, t);
    FitsSame(b, b1, Visited(b, names, t), maxPerDomain, t);
  }

  lemma {:induction false} VisitedSame(b: Book, b1: Book, names: seq<Name>, t: real)
    requires b1.domains == b.domains && Known(b, names)
    ensures Known(b1, names) && Visited(b, names, t) == Visited(b1, names, t)
    decreases |names|
  {
    if |names| > 1 {
      VisitedSame(b, b1, names[1..], t);
      VisitedSame(b, b1, names[2..], t);
    } else if |names| == 1 {
      assert names[1..] == [];
    }
  }

  lemma {:induction false} FitsSame(b: Book, b1: Book, names: seq<Name>, maxPerDomain: nat, t: real)
    requires b1.domains == b.domains && Known(b, names)
    ensures Known(b1, names) && Fits(b, names, maxPerDomain, t) == Fits(b1, names, maxPerDomain, t)
  {
    if names != [] { FitsSame(b, b1, names[1..], maxPerDomain, t); }
  }

  /** What the scheduler does about an item: blocks its row when its domain is shut,
      passes over it when the domain rests or has all the items it may have, and
      schedules it otherwise, counting it in. */
  lemma ConsideredExactly(c: Settings, s: State, t: real)
    requires s.now <= t && s.sched.Batch? && s.sched.items != []
    ensures Enabled(c, s, t, DoNextItem)
    ensures var s', item, rest := Next(c, s, t, DoNextItem), s.sched.items[0], s.sched.items[1..];
            var n := NameOf(c, item.uri);
            var d := RecordOf(s.book, n);
            && s'.table == s.table && s'.queue == s.queue && s'.tasks == s.tasks
            && (Shut(d) <==> s'.sched == BlockingRow(item.uri, rest))
            && (!Shut(d) && (Resting(d, t) || d.scheduledItems >= c.maxPerDomain) <==> s'.sched == Batch(rest))
            && (!Shut(d) && !Resting(d, t) && d.scheduledItems < c.maxPerDomain <==> s'.sched == MarkingRow(item, rest))
            && RecordOf(s'.book, n).scheduledItems == d.scheduledItems + (if s'.sched.MarkingRow? then 1 else 0)
            && (!Shut(d) ==> RecordOf(s'.book, n).tempUnreachable == Resting(d, t))
  {
    hide RemoveFirst;
  }

  /** The row of an item that is to be blocked. */
  lemma BlockedRow(c: Settings, s: State, t: real)
    requires s.now <= t && s.sched.BlockingRow?
    ensures Enabled(c, s, t, DoScheduleWrite)
    ensures var s' := Next(c, s, t, DoScheduleWrite);
            && RowSet(s.table, s'.table, s.sched.uri, -6)
            && s' == s.(now := t, table := s'.table, sched := Batch(s.sched.rest))
  {
    SetRow(s.table, s.sched.uri, BLOCKED);
    hide RowTable.UpdateState;
  }

  /** An item that is scheduled: its row is in processing, with the priority it waited
      with, and the item enters the queue behind all others, taking a slot. */
  lemma QueuedRow(c: Settings, s: State, t: real, t1: real) returns (s': State)
    requires s.sched.MarkingRow? && s.now <= t <= t1 && s.queue.free > 0
    ensures Run(c, s, [Timed(t, DoScheduleWrite), Timed(t1, DoPut)], s')
    ensures var item := s.sched.item;
            && RowSet(s.table, s'.table, item.uri, -item.state)
            && s'.queue.ready == s.queue.ready + [Entry(t1, item)] && s'.queue.free == s.queue.free - 1
            && s'.queue.unavailable == s.queue.unavailable && s'.queue.waiting == s.queue.waiting
            && s'.sched == Batch(s.sched.rest) && s'.book == s.book && s'.tasks == s.tasks
  {
    var item := s.sched.item;
    SetRow(s.table, item.uri, -item.state);
    NoSteps(c, s);
    hide Run, RowTable.UpdateState, RowSet;
    var run;
    run, s' := Then(c, s, [], s, t, DoScheduleWrite);
    run, s' := Then(c, s, run, s', t1, DoPut);
  }

  /** The scheduler's reads: of any waiting rows, of rows with priority of a domain that
      it asked, and the end of a batch. */
  lemma ReadsExactly(c: Settings, s: State, t: real, items: seq<Item>, n: Name)
    requires s.now <= t
    ensures s.sched.Idle? && Snapshot(s.table, items) ==>
              Enabled(c, s, t, DoReadAll(items))
                  && Next(c, s, t, DoReadAll(items)) == s.(now := t, sched := Batch(items))
    ensures s.sched.Gathering? && n in s.sched.names && n !in s.sched.got && DomainSnapshot(s.table, n, items) ==>
              && Enabled(c, s, t, DoReadDomain(n, items))
              && Next(c, s, t, DoReadDomain(n, items))
                 == s.(now := t, sched := Gathering(s.sched.names, s.sched.got[n := items]))
    ensures s.sched == Batch([]) ==>
              Enabled(c, s, t, DoBatchEnd) && Next(c, s, t, DoBatchEnd) == s.(now := t, sched := Idle)
  {
  }

  /** When all asked domains have answered, what they answered is the next batch. */
  lemma GatheredExactly(c: Settings, s: State, t: real)
    requires s.now <= t && s.sched.Gathering?
    requires forall n :: n in s.sched.names ==> n in s.sched.got && forall k :: 0 <= k < |s.sched.got[n]| ==>
                           s.sched.got[n][k].state == 2
    ensures Enabled(c, s, t, DoGathered)
    ensures var s' := Next(c, s, t, DoGathered);
            s' == s.(now := t, book := s'.book, sched := Batch(Answers(s.sched.names, s.sched.got)))
  {
    CollectedExactly(s.book, s.sched.names, s.sched.got);
    hide Collect, Answers;
  }

  /** The answers of the asked domains, in the order they were asked in. */
  function Answers(names: seq<Name>, got: map<Name, seq<Item>>): seq<Item>
    requires forall n :: n in names ==> n in got
  {
    if names == [] then [] else got[names[0]] + Answers(names[1..], got)
  }

  lemma {:induction false} AllPriority(items: seq<Item>)
    requires forall k :: 0 <= k < |items| ==> items[k].state == 2
    ensures PriorityPrefix(items) == items
  {
    if items != [] { AllPriority(items[1..]); }
  }

  /** What the per-domain queries bring is scheduled, in order, when all of it has
      priority, as those queries only return such rows. */
  lemma {:induction false} CollectedExactly(b: Book, names: seq<Name>, got: map<Name, seq<Item>>)
    requires forall n :: n in names ==> n in got && forall k :: 0 <= k < |got[n]| ==> got[n][k].state == 2
    ensures Collect(b, names, got).1 == Answers(names, got)
    decreases names
  {
    hide MarkEmpty;
    if names != [] {
      AllPriority(got[names[0]]);
      CollectedExactly(if got[names[0]] == [] then MarkEmpty(Ensure(b, names[0]), names[0]) else b, names[1..], got);
    }
  }

  /** A domain that answered with nothing has no waiting elements any more, and is not
      listed; no other domain changes. */
  lemma EmptyAnswer(b: Book, n: Name)
    requires Agree(b)
    ensures var b' := MarkEmpty(Ensure(b, n), n);
            && b'.domains == b.domains[n := RecordOf(b, n).(hasWaiting := false, notScheduled := false)]
            && (forall m :: m in b'.index <==> m in b.index && m != n)
  {
    assert AgreeAt(b, n);
    if n in b.index { RemoveFirstNoDup(b.index, n); }
  }

  // ----------------------------------------------------------------- fetching

  /** At any time the tracker may go over what waits, and the update over the rows. */
  lemma Housekeeping(c: Settings, s: State, t: real)
    requires s.now <= t
    ensures Enabled(c, s, t, DoTrack)
        && Next(c, s, t, DoTrack) == s.(now := t, queue := Pass(s.queue, Ready(c, s.book, t)))
    ensures Enabled(c, s, t, DoRevive) && Next(c, s, t, DoRevive) == s.(now := t, table := Revive(s.table, t))
    ensures s.queue.ready != [] && !Ready(c, s.book, t)(s.queue.ready[0].item) ==>
              Enabled(c, s, t, DoMiss) && Next(c, s, t, DoMiss) == s.(now := t, queue := Miss(s.queue))
  {
    hide Pass, Miss, Revive;
  }

  /** An item may be handed out when the recorded time of its domain has passed, or
      the domain rests or is shut, as then it is only given back. */
  lemma ReadyExactly(c: Settings, b: Book, t: real, item: Item)
    ensures Ready(c, b, t)(item) <==>
            var d := RecordOf(b, NameOf(c, item.uri)); d.nextReq < t || d.tempUnreachable || Shut(d)
  {
  }

  /** What a task does with the item it takes: gives it up when its domain is shut,
      gives it back when the domain rests, and fetches it otherwise, keeping the time
      and the streak recorded so far and reserving the next request one period off,
      unless a later time is recorded already. */
  lemma TakenExactly(c: Settings, s: State, t: real, i: nat)
    requires s.now <= t && i !in s.tasks && s.queue.ready != []
    requires var d := RecordOf(s.book, NameOf(c, s.queue.ready[0].item.uri));
             d.nextReq < t || d.tempUnreachable || Shut(d)
    ensures Enabled(c, s, t, DoTake(i))
    ensures var s', item := Next(c, s, t, DoTake(i)), s.queue.ready[0].item;
            var n := NameOf(c, item.uri);
            var d := RecordOf(s.book, n);
            var later := if d.nextReq > t + c.requestPeriod then d.nextReq else t + c.requestPeriod;
            && s'.queue.ready == s.queue.ready[1..] && s'.queue.free == s.queue.free + 1
            && s'.table == s.table && s'.sched == s.sched
            && s'.tasks == s.tasks[i := if Shut(d) then BlockWrite(item)
                                        else if Resting(d, t) then RequeueWrite(item)
                                        else Fetching(item, d.nextReq, d.failStreak, t)]
            && RecordOf(s'.book, n).nextReq == (if Shut(d) || Resting(d, t) then d.nextReq else later)
            && RecordOf(s'.book, n).scheduledItems == d.scheduledItems - 1
            && RecordOf(s'.book, n).failStreak == d.failStreak && RecordOf(s'.book, n).state == d.state
  {
    AdmittedExactly(c, s.book, NameOf(c, s.queue.ready[0].item.uri), t);
    hide Admit, Ready;
  }

  lemma AdmittedExactly(c: Settings, b: Book, n: Name, t: real)
    ensures var (b', verdict) := Admit(c, b, n, t);
            var d := RecordOf(b, n);
            var later := if d.nextReq > t + c.requestPeriod then d.nextReq else t + c.requestPeriod;
            && verdict == (if Shut(d) then GiveUp else if Resting(d, t) then PutBack else Go(d.nextReq, d.failStreak))
            && RecordOf(b', n).nextReq == (if Shut(d) || Resting(d, t) then d.nextReq else later)
            && RecordOf(b', n).scheduledItems == d.scheduledItems - 1
            && RecordOf(b', n).failStreak == d.failStreak && RecordOf(b', n).state == d.state
  {
  }

  /** The rows of items that are not fetched: blocked, or waiting as before. */
  lemma GivenBack(c: Settings, s: State, t: real, i: nat)
    requires s.now <= t && i in s.tasks && (s.tasks[i].BlockWrite? || s.tasks[i].RequeueWrite?)
    ensures Enabled(c, s, t, DoFinalWrite(i))
    ensures var s', k := Next(c, s, t, DoFinalWrite(i)), s.tasks[i];
            && RowSet(s.table, s'.table, k.item.uri, if k.BlockWrite? then -6 else k.item.state)
            && s' == s.(now := t, table := s'.table, tasks := s.tasks - {i})
  {
    SetRow(s.table, s.tasks[i].item.uri, BLOCKED);
    SetRow(s.table, s.tasks[i].item.uri, s.tasks[i].item.state);
    hide RowTable.UpdateState;
  }
}

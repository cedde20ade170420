/** Stages of runs with resources of one domain: reading them, queueing an item,
    starting a fetch, and handling an object under another resource's id. */
module CrawlerStages {
  import opened Common
  import opened Json
  import opened ObjectHandler
  import opened HandlerProofs
  import opened DomainIndex
  import opened ScheduleStores
  import opened RowTable
  import opened CrawlerModel
  import opened CrawlerRows
  import opened CrawlerStart
  import opened CrawlerLimits

  const V: Uri := [2]
  const ITEM_V := Item(V, WAITING, None)

  /** Two resources of one domain, and room for so many of its items. */
  ghost predicate Fitting(c: Settings, items: nat) {
    && NameOf(c, U) == NameOf(c, V) && c.requestPeriod >= 0.0
    && c.maxPerDomain >= items && c.queueSize >= items
  }

  function Scheduled(c: Settings, s: State): int { RecOf(c, s).scheduledItems }

  /** The domain is known, may be asked, has waiting elements, and is the only one
      listed, exactly while nothing of it is scheduled. */
  ghost predicate Up(c: Settings, s: State) {
    var n := NameOf(c, U);
    && n in s.book.domains && !s.book.domains[n].Down() && !s.book.domains[n].tempUnreachable
    && s.book.domains[n].hasWaiting && Scheduled(c, s) >= 0
    && (s.book.domains[n].notScheduled <==> Scheduled(c, s) == 0)
    && s.book.index == if Scheduled(c, s) == 0 then [n] else []
  }

  /** The first item of the batch is marked and put into the queue. */
  lemma QueueItem(c: Settings, s: State, t: real, item: Item, rest: seq<Item>) returns (run: seq<Timed>, s': State)
    requires NameOf(c, item.uri) == NameOf(c, U) && Up(c, s) && Scheduled(c, s) < c.maxPerDomain
    requires s.sched == Batch([item] + rest) && s.now <= t && s.queue.free > 0 && item.uri in s.table
    ensures Run(c, s, run, s') && SameFailures(s, s')
    ensures s'.now == t && s'.sched == Batch(rest) && s'.tasks == s.tasks && s'.queue == Put(s.queue, t, item)
    ensures s'.table == RowTable.UpdateState(s.table, item.uri, -item.state)
    ensures Up(c, s') && Scheduled(c, s') == Scheduled(c, s) + 1
    ensures RecOf(c, s').nextReq == RecOf(c, s).nextReq && RecOf(c, s').failStreak == RecOf(c, s).failStreak
  {
    NoSteps(c, s);
    ItemMarked(c, s, t, item, rest);
    hide Run, Put, RowTable.UpdateState, Up, RecOf;
    run, s' := Then(c, s, [], s, t, DoNextItem);
    hide Enabled, Next;
    var s1 := s';
    ItemPut(c, s1, t, item, rest);
    run, s' := Then(c, s, run, s1, t, DoScheduleWrite);
    run, s' := Then(c, s, run, s', t, DoPut);
  }

  lemma ItemMarked(c: Settings, s: State, t: real, item: Item, rest: seq<Item>)
    requires NameOf(c, item.uri) == NameOf(c, U) && Up(c, s) && Scheduled(c, s) < c.maxPerDomain
    requires s.sched == Batch([item] + rest) && s.now <= t
    ensures Enabled(c, s, t, DoNextItem)
    ensures var s' := Next(c, s, t, DoNextItem);
            && s' == s.(now := t, sched := MarkingRow(item, rest), book := s'.book)
            && Up(c, s') && Scheduled(c, s') == Scheduled(c, s) + 1
            && RecOf(c, s').nextReq == RecOf(c, s).nextReq && RecOf(c, s').failStreak == RecOf(c, s).failStreak
  {
    assert ([item] + rest)[0] == item && ([item] + rest)[1..] == rest;
    var n := NameOf(c, U);
    assert RemoveFirst([n], n) == [];
  }

  lemma ItemPut(c: Settings, s: State, t: real, item: Item, rest: seq<Item>)
    requires s.sched == MarkingRow(item, rest) && s.now == t && s.queue.free > 0 && item.uri in s.table
    ensures Enabled(c, s, t, DoScheduleWrite)
    ensures var s1 := Next(c, s, t, DoScheduleWrite);
            && Enabled(c, s1, t, DoPut)
            && var s' := Next(c, s1, t, DoPut);
               && s'.now == t && s'.sched == Batch(rest) && s'.tasks == s.tasks && s'.queue == Put(s.queue, t, item)
               && s'.table == RowTable.UpdateState(s.table, item.uri, -item.state)
               && s'.book == s.book && SameFailures(s, s')
  {
    hide Put, RowTable.UpdateState;
  }

  lemma BatchOver(c: Settings, s: State)
    requires s.sched == Batch([]) && s.now == 1.0
    ensures Enabled(c, s, 1.0, DoBatchEnd) && Next(c, s, 1.0, DoBatchEnd) == s.(sched := Idle)
    ensures Up(c, s) ==> Up(c, s.(sched := Idle)) && RecOf(c, s.(sched := Idle)) == RecOf(c, s)
  {
  }

  /** The first ready item starts a fetch. */
  lemma TakeFirst(c: Settings, s: State, t: real, i: nat, item: Item)
    requires NameOf(c, item.uri) == NameOf(c, U) && Up(c, s) && Scheduled(c, s) >= 1 && RecOf(c, s).nextReq < t
    requires s.now <= t && i !in s.tasks && s.queue.ready != [] && s.queue.ready[0].item == item
        && c.requestPeriod >= 0.0
    ensures Enabled(c, s, t, DoTake(i))
    ensures var s' := Next(c, s, t, DoTake(i));
            && s'.now == t && s'.sched == s.sched && s'.queue == Hit(s.queue) && s'.table == s.table
            && s'.tasks == s.tasks[i := Fetching(item, RecOf(c, s).nextReq, RecOf(c, s).failStreak, t)]
            && Up(c, s') && Scheduled(c, s') == Scheduled(c, s) - 1
            && RecOf(c, s').nextReq == t + c.requestPeriod && RecOf(c, s').failStreak == RecOf(c, s).failStreak
            && SameFailures(s, s')
  {
    AdmitUp(c, s, t);
    hide Hit, Admit;
  }

  lemma AdmitUp(c: Settings, s: State, t: real)
    requires Up(c, s) && Scheduled(c, s) >= 1 && RecOf(c, s).nextReq < t && c.requestPeriod >= 0.0
    ensures var n := NameOf(c, U);
            var d := RecOf(c, s);
            var (b, verdict) := Admit(c, s.book, n, t);
            && verdict == Go(d.nextReq, d.failStreak) && b.index == (if d.scheduledItems == 1 then [n] else [])
            && n in b.domains
            && b.domains[n] == d.(scheduledItems := d.scheduledItems - 1, notScheduled := d.scheduledItems == 1,
                                  nextReq := t + c.requestPeriod)
  {
  }

  // ---------------------------------------------------------- two resources

  function BothWaiting(c: Settings): State {
    var n := NameOf(c, U);
    var row := Row(n, WAITING, None, 0, None, None);
    StartState(c, FindNone(), map[U := row, V := row], [], [], [n], 1.0)
  }

  lemma BothWaitingIs(c: Settings)
    requires Fitting(c, 2)
    ensures Begins(c, BothWaiting(c)) && Up(c, BothWaiting(c)) && Scheduled(c, BothWaiting(c)) == 0
    ensures var s := BothWaiting(c);
            && s.now == 1.0 && s.sched.Idle? && s.tasks == map[] && s.queue == EmptyStores(c.queueSize)
            && s.table.Keys == {U, V} && s.table[U].state == s.table[V].state == WAITING
            && s.table[U].aux == s.table[V].aux == None && RecOf(c, s).nextReq == 0.0
  {
    var n := NameOf(c, U);
    var row := Row(n, WAITING, None, 0, None, None);
    assert NamedRows(c, map[U := row, V := row]);
    assert ListAll(EMPTY_BOOK, [n]) == ListWaiting(EMPTY_BOOK, n);
  }

  /** Both rows are read and `V` is queued. */
  lemma QueueOther(c: Settings) returns (run: seq<Timed>, s: State)
    requires Fitting(c, 2)
    ensures Run(c, BothWaiting(c), run, s)
    ensures s.now == 1.0 && s.sched == Batch([ITEM]) && s.tasks == map[]
    ensures s.queue == Put(EmptyStores(c.queueSize), 1.0, ITEM_V)
    ensures s.table.Keys == {U, V} && s.table[U].state == WAITING && s.table[U].aux == None
    ensures Up(c, s) && Scheduled(c, s) == 1 && RecOf(c, s).nextReq == 0.0
  {
    var s0 := BothWaiting(c);
    BothWaitingIs(c);
    ReadBoth(c);
    NoSteps(c, s0);
    hide Run, BothWaiting, Enabled, Next, RecOf, Up, Put;
    var run1, s1 := Then(c, s0, [], s0, 1.0, DoReadAll([ITEM_V, ITEM]));
    assert [ITEM_V, ITEM] == [ITEM_V] + [ITEM];
    var run2, s2 := QueueItem(c, s1, 1.0, ITEM_V, [ITEM]);
    RunAppend(c, s0, run1, s1, run2, s2);
    run, s := run1 + run2, s2;
  }

  lemma ReadBoth(c: Settings)
    requires Fitting(c, 2)
    ensures var s := BothWaiting(c);
            var s' := s.(sched := Batch([ITEM_V, ITEM]));
            Enabled(c, s, 1.0, DoReadAll([ITEM_V, ITEM])) && Next(c, s, 1.0, DoReadAll([ITEM_V, ITEM])) == s'
            && Up(c, s') && Scheduled(c, s') == 0 && RecOf(c, s').nextReq == 0.0
  {
    BothWaitingIs(c);
    hide BothWaiting;
  }

  // ------------------------------------------- an object under another's id

  /** The object fetched for `V`: an actor with the id `U`. */
  function PersonU(): Json { Obj([Field(T("type"), Str(T("Person"))), Field(T("id"), Str(U))]) }

  /** It is handled as `U`: `V` is redirected and the row of `U` is marked fetched. */
  lemma HandledAsU(c: Settings)
    requires NameOf(c, U) == NameOf(c, V)
    ensures var todo := AfterFetch(c, ITEM_V, PersonU());
            |todo| >= 2 && todo[0] == SetRedirected && todo[1] == Call(Mark(U, Some(c.env.digest(PersonU()))))
  {
    var v, n := PersonU(), NameOf(c, V);
    FindOfTwo("type", Str(T("Person")), "id", Str(U), "id");
    FindOfTwo("type", Str(T("Person")), "id", Str(U), "type");
    GetFinds(v.fields, T("type"), Null);
    FirstOnlyType();
    hide FindField, TypeIn, T, Dispatch;
    assert AsId(c.env, v.fields) == Some(U) && TypeOf(v.fields) == Str(T("Person"));
    var es := Handle(c.env, v, Some(n), false, true, None, Walk(false, 0));
    assert es == [Mark(U, Some(c.env.digest(v)))] + Dispatch(c.env, v, Some(n), false, None, Walk(false, 0));
    assert Calls(es)[0] == Call(es[0]);
  }

  /** `V` is taken and its object fetched, up to the reading of the row of `U`. */
  lemma FetchOther(c: Settings, s: State) returns (run: seq<Timed>, s': State)
    requires Fitting(c, 2) && s.now == 1.0 && s.tasks == map[]
    requires s.queue.ready != [] && s.queue.ready[0].item == ITEM_V
    requires U in s.table && Up(c, s) && Scheduled(c, s) >= 1 && RecOf(c, s).nextReq == 0.0
    ensures Run(c, s, run, s')
    ensures s'.now == 1.0 && s'.sched == s.sched && s'.queue == Hit(s.queue)
    ensures ReadsU(s') && U in s'.table && s'.table[U] == s.table[U]
    ensures Up(c, s') && Scheduled(c, s') == Scheduled(c, s) - 1
  {
    NoSteps(c, s);
    TakeFirst(c, s, 1.0, 0, ITEM_V);
    hide Run, Enabled, Next, Up, RecOf, ReadsU, Hit;
    run, s' := Then(c, s, [], s, 1.0, DoTake(0));
    var more, last := WorkOther(c, s');
    RunAppend(c, s, run, s', more, last);
    run, s' := run + more, last;
  }

  /** Task 0 has read the row of `U` and is about to mark it fetched. */
  ghost predicate ReadsU(s: State) {
    && 0 in s.tasks && s.tasks[0].MarkWriting? && s.tasks[0].uri == U && s.tasks[0].digest.Some?
    && s.tasks[0].before.Some?
  }

  lemma WorkOther(c: Settings, s: State) returns (run: seq<Timed>, s': State)
    requires NameOf(c, U) == NameOf(c, V) && s.now == 1.0 && s.tasks.Keys == {0} && s.tasks[0].Fetching?
        && s.tasks[0].item == ITEM_V
    requires U in s.table && Up(c, s)
    ensures Run(c, s, run, s')
    ensures s'.now == 1.0 && s'.sched == s.sched && s'.queue == s.queue
    ensures ReadsU(s') && U in s'.table && s'.table[U] == s.table[U]
    ensures Up(c, s') && Scheduled(c, s') == Scheduled(c, s)
  {
    NoSteps(c, s);
    HandledAsU(c);
    FetchedOther(c, s);
    hide Run, AfterFetch, Enabled, Next, Up, RecOf;
    var run1, s1 := Then(c, s, [], s, 1.0, DoFetchSucceeded(0, PersonU()));
    var run2, s2 := WorkTwo(c, s1);
    RunAppend(c, s, run1, s1, run2, s2);
    run, s' := run1 + run2, s2;
  }

  lemma FetchedOther(c: Settings, s: State)
    requires NameOf(c, U) == NameOf(c, V) && s.now == 1.0 && s.tasks.Keys == {0} && s.tasks[0].Fetching?
        && s.tasks[0].item == ITEM_V && Up(c, s)
    ensures Enabled(c, s, 1.0, DoFetchSucceeded(0, PersonU()))
    ensures var s' := Next(c, s, 1.0, DoFetchSucceeded(0, PersonU()));
            && s'.now == 1.0 && s'.sched == s.sched && s'.queue == s.queue && s'.table == s.table
            && s'.tasks == map[0 := Working(ITEM_V, AfterFetch(c, ITEM_V, PersonU()))]
            && Up(c, s') && Scheduled(c, s') == Scheduled(c, s)
  {
    hide AfterFetch;
  }

  lemma WorkTwo(c: Settings, s: State) returns (run: seq<Timed>, s': State)
    requires s.now == 1.0 && s.tasks.Keys == {0} && s.tasks[0].Working? && s.tasks[0].item == ITEM_V && Up(c, s)
        && U in s.table
    requires var todo := s.tasks[0].todo;
             |todo| >= 2 && todo[0] == SetRedirected && todo[1].Call? && todo[1].effect.Mark?
             && todo[1].effect.uri == U && todo[1].effect.digest.Some?
    ensures Run(c, s, run, s') && s'.now == 1.0 && s'.sched == s.sched && s'.queue == s.queue
    ensures ReadsU(s') && U in s'.table && s'.table[U] == s.table[U]
    ensures Up(c, s') && Scheduled(c, s') == Scheduled(c, s)
  {
    NoSteps(c, s);
    hide Run;
    run, s' := Then(c, s, [], s, 1.0, DoWork(0));
    run, s' := Then(c, s, run, s', 1.0, DoWork(0));
  }
}

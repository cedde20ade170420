/** The crawler's rows: a resource is in memory at most once, and never while
    its row is waiting. */
module CrawlerRows {
  import opened Common
  import opened Json
  import opened ObjectHandler
  import opened HandlerProofs
  import opened DomainIndex
  import opened ScheduleStores
  import opened RowTable
  import opened CrawlerModel
  import opened CrawlerIndex

  // ------------------------------------------------------------ what is where

  ghost predicate InQueue(s: State, u: Uri) { CountStored(s.queue, HasUri(u)) > 0 }
  ghost predicate InTask(s: State, u: Uri) { exists i :: i in s.tasks && s.tasks[i].item.uri == u }
  ghost predicate InPut(s: State, u: Uri) { s.sched.Putting? && s.sched.item.uri == u }

  /** In memory: stored in the queue, being put there, or with a fetch task. */
  ghost predicate Held(s: State, u: Uri) { InQueue(s, u) || InTask(s, u) || InPut(s, u) }

  /** No resource is in memory twice. */
  ghost predicate Once(s: State) {
    && (forall u :: CountStored(s.queue, HasUri(u)) <= 1)
    && (forall i, j :: i in s.tasks && j in s.tasks && i != j ==> s.tasks[i].item.uri != s.tasks[j].item.uri)
    && (forall i :: i in s.tasks ==> !InQueue(s, s.tasks[i].item.uri) && !InPut(s, s.tasks[i].item.uri))
    && (s.sched.Putting? ==> !InQueue(s, s.sched.item.uri))
  }

  /** Rows of resources in memory exist and are not waiting. */
  ghost predicate NoneWaiting(s: State) {
    forall u :: Held(s, u) ==> u in s.table && !IsWaiting(s.table[u].state)
  }

  /** Items read from the table that the scheduler has not yet marked. */
  function Pending(sched: Scheduler): seq<Item> {
    match sched
    case Batch(items) => items
    case MarkingRow(item, rest) => [item] + rest
    case BlockingRow(_, rest) => rest
    case Putting(_, rest) => rest
    case _ => []
  }

  ghost predicate DistinctUris(items: seq<Item>) {
    forall i, j :: 0 <= i < j < |items| ==> items[i].uri != items[j].uri
  }

  ghost predicate IsPending(items: seq<Item>, u: Uri) {
    exists i :: 0 <= i < |items| && items[i].uri == u
  }

  /** Read items are different, known, read as waiting, and not in memory. */
  ghost predicate ItemsFree(s: State, items: seq<Item>) {
    && DistinctUris(items)
    && forall i :: 0 <= i < |items| ==> items[i].uri in s.table && IsWaiting(items[i].state) && !Held(s, items[i].uri)
  }

  /** The same for per-domain answers, each about its own domain. */
  ghost predicate AnswersFree(c: Settings, s: State, got: map<Name, seq<Item>>) {
    forall n :: n in got ==> ItemsFree(s, got[n]) && OfDomain(c, n, got[n])
  }

  ghost predicate OfDomain(c: Settings, n: Name, items: seq<Item>) {
    forall i :: 0 <= i < |items| ==> NameOf(c, items[i].uri) == n
  }

  ghost predicate ReadFree(c: Settings, s: State) {
    && ItemsFree(s, Pending(s.sched))
    && (s.sched.BlockingRow? ==> !IsPending(s.sched.rest, s.sched.uri) && !Held(s, s.sched.uri))
    && (s.sched.Gathering? ==> NoDup(s.sched.names) && AnswersFree(c, s, s.sched.got))
  }

  function BadState(): Item -> bool { (i: Item) => !IsWaiting(i.state) }

  /** What tasks, entries and rows carry along. */
  ghost predicate Carried(c: Settings, s: State) {
    && (forall u :: u in s.table ==> s.table[u].domain == NameOf(c, u))
    && CountStored(s.queue, BadState()) == 0
    && (s.sched.Putting? ==> IsWaiting(s.sched.item.state))
    && forall i :: i in s.tasks ==> TaskCarried(c, s.tasks[i])
  }

  ghost predicate TaskCarried(c: Settings, k: Task) {
    && IsWaiting(k.item.state)
    && (k.Inserting? ==> k.row.domain == NameOf(c, k.uri))
    && (k.MarkWriting? ==> NameOf(c, k.uri) == NameOf(c, k.item.uri))
    && (k.Working? ==> TodoCarried(c, k.item, k.todo))
    && (k.Inserting? ==> TodoCarried(c, k.item, k.todo))
    && (k.Inserted? ==> TodoCarried(c, k.item, k.todo))
    && (k.MarkWriting? ==> TodoCarried(c, k.item, k.todo))
  }

  /** A fetched object marks rows of its own domain only. */
  ghost predicate TodoCarried(c: Settings, item: Item, todo: seq<Todo>) {
    forall k :: 0 <= k < |todo| && todo[k].Call? && todo[k].effect.Mark? ==>
                  NameOf(c, todo[k].effect.uri) == NameOf(c, item.uri)
  }

  ghost predicate RowsInv(c: Settings, s: State) {
    Once(s) && NoneWaiting(s) && ReadFree(c, s) && Carried(c, s)
  }

  // ------------------------------------------------------- changes to the table

  /** Rows stay, keep their domain, and do not become waiting. */
  ghost predicate Settles(t: Table, t': Table) {
    forall u :: u in t ==>
        u in t' && t'[u].domain == t[u].domain
        && (t'[u].state == t[u].state || !IsWaiting(t'[u].state))
  }

  /** New rows carry the domain of their resource. */
  ghost predicate NamedRows(c: Settings, t: Table) {
    forall u :: u in t ==> t[u].domain == NameOf(c, u)
  }

  /** A step that only writes rows, none of them to a waiting state, and passes
      tasks on without letting go of their items. */
  lemma StepSettles(c: Settings, s: State, s': State)
    requires RowsInv(c, s)
    requires s'.queue == s.queue && s'.sched == s.sched && Settles(s.table, s'.table) && NamedRows(c, s'.table)
    requires forall i ::
        i in s'.tasks
        ==> i in s.tasks && s'.tasks[i].item == s.tasks[i].item && TaskCarried(c, s'.tasks[i])
    ensures RowsInv(c, s')
  {
    OnceSettles(s, s');
    assert s.table.Keys <= s'.table.Keys;
    hide Once, NoneWaiting, ReadFree, Held, TaskCarried, CountStored;
    FreeAfter(c, s, s');
  }

  lemma OnceSettles(s: State, s': State)
    requires Once(s) && NoneWaiting(s)
    requires s'.queue == s.queue && s'.sched == s.sched && Settles(s.table, s'.table)
    requires forall i :: i in s'.tasks ==> i in s.tasks && s'.tasks[i].item == s.tasks[i].item
    ensures Once(s') && NoneWaiting(s') && forall u :: Held(s', u) ==> Held(s, u)
  {
    hide CountStored;
    forall u ensures Held(s', u) ==> Held(s, u) && InQueue(s', u) == InQueue(s, u) && InPut(s', u) == InPut(s, u) {}
  }

  lemma FreeAfter(c: Settings, s: State, s': State)
    requires ReadFree(c, s) && s'.sched == s.sched && s.table.Keys <= s'.table.Keys
    requires forall u :: Held(s', u) ==> Held(s, u)
    ensures ReadFree(c, s')
  {
    hide Held;
    if s.sched.Gathering? {
      forall n | n in s.sched.got ensures ItemsFree(s', s.sched.got[n]) { assert ItemsFree(s, s.sched.got[n]); }
    }
  }

  lemma WriteSettles(t: Table, u: Uri, state: int)
    requires !IsWaiting(state)
    ensures Settles(t, RowTable.UpdateState(t, u, state))
  {
  }

  /** A task that gives its row back lets go of it in the same step. */
  lemma StepRequeue(c: Settings, s: State, i: nat)
    requires RowsInv(c, s) && i in s.tasks && s.tasks[i].RequeueWrite?
    ensures RowsInv(c, FinalWrite(s, i))
  {
    var s' := FinalWrite(s, i);
    var u := s.tasks[i].item.uri;
    forall v ensures Held(s', v) ==> Held(s, v) && v != u {}
    assert Once(s') && NoneWaiting(s');
    assert Carried(c, s') by { hide Once, NoneWaiting, ReadFree, Held; }
    FreeAfter(c, s, s');
  }

  /** A task's final write gives its row back or gives it up. */
  lemma StepFinalWrite(c: Settings, s: State, i: nat)
    requires RowsInv(c, s) && i in s.tasks
        && (s.tasks[i].BlockWrite? || s.tasks[i].RequeueWrite? || s.tasks[i].FailWrite?)
    ensures RowsInv(c, FinalWrite(s, i))
  {
    hide Once, NoneWaiting, ReadFree, CountStored, TodoCarried;
    if s.tasks[i].RequeueWrite? { StepRequeue(c, s, i); }
    else { StepSettles(c, s, FinalWrite(s, i)); }
  }

  lemma StepWorkRows(c: Settings, s: State, t: real, i: nat)
    requires RowsInv(c, s) && i in s.tasks && s.tasks[i].Working?
    ensures RowsInv(c, Work(c, s, t, i))
  {
    WorkEffect(c, s, t, i);
    hide Once, NoneWaiting, ReadFree, TaskCarried, Work;
    StepSettles(c, s, Work(c, s, t, i));
  }

  lemma WorkEffect(c: Settings, s: State, t: real, i: nat)
    requires Carried(c, s) && i in s.tasks && s.tasks[i].Working?
    ensures var s' := Work(c, s, t, i);
            && s'.queue == s.queue && s'.sched == s.sched && Settles(s.table, s'.table) && NamedRows(c, s'.table)
            && forall j :: j in s'.tasks ==>
                j in s.tasks && s'.tasks[j].item == s.tasks[j].item
                && TaskCarried(c, s'.tasks[j])
  {
    hide CountStored, Ensure, T, RowTable.UpdateState;
    assert TaskCarried(c, s.tasks[i]);
    RedirectSettles(c, s.table, s.tasks[i].item.uri) by { hide TaskCarried; }
    if s.tasks[i].todo != [] {
      assert TodoCarried(c, s.tasks[i].item, s.tasks[i].todo[1..]);
      hide TodoCarried;
    }
  }

  lemma RedirectSettles(c: Settings, t: Table, u: Uri)
    requires NamedRows(c, t)
    ensures Settles(t, RowTable.UpdateState(t, u, REDIRECTED)) && NamedRows(c, RowTable.UpdateState(t, u, REDIRECTED))
  {
  }

  lemma StepInsertRows(c: Settings, s: State, i: nat)
    requires RowsInv(c, s) && i in s.tasks && s.tasks[i].Inserting?
    ensures RowsInv(c, InsertDone(s, i))
  {
    hide Once, NoneWaiting, ReadFree;
    assert TaskCarried(c, s.tasks[i]);
    StepSettles(c, s, InsertDone(s, i));
  }

  lemma StepMarkRows(c: Settings, s: State, t: real, i: nat)
    requires RowsInv(c, s) && i in s.tasks && s.tasks[i].MarkWriting?
    ensures RowsInv(c, MarkDone(c, s, t, i))
  {
    hide Once, NoneWaiting, ReadFree;
    assert TaskCarried(c, s.tasks[i]);
    StepSettles(c, s, MarkDone(c, s, t, i));
  }

  lemma AfterFetchCarried(c: Settings, item: Item, obj: Json)
    requires obj.Obj?
    ensures TodoCarried(c, item, AfterFetch(c, item, obj))
  {
    hide Handle;
    TrustRule(c.env, obj, Some(NameOf(c, item.uri)), item.state == WAITING_PRIORITY, item.aux, Walk(false, 0));
  }

  lemma StepSucceededRows(c: Settings, s: State, i: nat, obj: Json)
    requires RowsInv(c, s) && i in s.tasks && s.tasks[i].Fetching? && obj.Obj?
    ensures RowsInv(c, FetchSucceeded(c, s, i, obj))
  {
    hide Once, NoneWaiting, ReadFree;
    hide AfterFetch;
    AfterFetchCarried(c, s.tasks[i].item, obj);
    assert TaskCarried(c, s.tasks[i]);
    StepSettles(c, s, FetchSucceeded(c, s, i, obj));
  }

  /** Steps of fetch tasks that write no row. */
  lemma StepTaskOnly(c: Settings, s: State, t: real, a: Action)
    requires RowsInv(c, s) && Enabled(c, s, t, a)
    requires a.DoCountFailure? || a.DoFetchFailedForNow? || a.DoFetchFailed? || a.DoAfterInsert? || a.DoHandlerError?
    ensures RowsInv(c, Apply(c, s, t, a))
  {
    TaskOnlyEffect(c, s, t, a);
    hide Once, NoneWaiting, ReadFree, CountStored, TaskCarried, Apply, Enabled;
    StepSettles(c, s, Apply(c, s, t, a));
  }

  lemma TaskOnlyEffect(c: Settings, s: State, t: real, a: Action)
    requires Carried(c, s) && Enabled(c, s, t, a)
    requires a.DoCountFailure? || a.DoFetchFailedForNow? || a.DoFetchFailed? || a.DoAfterInsert? || a.DoHandlerError?
    ensures var s' := Apply(c, s, t, a);
            && s'.queue == s.queue && s'.sched == s.sched && s'.table == s.table
            && forall i :: i in s'.tasks ==>
                i in s.tasks && s'.tasks[i].item == s.tasks[i].item
                && TaskCarried(c, s'.tasks[i])
  {
    hide CountStored, TodoCarried, NoteWaiting, Ensure, FinalWrite, TemporaryFailure, Failure, FetchFailedForNow;
    assert TaskCarried(c, s.tasks[a.i]);
    if a.DoFetchFailedForNow? { FailedTask(c, s, t, a.i); }
  }

  lemma FailedTask(c: Settings, s: State, t: real, i: nat)
    requires i in s.tasks && s.tasks[i].Fetching? && TaskCarried(c, s.tasks[i])
    ensures var s' := FetchFailedForNow(c, s, t, i);
            && s'.queue == s.queue && s'.sched == s.sched && s'.table == s.table
            && (forall j :: j in s'.tasks && j != i ==> j in s.tasks && s'.tasks[j] == s.tasks[j])
            && (i in s'.tasks ==> s'.tasks[i].item == s.tasks[i].item && TaskCarried(c, s'.tasks[i]))
  {
    hide TodoCarried, Ensure, TemporaryFailure;
  }

  // --------------------------------------------------------- the queue's steps

  /** A step that moves entries between the stores. */
  lemma StepMoves(c: Settings, s: State, q: Stores)
    requires RowsInv(c, s)
    requires forall p: Item -> bool :: CountStored(q, p) == CountStored(s.queue, p)
    ensures RowsInv(c, s.(queue := q))
  {
    var s' := s.(queue := q);
    forall u ensures InQueue(s', u) == InQueue(s, u) && Held(s', u) == Held(s, u) {}
    forall u ensures CountStored(q, HasUri(u)) <= 1 { assert CountStored(s.queue, HasUri(u)) <= 1; }
    FreeAfter(c, s, s');
  }

  lemma StepPutRows(c: Settings, s: State, t: real)
    requires RowsInv(c, s) && s.sched.Putting?
    ensures RowsInv(c, PutItem(s, t))
  {
    var s' := PutItem(s, t);
    var item := s.sched.item;
    forall u ensures InQueue(s', u) == (InQueue(s, u) || u == item.uri) && CountStored(s'.queue, HasUri(u)) <= 1 {
      PutCount(s.queue, t, item, HasUri(u));
      assert CountStored(s.queue, HasUri(u)) <= 1;
    }
    forall u ensures Held(s', u) ==> Held(s, u) {}
    PutCount(s.queue, t, item, BadState());
    forall k | 0 <= k < |s.sched.rest| ensures !Held(s', s.sched.rest[k].uri) {}
  }

  lemma HitUris(q: Stores)
    requires q.ready != []
    ensures var u := q.ready[0].item.uri;
            && CountStored(q, HasUri(u)) > 0
            && forall v :: CountStored(Hit(q), HasUri(v)) == CountStored(q, HasUri(v)) - if v == u then 1 else 0
  {
    var u := q.ready[0].item.uri;
    CountPositive(q.ready, 0, HasUri(u));
    forall v ensures CountStored(Hit(q), HasUri(v)) == CountStored(q, HasUri(v)) - if v == u then 1 else 0 {
      HitCount(q, HasUri(v));
    }
  }

  lemma HitCarried(q: Stores)
    requires q.ready != [] && CountStored(q, BadState()) == 0
    ensures CountStored(Hit(q), BadState()) == 0 && IsWaiting(q.ready[0].item.state)
  {
    HitCount(q, BadState());
  }

  lemma StepTakeRows(c: Settings, s: State, t: real, i: nat)
    requires RowsInv(c, s) && s.queue.ready != [] && i !in s.tasks
    ensures RowsInv(c, Take(c, s, t, i))
  {
    hide Admit, Once, NoneWaiting, ReadFree, Hit;
    var s' := Take(c, s, t, i);
    HitUris(s.queue);
    HitCarried(s.queue);
    assert s'.queue == Hit(s.queue) && s'.tasks[i].item == s.queue.ready[0].item;
    TakeOnce(s, s', i);
    FreeAfter(c, s, s');
  }

  lemma TakeOnce(s: State, s': State, i: nat)
    requires Once(s) && NoneWaiting(s) && i !in s.tasks && s'.sched == s.sched && s'.table == s.table
    requires s'.tasks.Keys == s.tasks.Keys + {i} && forall j :: j in s.tasks ==> s'.tasks[j] == s.tasks[j]
    requires InQueue(s, s'.tasks[i].item.uri)
    requires var u := s'.tasks[i].item.uri;
             forall v :: CountStored(s'.queue, HasUri(v)) == CountStored(s.queue, HasUri(v)) - if v == u then 1 else 0
    ensures Once(s') && NoneWaiting(s') && forall u :: Held(s', u) ==> Held(s, u)
  {
    hide CountStored, HasUri;
    forall v ensures Held(s', v) ==> Held(s, v) { TakeHeld(s, s', i, v); }
    assert CountStored(s.queue, HasUri(s'.tasks[i].item.uri)) <= 1;
    assert NoneWaiting(s') by { hide Held; }
    forall v ensures CountStored(s'.queue, HasUri(v)) <= 1 { assert CountStored(s.queue, HasUri(v)) <= 1; }
    hide NoneWaiting, Held, InTask;
  }

  lemma TakeHeld(s: State, s': State, i: nat, v: Uri)
    requires s'.sched == s.sched && s'.tasks.Keys == s.tasks.Keys + {i}
    requires forall j :: j in s.tasks && j != i ==> s'.tasks[j] == s.tasks[j]
    requires InQueue(s, s'.tasks[i].item.uri) && CountStored(s'.queue, HasUri(v)) <= CountStored(s.queue, HasUri(v))
    ensures Held(s', v) ==> Held(s, v)
  {
    hide CountStored, HasUri;
    if InTask(s', v) {
      var j :| j in s'.tasks && s'.tasks[j].item.uri == v;
      if j == i { assert InQueue(s, v); } else { assert s.tasks[j].item.uri == v; }
    }
  }

  // ----------------------------------------------------- the scheduler's steps

  lemma SnapshotFree(s: State, items: seq<Item>)
    requires NoneWaiting(s) && Snapshot(s.table, items)
    ensures ItemsFree(s, items)
  {
    hide Held;
    forall i | 0 <= i < |items| ensures !Held(s, items[i].uri) { assert IsWaiting(s.table[items[i].uri].state); }
  }

  /** The scheduler moves on; queue, tasks and rows stay, and so does what it is putting. */
  lemma StepSched(c: Settings, s: State, s': State)
    requires RowsInv(c, s) && s'.queue == s.queue && s'.tasks == s.tasks && s'.table == s.table
    requires !s.sched.Putting? && !s'.sched.Putting?
    requires ReadFree(c, s')
    ensures RowsInv(c, s')
  {
    forall u ensures Held(s', u) == Held(s, u) {}
  }

  lemma HeldSame(s: State, s': State)
    requires s'.queue == s.queue && s'.tasks == s.tasks && s'.table == s.table
    requires !s.sched.Putting? && !s'.sched.Putting?
    ensures forall u :: Held(s', u) == Held(s, u)
    ensures forall items :: ItemsFree(s', items) == ItemsFree(s, items)
  {
    forall u ensures Held(s', u) == Held(s, u) {}
    hide Held;
    forall items ensures ItemsFree(s', items) == ItemsFree(s, items) {}
  }

  lemma StepReadAll(c: Settings, s: State, items: seq<Item>)
    requires RowsInv(c, s) && s.sched.Idle? && Snapshot(s.table, items)
    ensures RowsInv(c, s.(sched := Batch(items)))
  {
    SnapshotFree(s, items);
    HeldSame(s, s.(sched := Batch(items)));
    StepSched(c, s, s.(sched := Batch(items)));
  }

  lemma StepSelectRows(c: Settings, s: State, t: real, order: seq<Name>)
    requires RowsInv(c, s) && Agree(s.book) && s.sched.Idle?
    requires Permutation(s.book.index, order) && Listed(s.book.(index := order))
    ensures RowsInv(c, SelectDomains(c, s, t, order))
  {
    ShuffleAgree(s.book, order);
    SelectAgree(s.book.(index := order), 0, [], c.maxPerDomain, c.domainChunk, t);
    hide SelectFrom, Agree;
    var s' := SelectDomains(c, s, t, order);
    assert s'.sched.Gathering? ==> NoDup(s'.sched.names) && s'.sched.got == map[];
    StepSched(c, s, s');
  }

  lemma StepReadDomain(c: Settings, s: State, n: Name, items: seq<Item>)
    requires RowsInv(c, s) && s.sched.Gathering? && DomainSnapshot(s.table, n, items)
    ensures RowsInv(c, s.(sched := Gathering(s.sched.names, s.sched.got[n := items])))
  {
    var s' := s.(sched := Gathering(s.sched.names, s.sched.got[n := items]));
    SnapshotFree(s, items);
    HeldSame(s, s');
    assert OfDomain(c, n, items);
    StepSched(c, s, s');
  }

  lemma {:induction false} PrefixOf(items: seq<Item>)
    ensures PriorityPrefix(items) <= items
  {
    if items != [] && items[0].state != WAITING { PrefixOf(items[1..]); }
  }

  /** The collected items come from the answers of the named domains, in order. */
  lemma {:induction false} CollectFree(c: Settings, s: State, b: Book, names: seq<Name>, got: map<Name, seq<Item>>)
    requires NoDup(names) && AnswersFree(c, s, got)
    ensures var items := Collect(b, names, got).1;
            ItemsFree(s, items) && forall i :: 0 <= i < |items| ==> NameOf(c, items[i].uri) in names
    decreases names
  {
    hide Held, MarkEmpty;
    if names != [] {
      var n := names[0];
      var answer := if n in got then got[n] else [];
      assert ItemsFree(s, answer) && OfDomain(c, n, answer) by { if n !in got { assert answer == []; } }
      PrefixOf(answer);
      var first := PriorityPrefix(answer);
      var b1 := if answer == [] then MarkEmpty(Ensure(b, n), n) else b;
      NoDupTail(names);
      CollectFree(c, s, b1, names[1..], got);
      var rest := Collect(b1, names[1..], got).1;
      JoinFree(c, s, n, first, rest, names[1..]);
      assert Collect(b, names, got).1 == first + rest;
    }
  }

  lemma NoDupTail(names: seq<Name>)
    requires NoDup(names) && names != []
    ensures NoDup(names[1..]) && names[0] !in names[1..]
    ensures forall m :: m in names[1..] ==> m in names
  {
  }

  lemma JoinFree(c: Settings, s: State, n: Name, first: seq<Item>, rest: seq<Item>, others: seq<Name>)
    requires ItemsFree(s, first) && OfDomain(c, n, first) && ItemsFree(s, rest)
    requires n !in others && forall i :: 0 <= i < |rest| ==> NameOf(c, rest[i].uri) in others
    ensures ItemsFree(s, first + rest)
    ensures forall i ::
        0 <= i < |first + rest|
        ==> NameOf(c, (first + rest)[i].uri) == n || NameOf(c, (first + rest)[i].uri) in others
  {
    hide Held;
    var all := first + rest;
    forall i, j | 0 <= i < j < |all| ensures all[i].uri != all[j].uri {
      if i < |first| && j >= |first| {
        assert all[j] == rest[j - |first|];
        assert NameOf(c, first[i].uri) == n && NameOf(c, rest[j - |first|].uri) in others;
      } else if i >= |first| {
        assert all[i] == rest[i - |first|] && all[j] == rest[j - |first|];
      }
    }
  }

  lemma StepGatheredRows(c: Settings, s: State)
    requires RowsInv(c, s) && s.sched.Gathering?
    ensures RowsInv(c, Gathered(s))
  {
    CollectFree(c, s, s.book, s.sched.names, s.sched.got);
    hide Collect;
    HeldSame(s, Gathered(s));
    StepSched(c, s, Gathered(s));
  }

  lemma FreeTail(s: State, items: seq<Item>)
    requires ItemsFree(s, items) && items != []
    ensures ItemsFree(s, items[1..]) && !IsPending(items[1..], items[0].uri) && !Held(s, items[0].uri)
    ensures items == [items[0]] + items[1..]
  {
    hide Held;
  }

  lemma StepNextItemRows(c: Settings, s: State, t: real)
    requires RowsInv(c, s) && s.sched.Batch? && s.sched.items != []
    ensures RowsInv(c, NextItem(c, s, t))
  {
    FreeTail(s, s.sched.items);
    hide TakeSlot, TempCheck, Ensure;
    HeldSame(s, NextItem(c, s, t));
    StepSched(c, s, NextItem(c, s, t));
  }

  /** Giving up a row that was read but is not in memory. */
  lemma StepBlockRow(c: Settings, s: State)
    requires RowsInv(c, s) && s.sched.BlockingRow?
    ensures RowsInv(c, ScheduleWrite(s))
  {
    var u := s.sched.uri;
    var s1 := s.(table := RowTable.UpdateState(s.table, u, BLOCKED));
    WriteSettles(s.table, u, BLOCKED);
    StepSettles(c, s, s1) by { hide Once, NoneWaiting, ReadFree, CountStored; }
    HeldSame(s1, ScheduleWrite(s));
    StepSched(c, s1, ScheduleWrite(s));
  }

  /** The row is marked as processing; from here on its item is in memory. */
  lemma StepMarkRow(c: Settings, s: State)
    requires RowsInv(c, s) && s.sched.MarkingRow?
    ensures RowsInv(c, ScheduleWrite(s))
  {
    var item, rest := s.sched.item, s.sched.rest;
    var s' := ScheduleWrite(s);
    assert Pending(s.sched)[1..] == rest;
    FreeTail(s, Pending(s.sched));
    forall u ensures Held(s', u) == (Held(s, u) || u == item.uri) && InQueue(s', u) == InQueue(s, u) {}
    assert Once(s');
    assert NoneWaiting(s');
    assert ItemsFree(s', rest) by {
      hide Held;
      forall k | 0 <= k < |rest| ensures !Held(s', rest[k].uri) { assert rest[k].uri != item.uri; }
    }
  }

  // ---------------------------------------------------------------- every step

  /** No resource in memory has a row that is due for another fetch. */
  ghost predicate NoHeldDue(s: State, t: real) {
    forall u :: Held(s, u) && u in s.table ==> !Due(s.table[u], t)
  }

  /** Reviving due rows keeps the rows right exactly when none is in memory. */
  lemma ReviveExactly(c: Settings, s: State, t: real)
    requires RowsInv(c, s)
    ensures RowsInv(c, s.(table := Revive(s.table, t))) <==> NoHeldDue(s, t)
  {
    var s' := s.(table := Revive(s.table, t));
    forall u ensures Held(s', u) == Held(s, u) {}
    if NoHeldDue(s, t) {
      assert Once(s') && NoneWaiting(s');
      FreeAfter(c, s, s');
    } else {
      var u :| Held(s, u) && u in s.table && Due(s.table[u], t);
      assert Held(s', u) && IsWaiting(s'.table[u].state);
    }
  }

  lemma RowsClock(c: Settings, s: State, t: real)
    requires RowsInv(c, s)
    ensures RowsInv(c, s.(now := t))
  {
    var s' := s.(now := t);
    forall u ensures Held(s', u) == Held(s, u) {}
    FreeAfter(c, s, s');
  }

  lemma SchedulerStep(c: Settings, s: State, t: real, a: Action)
    requires IndexInv(c, s) && RowsInv(c, s) && Enabled(c, s, t, a)
    requires a.DoReadAll? || a.DoSelect? || a.DoReadDomain? || a.DoGathered? || a.DoNextItem? || a.DoBatchEnd?
        || a.DoScheduleWrite?
    ensures RowsInv(c, Apply(c, s, t, a))
  {
    hide RowsInv, SelectDomains, Gathered, NextItem, ScheduleWrite;
    match a
    case DoReadAll(items) => StepReadAll(c, s, items);
    case DoSelect(order) => StepSelectRows(c, s, t, order);
    case DoReadDomain(n, items) => StepReadDomain(c, s, n, items);
    case DoGathered => StepGatheredRows(c, s);
    case DoNextItem => StepNextItemRows(c, s, t);
    case DoBatchEnd => StepBatchEnd(c, s);
    case DoScheduleWrite => if s.sched.BlockingRow? { StepBlockRow(c, s); } else { StepMarkRow(c, s); }
  }

  lemma StepBatchEnd(c: Settings, s: State)
    requires RowsInv(c, s) && s.sched == Batch([])
    ensures RowsInv(c, s.(sched := Idle))
  {
    HeldSame(s, s.(sched := Idle));
    StepSched(c, s, s.(sched := Idle));
  }

  lemma QueueStep(c: Settings, s: State, t: real, a: Action)
    requires RowsInv(c, s) && Enabled(c, s, t, a)
    requires a.DoPut? || a.DoTrack? || a.DoMiss? || a.DoTake?
    ensures RowsInv(c, Apply(c, s, t, a))
  {
    match a
    case DoPut => StepPutRows(c, s, t);
    case DoTrack =>
      forall p ensures CountStored(Pass(s.queue, Ready(c, s.book, t)), p)
          == CountStored(s.queue, p) { PassCount(s.queue, Ready(c, s.book, t), p); }
      StepMoves(c, s, Pass(s.queue, Ready(c, s.book, t)));
    case DoMiss =>
      forall p ensures CountStored(Miss(s.queue), p) == CountStored(s.queue, p) { MissCount(s.queue, p); }
      StepMoves(c, s, Miss(s.queue));
    case DoTake(i) => StepTakeRows(c, s, t, i);
  }

  lemma RowsStep(c: Settings, s: State, t: real, a: Action)
    requires IndexInv(c, s) && RowsInv(c, s) && Enabled(c, s, t, a)
    requires a.DoRevive? ==> NoHeldDue(s, t)
    ensures RowsInv(c, Next(c, s, t, a))
  {
    hide RowsInv, IndexInv, Apply, Enabled;
    assert RowsInv(c, Apply(c, s, t, a)) by {
      if a.DoReadAll? || a.DoSelect? || a.DoReadDomain? || a.DoGathered? || a.DoNextItem? || a.DoBatchEnd?
          || a.DoScheduleWrite? {
        SchedulerStep(c, s, t, a);
      } else if a.DoPut? || a.DoTrack? || a.DoMiss? || a.DoTake? {
        QueueStep(c, s, t, a);
      } else if a.DoCountFailure? || a.DoFetchFailedForNow? || a.DoFetchFailed? || a.DoAfterInsert?
          || a.DoHandlerError? {
        StepTaskOnly(c, s, t, a);
      } else {
        WritingStep(c, s, t, a);
      }
    }
    RowsClock(c, Apply(c, s, t, a), t);
  }

  lemma WritingStep(c: Settings, s: State, t: real, a: Action)
    requires RowsInv(c, s) && Enabled(c, s, t, a)
    requires a.DoRevive? || a.DoFinalWrite? || a.DoFetchSucceeded? || a.DoWork? || a.DoInsert? || a.DoMark?
    requires a.DoRevive? ==> NoHeldDue(s, t)
    ensures RowsInv(c, Apply(c, s, t, a))
  {
    hide RowsInv, FinalWrite, Work, InsertDone, MarkDone, FetchSucceeded;
    match a
    case DoRevive => ReviveExactly(c, s, t);
    case DoFinalWrite(i) => StepFinalWrite(c, s, i);
    case DoFetchSucceeded(i, obj) => StepSucceededRows(c, s, i, obj);
    case DoWork(i) => StepWorkRows(c, s, t, i);
    case DoInsert(i) => StepInsertRows(c, s, i);
    case DoMark(i) => StepMarkRows(c, s, t, i);
  }

  /** A run on which `set_next_to_update` never revives a row in memory. */
  ghost predicate RevivesFreeRows(c: Settings, s: State, run: seq<Timed>)
    decreases run
  {
    run != [] && Enabled(c, s, run[0].at, run[0].action) ==>
      && (run[0].action.DoRevive? ==> NoHeldDue(s, run[0].at))
      && RevivesFreeRows(c, Next(c, s, run[0].at, run[0].action), run[1..])
  }

  lemma {:induction false} RowsRun(c: Settings, s: State, run: seq<Timed>, s': State)
    requires IndexInv(c, s) && RowsInv(c, s) && Run(c, s, run, s') && RevivesFreeRows(c, s, run)
    ensures RowsInv(c, s')
    decreases run
  {
    hide IndexInv, RowsInv, Enabled, Next, NoHeldDue;
    if run != [] {
      IndexStep(c, s, run[0].at, run[0].action);
      RowsStep(c, s, run[0].at, run[0].action);
      RowsRun(c, Next(c, s, run[0].at, run[0].action), run[1..], s');
    }
  }

  /** Before the run and after each of its steps no resource is in memory twice,
      and the row of anything in memory is not waiting. */
  ghost predicate RightThroughout(c: Settings, s: State, run: seq<Timed>)
    decreases run
  {
    Once(s) && NoneWaiting(s)
    && (run != [] && Enabled(c, s, run[0].at, run[0].action) ==>
          RightThroughout(c, Next(c, s, run[0].at, run[0].action), run[1..]))
  }

  /** A revived row in memory is a waiting row in memory. */
  lemma ReviveBreaks(c: Settings, s: State, t: real)
    requires Enabled(c, s, t, DoRevive) && !NoHeldDue(s, t)
    ensures !NoneWaiting(Next(c, s, t, DoRevive))
  {
    var s' := Next(c, s, t, DoRevive);
    var u :| Held(s, u) && u in s.table && Due(s.table[u], t);
    assert Held(s', u) && IsWaiting(s'.table[u].state);
  }

  /** Along a run no resource is in memory twice and no waiting row is in memory, at
      any suspension point, if and only if no update ever revives a row that is in
      memory at that moment. */
  lemma {:induction false} RightExactly(c: Settings, s: State, run: seq<Timed>, s': State)
    requires IndexInv(c, s) && RowsInv(c, s) && Run(c, s, run, s')
    ensures RightThroughout(c, s, run) <==> RevivesFreeRows(c, s, run)
    decreases run
  {
    assert Once(s) && NoneWaiting(s);
    hide IndexInv, RowsInv, Enabled, Next, NoHeldDue, Once, NoneWaiting;
    if run != [] {
      var t, a := run[0].at, run[0].action;
      IndexStep(c, s, t, a);
      if a.DoRevive? && !NoHeldDue(s, t) {
        ReviveBreaks(c, s, t);
      } else {
        RowsStep(c, s, t, a);
        RightExactly(c, Next(c, s, t, a), run[1..], s');
      }
    }
  }

  /** On every such run, at every suspension point: a resource is stored at most
      once, a stored resource is with no task and is not being put, no two tasks
      have the same one, and the row of anything in memory is not waiting. */
  lemma AtMostOnceInMemory(c: Settings, s: State, run: seq<Timed>, s': State, u: Uri)
    requires IndexInv(c, s) && RowsInv(c, s) && Run(c, s, run, s') && RevivesFreeRows(c, s, run)
    ensures CountStored(s'.queue, HasUri(u)) + (if InTask(s', u) then 1 else 0) + (if InPut(s', u) then 1 else 0) <= 1
    ensures forall i, j ::
        i in s'.tasks && j in s'.tasks && s'.tasks[i].item.uri == u && s'.tasks[j].item.uri == u
        ==> i == j
    ensures Held(s', u) ==> u in s'.table && !IsWaiting(s'.table[u].state)
  {
    RowsRun(c, s, run, s');
    assert Once(s') && NoneWaiting(s');
    assert CountStored(s'.queue, HasUri(u)) <= 1;
    if InTask(s', u) {
      var i :| i in s'.tasks && s'.tasks[i].item.uri == u;
      assert !InQueue(s', s'.tasks[i].item.uri) && !InPut(s', s'.tasks[i].item.uri);
    }
  }
}

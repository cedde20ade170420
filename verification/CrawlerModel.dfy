/** The crawler as a step machine: one step per code segment between two
    suspension points, in any order, on a clock that never goes back. */
module CrawlerModel {
  import opened Common
  import opened Json
  import opened ObjectHandler
  import opened DomainIndex
  import opened ScheduleStores
  import opened RowTable
  import opened Backoff

  /** The configuration, together with the calls out of the object handler. */
  datatype Settings = Settings(
    env: Env,
    requestPeriod: real,
    maxPerDomain: nat,
    domainChunk: nat,
    queueSize: nat,
    minUpdate: real,
    maxUpdate: real)

  const INFINITY_TIME := 315360000.0
  const PUBLIC_COLLECTION := "https://www.w3.org/ns/activitystreams#Public"

  /** Where the scheduling task is suspended. */
  datatype Scheduler =
    | Idle
    | Gathering(names: seq<Name>, got: map<Name, seq<Item>>)  // per-domain queries under way
    | Batch(items: seq<Item>)                                 // items left to schedule
    | BlockingRow(uri: Uri, rest: seq<Item>)                  // writing Blocked
    | MarkingRow(item: Item, rest: seq<Item>)                 // writing the processing state
    | Putting(item: Item, rest: seq<Item>)                    // waiting for a free slot

  /** What a fetch task still has to do with a fetched object. */
  datatype Todo = SetRedirected | Call(effect: Effect)

  /** Where a busy fetch task is suspended. */
  datatype Task =
    | BlockWrite(item: Item)
    | RequeueWrite(item: Item)
    | Fetching(item: Item, oldNextReq: real, oldFailStreak: nat, started: real)
    | FailWrite(item: Item, counts: bool)
    | FailCount(item: Item)
    | Working(item: Item, todo: seq<Todo>)
    | Inserting(item: Item, todo: seq<Todo>, uri: Uri, row: Row)
    | Inserted(item: Item, todo: seq<Todo>, uri: Uri, isNew: bool)
    | MarkWriting(item: Item, todo: seq<Todo>, uri: Uri, digest: Option<string>, before: Option<Row>)

  datatype Start = Start(name: Name, at: real)

  /** What happened so far, for stating properties of whole runs: every call of
      `fetch_ap`, the first failure counted since the streak was 0, the domains
      whose streak was reset by a success or began above 0, the time a domain
      became unreachable, and the state each row had when it was last scheduled. */
  datatype History = History(
    starts: seq<Start>,
    firstFail: map<Name, real>,
    reset: set<Name>,
    downAt: map<Name, real>,
    origin: map<Uri, int>)

  datatype State = State(
    now: real,
    book: Book,
    table: Table,
    queue: Stores,
    sched: Scheduler,
    tasks: map<nat, Task>,
    hist: History)

  function NameOf(c: Settings, uri: Uri): Name { c.env.netloc(uri) }

  function OfName(c: Settings, n: Name): Item -> bool {
    (i: Item) => c.env.netloc(i.uri) == n
  }

  /** The record behind a queue entry's reference to its domain. */
  function RecordOf(b: Book, n: Name): DomainRec {
    if n in b.domains then b.domains[n] else FRESH
  }

  function Ready(c: Settings, b: Book, t: real): Item -> bool {
    (i: Item) => RecordOf(b, c.env.netloc(i.uri)).ReadyAt(t)
  }

  // ---------------------------------------------------------------- scheduling

  /** `items` was read from the table: different rows, all waiting. */
  ghost predicate Snapshot(table: Table, items: seq<Item>) {
    && (forall i, j :: 0 <= i < j < |items| ==> items[i].uri != items[j].uri)
    && forall i :: 0 <= i < |items| ==>
                     && items[i].uri in table
                     && IsWaiting(items[i].state)
                     && items[i].state == table[items[i].uri].state
                     && items[i].aux == table[items[i].uri].aux
  }

  /** A per-domain query returns only priority rows of that domain. */
  ghost predicate DomainSnapshot(table: Table, n: Name, items: seq<Item>) {
    && Snapshot(table, items)
    && forall i :: 0 <= i < |items| ==> table[items[i].uri].domain == n && items[i].state == WAITING_PRIORITY
  }

  function SelectDomains(c: Settings, s: State, t: real, order: seq<Name>): State
    requires Listed(s.book.(index := order))
  {
    var (b, names) := SelectFrom(s.book.(index := order), 0, [], c.maxPerDomain, c.domainChunk, t);
    s.(book := b, sched := if names == [] then Idle else Gathering(names, map[]))
  }

  /** The items of one domain's answer before its first non-priority row. */
  function PriorityPrefix(items: seq<Item>): seq<Item> {
    if items == [] || items[0].state == WAITING then []
    else [items[0]] + PriorityPrefix(items[1..])
  }

  /** The loop over the per-domain answers. */
  function Collect(b: Book, names: seq<Name>, got: map<Name, seq<Item>>): (Book, seq<Item>)
    decreases names
  {
    if names == [] then (b, [])
    else
      var n := names[0];
      var answer := if n in got then got[n] else [];
      var b1 := if answer == [] then MarkEmpty(Ensure(b, n), n) else b;
      var (b2, items) := Collect(b1, names[1..], got);
      (b2, PriorityPrefix(answer) + items)
  }

  function Gathered(s: State): State
    requires s.sched.Gathering?
  {
    var (b, items) := Collect(s.book, s.sched.names, s.sched.got);
    s.(book := b, sched := Batch(items))
  }

  /** What becomes of an item that the scheduler looks at. */
  datatype Decision = BlockItem | SkipItem | ScheduleItem

  /** The scheduler looks at one item of domain `n`. */
  function Consider(c: Settings, b0: Book, n: Name, t: real): (Book, Decision) {
    var b := Ensure(b0, n);
    if b.domains[n].Down() then (b, BlockItem)
    else
      var b1 := TempCheck(b, n, t);
      if b1.domains[n].tempUnreachable || b1.domains[n].scheduledItems >= c.maxPerDomain then (b1, SkipItem)
      else (TakeSlot(b1, n), ScheduleItem)
  }

  /** The body of `_schedule_items` for the next item, up to its first suspension. */
  function NextItem(c: Settings, s: State, t: real): State
    requires s.sched.Batch? && s.sched.items != []
  {
    var item, rest := s.sched.items[0], s.sched.items[1..];
    var (b, what) := Consider(c, s.book, NameOf(c, item.uri), t);
    s.(book := b, sched := match what
                           case BlockItem => BlockingRow(item.uri, rest)
                           case SkipItem => Batch(rest)
                           case ScheduleItem => MarkingRow(item, rest))
  }

  function ScheduleWrite(s: State): State
    requires s.sched.BlockingRow? || s.sched.MarkingRow?
  {
    match s.sched
    case BlockingRow(uri, rest) => s.(table := RowTable.UpdateState(s.table, uri, BLOCKED), sched := Batch(rest))
    case MarkingRow(item, rest) =>
      s.(table := RowTable.UpdateState(s.table, item.uri, -item.state), sched := Putting(item, rest),
         hist := if item.uri in s.table
                 then s.hist.(origin := s.hist.origin[item.uri := s.table[item.uri].state]) else s.hist)
  }

  function PutItem(s: State, t: real): State
    requires s.sched.Putting?
  {
    s.(queue := Put(s.queue, t, s.sched.item), sched := Batch(s.sched.rest))
  }

  // ------------------------------------------------------------------ fetching

  datatype Admission = GiveUp | PutBack | Go(oldNextReq: real, oldFailStreak: nat)

  /** What a fetch task does to its item's domain between receiving the item and
      its first suspension: count, test, and reserve the next request time. */
  function Admit(c: Settings, b: Book, n: Name, t: real): (Book, Admission) {
    TestAndReserve(c, ReleaseSlot(Ensure(b, n), n), n, t)
  }

  function TestAndReserve(c: Settings, b: Book, n: Name, t: real): (Book, Admission)
    requires n in b.domains
  {
    if b.domains[n].Down() then (b, GiveUp)
    else
      var b1 := TempCheck(b, n, t);
      var d := b1.domains[n];
      if d.tempUnreachable then (b1, PutBack)
      else
        var reserved := if d.nextReq >= t + c.requestPeriod then d.nextReq else t + c.requestPeriod;
        (b1.(domains := b1.domains[n := d.(nextReq := reserved)]), Go(d.nextReq, d.failStreak))
  }

  /** A fetch task is handed a ready item and runs to its first suspension. */
  function Take(c: Settings, s: State, t: real, i: nat): State
    requires s.queue.ready != []
  {
    var item := s.queue.ready[0].item;
    var n := NameOf(c, item.uri);
    var (b, verdict) := Admit(c, s.book, n, t);
    var s1 := s.(queue := Hit(s.queue), book := b);
    match verdict
    case GiveUp => s1.(tasks := s.tasks[i := BlockWrite(item)])
    case PutBack => s1.(tasks := s.tasks[i := RequeueWrite(item)])
    case Go(next, streak) =>
      s1.(tasks := s.tasks[i := Fetching(item, next, streak, t)],
          hist := s.hist.(starts := s.hist.starts + [Start(n, t)]))
  }

  function Done(s: State, i: nat): State {
    s.(tasks := s.tasks - {i})
  }

  /** The last write of a task that gives its row back or gives it up. */
  function FinalWrite(s: State, i: nat): State
    requires i in s.tasks && (s.tasks[i].BlockWrite? || s.tasks[i].RequeueWrite? || s.tasks[i].FailWrite?)
  {
    match s.tasks[i]
    case BlockWrite(item) => Done(s.(table := RowTable.UpdateState(s.table, item.uri, BLOCKED)), i)
    case RequeueWrite(item) => Done(s.(table := RowTable.UpdateState(s.table, item.uri, item.state)), i)
    case FailWrite(item, counts) =>
      var s1 := s.(table := RowTable.UpdateState(s.table, item.uri, FAILED));
      if counts then s1.(tasks := s.tasks[i := FailCount(item)]) else Done(s1, i)
  }

  /** The effect of a failure for good on the domain's record. */
  function Failure(b: Book, n: Name): Book
    requires n in b.domains
  {
    var d := b.domains[n].(failedItems := b.domains[n].failedItems + 1);
    var blocked := d.failedItems >= 50 && d.failedItems > d.fetchedItems;
    b.(domains := b.domains[n := if blocked then d.(state := AutoBlocked) else d])
  }

  function CountFailure(c: Settings, s: State, i: nat): State
    requires i in s.tasks && s.tasks[i].FailCount?
  {
    var n := NameOf(c, s.tasks[i].item.uri);
    Done(s.(book := Failure(Ensure(s.book, n), n)), i)
  }

  /** What `_fetch_single` does with the object it received for `item`. */
  function AfterFetch(c: Settings, item: Item, obj: Json): seq<Todo>
    requires obj.Obj?
  {
    var domain := NameOf(c, item.uri);
    var oid := AsId(c.env, obj.fields);
    var priority := item.state == WAITING_PRIORITY;
    var handled := Calls(Handle(c.env, obj, Some(domain), priority, true, item.aux, Walk(false, 0)));
    if oid.Some? && oid.value != item.uri then
      [SetRedirected]
      + if c.env.netloc(oid.value) != domain then [Call(Report(oid.value, priority, None, NEW_WALK))] else handled
    else handled
  }

  function Calls(es: seq<Effect>): (r: seq<Todo>)
    ensures |r| == |es| && forall k :: 0 <= k < |es| ==> r[k] == Call(es[k])
  {
    if es == [] then [] else [Call(es[0])] + Calls(es[1..])
  }

  /** The effect of a success on the domain's record. */
  function Success(b: Book, n: Name): Book
    requires n in b.domains
  {
    b.(domains := b.domains[n := b.domains[n].(fetchedItems := b.domains[n].fetchedItems + 1, failStreak := 0)])
  }

  function FetchSucceeded(c: Settings, s: State, i: nat, obj: Json): State
    requires i in s.tasks && s.tasks[i].Fetching? && obj.Obj?
  {
    var item := s.tasks[i].item;
    var n := NameOf(c, item.uri);
    var b := Ensure(s.book, n);
    s.(book := Success(b, n),
       tasks := s.tasks[i := Working(item, AfterFetch(c, item, obj))],
       hist := if b.domains[n].failStreak > 0 then s.hist.(reset := s.hist.reset + {n}) else s.hist)
  }

  /** What a temporary failure leads to. */
  datatype Verdict = NotCounted | GoneDown | TryLater

  /** The effect of a temporary failure on the domain's record. */
  function TemporaryFailure(b: Book, n: Name, oldNextReq: real, oldFailStreak: nat, t: real): (Book, Verdict)
    requires n in b.domains
  {
    var d := b.domains[n];
    if t < oldNextReq || oldFailStreak != d.failStreak then (b, NotCounted)
    else if d.failStreak >= RETRIES then (b.(domains := b.domains[n := d.(state := Unreachable)]), GoneDown)
    else (b.(domains := b.domains[n := d.(nextReq := t + RetryTimer(d.failStreak), failStreak := d.failStreak + 1,
                                          tempUnreachable := true)]), TryLater)
  }

  /** `except TemporaryFetchError`, up to the first suspension. */
  function FetchFailedForNow(c: Settings, s: State, t: real, i: nat): State
    requires i in s.tasks && s.tasks[i].Fetching?
  {
    var task := s.tasks[i];
    var n := NameOf(c, task.item.uri);
    var b := Ensure(s.book, n);
    var (b1, what) := TemporaryFailure(b, n, task.oldNextReq, task.oldFailStreak, t);
    match what
    case NotCounted => Done(s.(book := b1), i)
    case GoneDown =>
      s.(book := b1, tasks := s.tasks[i := FailWrite(task.item, false)],
         hist := s.hist.(downAt := s.hist.downAt[n := t]))
    case TryLater =>
      s.(book := b1, tasks := s.tasks[i := RequeueWrite(task.item)],
         hist := if b.domains[n].failStreak == 0 then s.hist.(firstFail := s.hist.firstFail[n := t]) else s.hist)
  }

  /** The row that `add_if_not_visited` offers for a reported resource. */
  function NewRow(c: Settings, b: Book, uri: Uri, priority: bool, aux: Option<Aux>, t: real): Row
  {
    var n := NameOf(c, uri);
    var period := if priority then c.minUpdate else INFINITY_TIME;
    Row(n, if RecordOf(b, n).Down() then BLOCKED else if priority then WAITING_PRIORITY else WAITING,
        Some((t + period).Floor), period.Floor, None, aux)
  }

  /** The next call of the object handler, up to its first suspension. */
  function Work(c: Settings, s: State, t: real, i: nat): State
    requires i in s.tasks && s.tasks[i].Working?
  {
    var item, todo := s.tasks[i].item, s.tasks[i].todo;
    if todo == [] then Done(s, i)
    else
      var rest := todo[1..];
      match todo[0]
      case SetRedirected =>
        s.(table := RowTable.UpdateState(s.table, item.uri, REDIRECTED), tasks := s.tasks[i := Working(item, rest)])
      case Call(Store(_, _, _, _)) => s.(tasks := s.tasks[i := Working(item, rest)])
      case Call(Mark(uri, digest)) =>
        var before := if uri in s.table then Some(s.table[uri]) else None;
        s.(tasks := s.tasks[i := MarkWriting(item, rest, uri, digest, before)])
      case Call(Report(uri, priority, aux, _)) =>
        if uri == T(PUBLIC_COLLECTION) then s.(tasks := s.tasks[i := Working(item, rest)])
        else
          var b := Ensure(s.book, NameOf(c, uri));
          s.(book := b, tasks := s.tasks[i := Inserting(item, rest, uri, NewRow(c, b, uri, priority, aux, t))])
  }

  function InsertDone(s: State, i: nat): State
    requires i in s.tasks && s.tasks[i].Inserting?
  {
    var k := s.tasks[i];
    s.(table := InsertRow(s.table, k.uri, k.row),
       tasks := s.tasks[i := Inserted(k.item, k.todo, k.uri, k.uri !in s.table)])
  }

  function AfterInsert(c: Settings, s: State, i: nat): State
    requires i in s.tasks && s.tasks[i].Inserted?
  {
    var k := s.tasks[i];
    var n := NameOf(c, k.uri);
    var b := Ensure(s.book, n);
    s.(book := if k.isNew then NoteWaiting(b, n) else b, tasks := s.tasks[i := Working(k.item, k.todo)])
  }

  /** The time until the next fetch of an actor or collection. */
  function UpdatePeriod(c: Settings, before: Row, digest: string): real {
    if before.hash.Some? && before.hash.value != digest then
      (if c.minUpdate >= before.updateTime as real / 2.0 then c.minUpdate else before.updateTime as real / 2.0)
    else if 2.0 * c.minUpdate <= c.maxUpdate then 2.0 * c.minUpdate else c.maxUpdate
  }

  /** The table after a handled object was marked fetched, given its row as it
      was read before. */
  function Marked(c: Settings, t: Table, uri: Uri, trust: Name, digest: Option<string>, before: Option<Row>,
          now: real): Table {
    var period := if digest.Some? then c.minUpdate else INFINITY_TIME;
    if before.None? then
      InsertRow(t, uri, Row(trust, FETCHED, Some((now + period).Floor), period.Floor, None, None))
    else if digest.Some? then
      UpdateStateTime(t, uri, FETCHED, now, UpdatePeriod(c, before.value, digest.value), digest.value)
    else RowTable.UpdateState(t, uri, FETCHED)
  }

  function MarkDone(c: Settings, s: State, t: real, i: nat): State
    requires i in s.tasks && s.tasks[i].MarkWriting?
  {
    var k := s.tasks[i];
    s.(table := Marked(c, s.table, k.uri, NameOf(c, k.item.uri), k.digest, k.before, t),
       tasks := s.tasks[i := Working(k.item, k.todo)])
  }

  // --------------------------------------------------------------------- steps

  datatype Action =
    | DoReadAll(items: seq<Item>)
    | DoSelect(order: seq<Name>)
    | DoReadDomain(name: Name, items: seq<Item>)
    | DoGathered
    | DoNextItem
    | DoBatchEnd
    | DoScheduleWrite
    | DoPut
    | DoTrack
    | DoRevive
    | DoMiss
    | DoTake(i: nat)
    | DoFinalWrite(i: nat)
    | DoCountFailure(i: nat)
    | DoFetchSucceeded(i: nat, obj: Json)
    | DoFetchFailedForNow(i: nat)
    | DoFetchFailed(i: nat)
    | DoWork(i: nat)
    | DoInsert(i: nat)
    | DoAfterInsert(i: nat)
    | DoMark(i: nat)
    | DoHandlerError(i: nat)

  predicate HeadReady(c: Settings, s: State, t: real) {
    s.queue.ready != [] && Ready(c, s.book, t)(s.queue.ready[0].item)
  }

  /** Which step may be taken at time `t`. */
  ghost predicate Enabled(c: Settings, s: State, t: real, a: Action) {
    s.now <= t &&
    match a
    case DoReadAll(items) => s.sched.Idle? && Snapshot(s.table, items)
    case DoSelect(order) => s.sched.Idle? && Permutation(s.book.index, order) && Listed(s.book.(index := order))
    case DoReadDomain(n, items) =>
      s.sched.Gathering? && n in s.sched.names && n !in s.sched.got && DomainSnapshot(s.table, n, items)
    case DoGathered => s.sched.Gathering? && forall n :: n in s.sched.names ==> n in s.sched.got
    case DoNextItem => s.sched.Batch? && s.sched.items != []
    case DoBatchEnd => s.sched == Batch([])
    case DoScheduleWrite => s.sched.BlockingRow? || s.sched.MarkingRow?
    case DoPut => s.sched.Putting? && s.queue.free > 0
    case DoTrack => true
    case DoRevive => true
    case DoMiss => s.queue.ready != [] && !HeadReady(c, s, t)
    case DoTake(i) => i !in s.tasks && HeadReady(c, s, t)
    case DoFinalWrite(i) => i in s.tasks
        && (s.tasks[i].BlockWrite? || s.tasks[i].RequeueWrite? || s.tasks[i].FailWrite?)
    case DoCountFailure(i) => i in s.tasks && s.tasks[i].FailCount?
    case DoFetchSucceeded(i, obj) => i in s.tasks && s.tasks[i].Fetching? && obj.Obj?
    case DoFetchFailedForNow(i) => i in s.tasks && s.tasks[i].Fetching?
    case DoFetchFailed(i) => i in s.tasks && s.tasks[i].Fetching?
    case DoWork(i) => i in s.tasks && s.tasks[i].Working?
    case DoInsert(i) => i in s.tasks && s.tasks[i].Inserting?
    case DoAfterInsert(i) => i in s.tasks && s.tasks[i].Inserted?
    case DoMark(i) => i in s.tasks && s.tasks[i].MarkWriting?
    case DoHandlerError(i) => i in s.tasks && s.tasks[i].Working?
  }

  function Apply(c: Settings, s: State, t: real, a: Action): State
    requires Enabled(c, s, t, a)
  {
    match a
    case DoReadAll(items) => s.(sched := Batch(items))
    case DoSelect(order) => SelectDomains(c, s, t, order)
    case DoReadDomain(n, items) => s.(sched := Gathering(s.sched.names, s.sched.got[n := items]))
    case DoGathered => Gathered(s)
    case DoNextItem => NextItem(c, s, t)
    case DoBatchEnd => s.(sched := Idle)
    case DoScheduleWrite => ScheduleWrite(s)
    case DoPut => PutItem(s, t)
    case DoTrack => s.(queue := Pass(s.queue, Ready(c, s.book, t)))
    case DoRevive => s.(table := Revive(s.table, t))
    case DoMiss => s.(queue := Miss(s.queue))
    case DoTake(i) => Take(c, s, t, i)
    case DoFinalWrite(i) => FinalWrite(s, i)
    case DoCountFailure(i) => CountFailure(c, s, i)
    case DoFetchSucceeded(i, obj) => FetchSucceeded(c, s, i, obj)
    case DoFetchFailedForNow(i) => FetchFailedForNow(c, s, t, i)
    case DoFetchFailed(i) => s.(tasks := s.tasks[i := FailWrite(s.tasks[i].item, true)])
    case DoWork(i) => Work(c, s, t, i)
    case DoInsert(i) => InsertDone(s, i)
    case DoAfterInsert(i) => AfterInsert(c, s, i)
    case DoMark(i) => MarkDone(c, s, t, i)
    case DoHandlerError(i) => Done(s, i)
  }

  function Next(c: Settings, s: State, t: real, a: Action): State
    requires Enabled(c, s, t, a)
  {
    Apply(c, s, t, a).(now := t)
  }

  datatype Timed = Timed(at: real, action: Action)

  /** `run` is a sequence of steps that leads from `s` to `s'`. */
  ghost predicate Run(c: Settings, s: State, run: seq<Timed>, s': State)
    decreases run
  {
    if run == [] then s == s'
    else
      Enabled(c, s, run[0].at, run[0].action)
      && Run(c, Next(c, s, run[0].at, run[0].action), run[1..], s')
  }
}

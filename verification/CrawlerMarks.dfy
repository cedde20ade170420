/** The rows that the object handler's calls leave: marked, redirected and reported
    ones, and when a marked one is fetched again. */
module CrawlerMarks {
  import opened Common
  import opened ObjectHandler
  import opened DomainIndex
  import opened ScheduleStores
  import opened RowTable
  import opened CrawlerModel
  import opened CrawlerLimits
  import opened CrawlerOutcomes

  /** The time until the next fetch of an actor or a collection: the least period, or
      half of the last one when that is longer, after a change; else twice the least
      period, at most the longest. */
  function Period(c: Settings, before: Row, digest: string): real {
    var half := before.updateTime as real / 2.0;
    if before.hash.Some? && before.hash != Some(digest) then
      if half > c.minUpdate then half else c.minUpdate
    else if c.maxUpdate < 2.0 * c.minUpdate then c.maxUpdate
    else 2.0 * c.minUpdate
  }

  /** The table after the object of `u` was marked, from what was read of its row: a
      row gets the state fetched, and with a digest also that digest and a time for
      the next fetch; without a row one is made, with the domain the object was
      fetched from. */
  ghost predicate MarkedAs(c: Settings, t: Table, t': Table, u: Uri, trust: Name, digest: Option<string>,
          before: Option<Row>, now: real) {
    && (forall v :: v in t && v != u ==> v in t' && t'[v] == t[v])
    && t'.Keys == (if before.None? then t.Keys + {u} else t.Keys)
    && (u in t && before.Some? && digest.Some? ==>
          var p := Period(c, before.value, digest.value);
          t'[u] == Row(t[u].domain, -4, Some((now + p).Floor), p.Floor, digest, t[u].aux))
    && (u in t && before.Some? && digest.None? ==>
          t'[u] == Row(t[u].domain, -4, None, t[u].updateTime, t[u].hash, t[u].aux))
    && (u in t && before.None? ==> t'[u] == t[u])
    && (u !in t && before.None? ==>
          var p := if digest.Some? then c.minUpdate else 315360000.0;
          t'[u] == Row(trust, -4, Some((now + p).Floor), p.Floor, None, None))
  }

  lemma MarkedExactly(c: Settings, t: Table, u: Uri, trust: Name, digest: Option<string>, before: Option<Row>,
          now: real)
    ensures MarkedAs(c, t, Marked(c, t, u, trust, digest, before, now), u, trust, digest, before, now)
  {
  }

  /** The steps of a task with a fetched object. */
  lemma TaskStep(c: Settings, s: State, t: real, a: Action)
    requires Enabled(c, s, t, a) && (a.DoWork? || a.DoMark? || a.DoInsert? || a.DoAfterInsert?)
    ensures a.i in s.tasks
    ensures a.DoWork? ==> s.tasks[a.i].Working? && Next(c, s, t, a) == Work(c, s, t, a.i).(now := t)
    ensures a.DoMark? ==> s.tasks[a.i].MarkWriting? && Next(c, s, t, a) == MarkDone(c, s, t, a.i).(now := t)
    ensures a.DoInsert? ==> s.tasks[a.i].Inserting? && Next(c, s, t, a) == InsertDone(s, a.i).(now := t)
    ensures a.DoAfterInsert? ==> s.tasks[a.i].Inserted? && Next(c, s, t, a) == AfterInsert(c, s, a.i).(now := t)
  {
    hide Work, MarkDone, InsertDone, AfterInsert;
  }

  lemma TaskMay(c: Settings, s: State, t: real, i: nat)
    requires i in s.tasks && s.now <= t
    ensures s.tasks[i].Working? ==> Enabled(c, s, t, DoWork(i))
    ensures s.tasks[i].MarkWriting? ==> Enabled(c, s, t, DoMark(i))
    ensures s.tasks[i].Inserting? ==> Enabled(c, s, t, DoInsert(i))
    ensures s.tasks[i].Inserted? ==> Enabled(c, s, t, DoAfterInsert(i))
  {
  }

  /** The run goes on with a step of task `i`. */
  lemma TaskThen(c: Settings, s: State, run: seq<Timed>, s1: State, t: real, a: Action)
    returns (run': seq<Timed>, s': State)
    requires Run(c, s, run, s1) && Enabled(c, s1, t, a)
    requires a.DoWork? || a.DoMark? || a.DoInsert? || a.DoAfterInsert?
    ensures Run(c, s, run', s') && run' == run + [Timed(t, a)] && s' == Next(c, s1, t, a) && a.i in s1.tasks
    ensures a.DoWork? ==> s1.tasks[a.i].Working? && s' == Work(c, s1, t, a.i).(now := t)
    ensures a.DoMark? ==> s1.tasks[a.i].MarkWriting? && s' == MarkDone(c, s1, t, a.i).(now := t)
    ensures a.DoInsert? ==> s1.tasks[a.i].Inserting? && s' == InsertDone(s1, a.i).(now := t)
    ensures a.DoAfterInsert? ==> s1.tasks[a.i].Inserted? && s' == AfterInsert(c, s1, a.i).(now := t)
  {
    TaskStep(c, s1, t, a);
    hide Next, Enabled, Work, MarkDone, InsertDone, AfterInsert, Run;
    run', s' := Then(c, s, run, s1, t, a);
  }

  /** A mark that nothing else interferes with: the row is fetched from then on, and
      one marked with a digest, an actor's or a collection's, is due again. */
  lemma Remarked(c: Settings, s: State, t: real, t1: real, i: nat, u: Uri, digest: Option<string>) returns (s': State)
    requires i in s.tasks && s.tasks[i].Working? && s.tasks[i].todo != [] && s.now <= t <= t1
    requires s.tasks[i].todo[0] == Call(Mark(u, digest))
    ensures Run(c, s, [Timed(t, DoWork(i)), Timed(t1, DoMark(i))], s')
    ensures s'.tasks == s.tasks[i := Working(s.tasks[i].item, s.tasks[i].todo[1..])]
    ensures s'.book == s.book && s'.queue == s.queue && s'.sched == s.sched
    ensures MarkedAs(c, s.table, s'.table, u, NameOf(c, s.tasks[i].item.uri), digest,
                if u in s.table then Some(s.table[u]) else None, t1)
    ensures u in s'.table && s'.table[u].state == -4 && (digest.Some? ==> s'.table[u].nextUpdate.Some?)
  {
    NoSteps(c, s);
    MarkedExactly(c, s.table, u, NameOf(c, s.tasks[i].item.uri), digest,
        if u in s.table then Some(s.table[u]) else None,
        t1);
    hide Run, Marked, Period, Enabled, Next;
    var run;
    TaskMay(c, s, t, i);
    run, s' := TaskThen(c, s, [], s, t, DoWork(i));
    TaskMay(c, s', t1, i);
    run, s' := TaskThen(c, s, run, s', t1, DoMark(i));
    assert s'.tasks == s.tasks[i := Working(s.tasks[i].item, s.tasks[i].todo[1..])];
  }

  /** A marked row is due exactly from its next update on; any other write of a state
      makes a row not due at any time. */
  lemma DueExactly(c: Settings, t: Table, u: Uri, now: real, period: real, digest: string, state: int, then_: real)
    requires u in t
    ensures Due(UpdateStateTime(t, u, FETCHED, now, period, digest)[u], then_) <==> (now + period).Floor <= then_.Floor
    ensures !Due(RowTable.UpdateState(t, u, state)[u], then_)
  {
  }

  /** What the periodic update does: rows that are fetched and due wait with priority;
      all others stay as they are. */
  lemma ReviveTable(t: Table, now: real)
    ensures var t' := Revive(t, now);
            && t'.Keys == t.Keys
            && forall u :: u in t ==>
                 t'[u] == if t[u].state == -4 && t[u].nextUpdate.Some? && t[u].nextUpdate.value <= now.Floor
                          then t[u].(state := 2) else t[u]
  {
  }

  /** What opening the database does. */
  lemma RecoverTable(t: Table)
    ensures var t' := Recover(t);
            && t'.Keys == t.Keys
            && forall u :: u in t ==>
                 t'[u] == if t[u].state == -2 then t[u].(state := 2)
                          else if t[u].state == -1 then t[u].(state := 1) else t[u]
  {
  }

  // ------------------------------------------- how soon a marked row is due again

  /** A row that carries a digest was given at most twice the least period. */
  ghost predicate ShortPeriod(c: Settings, row: Row) {
    row.hash.Some? ==> row.updateTime as real <= 2.0 * c.minUpdate
  }

  ghost predicate PeriodInv(c: Settings, s: State) {
    && (forall u :: u in s.table ==> ShortPeriod(c, s.table[u]))
    && (forall i :: i in s.tasks && s.tasks[i].MarkWriting? && s.tasks[i].before.Some? ==>
          ShortPeriod(c, s.tasks[i].before.value))
    && forall i :: i in s.tasks && s.tasks[i].Inserting? ==> s.tasks[i].row.hash.None?
  }

  lemma PeriodSame(c: Settings, s: State, s': State)
    requires PeriodInv(c, s) && s'.table == s.table
    requires forall i :: i in s'.tasks && (s'.tasks[i].MarkWriting? || s'.tasks[i].Inserting?) ==>
                           i in s.tasks && s'.tasks[i] == s.tasks[i]
    ensures PeriodInv(c, s')
  {
  }

  lemma PeriodSet(c: Settings, s: State, s': State, u: Uri, state: int)
    requires PeriodInv(c, s) && s'.table == RowTable.UpdateState(s.table, u, state)
    requires forall i :: i in s'.tasks && (s'.tasks[i].MarkWriting? || s'.tasks[i].Inserting?) ==>
                           i in s.tasks && s'.tasks[i] == s.tasks[i]
    ensures PeriodInv(c, s')
  {
  }

  lemma PeriodWork(c: Settings, s: State, t: real, i: nat)
    requires PeriodInv(c, s) && i in s.tasks && s.tasks[i].Working?
    ensures PeriodInv(c, Work(c, s, t, i))
  {
    hide NewRow, RowTable.UpdateState, Ensure, T;
    if s.tasks[i].todo != [] {
      match s.tasks[i].todo[0]
      case SetRedirected => PeriodSet(c, s, Work(c, s, t, i), s.tasks[i].item.uri, REDIRECTED);
      case Call(Store(_, _, _, _)) =>
      case Call(Mark(uri, _)) =>
      case Call(Report(uri, priority, aux, _)) => NewRowFresh(c, s.book, uri, priority, aux, t);
    }
  }

  lemma NewRowFresh(c: Settings, b: Book, uri: Uri, priority: bool, aux: Option<Aux>, t: real)
    ensures NewRow(c, Ensure(b, NameOf(c, uri)), uri, priority, aux, t).hash.None?
  {
  }

  lemma PeriodMark(c: Settings, s: State, t: real, i: nat)
    requires 0.0 <= c.minUpdate && PeriodInv(c, s) && i in s.tasks && s.tasks[i].MarkWriting?
    ensures PeriodInv(c, MarkDone(c, s, t, i))
  {
    var k := s.tasks[i];
    MarkedExactly(c, s.table, k.uri, NameOf(c, k.item.uri), k.digest, k.before, t);
    hide Marked;
  }

  lemma PeriodTables(c: Settings, s: State, t: real, a: Action)
    requires PeriodInv(c, s) && Enabled(c, s, t, a)
    requires a.DoScheduleWrite? || a.DoRevive? || a.DoFinalWrite? || a.DoInsert?
    ensures PeriodInv(c, Apply(c, s, t, a))
  {
    var s' := Apply(c, s, t, a);
    if a.DoScheduleWrite? {
      match s.sched
      case BlockingRow(uri, _) => PeriodSet(c, s, s', uri, BLOCKED);
      case MarkingRow(item, _) => PeriodSet(c, s, s', item.uri, -item.state);
    } else if a.DoFinalWrite? {
      match s.tasks[a.i]
      case BlockWrite(item) => PeriodSet(c, s, s', item.uri, BLOCKED);
      case RequeueWrite(item) => PeriodSet(c, s, s', item.uri, item.state);
      case FailWrite(item, _) => PeriodSet(c, s, s', item.uri, FAILED);
    }
  }

  lemma PeriodRest(c: Settings, s: State, t: real, a: Action)
    requires PeriodInv(c, s) && Enabled(c, s, t, a)
    requires !a.DoScheduleWrite? && !a.DoRevive? && !a.DoFinalWrite? && !a.DoInsert? && !a.DoWork? && !a.DoMark?
    ensures PeriodInv(c, Apply(c, s, t, a))
  {
    hide Admit, AfterFetch, Pass, NoteWaiting, Ready, TemporaryFailure, Failure, Success, Ensure, Hit, Miss, SelectFrom,
        Collect, TakeSlot, TempCheck, PeriodInv;
    PeriodSame(c, s, Apply(c, s, t, a));
  }

  lemma PeriodStep(c: Settings, s: State, t: real, a: Action)
    requires 0.0 <= c.minUpdate && PeriodInv(c, s) && Enabled(c, s, t, a)
    ensures PeriodInv(c, Next(c, s, t, a))
  {
    if a.DoWork? { PeriodWork(c, s, t, a.i); }
    else if a.DoMark? { PeriodMark(c, s, t, a.i); }
    else if a.DoScheduleWrite? || a.DoRevive? || a.DoFinalWrite? || a.DoInsert? { PeriodTables(c, s, t, a); }
    else { PeriodRest(c, s, t, a); }
    hide Apply, Enabled, PeriodInv;
    PeriodClock(c, Apply(c, s, t, a), t);
  }

  lemma PeriodClock(c: Settings, s: State, t: real)
    requires PeriodInv(c, s)
    ensures PeriodInv(c, s.(now := t))
  {
    PeriodSame(c, s, s.(now := t));
  }

  lemma {:induction false} PeriodRun(c: Settings, s: State, run: seq<Timed>, s': State)
    requires 0.0 <= c.minUpdate && PeriodInv(c, s) && Run(c, s, run, s')
    ensures PeriodInv(c, s')
    decreases run
  {
    hide PeriodInv, Enabled, Next;
    if run != [] {
      PeriodStep(c, s, run[0].at, run[0].action);
      PeriodRun(c, Next(c, s, run[0].at, run[0].action), run[1..], s');
    }
  }

  /** On every run: an actor or a collection whose content changed since its last mark
      is due again after exactly the least period, one that did not change after
      twice that, or the longest period if it is shorter; so a change never makes
      the next fetch come later. */
  lemma ChangedSooner(c: Settings, s: State, run: seq<Timed>, s': State, i: nat, t: real)
    requires 0.0 <= c.minUpdate <= c.maxUpdate && s.tasks == map[] && forall u ::
        u in s.table
        ==> ShortPeriod(c, s.table[u])
    requires Run(c, s, run, s') && Enabled(c, s', t, DoMark(i))
    requires var k := s'.tasks[i]; k.uri in s'.table && k.before.Some? && k.digest.Some?
    ensures var k := s'.tasks[i];
            var changed := k.before.value.hash.Some? && k.before.value.hash != k.digest;
            var p := if changed then c.minUpdate else if 2.0 * c.minUpdate <= c.maxUpdate then 2.0 * c.minUpdate
                     else c.maxUpdate;
            Next(c, s', t, DoMark(i)).table[k.uri].nextUpdate == Some((t + p).Floor)
            && c.minUpdate <= p <= c.maxUpdate
  {
    PeriodRun(c, s, run, s');
    var k := s'.tasks[i];
    PeriodIs(c, k.before.value, k.digest.value);
    MarkedExactly(c, s'.table, k.uri, NameOf(c, k.item.uri), k.digest, k.before, t);
    TaskStep(c, s', t, DoMark(i));
    hide Run, Marked, PeriodInv, Period, ShortPeriod, Next, Enabled;
  }

  lemma PeriodIs(c: Settings, before: Row, digest: string)
    requires 0.0 <= c.minUpdate <= c.maxUpdate && ShortPeriod(c, before)
    ensures Period(c, before, digest) == if before.hash.Some? && before.hash != Some(digest) then c.minUpdate
                                         else if 2.0 * c.minUpdate <= c.maxUpdate then 2.0 * c.minUpdate
                                         else c.maxUpdate
    ensures c.minUpdate <= Period(c, before, digest) <= c.maxUpdate
  {
  }

  /** The row of an item whose object has another id is redirected. */
  lemma Redirected(c: Settings, s: State, t: real, i: nat)
    requires s.now <= t && i in s.tasks && s.tasks[i].Working? && s.tasks[i].todo != []
        && s.tasks[i].todo[0] == SetRedirected
    ensures Enabled(c, s, t, DoWork(i))
    ensures var s', item := Next(c, s, t, DoWork(i)), s.tasks[i].item;
            && RowSet(s.table, s'.table, item.uri, -5)
            && s' == s.(now := t, table := s'.table, tasks := s.tasks[i := Working(item, s.tasks[i].todo[1..])])
  {
    SetRow(s.table, s.tasks[i].item.uri, REDIRECTED);
    hide RowTable.UpdateState;
  }

  /** When nothing is left to do, or the handler raises, the task is over. */
  lemma NothingLeft(c: Settings, s: State, t: real, i: nat)
    requires s.now <= t && i in s.tasks && s.tasks[i].Working?
    ensures Enabled(c, s, t, DoWork(i)) && Enabled(c, s, t, DoHandlerError(i))
    ensures s.tasks[i].todo == [] ==> Next(c, s, t, DoWork(i)) == s.(now := t, tasks := s.tasks - {i})
    ensures Next(c, s, t, DoHandlerError(i)) == s.(now := t, tasks := s.tasks - {i})
  {
  }

  // ---------------------------------------------------------- reported resources

  /** The row made for a reported resource: blocked when its domain is down, else
      waiting, with priority when it was reported so. */
  function ReportedRow(c: Settings, b: Book, uri: Uri, priority: bool, aux: Option<Aux>, t: real): Row {
    var p := if priority then c.minUpdate else 315360000.0;
    Row(NameOf(c, uri), if RecordOf(b, NameOf(c, uri)).Down() then -6 else if priority then 2 else 1,
        Some((t + p).Floor), p.Floor, None, aux)
  }

  lemma NewRowExactly(c: Settings, b: Book, uri: Uri, priority: bool, aux: Option<Aux>, t: real)
    ensures NewRow(c, b, uri, priority, aux, t) == ReportedRow(c, b, uri, priority, aux, t)
    ensures NewRow(c, Ensure(b, NameOf(c, uri)), uri, priority, aux, t) == ReportedRow(c, b, uri, priority, aux, t)
  {
  }

  /** A domain that is up has waiting elements from now on, and is listed unless it is
      already or has something scheduled; one that is down stays as it is. */
  ghost predicate Noted(b: Book, b': Book, n: Name) {
    var d := RecordOf(b, n);
    var lists := !d.Down() && d.scheduledItems == 0 && !d.notScheduled;
    && b'.domains == b.domains[n := if d.Down() then d
                                    else d.(hasWaiting := true, notScheduled := d.notScheduled || lists)]
    && b'.index == (if lists then b.index + [n] else b.index) && b'.raised == b.raised
  }

  lemma NotedExactly(b: Book, n: Name)
    ensures Noted(b, NoteWaiting(Ensure(b, n), n), n)
    ensures Noted(b, NoteWaiting(Ensure(Ensure(b, n), n), n), n)
  {
  }

  /** A report that nothing else interferes with: a resource without a row gets one
      and its domain is told; one with a row keeps it; the public collection is left
      out. */
  lemma Reported(c: Settings, s: State, t: real, t1: real, t2: real, i: nat, e: Effect) returns (run: seq<Timed>,
          s': State)
    requires i in s.tasks && s.tasks[i].Working? && s.tasks[i].todo != [] && s.now <= t <= t1 <= t2
    requires e.Report? && s.tasks[i].todo[0] == Call(e)
    ensures Run(c, s, run, s')
    ensures run == if e.uri == T("https://www.w3.org/ns/activitystreams#Public") then [Timed(t, DoWork(i))]
                   else [Timed(t, DoWork(i)), Timed(t1, DoInsert(i)), Timed(t2, DoAfterInsert(i))]
    ensures s'.tasks == s.tasks[i := Working(s.tasks[i].item, s.tasks[i].todo[1..])]
    ensures s'.queue == s.queue && s'.sched == s.sched
    ensures if e.uri == T("https://www.w3.org/ns/activitystreams#Public") then s'.table == s.table && s'.book == s.book
            else if e.uri in s.table then
              s'.table == s.table && RecordSet(s.book, s'.book, NameOf(c, e.uri), RecordOf(s.book, NameOf(c, e.uri)))
            else
              && s'.table == s.table[e.uri := ReportedRow(c, s.book, e.uri, e.priority, e.aux, t)]
              && Noted(s.book, s'.book, NameOf(c, e.uri))
  {
    NoSteps(c, s);
    var n := NameOf(c, e.uri);
    NewRowExactly(c, s.book, e.uri, e.priority, e.aux, t);
    NotedExactly(s.book, n);
    hide Run, NewRow, ReportedRow, NoteWaiting, Noted, T, Enabled, Next;
    TaskMay(c, s, t, i);
    run, s' := TaskThen(c, s, [], s, t, DoWork(i));
    if e.uri != T(PUBLIC_COLLECTION) {
      TaskMay(c, s', t1, i);
      run, s' := TaskThen(c, s, run, s', t1, DoInsert(i));
      TaskMay(c, s', t2, i);
      run, s' := TaskThen(c, s, run, s', t2, DoAfterInsert(i));
    }
    assert s'.tasks == s.tasks[i := Working(s.tasks[i].item, s.tasks[i].todo[1..])];
  }
}

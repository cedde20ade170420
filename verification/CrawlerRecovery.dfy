/** What a restart makes of the rows that a crash left behind. */
module CrawlerRecovery {
  import opened DomainIndex
  import opened ScheduleStores
  import opened RowTable
  import opened CrawlerModel
  import opened CrawlerIndex
  import opened CrawlerRows

  /** Every processing row remembers the waiting state it was scheduled from. */
  ghost predicate OriginAt(s: State, u: Uri) {
    u in s.table && IsProcessing(s.table[u].state) ==> u in s.hist.origin && s.hist.origin[u] == -s.table[u].state
  }

  /** Rows read but not yet marked still have the state that was read. */
  ghost predicate Faithful(s: State, items: seq<Item>) {
    forall i :: 0 <= i < |items| ==> items[i].uri in s.table && s.table[items[i].uri].state == items[i].state
  }

  ghost predicate ReadFaithful(s: State) {
    && Faithful(s, Pending(s.sched))
    && (s.sched.Gathering? ==> forall n :: n in s.sched.got ==> Faithful(s, s.sched.got[n]))
  }

  ghost predicate OriginInv(s: State) {
    (forall u :: OriginAt(s, u)) && ReadFaithful(s)
  }

  /** Read by the scheduler and not yet marked as processing. */
  ghost predicate Awaits(s: State, u: Uri) {
    || IsPending(Pending(s.sched), u)
    || (s.sched.Gathering? && exists n :: n in s.sched.got && IsPending(s.sched.got[n], u))
  }

  /** No row that awaits scheduling is marked fetched in this step. */
  ghost predicate MarksNoneAwaiting(s: State, a: Action) {
    a.DoMark? && a.i in s.tasks && s.tasks[a.i].MarkWriting? ==> !Awaits(s, s.tasks[a.i].uri)
  }

  /** Rows other than `u` are untouched, and `u` does not become processing. */
  ghost predicate WritesOnly(t: Table, t': Table, u: Uri) {
    && t.Keys <= t'.Keys <= t.Keys + {u}
    && (forall v :: v in t && v != u ==> t'[v] == t[v])
    && (u in t' ==> !IsProcessing(t'[u].state) || (u in t && t'[u] == t[u]))
  }

  /** A step that writes one row, which does not await scheduling. */
  lemma OriginWrite(s: State, s': State, u: Uri)
    requires OriginInv(s) && s'.sched == s.sched && s'.hist.origin == s.hist.origin
    requires WritesOnly(s.table, s'.table, u) && (!Awaits(s, u) || s'.table == s.table)
    ensures OriginInv(s')
  {
    forall v ensures OriginAt(s', v) { assert OriginAt(s, v); }
    if s'.table != s.table {
      forall items: seq<Item> | Faithful(s, items) && !IsPending(items, u) ensures Faithful(s', items) {
        forall i | 0 <= i < |items| ensures items[i].uri in s'.table && s'.table[items[i].uri].state == items[i].state {
          assert items[i].uri != u;
        }
      }
      if s.sched.Gathering? {
        forall n | n in s.sched.got ensures Faithful(s', s.sched.got[n]) {
          assert Faithful(s, s.sched.got[n]) && !IsPending(s.sched.got[n], u);
        }
      }
    }
  }

  /** A step that writes no row and reads none. */
  lemma OriginSame(s: State, s': State)
    requires OriginInv(s) && s'.table == s.table && s'.hist.origin == s.hist.origin && ReadFaithful(s')
    ensures OriginInv(s')
  {
    forall v ensures OriginAt(s', v) { assert OriginAt(s, v); }
  }

  /** A row with a task does not await scheduling. */
  lemma TaskNotAwaiting(c: Settings, s: State, i: nat)
    requires ReadFree(c, s) && i in s.tasks
    ensures !Awaits(s, s.tasks[i].item.uri)
  {
    var u := s.tasks[i].item.uri;
    assert Held(s, u);
    hide Held;
    if s.sched.Gathering? {
      forall n | n in s.sched.got ensures !IsPending(s.sched.got[n], u) { assert ItemsFree(s, s.sched.got[n]); }
    }
  }

  lemma OriginFinalWrite(c: Settings, s: State, i: nat)
    requires OriginInv(s) && i in s.tasks
        && (s.tasks[i].BlockWrite? || s.tasks[i].RequeueWrite? || s.tasks[i].FailWrite?)
    requires IsWaiting(s.tasks[i].item.state) && !Awaits(s, s.tasks[i].item.uri)
    ensures OriginInv(FinalWrite(s, i))
  {
    hide Awaits, OriginInv;
    OriginWrite(s, FinalWrite(s, i), s.tasks[i].item.uri);
  }

  lemma OriginWork(c: Settings, s: State, t: real, i: nat)
    requires OriginInv(s) && i in s.tasks && s.tasks[i].Working? && !Awaits(s, s.tasks[i].item.uri)
    ensures OriginInv(Work(c, s, t, i))
  {
    hide Awaits, OriginInv, NewRow, Ensure;
    OriginWrite(s, Work(c, s, t, i), s.tasks[i].item.uri);
  }

  lemma OriginMark(c: Settings, s: State, t: real, i: nat)
    requires OriginInv(s) && i in s.tasks && s.tasks[i].MarkWriting? && !Awaits(s, s.tasks[i].uri)
    ensures OriginInv(MarkDone(c, s, t, i))
  {
    hide Awaits, OriginInv;
    OriginWrite(s, MarkDone(c, s, t, i), s.tasks[i].uri);
  }

  lemma OriginTask(c: Settings, s: State, t: real, a: Action)
    requires OriginInv(s) && RowsInv(c, s) && Enabled(c, s, t, a) && MarksNoneAwaiting(s, a)
    requires a.DoFinalWrite? || a.DoWork? || a.DoMark?
    ensures OriginInv(Apply(c, s, t, a))
  {
    assert ReadFree(c, s) && TaskCarried(c, s.tasks[a.i]);
    TaskNotAwaiting(c, s, a.i);
    hide RowsInv, Awaits, OriginInv, FinalWrite, Work, MarkDone, ReadFree;
    match a
    case DoFinalWrite(i) => OriginFinalWrite(c, s, i);
    case DoWork(i) => OriginWork(c, s, t, i);
    case DoMark(i) => OriginMark(c, s, t, i);
  }

  lemma OriginInsert(s: State, i: nat)
    requires OriginInv(s) && i in s.tasks && s.tasks[i].Inserting? && !IsProcessing(s.tasks[i].row.state)
    ensures OriginInv(InsertDone(s, i))
  {
    var s' := InsertDone(s, i);
    var u := s.tasks[i].uri;
    forall v ensures OriginAt(s', v) { assert OriginAt(s, v); }
    forall items: seq<Item> | Faithful(s, items) ensures Faithful(s', items) {}
  }

  lemma OriginRevive(s: State, t: real)
    requires OriginInv(s) && WaitingItems(s)
    ensures OriginInv(s.(table := Revive(s.table, t)))
  {
    var s' := s.(table := Revive(s.table, t));
    forall v ensures OriginAt(s', v) { assert OriginAt(s, v); }
    forall items: seq<Item> | Faithful(s, items) && AllWaiting(items) ensures Faithful(s', items) {}
    if s.sched.Gathering? {
      forall n | n in s.sched.got ensures Faithful(s', s.sched.got[n]) {
        assert Faithful(s, s.sched.got[n]) && AllWaiting(s.sched.got[n]);
      }
    }
  }

  ghost predicate AllWaiting(items: seq<Item>) {
    forall i :: 0 <= i < |items| ==> IsWaiting(items[i].state)
  }

  ghost predicate WaitingItems(s: State) {
    && AllWaiting(Pending(s.sched))
    && (s.sched.Gathering? ==> forall n :: n in s.sched.got ==> AllWaiting(s.sched.got[n]))
  }

  lemma ReadItemsWait(c: Settings, s: State)
    requires ReadFree(c, s)
    ensures WaitingItems(s)
  {
    hide Held;
    if s.sched.Gathering? {
      forall n | n in s.sched.got ensures AllWaiting(s.sched.got[n]) { assert ItemsFree(s, s.sched.got[n]); }
    }
  }

  // ----------------------------------------------------- the scheduler's writes

  /** Marking a row keeps the memory of its origin right exactly when the row
      still has the state that was read. */
  lemma MarkExactly(c: Settings, s: State)
    requires (forall u :: OriginAt(s, u)) && s.sched.MarkingRow? && s.sched.item.uri in s.table
        && IsWaiting(s.sched.item.state)
    ensures (forall u :: OriginAt(ScheduleWrite(s), u)) <==> s.table[s.sched.item.uri].state == s.sched.item.state
  {
    var s' := ScheduleWrite(s);
    var u := s.sched.item.uri;
    assert OriginAt(s', u) <==> s.table[u].state == s.sched.item.state;
    if OriginAt(s', u) {
      forall v ensures OriginAt(s', v) { assert OriginAt(s, v); }
    }
  }

  lemma OriginMarkRow(c: Settings, s: State)
    requires OriginInv(s) && ReadFree(c, s) && s.sched.MarkingRow?
    ensures OriginInv(ScheduleWrite(s))
  {
    var item, rest := s.sched.item, s.sched.rest;
    assert Pending(s.sched)[0] == item;
    ReadItemsWait(c, s);
    MarkExactly(c, s);
    assert Pending(s.sched)[1..] == rest;
    FreeTail(s, Pending(s.sched));
    forall k | 0 <= k < |rest| ensures rest[k].uri in s.table && s.table[rest[k].uri].state == rest[k].state
        && rest[k].uri != item.uri {
      assert Pending(s.sched)[k + 1] == rest[k];
    }
  }

  lemma OriginBlockRow(c: Settings, s: State)
    requires OriginInv(s) && ReadFree(c, s) && s.sched.BlockingRow?
    ensures OriginInv(ScheduleWrite(s))
  {
    var s1 := s.(table := RowTable.UpdateState(s.table, s.sched.uri, BLOCKED));
    OriginWrite(s, s1, s.sched.uri);
    OriginSame(s1, ScheduleWrite(s));
  }

  lemma OriginGathered(s: State)
    requires OriginInv(s) && s.sched.Gathering?
    ensures OriginInv(Gathered(s))
  {
    CollectFaithful(s, s.book, s.sched.names, s.sched.got);
    OriginSame(s, Gathered(s));
  }

  lemma {:induction false} CollectFaithful(s: State, b: Book, names: seq<Name>, got: map<Name, seq<Item>>)
    requires forall n :: n in got ==> Faithful(s, got[n])
    ensures Faithful(s, Collect(b, names, got).1)
    decreases names
  {
    hide MarkEmpty;
    if names != [] {
      var n := names[0];
      var answer := if n in got then got[n] else [];
      var b1 := if answer == [] then MarkEmpty(Ensure(b, n), n) else b;
      CollectFaithful(s, b1, names[1..], got);
      PrefixOf(answer);
      assert Collect(b, names, got).1 == PriorityPrefix(answer) + Collect(b1, names[1..], got).1;
    }
  }

  lemma OriginScheduler(c: Settings, s: State, t: real, a: Action)
    requires OriginInv(s) && RowsInv(c, s) && Enabled(c, s, t, a)
    requires a.DoReadAll? || a.DoSelect? || a.DoReadDomain? || a.DoGathered? || a.DoNextItem? || a.DoBatchEnd?
        || a.DoScheduleWrite? || a.DoPut?
    ensures OriginInv(Apply(c, s, t, a))
  {
    RowsReadFree(c, s);
    hide RowsInv, ReadFree;
    if a.DoScheduleWrite? {
      if s.sched.MarkingRow? { OriginMarkRow(c, s); } else { OriginBlockRow(c, s); }
    } else if a.DoGathered? {
      OriginGathered(s);
    } else if a.DoSelect? {
      hide SelectFrom;
      OriginSame(s, SelectDomains(c, s, t, a.order));
    } else if a.DoNextItem? {
      OriginNextItem(c, s, t);
    } else {
      OriginSame(s, Apply(c, s, t, a));
    }
  }

  lemma OriginNextItem(c: Settings, s: State, t: real)
    requires OriginInv(s) && s.sched.Batch? && s.sched.items != []
    ensures OriginInv(NextItem(c, s, t))
  {
    hide TakeSlot, TempCheck, Ensure;
    assert [s.sched.items[0]] + s.sched.items[1..] == s.sched.items;
    OriginSame(s, NextItem(c, s, t));
  }

  lemma OriginStep(c: Settings, s: State, t: real, a: Action)
    requires OriginInv(s) && RowsInv(c, s) && InsertsOk(s) && Enabled(c, s, t, a) && MarksNoneAwaiting(s, a)
    ensures OriginInv(Next(c, s, t, a))
  {
    hide OriginInv, RowsInv;
    assert OriginInv(Apply(c, s, t, a)) by {
      if a.DoReadAll? || a.DoSelect? || a.DoReadDomain? || a.DoGathered? || a.DoNextItem? || a.DoBatchEnd?
          || a.DoScheduleWrite? || a.DoPut? {
        OriginScheduler(c, s, t, a);
      } else if a.DoFinalWrite? || a.DoWork? || a.DoMark? {
        OriginTask(c, s, t, a);
      } else if a.DoInsert? {
        OriginInsert(s, a.i);
      } else if a.DoRevive? {
        RowsReadFree(c, s);
        ReadItemsWait(c, s);
        OriginRevive(s, t);
      } else {
        OriginRest(c, s, t, a);
      }
    }
    OriginClock(Apply(c, s, t, a), t);
  }

  lemma RowsReadFree(c: Settings, s: State)
    requires RowsInv(c, s)
    ensures ReadFree(c, s)
  {
  }

  lemma OriginRest(c: Settings, s: State, t: real, a: Action)
    requires OriginInv(s) && Enabled(c, s, t, a)
    requires a.DoTrack? || a.DoMiss? || a.DoTake? || a.DoCountFailure? || a.DoFetchSucceeded? || a.DoFetchFailedForNow?
             || a.DoFetchFailed? || a.DoAfterInsert? || a.DoHandlerError?
    ensures OriginInv(Apply(c, s, t, a))
  {
    hide Admit, AfterFetch, Pass, NoteWaiting, Ready, TemporaryFailure, Failure, Success, Ensure, Hit, Miss;
    OriginSame(s, Apply(c, s, t, a));
  }

  lemma OriginClock(s: State, t: real)
    requires OriginInv(s)
    ensures OriginInv(s.(now := t))
  {
    OriginSame(s, s.(now := t));
  }

  /** Offered rows are never processing rows. */
  ghost predicate InsertsOk(s: State) {
    forall i :: i in s.tasks && s.tasks[i].Inserting? ==> !IsProcessing(s.tasks[i].row.state)
  }

  lemma InsertsStep(c: Settings, s: State, t: real, a: Action)
    requires InsertsOk(s) && Enabled(c, s, t, a)
    ensures InsertsOk(Next(c, s, t, a))
  {
    hide Admit, AfterFetch, Pass, NoteWaiting, Ready, SelectFrom, Collect, TakeSlot, TempCheck, Revive, Ensure;
  }

  /** A run on which no row in memory is revived and no row that awaits
      scheduling is marked fetched. */
  ghost predicate LeavesReadRows(c: Settings, s: State, run: seq<Timed>)
    decreases run
  {
    run != [] && Enabled(c, s, run[0].at, run[0].action) ==>
      && MarksNoneAwaiting(s, run[0].action)
      && LeavesReadRows(c, Next(c, s, run[0].at, run[0].action), run[1..])
  }

  lemma {:induction false} OriginRun(c: Settings, s: State, run: seq<Timed>, s': State)
    requires IndexInv(c, s) && RowsInv(c, s) && OriginInv(s) && InsertsOk(s)
    requires Run(c, s, run, s') && RevivesFreeRows(c, s, run) && LeavesReadRows(c, s, run)
    ensures OriginInv(s')
    decreases run
  {
    hide IndexInv, RowsInv, Enabled, Next, NoHeldDue, OriginInv, InsertsOk, MarksNoneAwaiting;
    if run != [] {
      IndexStep(c, s, run[0].at, run[0].action);
      RowsStep(c, s, run[0].at, run[0].action);
      OriginStep(c, s, run[0].at, run[0].action);
      InsertsStep(c, s, run[0].at, run[0].action);
      OriginRun(c, Next(c, s, run[0].at, run[0].action), run[1..], s');
    }
  }

  /** A crash after any such run, followed by the database setup: no processing
      row is left, each one is back in exactly the waiting state (priority or
      not) it was scheduled from, and all other rows are as they were. */
  lemma CrashRecovery(c: Settings, s: State, run: seq<Timed>, s': State)
    requires IndexInv(c, s) && RowsInv(c, s) && OriginInv(s) && InsertsOk(s)
    requires Run(c, s, run, s') && RevivesFreeRows(c, s, run) && LeavesReadRows(c, s, run)
    ensures var r := Recover(s'.table);
            && r.Keys == s'.table.Keys
            && (forall u :: u in r ==> !IsProcessing(r[u].state))
            && (forall u :: u in r && IsProcessing(s'.table[u].state) ==>
                  u in s'.hist.origin && IsWaiting(s'.hist.origin[u])
                      && r[u] == s'.table[u].(state := s'.hist.origin[u]))
            && (forall u :: u in r && !IsProcessing(s'.table[u].state) ==> r[u] == s'.table[u])
  {
    OriginRun(c, s, run, s');
    forall u | u in s'.table && IsProcessing(s'.table[u].state)
      ensures u in s'.hist.origin && IsWaiting(s'.hist.origin[u])
          && Recover(s'.table)[u] == s'.table[u].(state := s'.hist.origin[u]) {
      assert OriginAt(s', u);
    }
  }

  // ------------------------------------------------- exactly when a crash is undone

  /** After a crash now, every processing row goes back to the state it was
      scheduled from. */
  ghost predicate Recovers(s: State) {
    forall u :: u in s.table && IsProcessing(s.table[u].state) ==>
      u in s.hist.origin && Recover(s.table)[u].state == s.hist.origin[u]
  }

  lemma RecoversIsOrigin(s: State)
    ensures Recovers(s) <==> forall u :: OriginAt(s, u)
  {
    if Recovers(s) {
      forall u ensures OriginAt(s, u) {}
    }
    if forall u :: OriginAt(s, u) {
      forall u | u in s.table && IsProcessing(s.table[u].state)
        ensures u in s.hist.origin && Recover(s.table)[u].state == s.hist.origin[u] { assert OriginAt(s, u); }
    }
  }

  /** A row about to be marked as processing still has the state that was read. */
  ghost predicate MarksCurrent(s: State, a: Action) {
    a.DoScheduleWrite? && s.sched.MarkingRow? && s.sched.item.uri in s.table ==>
      s.table[s.sched.item.uri].state == s.sched.item.state
  }

  /** No row becomes a processing row. */
  ghost predicate NoneProcessed(t: Table, t': Table) {
    forall u :: u in t' && IsProcessing(t'[u].state) ==> u in t && t[u].state == t'[u].state
  }

  lemma FinalWriteProcesses(s: State, i: nat)
    requires i in s.tasks && (s.tasks[i].BlockWrite? || s.tasks[i].RequeueWrite? || s.tasks[i].FailWrite?)
    requires IsWaiting(s.tasks[i].item.state)
    ensures NoneProcessed(s.table, FinalWrite(s, i).table) && FinalWrite(s, i).hist == s.hist
  {
  }

  lemma WorkProcesses(c: Settings, s: State, t: real, i: nat)
    requires i in s.tasks && s.tasks[i].Working?
    ensures NoneProcessed(s.table, Work(c, s, t, i).table) && Work(c, s, t, i).hist == s.hist
  {
    hide Ensure, NewRow;
  }

  lemma MarkProcesses(c: Settings, s: State, t: real, i: nat)
    requires i in s.tasks && s.tasks[i].MarkWriting?
    ensures NoneProcessed(s.table, MarkDone(c, s, t, i).table) && MarkDone(c, s, t, i).hist == s.hist
  {
    hide UpdatePeriod;
  }

  /** Nothing but the scheduler's mark makes a processing row. */
  lemma WritingProcesses(c: Settings, s: State, t: real, a: Action)
    requires RowsInv(c, s) && InsertsOk(s) && Enabled(c, s, t, a)
    requires a.DoFinalWrite? || a.DoWork? || a.DoInsert? || a.DoMark? || a.DoRevive?
    ensures NoneProcessed(s.table, Apply(c, s, t, a).table) && Apply(c, s, t, a).hist.origin == s.hist.origin
  {
    match a
    case DoFinalWrite(i) => assert TaskCarried(c, s.tasks[i]); FinalWriteProcesses(s, i);
    case DoWork(i) => hide Work; WorkProcesses(c, s, t, i);
    case DoMark(i) => hide MarkDone; MarkProcesses(c, s, t, i);
    case DoInsert(i) =>
    case DoRevive =>
  }

  lemma OtherProcesses(c: Settings, s: State, t: real, a: Action)
    requires Enabled(c, s, t, a)
    requires !a.DoFinalWrite? && !a.DoWork? && !a.DoInsert? && !a.DoMark? && !a.DoRevive? && !a.DoScheduleWrite?
    ensures Apply(c, s, t, a).table == s.table && Apply(c, s, t, a).hist.origin == s.hist.origin
  {
    hide Admit, AfterFetch, Pass, NoteWaiting, Ready, TemporaryFailure, Failure, Success, Ensure, Hit, Miss, Put;
    hide SelectFrom, Collect, Consider;
  }

  /** A step leaves every crash undone exactly unless it marks a row whose state
      has changed since it was read. */
  lemma RecoversStep(c: Settings, s: State, t: real, a: Action)
    requires Recovers(s) && RowsInv(c, s) && InsertsOk(s) && Enabled(c, s, t, a)
    ensures Recovers(Next(c, s, t, a)) <==> MarksCurrent(s, a)
  {
    var s1, s' := Apply(c, s, t, a), Next(c, s, t, a);
    RecoversIsOrigin(s);
    RecoversIsOrigin(s');
    assert forall u :: OriginAt(s', u) <==> OriginAt(s1, u);
    if a.DoScheduleWrite? && s.sched.MarkingRow? {
      ReadItem(c, s);
      MarkExactly(c, s);
    } else if a.DoScheduleWrite? {
      hide RowsInv, Recovers, InsertsOk;
      assert NoneProcessed(s.table, s1.table) && s1.hist.origin == s.hist.origin;
      NoneProcessedKeeps(s, s1);
    } else if a.DoFinalWrite? || a.DoWork? || a.DoInsert? || a.DoMark? || a.DoRevive? {
      WritingProcesses(c, s, t, a);
      hide RowsInv, Recovers, InsertsOk, Apply, Enabled;
      NoneProcessedKeeps(s, s1);
    } else {
      OtherProcesses(c, s, t, a);
      hide RowsInv, Recovers, InsertsOk, Apply, Enabled;
      NoneProcessedKeeps(s, s1);
    }
  }

  lemma ReadItem(c: Settings, s: State)
    requires RowsInv(c, s) && s.sched.MarkingRow?
    ensures s.sched.item.uri in s.table && IsWaiting(s.sched.item.state)
  {
    assert ItemsFree(s, Pending(s.sched));
    assert Pending(s.sched)[0] == s.sched.item;
  }

  lemma NoneProcessedKeeps(s: State, s': State)
    requires (forall u :: OriginAt(s, u)) && NoneProcessed(s.table, s'.table) && s'.hist.origin == s.hist.origin
    ensures forall u :: OriginAt(s', u)
  {
    forall u ensures OriginAt(s', u) { assert OriginAt(s, u); }
  }

  ghost predicate RecoversThroughout(c: Settings, s: State, run: seq<Timed>)
    decreases run
  {
    Recovers(s)
    && (run != [] && Enabled(c, s, run[0].at, run[0].action) ==>
          RecoversThroughout(c, Next(c, s, run[0].at, run[0].action), run[1..]))
  }

  ghost predicate AlwaysMarksCurrent(c: Settings, s: State, run: seq<Timed>)
    decreases run
  {
    run != [] && Enabled(c, s, run[0].at, run[0].action) ==>
      && MarksCurrent(s, run[0].action)
      && AlwaysMarksCurrent(c, Next(c, s, run[0].at, run[0].action), run[1..])
  }

  /** Along a run on which no row in memory is revived: a crash at any moment,
      followed by the database setup, puts every processing row back into the state
      it was scheduled from, if and only if the scheduler never marks a row whose
      state has changed since it was read. */
  lemma {:induction false} RecoveryExactly(c: Settings, s: State, run: seq<Timed>, s': State)
    requires IndexInv(c, s) && RowsInv(c, s) && InsertsOk(s) && Recovers(s)
    requires Run(c, s, run, s') && RevivesFreeRows(c, s, run)
    ensures RecoversThroughout(c, s, run) <==> AlwaysMarksCurrent(c, s, run)
    decreases run
  {
    hide IndexInv, RowsInv, Enabled, Next, NoHeldDue, InsertsOk, Recovers, MarksCurrent;
    if run != [] {
      var t, a := run[0].at, run[0].action;
      RecoversStep(c, s, t, a);
      if MarksCurrent(s, a) {
        IndexStep(c, s, t, a);
        RowsStep(c, s, t, a);
        InsertsStep(c, s, t, a);
        RecoveryExactly(c, Next(c, s, t, a), run[1..], s');
      }
    }
  }
}

/** The rows and the domain records that the crawler begins with. */
module StartRecords {
  import opened Common
  import opened DomainIndex
  import opened ScheduleStores
  import opened RowTable
  import opened CrawlerModel
  import opened CrawlerStart

  // ---------------------------------------------------------------- the rows

  /** The resource that a start URI stands for is to be queued: it lies on some domain
      and is not the public collection. */
  ghost predicate LeadsTo(c: Settings, find: Uri -> Option<Uri>, uri: Uri, u: Uri) {
    && u == (if c.env.netloc(uri) != [] || find(uri).None? then uri else find(uri).value)
    && c.env.netloc(u) != [] && u != T("https://www.w3.org/ns/activitystreams#Public")
  }

  /** The row of a start URI that had none: it waits with priority. */
  function StartRow(c: Settings, u: Uri, now: real): Row {
    Row(c.env.netloc(u), 2, Some((now + c.minUpdate).Floor), c.minUpdate.Floor, None, None)
  }

  ghost predicate NoneDown(b: Book) { forall n :: n in b.domains ==> b.domains[n].state.Unknown? }

  lemma {:induction false} StartsQueued(c: Settings, find: Uri -> Option<Uri>, b: Book, t: Table, uris: seq<Uri>,
          now: real)
    requires NoneDown(b)
    ensures var t' := AddStarts(c, find, b, t, uris, now).1;
            && (forall u :: u in t' <==> u in t || exists k :: 0 <= k < |uris| && LeadsTo(c, find, uris[k], u))
            && forall u :: u in t' ==> t'[u] == if u in t then t[u] else StartRow(c, u, now)
    ensures NoneDown(AddStarts(c, find, b, t, uris, now).0)
    decreases uris
  {
    hide T;
    if uris != [] {
      var uri := Resolved(c, find, uris[0]);
      var (b1, t1) := if NameOf(c, uri) == [] then (b, t) else AddStart(c, b, t, uri, now);
      StartQueued(c, find, b, t, uris[0], now);
      StartsQueued(c, find, b1, t1, uris[1..], now);
      hide AddStart, Resolved, StartRow, NoneDown;
      var t' := AddStarts(c, find, b, t, uris, now).1;
      forall u ensures (exists k :: 0 <= k < |uris| && LeadsTo(c, find, uris[k], u))
          <==> LeadsTo(c, find, uris[0], u) || exists k :: 0 <= k < |uris[1..]| && LeadsTo(c, find, uris[1..][k], u) {
        if k :| 0 <= k < |uris| && LeadsTo(c, find, uris[k], u) && k > 0 { assert LeadsTo(c, find, uris[1..][k - 1], u); }
        if k :| 0 <= k < |uris[1..]| && LeadsTo(c, find, uris[1..][k], u) { assert LeadsTo(c, find, uris[k + 1], u); }
      }
    }
  }

  lemma StartQueued(c: Settings, find: Uri -> Option<Uri>, b: Book, t: Table, uri: Uri, now: real)
    requires NoneDown(b)
    ensures var u := Resolved(c, find, uri);
            var (b1, t1) := if NameOf(c, u) == [] then (b, t) else AddStart(c, b, t, u, now);
            && NoneDown(b1)
            && (forall v :: v in t1 <==> v in t || LeadsTo(c, find, uri, v))
            && forall v :: v in t1 ==> t1[v] == if v in t then t[v] else StartRow(c, v, now)
  {
    hide T;
  }

  /** The table the crawler begins with: after recovery, with a waiting row for each
      start URI that had none. */
  lemma StartsWithRows(c: Settings, find: Uri -> Option<Uri>, table: Table, uris: seq<Uri>, stored: seq<StoredDomain>,
          names: seq<Name>, now: real)
    ensures var t' := StartState(c, find, table, uris, stored, names, now).table;
            && (forall u :: u in t' <==> u in table || exists k :: 0 <= k < |uris| && LeadsTo(c, find, uris[k], u))
            && forall u :: u in t' ==> t'[u] == if u in table then Recover(table)[u] else StartRow(c, u, now)
  {
    StartsQueued(c, find, EMPTY_BOOK, Recover(table), uris, now);
    assert Recover(table).Keys == table.Keys;
    hide AddStarts, Restore, ListAll, Recover, StartRow, T;
  }

  // -------------------------------------------------------------- the records

  /** The last stored record of `n`. */
  function LastRecord(stored: seq<StoredDomain>, n: Name): Option<StoredDomain> {
    if stored == [] then None
    else
      var later := LastRecord(stored[1..], n);
      if later.Some? then later else if stored[0].name == n then Some(stored[0]) else None
  }

  /** What is known of a domain from before: its next request time, its streak, its
      state, and that it rests when it has failed and that time lies ahead. */
  ghost predicate Remembers(d: DomainRec, x: StoredDomain, now: real) {
    && d.nextReq == x.nextReq && d.failStreak == x.failStreak && d.state == x.state
    && (d.tempUnreachable <==> x.failStreak > 0 && x.nextReq > now)
    && d.failedItems == 0 && d.fetchedItems == 0 && d.scheduledItems == 0
  }

  lemma {:induction false} RestoredExactly(b: Book, stored: seq<StoredDomain>, now: real, n: Name)
    ensures var b', x := Restore(b, stored, now), LastRecord(stored, n);
            && (x.Some? ==> n in b'.domains && Remembers(b'.domains[n], x.value, now)
                            && !b'.domains[n].hasWaiting && !b'.domains[n].notScheduled)
            && (x.None? ==> (n in b'.domains <==> n in b.domains)
                            && (n in b.domains ==> b'.domains[n] == b.domains[n]))
    decreases stored
  {
    if stored != [] {
      var d := stored[0];
      RestoredExactly(b.(domains := b.domains[d.name := NewDomain(d.nextReq, d.failStreak, d.state, now)]), stored[1..],
          now, n);
    }
  }

  /** The loop over the waiting domains touches two flags only, and sets them for a
      domain that is up. */
  lemma {:induction false} ListedExactly(b: Book, names: seq<Name>, n: Name)
    ensures var b' := ListAll(b, names);
            var d, d' := RecordOf(b, n), RecordOf(b', n);
            && d' == d.(hasWaiting := d'.hasWaiting, notScheduled := d'.notScheduled)
            && (d'.hasWaiting <==> d.hasWaiting || (n in names && !d.Down()))
            && (d'.notScheduled <==> d.notScheduled || (n in names && !d.Down()))
    decreases names
  {
    if names != [] {
      ListedOne(b, names[0], n);
      hide ListWaiting, RecordOf;
      ListedExactly(ListWaiting(b, names[0]), names[1..], n);
    }
  }

  lemma ListedOne(b: Book, m: Name, n: Name)
    ensures var d, d' := RecordOf(b, n), RecordOf(ListWaiting(b, m), n);
            d' == if m == n && !d.Down() then d.(hasWaiting := true, notScheduled := true) else d
  {
  }

  /** The records the crawler begins with: a stored domain is remembered, with waiting
      elements exactly when it is up and has a waiting row; any other one begins up,
      without failures and free at once. */
  lemma StartsWithRecords(c: Settings, find: Uri -> Option<Uri>, table: Table, uris: seq<Uri>,
          stored: seq<StoredDomain>, names: seq<Name>, now: real, n: Name)
    ensures var d, x := RecordOf(StartState(c, find, table, uris, stored, names, now).book, n), LastRecord(stored, n);
            && (x.Some? ==> Remembers(d, x.value, now)
                            && (d.hasWaiting <==> n in names && (x.value.state.Safe? || x.value.state.Unknown?)))
            && (x.None? ==> d.nextReq == 0.0 && d.failStreak == 0 && d.state.Unknown? && !d.tempUnreachable)
  {
    var (b, t) := AddStarts(c, find, EMPTY_BOOK, Recover(table), uris, now);
    FreshStarts(c, find, EMPTY_BOOK, Recover(table), uris, now);
    RestoredExactly(b, stored, now, n);
    ListedExactly(Restore(b, stored, now), names, n);
    hide AddStarts, Restore, ListAll, LastRecord, Recover;
  }

  ghost predicate AllFresh(b: Book) {
    forall n :: n in b.domains ==> b.domains[n] == FRESH.(hasWaiting := b.domains[n].hasWaiting,
        notScheduled := b.domains[n].notScheduled)
  }

  lemma {:induction false} FreshStarts(c: Settings, find: Uri -> Option<Uri>, b: Book, t: Table, uris: seq<Uri>,
          now: real)
    requires AllFresh(b)
    ensures AllFresh(AddStarts(c, find, b, t, uris, now).0)
    decreases uris
  {
    hide T, InsertRow, NewRow;
    if uris != [] {
      var uri := Resolved(c, find, uris[0]);
      var (b1, t1) := if NameOf(c, uri) == [] then (b, t) else AddStart(c, b, t, uri, now);
      assert AllFresh(b1);
      hide AllFresh, AddStart, Resolved;
      FreshStarts(c, find, b1, t1, uris[1..], now);
    }
  }
}

/** The state in which the crawler creates its tasks. */
module CrawlerStart {
  import opened Common
  import opened DomainIndex
  import opened ScheduleStores
  import opened RowTable
  import opened CrawlerModel
  import opened CrawlerIndex
  import opened CrawlerRows
  import opened CrawlerBackoff
  import opened CrawlerRecovery

  /** A row of the `domains` table. */
  datatype StoredDomain = StoredDomain(name: Name, nextReq: real, failStreak: nat, state: DomainState)

  const EMPTY_BOOK := Book(map[], [], false)

  /** `add_if_not_visited(uri, netloc, True)` with nothing else running. */
  function AddStart(c: Settings, b: Book, t: Table, uri: Uri, now: real): (Book, Table) {
    if uri == T(PUBLIC_COLLECTION) then (b, t)
    else
      var n := NameOf(c, uri);
      var b1 := Ensure(b, n);
      var t1 := InsertRow(t, uri, NewRow(c, b1, uri, true, None, now));
      (if uri !in t then NoteWaiting(b1, n) else b1, t1)
  }

  /** The URI that a start URI stands for: without a network location it is first
      looked up with WebFinger. */
  function Resolved(c: Settings, find: Uri -> Option<Uri>, uri: Uri): Uri {
    var found := if NameOf(c, uri) == [] then find(uri) else Some(uri);
    if found.Some? then found.value else uri
  }

  /** The loop over the start URIs; names without a network location are first
      looked up with WebFinger, and skipped when that gives none either. */
  function AddStarts(c: Settings, find: Uri -> Option<Uri>, b: Book, t: Table, uris: seq<Uri>, now: real): (Book, Table)
    decreases uris
  {
    if uris == [] then (b, t)
    else
      var uri := Resolved(c, find, uris[0]);
      var (b1, t1) := if NameOf(c, uri) == [] then (b, t) else AddStart(c, b, t, uri, now);
      AddStarts(c, find, b1, t1, uris[1..], now)
  }

  /** The loop over the stored domains replaces their records. */
  function Restore(b: Book, stored: seq<StoredDomain>, now: real): Book
    decreases stored
  {
    if stored == [] then b
    else
      var d := stored[0];
      Restore(b.(domains := b.domains[d.name := NewDomain(d.nextReq, d.failStreak, d.state, now)]), stored[1..], now)
  }

  /** One round of the loop over the domains with waiting rows. */
  function ListWaiting(b0: Book, n: Name): Book {
    var b := Ensure(b0, n);
    if b.domains[n].Down() then b
    else
      var b1 := SetWaiting(b, n, true);
      if b1.domains[n].notScheduled then b1 else Enlist(b1, n)
  }

  function ListAll(b: Book, names: seq<Name>): Book
    decreases names
  {
    if names == [] then b else ListAll(ListWaiting(b, names[0]), names[1..])
  }

  // ---------------------------------------------------------------- agreement

  /** Nothing is scheduled yet. */
  ghost predicate Unscheduled(b: Book) {
    forall n :: n in b.domains ==> b.domains[n].scheduledItems == 0
  }

  lemma {:induction false} StartsAgree(c: Settings, find: Uri -> Option<Uri>, b: Book, t: Table, uris: seq<Uri>,
          now: real)
    requires Agree(b) && Unscheduled(b)
    ensures var b' := AddStarts(c, find, b, t, uris, now).0; Agree(b') && Unscheduled(b')
    decreases uris
  {
    if uris != [] {
      var uri := Resolved(c, find, uris[0]);
      var n := NameOf(c, uri);
      StartAgrees(b, n);
      hide Agree, Unscheduled, NoteWaiting, Ensure;
      var (b1, t1) := if NameOf(c, uri) == [] then (b, t) else AddStart(c, b, t, uri, now);
      StartsAgree(c, find, b1, t1, uris[1..], now);
    }
  }

  lemma StartAgrees(b: Book, n: Name)
    requires Agree(b) && Unscheduled(b)
    ensures Agree(Ensure(b, n)) && Unscheduled(Ensure(b, n))
    ensures Agree(NoteWaiting(Ensure(b, n), n)) && Unscheduled(NoteWaiting(Ensure(b, n), n))
  {
    EnsureAgree(b, n);
    NoteWaitingAgree(Ensure(b, n), n);
  }

  ghost predicate Stored(stored: seq<StoredDomain>, n: Name) {
    exists k :: 0 <= k < |stored| && stored[k].name == n
  }

  lemma StoredTail(stored: seq<StoredDomain>, n: Name)
    requires stored != [] && Stored(stored[1..], n)
    ensures Stored(stored, n)
  {
    var k :| 0 <= k < |stored[1..]| && stored[1..][k].name == n;
    assert stored[k + 1].name == n;
  }

  /** No listed domain is about to be replaced. */
  ghost predicate NoneListedStored(b: Book, stored: seq<StoredDomain>) {
    forall n :: n in b.index ==> !Stored(stored, n)
  }

  lemma {:induction false} RestoreAgree(b: Book, stored: seq<StoredDomain>, now: real)
    requires Agree(b) && Unscheduled(b) && NoneListedStored(b, stored)
    ensures Agree(Restore(b, stored, now)) && Unscheduled(Restore(b, stored, now))
    decreases stored
  {
    if stored != [] {
      var d := stored[0];
      var b1 := b.(domains := b.domains[d.name := NewDomain(d.nextReq, d.failStreak, d.state, now)]);
      assert Stored(stored, d.name);
      AgreeExcept(b, b1, d.name);
      forall n | Stored(stored[1..], n) ensures n !in b1.index { StoredTail(stored, n); }
      RestoreAgree(b1, stored[1..], now);
    }
  }

  lemma ListWaitingAgree(b: Book, n: Name)
    requires Agree(b) && Unscheduled(b)
    ensures Agree(ListWaiting(b, n)) && Unscheduled(ListWaiting(b, n))
  {
    StartAgrees(b, n);
    assert ListWaiting(b, n) == NoteWaiting(Ensure(b, n), n);
  }

  lemma {:induction false} ListAllAgree(b: Book, names: seq<Name>)
    requires Agree(b) && Unscheduled(b)
    ensures Agree(ListAll(b, names)) && Unscheduled(ListAll(b, names))
    decreases names
  {
    hide Agree, Unscheduled, ListWaiting;
    if names != [] {
      ListWaitingAgree(b, names[0]);
      ListAllAgree(ListWaiting(b, names[0]), names[1..]);
    }
  }

  /** A listed domain whose record was replaced: listed twice, or listed
      without its flag. It stays so. */
  ghost predicate Broken(b: Book, n: Name) {
    n in b.domains && n in b.index && (!b.domains[n].notScheduled || multiset(b.index)[n] >= 2)
  }

  lemma BrokenDisagrees(b: Book, n: Name)
    requires Broken(b, n)
    ensures !Agree(b)
  {
    NoDupCounts(b.index);
    assert !b.domains[n].notScheduled ==> !AgreeAt(b, n);
  }

  lemma {:induction false} RestoreBreaks(b: Book, stored: seq<StoredDomain>, now: real, n: Name)
    requires n in b.index && (Stored(stored, n) || Broken(b, n))
    ensures Broken(Restore(b, stored, now), n)
    decreases stored
  {
    if stored != [] {
      var d := stored[0];
      var b1 := b.(domains := b.domains[d.name := NewDomain(d.nextReq, d.failStreak, d.state, now)]);
      if d.name != n && Stored(stored, n) {
        var k :| 0 <= k < |stored| && stored[k].name == n;
        assert stored[1..][k - 1].name == n;
        assert Stored(stored[1..], n);
      }
      RestoreBreaks(b1, stored[1..], now, n);
    }
  }

  lemma {:induction false} ListAllBreaks(b: Book, names: seq<Name>, n: Name)
    requires Broken(b, n)
    ensures Broken(ListAll(b, names), n)
    decreases names
  {
    if names != [] { ListAllBreaks(ListWaiting(b, names[0]), names[1..], n); }
  }

  /** A start URI leads to a resource of domain `n` that has no row yet. */
  ghost predicate NewStart(c: Settings, find: Uri -> Option<Uri>, t: Table, uris: seq<Uri>, n: Name) {
    exists i :: 0 <= i < |uris| && IsNew(c, t, Resolved(c, find, uris[i]), n)
  }

  ghost predicate IsNew(c: Settings, t: Table, uri: Uri, n: Name) {
    n != [] && NameOf(c, uri) == n && uri != T(PUBLIC_COLLECTION) && uri !in t
  }

  /** No known domain is down. */
  ghost predicate AllUp(b: Book) {
    forall n :: n in b.domains ==> !b.domains[n].Down()
  }

  lemma StartLists(c: Settings, b: Book, t: Table, uri: Uri, now: real, n: Name)
    requires Agree(b) && Unscheduled(b) && AllUp(b)
    ensures var b' := if NameOf(c, uri) == [] then b else AddStart(c, b, t, uri, now).0;
            AllUp(b') && (n in b'.index <==> n in b.index || IsNew(c, t, uri, n))
  {
    var m := NameOf(c, uri);
    EnsureAgree(b, m);
    assert AgreeAt(Ensure(b, m), m);
    hide T;
  }

  /** The start URIs list exactly the domains of the new resources among them. */
  lemma {:induction false} StartsList(c: Settings, find: Uri -> Option<Uri>, b: Book, t: Table, uris: seq<Uri>,
          now: real, n: Name)
    requires Agree(b) && Unscheduled(b) && AllUp(b)
    ensures n in AddStarts(c, find, b, t, uris, now).0.index <==> n in b.index || NewStart(c, find, t, uris, n)
    decreases uris
  {
    if uris != [] {
      var uri := Resolved(c, find, uris[0]);
      StartAgrees(b, NameOf(c, uri));
      StartLists(c, b, t, uri, now, n);
      var (b1, t1) := if NameOf(c, uri) == [] then (b, t) else AddStart(c, b, t, uri, now);
      NewStartCons(c, find, t, uris, n);
      NewStartAfter(c, find, t, t1, uri, uris[1..], n);
      hide Agree, Unscheduled, AllUp, NoteWaiting, Ensure, NewStart, IsNew, NewRow, T;
      StartsList(c, find, b1, t1, uris[1..], now, n);
    }
  }

  lemma NewStartCons(c: Settings, find: Uri -> Option<Uri>, t: Table, uris: seq<Uri>, n: Name)
    requires uris != []
    ensures NewStart(c, find, t, uris, n) <==>
              IsNew(c, t, Resolved(c, find, uris[0]), n) || NewStart(c, find, t, uris[1..], n)
  {
    hide IsNew;
    if NewStart(c, find, t, uris, n) {
      var i :| 0 <= i < |uris| && IsNew(c, t, Resolved(c, find, uris[i]), n);
      if i > 0 { assert uris[1..][i - 1] == uris[i]; }
    }
    if NewStart(c, find, t, uris[1..], n) {
      var i :| 0 <= i < |uris[1..]| && IsNew(c, t, Resolved(c, find, uris[1..][i]), n);
      assert uris[i + 1] == uris[1..][i];
    }
  }

  /** The row that the first URI adds hides at most later starts of its own kind. */
  lemma NewStartAfter(c: Settings, find: Uri -> Option<Uri>, t: Table, t1: Table, uri: Uri, rest: seq<Uri>, n: Name)
    requires t1.Keys == t.Keys || (t1.Keys == t.Keys + {uri} && NameOf(c, uri) != [] && uri != T(PUBLIC_COLLECTION))
    ensures IsNew(c, t, uri, n) || NewStart(c, find, t1, rest, n)
        <==> IsNew(c, t, uri, n) || NewStart(c, find, t, rest, n)
  {
    hide Resolved;
    if !IsNew(c, t, uri, n) {
      forall i | 0 <= i < |rest|
        ensures IsNew(c, t1, Resolved(c, find, rest[i]), n) <==> IsNew(c, t, Resolved(c, find, rest[i]), n) {}
    }
  }

  /** No start URI of a stored domain leads to a resource without a row. */
  ghost predicate NoNewStartStored(c: Settings, find: Uri -> Option<Uri>, t: Table, uris: seq<Uri>,
          stored: seq<StoredDomain>) {
    forall n :: Stored(stored, n) ==> !NewStart(c, find, t, uris, n)
  }

  lemma StoredNotListed(c: Settings, find: Uri -> Option<Uri>, t: Table, uris: seq<Uri>, stored: seq<StoredDomain>,
          now: real)
    ensures Agree(AddStarts(c, find, EMPTY_BOOK, t, uris, now).0)
        && Unscheduled(AddStarts(c, find, EMPTY_BOOK, t, uris, now).0)
    ensures NoneListedStored(AddStarts(c, find, EMPTY_BOOK, t, uris, now).0, stored)
        <==> NoNewStartStored(c, find, t, uris, stored)
  {
    assert Agree(EMPTY_BOOK) && Unscheduled(EMPTY_BOOK) by { forall n ensures AgreeAt(EMPTY_BOOK, n) {} }
    StartsAgree(c, find, EMPTY_BOOK, t, uris, now);
    forall n
      ensures n in AddStarts(c, find, EMPTY_BOOK, t, uris, now).0.index <==> NewStart(c, find, t, uris, n)
    {
      StartsList(c, find, EMPTY_BOOK, t, uris, now, n);
    }
  }

  /** The list that the tasks start with is right if and only if no start URI of a
      domain with a stored record leads to a resource that has no row yet. */
  lemma StartIndexExactly(c: Settings, find: Uri -> Option<Uri>, t: Table, uris: seq<Uri>, stored: seq<StoredDomain>,
          names: seq<Name>, now: real)
    ensures Agree(ListAll(Restore(AddStarts(c, find, EMPTY_BOOK, t, uris, now).0, stored, now), names))
        <==> NoNewStartStored(c, find, t, uris, stored)
  {
    var b := AddStarts(c, find, EMPTY_BOOK, t, uris, now).0;
    StoredNotListed(c, find, t, uris, stored, now);
    hide AddStarts, NoNewStartStored;
    if NoneListedStored(b, stored) {
      RestoreAgree(b, stored, now);
      ListAllAgree(Restore(b, stored, now), names);
    } else {
      var n :| n in b.index && Stored(stored, n);
      RestoreBreaks(b, stored, now, n);
      ListAllBreaks(Restore(b, stored, now), names, n);
      BrokenDisagrees(ListAll(Restore(b, stored, now), names), n);
    }
  }

  /** A crawler restarted with a new start URI of a domain that it crawled before
      begins with a list that is wrong. */
  lemma RestartWithNewUri(c: Settings, uri: Uri, t: Table, nextReq: real, streak: nat, names: seq<Name>, now: real)
    requires NameOf(c, uri) != [] && uri != T(PUBLIC_COLLECTION) && uri !in t
    ensures var stored := [StoredDomain(NameOf(c, uri), nextReq, streak, Unknown)];
            !Agree(ListAll(Restore(AddStarts(c, u => None, EMPTY_BOOK, t, [uri], now).0, stored, now), names))
  {
    var n := NameOf(c, uri);
    var stored := [StoredDomain(n, nextReq, streak, Unknown)];
    assert stored[0].name == n && Stored(stored, n);
    assert IsNew(c, t, Resolved(c, u => None, [uri][0]), n);
    assert NewStart(c, u => None, t, [uri], n);
    StartIndexExactly(c, u => None, t, [uri], stored, names, now);
  }

  // --------------------------------------------------------- the starting state

  /** The state in which the tasks begin, with `table` as the database left it
      and `names` the domains of its waiting rows. */
  function StartState(c: Settings, find: Uri -> Option<Uri>, table: Table, uris: seq<Uri>, stored: seq<StoredDomain>,
          names: seq<Name>, now: real): State {
    var (b, t) := AddStarts(c, find, EMPTY_BOOK, Recover(table), uris, now);
    var book := ListAll(Restore(b, stored, now), names);
    State(now, book, t, EmptyStores(c.queueSize), Idle, map[],
          History([], map[], set n | n in book.domains && book.domains[n].failStreak > 0, map[], map[]))
  }

  lemma {:induction false} StartRows(c: Settings, find: Uri -> Option<Uri>, b: Book, t: Table, uris: seq<Uri>,
          now: real)
    requires NamedRows(c, t) && forall u :: u in t ==> !IsProcessing(t[u].state)
    ensures var t' := AddStarts(c, find, b, t, uris, now).1;
            NamedRows(c, t') && forall u :: u in t' ==> !IsProcessing(t'[u].state)
    decreases uris
  {
    if uris != [] {
      hide NoteWaiting, Ensure;
      var uri := Resolved(c, find, uris[0]);
      var (b1, t1) := if NameOf(c, uri) == [] then (b, t) else AddStart(c, b, t, uri, now);
      StartRows(c, find, b1, t1, uris[1..], now);
    }
  }

  /** Every property of runs applies from the starting state, provided the rows
      carry the domain of their resource and no stored domain has a new start URI. */
  lemma StartIsRight(c: Settings, find: Uri -> Option<Uri>, table: Table, uris: seq<Uri>, stored: seq<StoredDomain>,
          names: seq<Name>, now: real)
    requires NamedRows(c, table)
    requires NoNewStartStored(c, find, Recover(table), uris, stored)
    ensures var s := StartState(c, find, table, uris, stored, names, now);
            IndexInv(c, s) && RowsInv(c, s) && OriginInv(s) && InsertsOk(s) && FreshHistory(s)
  {
    var s := StartState(c, find, table, uris, stored, names, now);
    StartIndexExactly(c, find, Recover(table), uris, stored, names, now);
    StoredNotListed(c, find, Recover(table), uris, stored, now);
    RestoreAgree(AddStarts(c, find, EMPTY_BOOK, Recover(table), uris, now).0, stored, now);
    ListAllAgree(Restore(AddStarts(c, find, EMPTY_BOOK, Recover(table), uris, now).0, stored, now), names);
    StartRows(c, find, EMPTY_BOOK, Recover(table), uris, now);
    hide Agree, AddStarts, Restore, ListAll, Recover;
    EmptyIsRight(c, s);
  }

  lemma EmptyIsRight(c: Settings, s: State)
    requires Agree(s.book) && Unscheduled(s.book) && NamedRows(c, s.table)
    requires forall u :: u in s.table ==> !IsProcessing(s.table[u].state)
    requires s.queue == EmptyStores(c.queueSize) && s.sched.Idle? && s.tasks == map[]
    ensures IndexInv(c, s) && RowsInv(c, s) && OriginInv(s) && InsertsOk(s)
  {
    EmptyConserved(c.queueSize);
    forall n ensures SlotsAt(c, s, n) {}
    forall u ensures !Held(s, u) && OriginAt(s, u) {}
  }
}

/** What the crawler does before it creates its tasks, step by step on its
    objects; the result is the starting state of the step machine. */
module CrawlerSetup {
  import opened Common
  import opened DomainIndex
  import opened ScheduleStores
  import opened RowTable
  import opened CrawlerModel
  import opened CrawlerStart
  import opened ScheduleQueueObject
  import opened CrawlerObject
  import opened FifoQueueObject

  /** `add_if_not_visited(uri, netloc, True)` while nothing else runs. */
  method AddStartUri(k: Crawler, q: FifoQueue, uri: Uri, now: real)
    requires k.Valid()
    modifies k, k.domains.Values, q
    ensures k.Valid() && (k.Model(), q.rows) == AddStart(k.c, old(k.Model()), old(q.rows), uri, now)
    ensures fresh(k.Records() - old(k.Records()))
  {
    hide NoteWaiting, Ensure, InsertRow, T;
    if uri == T(PUBLIC_COLLECTION) { return; }
    var n := NameOf(k.c, uri);
    var d := k.GetDomain(n, now);
    var state := if d.Down() then BLOCKED else WAITING_PRIORITY;
    assert k.Model().domains[n] == d.Rec();
    var inserted := q.Insert(uri, n, state, k.c.minUpdate, None, now);
    if inserted { k.NoteNewRow(n); }
  }

  /** The loop over the start URIs; `find` is the WebFinger lookup. */
  method AddStartUris(k: Crawler, q: FifoQueue, find: Uri -> Option<Uri>, uris: seq<Uri>, now: real)
    requires k.Valid()
    modifies k, k.domains.Values, q
    ensures k.Valid() && (k.Model(), q.rows) == AddStarts(k.c, find, old(k.Model()), old(q.rows), uris, now)
    ensures fresh(k.Records() - old(k.Records()))
  {
    hide AddStart;
    assert uris[0..] == uris;
    for i := 0 to |uris|
      invariant k.Valid() && fresh(k.Records() - old(k.Records()))
      invariant AddStarts(k.c, find, k.Model(), q.rows, uris[i..], now)
          == AddStarts(k.c, find, old(k.Model()), old(q.rows), uris, now)
    {
      assert uris[i..][0] == uris[i] && uris[i..][1..] == uris[i + 1..];
      var uri := uris[i];
      if NameOf(k.c, uri) == [] {
        var found := find(uri);
        if found.Some? { uri := found.value; }
      }
      if NameOf(k.c, uri) != [] { AddStartUri(k, q, uri, now); }
    }
    assert uris[|uris|..] == [];
  }

  /** The stored domains replace the records made so far. */
  method RestoreDomains(k: Crawler, stored: seq<StoredDomain>, now: real)
    requires k.Valid()
    modifies k
    ensures k.Valid() && k.Model() == Restore(old(k.Model()), stored, now)
    ensures fresh(k.Records() - old(k.Records()))
  {
    assert stored[0..] == stored;
    for i := 0 to |stored|
      invariant k.Valid() && fresh(k.Records() - old(k.Records()))
      invariant Restore(k.Model(), stored[i..], now) == Restore(old(k.Model()), stored, now)
    {
      assert stored[i..][0] == stored[i] && stored[i..][1..] == stored[i + 1..];
      RestoreDomain(k, stored[i], now);
    }
    assert stored[|stored|..] == [];
  }

  method RestoreDomain(k: Crawler, d: StoredDomain, now: real)
    requires k.Valid()
    modifies k
    ensures k.Valid() && fresh(k.Records() - old(k.Records()))
    ensures k.Model() == old(k.Model()).(domains := old(k.Model()).domains[d.name := NewDomain(d.nextReq,
        d.failStreak, d.state, now)])
  {
    var created := new Domain(d.nextReq, d.failStreak, d.state, now);
    k.domains := k.domains[d.name := created];
    hide NewDomain;
    assert forall x :: x in k.domains.Values ==> x in old(k.domains).Values || x == created;
    assert k.Model().domains == old(k.Model()).domains[d.name := created.Rec()];
  }

  /** The domains with waiting rows are listed. */
  method ListWaitingDomains(k: Crawler, names: seq<Name>, now: real)
    requires k.Valid()
    modifies k, k.domains.Values
    ensures k.Valid() && k.Model() == ListAll(old(k.Model()), names)
    ensures fresh(k.Records() - old(k.Records()))
  {
    hide ListWaiting;
    assert names[0..] == names;
    for i := 0 to |names|
      invariant k.Valid() && fresh(k.Records() - old(k.Records()))
      invariant ListAll(k.Model(), names[i..]) == ListAll(old(k.Model()), names)
    {
      assert names[i..][0] == names[i] && names[i..][1..] == names[i + 1..];
      ListDomain(k, names[i], now);
    }
    assert names[|names|..] == [];
  }

  method ListDomain(k: Crawler, n: Name, now: real)
    requires k.Valid()
    modifies k, k.domains.Values
    ensures k.Valid() && k.Model() == ListWaiting(old(k.Model()), n)
    ensures fresh(k.Records() - old(k.Records()))
  {
    hide Ensure;
    var d := k.GetDomain(n, now);
    assert k.Model().domains[n] == d.Rec();
    if !d.Down() {
      k.SetWaiting(n, true);
      if !d.notScheduled { k.Enlist(n); }
    }
  }

  /** All of it, from opening the database to the moment the tasks begin: the
      objects hold the starting state of the step machine. */
  method Start(c: Settings, q: FifoQueue, find: Uri -> Option<Uri>, uris: seq<Uri>, stored: seq<StoredDomain>,
          now: real)
    returns (k: Crawler, items: ScheduleQueue, names: seq<Name>)
    modifies q
    ensures k.Valid() && k.c == c && NoDup(names)
    ensures forall n :: n in names <==> exists u :: u in q.rows && IsWaiting(q.rows[u].state) && q.rows[u].domain == n
    ensures var s := StartState(c, find, old(q.rows), uris, stored, names, now);
            k.Model() == s.book && q.rows == s.table && items.Model() == s.queue
  {
    hide AddStarts, Restore, ListAll, Recover;
    q.Setup();
    k := new Crawler(c);
    items := new ScheduleQueue(c.queueSize);
    AddStartUris(k, q, find, uris, now);
    RestoreDomains(k, stored, now);
    names := q.GetWaitingDomains();
    ListWaitingDomains(k, names, now);
  }
}

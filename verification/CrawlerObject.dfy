/** The crawler's domain records and list of unscheduled domains, changed in
    place between suspension points. Each method has the effect of the function
    that the step machine uses for the same segment. */
module CrawlerObject {
  import opened Common
  import opened DomainIndex
  import opened ScheduleStores
  import opened RowTable
  import opened Backoff
  import opened CrawlerModel
  import opened ScheduleQueueObject

  class Crawler {
    const c: Settings
    var domains: map<Name, Domain>
    var notScheduled: seq<Name>
    var raised: bool  // a `list.remove` met a list without the name

    constructor (c: Settings)
      ensures this.c == c && Valid() && domains == map[] && Model() == Book(map[], [], false)
    {
      this.c := c;
      domains := map[];
      notScheduled := [];
      raised := false;
    }

    /** Different names have different records. */
    ghost predicate Valid()
      reads this
    {
      forall m, n :: m in domains && n in domains && m != n ==> domains[m] != domains[n]
    }

    ghost function Model(): Book
      reads this, domains.Values
    {
      Book(map n | n in domains :: domains[n].Rec(), notScheduled, raised)
    }

    ghost function Records(): set<Domain>
      reads this
    {
      domains.Values
    }

    /** Only the record of `n` may have changed. */
    twostate predicate OnlyRecord(n: Name)
      reads this, domains.Values
    {
      && domains == old(domains) && n in domains && Valid()
      && forall m :: m in domains && m != n ==> domains[m].Rec() == old(domains[m].Rec())
    }

    twostate lemma RecordChanged(n: Name)
      requires OnlyRecord(n)
      ensures Model().domains == old(Model()).domains[n := domains[n].Rec()]
    {
    }

    method GetDomain(n: Name, now: real) returns (d: Domain)
      requires Valid()
      modifies this
      ensures Valid() && Model() == Ensure(old(Model()), n)
      ensures n in domains && d == domains[n] && fresh(Records() - old(Records()))
      ensures forall m :: m in old(domains) ==> m in domains && domains[m] == old(domains[m])
    {
      if n !in domains { AddDomain(n, now); }
      d := domains[n];
    }

    method AddDomain(n: Name, now: real)
      requires Valid() && n !in domains
      modifies this
      ensures Valid() && n in domains && Model() == Ensure(old(Model()), n)
      ensures fresh(domains[n]) && domains == old(domains)[n := domains[n]]
      ensures fresh(Records() - old(Records()))
    {
      var created := new Domain(0.0, 0, Unknown, now);
      domains := domains[n := created];
      assert forall x :: x in domains.Values ==> x in old(domains.Values) || x == created;
      assert Model().domains == old(Model().domains)[n := FRESH];
    }

    method Enlist(n: Name)
      requires Valid() && n in domains
      modifies this, domains[n]
      ensures Valid() && domains == old(domains) && Model() == DomainIndex.Enlist(old(Model()), n)
    {
      notScheduled := notScheduled + [n];
      domains[n].notScheduled := true;
      RecordChanged(n);
    }

    method Delist(n: Name)
      requires Valid() && n in domains
      modifies this, domains[n]
      ensures Valid() && domains == old(domains) && Model() == DomainIndex.Delist(old(Model()), n)
    {
      raised := raised || n !in notScheduled;
      notScheduled := RemoveFirst(notScheduled, n);
      domains[n].notScheduled := false;
      RecordChanged(n);
    }

    method SetWaiting(n: Name, w: bool)
      requires Valid() && n in domains
      modifies domains[n]
      ensures Valid() && Model() == DomainIndex.SetWaiting(old(Model()), n, w)
    {
      domains[n].hasWaiting := w;
      RecordChanged(n);
    }

    method AddScheduled(n: Name, k: int)
      requires Valid() && n in domains
      modifies domains[n]
      ensures Valid() && Model() == DomainIndex.AddScheduled(old(Model()), n, k)
    {
      domains[n].scheduledItems := domains[n].scheduledItems + k;
      RecordChanged(n);
    }

    method TempCheck(n: Name, now: real) returns (r: bool)
      requires Valid() && n in domains
      modifies domains[n]
      ensures Valid() && Model() == DomainIndex.TempCheck(old(Model()), n, now)
      ensures r == Model().domains[n].tempUnreachable
    {
      r := domains[n].IsTempUnreachable(now);
      RecordChanged(n);
    }

    /** The second part of `add_if_not_visited`, when its row was new. */
    method NoteNewRow(n: Name)
      requires Valid() && n in domains
      modifies this, domains[n]
      ensures Valid() && domains == old(domains) && Model() == NoteWaiting(old(Model()), n)
    {
      if !domains[n].Down() {
        SetWaiting(n, true);
        if domains[n].scheduledItems == 0 && !domains[n].notScheduled { Enlist(n); }
      }
    }

    /** `_is_domain_ok_for_scheduling` */
    method IsDomainOk(n: Name, now: real) returns (ok: bool)
      requires Valid() && n in domains
      modifies this, domains[n]
      ensures Valid() && domains == old(domains)
      ensures (Model(), ok) == CheckForScheduling(old(Model()), n, c.maxPerDomain, now)
    {
      var unreachable := TempCheck(n, now);
      if unreachable { return false; }
      if domains[n].Down() {
        if domains[n].notScheduled { Delist(n); }
        SetWaiting(n, false);
        return false;
      }
      if domains[n].scheduledItems > 0 && domains[n].notScheduled { Delist(n); }
      return domains[n].scheduledItems < c.maxPerDomain;
    }

    /** The selection loop of `_schedule_random_from_domain`, over the list as it
        shrinks. */
    method SelectDomains(now: real) returns (chosen: seq<Name>)
      requires Valid() && Listed(Model())
      modifies this, domains.Values
      ensures Valid() && domains == old(domains)
      ensures (Model(), chosen) == SelectFrom(old(Model()), 0, [], c.maxPerDomain, c.domainChunk, now)
    {
      hide CheckForScheduling;
      chosen := [];
      var i := 0;
      while i < |notScheduled|
        invariant Valid() && domains == old(domains) && Listed(Model()) && 0 <= i
        invariant SelectFrom(Model(), i, chosen, c.maxPerDomain, c.domainChunk, now)
               == SelectFrom(old(Model()), 0, [], c.maxPerDomain, c.domainChunk, now)
        decreases |notScheduled| - i
      {
        ghost var b := Model();
        var n := notScheduled[i];
        assert n in b.index;
        CheckListed(b, n, c.maxPerDomain, now);
        var ok := IsDomainOk(n, now);
        if ok { chosen := chosen + [n]; }
        if |chosen| >= c.domainChunk { return; }
        i := i + 1;
      }
    }

    /** The loop over the per-domain answers. */
    method CollectItems(names: seq<Name>, got: map<Name, seq<Item>>, now: real) returns (items: seq<Item>)
      requires Valid()
      modifies this, domains.Values
      ensures Valid() && Model() == Collect(old(Model()), names, got).0 && items == Collect(old(Model()), names, got).1
      ensures fresh(Records() - old(Records()))
    {
      hide CollectOne, PriorityPrefix, Collect, Valid, Model;
      items := [];
      ghost var whole := Collect(Model(), names, got);
      assert names[0..] == names;
      for k := 0 to |names|
        invariant Valid() && fresh(Records() - old(Records()))
        invariant whole.0 == Collect(Model(), names[k..], got).0
        invariant whole.1 == items + Collect(Model(), names[k..], got).1
      {
        CollectNext(Model(), names, k, got);
        var answer := if names[k] in got then got[names[k]] else [];
        var priority := CollectAnswer(names[k], answer, now);
        items := items + priority;
      }
      assert names[|names|..] == [];
      CollectNothing(Model(), got);
    }

    /** One round of that loop. */
    method CollectAnswer(n: Name, answer: seq<Item>, now: real) returns (items: seq<Item>)
      requires Valid()
      modifies this, domains.Values
      ensures Valid() && Model() == CollectOne(old(Model()), n, answer) && items == PriorityPrefix(answer)
      ensures fresh(Records() - old(Records()))
    {
      hide MarkEmpty, Ensure;
      items := TakePriority(answer);
      if answer == [] {
        var d := GetDomain(n, now);
        NoWaitingRows(n);
      }
    }

    /** A per-domain query found nothing. */
    method NoWaitingRows(n: Name)
      requires Valid() && n in domains
      modifies this, domains[n]
      ensures Valid() && domains == old(domains) && Model() == MarkEmpty(old(Model()), n)
    {
      SetWaiting(n, false);
      if domains[n].notScheduled { Delist(n); }
    }

    /** `_schedule_items` for one item, up to its first suspension. */
    method ConsiderItem(n: Name, now: real) returns (what: Decision)
      requires Valid()
      modifies this, domains.Values
      ensures Valid() && (Model(), what) == Consider(c, old(Model()), n, now)
      ensures fresh(Records() - old(Records()))
    {
      hide TakeSlot, Ensure;
      var d := GetDomain(n, now);
      if d.Down() { return BlockItem; }
      var unreachable := TempCheck(n, now);
      if unreachable || d.scheduledItems >= c.maxPerDomain { return SkipItem; }
      TakeItem(n);
      return ScheduleItem;
    }

    /** An item is counted in. */
    method TakeItem(n: Name)
      requires Valid() && n in domains
      modifies this, domains[n]
      ensures Valid() && domains == old(domains) && Model() == TakeSlot(old(Model()), n)
    {
      if domains[n].scheduledItems == 0 && domains[n].notScheduled { Delist(n); }
      AddScheduled(n, 1);
    }

    /** A fetch task received an item. */
    method ReleaseItem(n: Name)
      requires Valid() && n in domains
      modifies this, domains[n]
      ensures Valid() && domains == old(domains) && Model() == ReleaseSlot(old(Model()), n)
    {
      AddScheduled(n, -1);
      if domains[n].scheduledItems == 0 && !domains[n].notScheduled {
        if domains[n].hasWaiting { Enlist(n); }
      }
    }

    /** `_fetch` and `_fetch_single` from receiving an item to the first suspension. */
    method AdmitItem(n: Name, now: real) returns (what: Admission)
      requires Valid()
      modifies this, domains.Values
      ensures Valid() && (Model(), what) == Admit(c, old(Model()), n, now)
      ensures forall m :: m in old(domains) ==> m in domains && domains[m] == old(domains[m])
      ensures fresh(Records() - old(Records()))
    {
      hide ReleaseSlot, Ensure, Valid, CrawlerModel.TestAndReserve, Model;
      var d := GetDomain(n, now);
      ReleaseItem(n);
      what := TestAndReserve(n, now);
    }

    /** `_fetch_single` up to its first suspension. */
    method TestAndReserve(n: Name, now: real) returns (what: Admission)
      requires Valid() && n in domains
      modifies domains[n]
      ensures Valid() && (Model(), what) == CrawlerModel.TestAndReserve(c, old(Model()), n, now)
    {
      var d := domains[n];
      if d.Down() { return GiveUp; }
      var unreachable := TempCheck(n, now);
      if unreachable { return PutBack; }
      what := Go(d.nextReq, d.failStreak);
      Reserve(n, now);
    }

    method Reserve(n: Name, now: real)
      requires Valid() && n in domains
      modifies domains[n]
      ensures Valid()
      ensures var d := old(Model()).domains[n];
              var reserved := if d.nextReq >= now + c.requestPeriod then d.nextReq else now + c.requestPeriod;
              Model() == old(Model()).(domains := old(Model()).domains[n := d.(nextReq := reserved)])
    {
      var d := domains[n];
      d.nextReq := if d.nextReq >= now + c.requestPeriod then d.nextReq else now + c.requestPeriod;
      RecordChanged(n);
    }

    /** A fetch succeeded. */
    method NoteFetched(n: Name)
      requires Valid() && n in domains
      modifies domains[n]
      ensures Valid()
      ensures Model() == Success(old(Model()), n)
    {
      var d := domains[n];
      d.fetchedItems := d.fetchedItems + 1;
      if d.failStreak > 0 { d.failStreak := 0; }
      RecordChanged(n);
    }

    /** A fetch failed for now: it counts only if it began under the current streak. */
    method NoteTemporaryFailure(n: Name, oldNextReq: real, oldFailStreak: nat, now: real) returns (what: Verdict)
      requires Valid() && n in domains
      modifies domains[n]
      ensures Valid()
      ensures var (b, r) := TemporaryFailure(old(Model()), n, oldNextReq, oldFailStreak, now); Model() == b && what == r
    {
      var d := domains[n];
      if now < oldNextReq || oldFailStreak != d.failStreak { return NotCounted; }
      if d.failStreak >= RETRIES {
        d.state := Unreachable;
        what := GoneDown;
      } else {
        d.nextReq := now + RetryTimer(d.failStreak);
        d.failStreak := d.failStreak + 1;
        d.tempUnreachable := true;
        what := TryLater;
      }
      RecordChanged(n);
    }

    /** A fetch failed for good. */
    method NoteFailure(n: Name)
      requires Valid() && n in domains
      modifies domains[n]
      ensures Valid()
      ensures Model() == Failure(old(Model()), n)
    {
      var d := domains[n];
      d.failedItems := d.failedItems + 1;
      if d.failedItems >= 50 && d.failedItems as real / (d.failedItems + d.fetchedItems) as real > 0.5 {
        d.state := AutoBlocked;
      }
      HalfFailed(d.failedItems, d.fetchedItems);
      RecordChanged(n);
    }
  }

  /** Every slot refers to the crawler's record of its item's domain. */
  ghost predicate Linked(k: Crawler, s: seq<Slot>)
    reads k
  {
    forall x :: x in s ==> NameOf(k.c, x.item.uri) in k.domains && k.domains[NameOf(k.c, x.item.uri)] == x.domain
  }

  /** What slots say of readiness is what the records, looked up by name, say. */
  lemma LinkedTells(k: Crawler, s: seq<Slot>, now: real)
    requires Linked(k, s)
    ensures Tells(Ready(k.c, k.Model(), now), s, now)
  {
  }

  /** A fetch task takes the first ready item and reserves its domain's next
      request time, with nothing in between. */
  method FetchNext(k: Crawler, q: ScheduleQueue, now: real) returns (r: Option<(Item, Admission)>)
    requires k.Valid() && Linked(k, q.Slots())
    modifies k, k.domains.Values, q
    ensures k.Valid() && Linked(k, q.Slots())
    ensures q.Model() == Rounds(old(q.Model()), Ready(k.c, old(k.Model()), now)).0
    ensures match Rounds(old(q.Model()), Ready(k.c, old(k.Model()), now)).1
            case None => r.None? && k.Model() == old(k.Model())
            case Some(item) =>
                r.Some? && r.value.0 == item
                && (k.Model(), r.value.1) == Admit(k.c, old(k.Model()), NameOf(k.c, item.uri), now)
  {
    hide Rounds, Admit;
    LinkedTells(k, q.ready, now);
    var x := q.GetFirstAvailable(now, Ready(k.c, k.Model(), now));
    if x.None? { return None; }
    var what := k.AdmitItem(NameOf(k.c, x.value.item.uri), now);
    return Some((x.value.item, what));
  }

  /** One round over what waits, with the readiness of this moment. */
  method TrackNow(k: Crawler, q: ScheduleQueue, now: real)
    requires k.Valid() && Linked(k, q.Slots())
    modifies q
    ensures Linked(k, q.Slots())
    ensures q.Model() == Pass(old(q.Model()), Ready(k.c, k.Model(), now))
  {
    hide Pass;
    LinkedTells(k, q.unavailable, now);
    LinkedTells(k, q.waiting, now);
    q.TrackWaiting(now, Ready(k.c, k.Model(), now));
  }

  /** `failed / (failed + fetched) > 0.5`, without the division. */
  lemma HalfFailed(failed: nat, fetched: nat)
    requires failed > 0
    ensures failed as real / (failed + fetched) as real > 0.5 <==> failed > fetched
  {
    assert (failed + fetched) as real == failed as real + fetched as real;
    OverHalf(failed as real, fetched as real);
  }

  lemma OverHalf(x: real, y: real)
    requires x > 0.0 && y >= 0.0
    ensures x / (x + y) > 0.5 <==> x > y
  {
    assert x / (x + y) * (x + y) == x;
    OverHalfProduct(x / (x + y), x + y, x);
  }

  lemma OverHalfProduct(q: real, all: real, x: real)
    requires all > 0.0 && q * all == x
    ensures q > 0.5 <==> x > 0.5 * all
  {
    if q > 0.5 { Scale(q, 0.5, all); } else if q < 0.5 { Scale(0.5, q, all); }
  }

  lemma Scale(a: real, b: real, all: real)
    requires a > b && all > 0.0
    ensures a * all > b * all
  {
    assert (a - b) * all > 0.0;
    assert (a - b) * all == a * all - b * all;
  }

  /** The round of `Collect` for the answer of one domain. */
  function CollectOne(b: Book, n: Name, answer: seq<Item>): Book {
    if answer == [] then MarkEmpty(Ensure(b, n), n) else b
  }

  lemma CollectNothing(b: Book, got: map<Name, seq<Item>>)
    ensures Collect(b, [], got) == (b, [])
  {
  }

  lemma CollectNext(b: Book, names: seq<Name>, k: nat, got: map<Name, seq<Item>>)
    requires k < |names|
    ensures var answer := if names[k] in got then got[names[k]] else [];
            var (b', items) := Collect(CollectOne(b, names[k], answer), names[k + 1..], got);
            Collect(b, names[k..], got) == (b', PriorityPrefix(answer) + items)
  {
    assert names[k..][0] == names[k] && names[k..][1..] == names[k + 1..];
  }

  lemma CheckListed(b: Book, n: Name, maxPerDomain: nat, t: real)
    requires Listed(b) && n in b.domains
    ensures Listed(CheckForScheduling(b, n, maxPerDomain, t).0)
    ensures |CheckForScheduling(b, n, maxPerDomain, t).0.index| <= |b.index|
  {
    RemoveFirstSubset(b.index, n);
  }

  /** The rows of one answer before the first without priority. */
  method TakePriority(answer: seq<Item>) returns (items: seq<Item>)
    ensures items == PriorityPrefix(answer)
  {
    items := [];
    for k := 0 to |answer|
      invariant PriorityPrefix(answer) == items + PriorityPrefix(answer[k..])
    {
      assert answer[k..][0] == answer[k] && answer[k..][1..] == answer[k + 1..];
      if answer[k].state == WAITING { return; }
      items := items + [answer[k]];
    }
  }
}

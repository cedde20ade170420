/** The crawler's per-domain records and its list of domains that have waiting
    work and nothing scheduled. */
module DomainIndex {
  import opened Common

  type Name = Text

  datatype DomainState = Safe | Unknown | Unreachable | AutoBlocked | Blocked

  datatype DomainRec = DomainRec(
    nextReq: real,
    failStreak: nat,
    tempUnreachable: bool,
    state: DomainState,
    scheduledItems: int,
    failedItems: nat,
    fetchedItems: nat,
    hasWaiting: bool,
    notScheduled: bool)
  {
    /** `state > DomainState.Unknown` */
    predicate Down() {
      state.Unreachable? || state.AutoBlocked? || state.Blocked?
    }

    /** The record after `is_temp_unreachable()`; its flag is the returned value. */
    function AfterTempCheck(t: real): DomainRec {
      if tempUnreachable && nextReq < t then this.(tempUnreachable := false) else this
    }

    /** The test that lets a queued item be handed out. */
    predicate ReadyAt(t: real) {
      nextReq < t || tempUnreachable || Down()
    }
  }

  /** `Domain(next_req, fail_streak, state)` constructed at time `t`. */
  function NewDomain(nextReq: real, failStreak: nat, state: DomainState, t: real): DomainRec {
    DomainRec(nextReq, failStreak, failStreak > 0 && nextReq > t, state, 0, 0, 0, false, false)
  }

  /** `Domain()` */
  const FRESH := DomainRec(0.0, 0, false, Unknown, 0, 0, 0, false, false)

  /** The `domains` dictionary and the `not_scheduled_domains` list. `raised`
      records that a `list.remove` met a list without the element. */
  datatype Book = Book(domains: map<Name, DomainRec>, index: seq<Name>, raised: bool)

  function Ensure(b: Book, n: Name): Book {
    if n in b.domains then b else b.(domains := b.domains[n := FRESH])
  }

  function Enlist(b: Book, n: Name): Book
    requires n in b.domains
  {
    b.(index := b.index + [n], domains := b.domains[n := b.domains[n].(notScheduled := true)])
  }

  function Delist(b: Book, n: Name): Book
    requires n in b.domains
  {
    b.(index := RemoveFirst(b.index, n), raised := b.raised || n !in b.index,
       domains := b.domains[n := b.domains[n].(notScheduled := false)])
  }

  function SetWaiting(b: Book, n: Name, w: bool): Book
    requires n in b.domains
  {
    b.(domains := b.domains[n := b.domains[n].(hasWaiting := w)])
  }

  function AddScheduled(b: Book, n: Name, k: int): Book
    requires n in b.domains
  {
    b.(domains := b.domains[n := b.domains[n].(scheduledItems := b.domains[n].scheduledItems + k)])
  }

  /** A new row of domain `n` was inserted by `add_if_not_visited`. */
  function NoteWaiting(b: Book, n: Name): Book
    requires n in b.domains
  {
    if b.domains[n].Down() then b
    else
      var b1 := SetWaiting(b, n, true);
      if b1.domains[n].scheduledItems == 0 && !b1.domains[n].notScheduled then Enlist(b1, n) else b1
  }

  function TempCheck(b: Book, n: Name, t: real): Book
    requires n in b.domains
  {
    b.(domains := b.domains[n := b.domains[n].AfterTempCheck(t)])
  }

  /** `_is_domain_ok_for_scheduling` */
  function CheckForScheduling(b: Book, n: Name, maxPerDomain: nat, t: real): (Book, bool)
    requires n in b.domains
  {
    var b1 := TempCheck(b, n, t);
    if b1.domains[n].tempUnreachable then (b1, false)
    else if b1.domains[n].Down() then
      var b2 := if b1.domains[n].notScheduled then Delist(b1, n) else b1;
      (SetWaiting(b2, n, false), false)
    else
      var b2 := if b1.domains[n].scheduledItems > 0 && b1.domains[n].notScheduled then Delist(b1, n) else b1;
      (b2, b2.domains[n].scheduledItems < maxPerDomain)
  }

  /** Every listed name is a known domain. */
  ghost predicate Listed(b: Book) {
    forall n :: n in b.index ==> n in b.domains
  }

  /** The selection loop of `_schedule_random_from_domain`, from position `i` of
      the list it walks while `CheckForScheduling` may shorten that list. */
  function SelectFrom(b: Book, i: nat, chosen: seq<Name>, maxPerDomain: nat, chunk: nat, t: real): (Book, seq<Name>)
    requires Listed(b)
    decreases |b.index| - i
  {
    if i >= |b.index| then (b, chosen)
    else
      var n := b.index[i];
      var (b1, ok) := CheckForScheduling(b, n, maxPerDomain, t);
      var chosen1 := if ok then chosen + [n] else chosen;
      RemoveFirstSubset(b.index, n);
      if |chosen1| >= chunk then (b1, chosen1)
      else SelectFrom(b1, i + 1, chosen1, maxPerDomain, chunk, t)
  }

  /** A per-domain query found no waiting row. */
  function MarkEmpty(b: Book, n: Name): Book
    requires n in b.domains
  {
    var b1 := SetWaiting(b, n, false);
    if b1.domains[n].notScheduled then Delist(b1, n) else b1
  }

  /** An item of domain `n` is about to be scheduled. */
  function TakeSlot(b: Book, n: Name): Book
    requires n in b.domains
  {
    var b1 := if b.domains[n].scheduledItems == 0 && b.domains[n].notScheduled then Delist(b, n) else b;
    AddScheduled(b1, n, 1)
  }

  /** A fetch task received an item of domain `n`. */
  function ReleaseSlot(b: Book, n: Name): Book
    requires n in b.domains
  {
    var b1 := AddScheduled(b, n, -1);
    if b1.domains[n].scheduledItems == 0 && !b1.domains[n].notScheduled && b1.domains[n].hasWaiting
    then Enlist(b1, n) else b1
  }

  lemma {:induction false} RemoveFirstSubset<T>(s: seq<T>, x: T)
    ensures forall y :: y in RemoveFirst(s, x) ==> y in s
    ensures |s| - 1 <= |RemoveFirst(s, x)| <= |s|
  {
    if s != [] && s[0] != x { RemoveFirstSubset(s[1..], x); }
  }

  // ---------------------------------------------------------------- agreement

  /** What the index list and the flags of domain `n` must say. */
  ghost predicate AgreeAt(b: Book, n: Name) {
    if n in b.domains then
      var d := b.domains[n];
      && (n in b.index <==> d.notScheduled)
      && (d.notScheduled <==> d.hasWaiting && d.scheduledItems == 0)
    else n !in b.index
  }

  /** The index has no duplicates and lists exactly the domains with waiting
      elements and nothing scheduled, which are exactly the flagged ones. */
  ghost predicate Agree(b: Book) {
    NoDup(b.index) && !b.raised && forall n :: AgreeAt(b, n)
  }

  /** Everything about domains other than `n` is as before. */
  ghost predicate OthersSame(b: Book, b': Book, n: Name) {
    && b'.domains.Keys == b.domains.Keys + {n}
    && forall m :: m != n ==> (m in b.index <==> m in b'.index) && (m in b.domains ==> b'.domains[m] == b.domains[m])
  }

  lemma AgreeExcept(b: Book, b': Book, n: Name)
    requires Agree(b) && OthersSame(b, b', n) && NoDup(b'.index) && !b'.raised && AgreeAt(b', n)
    ensures Agree(b')
  {
    forall m ensures AgreeAt(b', m) {
      assert AgreeAt(b, m);
      if m != n { assert m in b.index <==> m in b'.index; }
    }
  }

  lemma DelistEffect(b: Book, n: Name)
    requires NoDup(b.index) && n in b.domains && n in b.index
    ensures NoDup(Delist(b, n).index) && n !in Delist(b, n).index && OthersSame(b, Delist(b, n), n)
    ensures Delist(b, n).raised == b.raised
  {
    RemoveFirstNoDup(b.index, n);
  }

  lemma EnsureAgree(b: Book, n: Name)
    requires Agree(b)
    ensures Agree(Ensure(b, n))
  {
    assert AgreeAt(b, n);
    if n !in b.domains { AgreeExcept(b, Ensure(b, n), n); }
  }

  lemma NoteWaitingAgree(b: Book, n: Name)
    requires Agree(b) && n in b.domains
    ensures Agree(NoteWaiting(b, n))
    ensures OthersSame(b, NoteWaiting(b, n), n)
  {
    assert AgreeAt(b, n);
    AgreeExcept(b, NoteWaiting(b, n), n);
  }

  /** `_is_domain_ok_for_scheduling` keeps the agreement, and the branch that
      removes a listed domain with scheduled items is never taken. */
  lemma CheckAgree(b: Book, n: Name, maxPerDomain: nat, t: real)
    requires Agree(b) && n in b.domains
    ensures Agree(CheckForScheduling(b, n, maxPerDomain, t).0)
    ensures OthersSame(b, CheckForScheduling(b, n, maxPerDomain, t).0, n)
    ensures !(b.domains[n].scheduledItems > 0 && b.domains[n].notScheduled)
  {
    assert AgreeAt(b, n);
    var b1 := TempCheck(b, n, t);
    if n in b.index { DelistEffect(b1, n); }
    AgreeExcept(b, CheckForScheduling(b, n, maxPerDomain, t).0, n);
  }

  lemma MarkEmptyAgree(b: Book, n: Name)
    requires Agree(b) && n in b.domains
    ensures Agree(MarkEmpty(b, n)) && OthersSame(b, MarkEmpty(b, n), n)
  {
    assert AgreeAt(b, n);
    if n in b.index { DelistEffect(SetWaiting(b, n, false), n); }
    AgreeExcept(b, MarkEmpty(b, n), n);
  }

  lemma TakeSlotAgree(b: Book, n: Name)
    requires Agree(b) && n in b.domains && b.domains[n].scheduledItems >= 0
    ensures Agree(TakeSlot(b, n)) && OthersSame(b, TakeSlot(b, n), n)
  {
    assert AgreeAt(b, n);
    if n in b.index { DelistEffect(b, n); }
    AgreeExcept(b, TakeSlot(b, n), n);
  }

  lemma ReleaseSlotAgree(b: Book, n: Name)
    requires Agree(b) && n in b.domains && b.domains[n].scheduledItems > 0
    ensures Agree(ReleaseSlot(b, n)) && OthersSame(b, ReleaseSlot(b, n), n)
  {
    assert AgreeAt(b, n);
    AgreeExcept(b, ReleaseSlot(b, n), n);
  }

  /** Facts about timing and counters that the scheduler's bookkeeping never changes. */
  ghost predicate SameClocks(b: Book, b': Book) {
    && b.domains.Keys <= b'.domains.Keys
    && forall m :: m in b.domains ==>
                     && b'.domains[m].nextReq == b.domains[m].nextReq
                     && b'.domains[m].failStreak == b.domains[m].failStreak
                     && b'.domains[m].state == b.domains[m].state
  }

  ghost predicate SameSlots(b: Book, b': Book) {
    && b.domains.Keys <= b'.domains.Keys
    && forall m :: m in b.domains ==> b'.domains[m].scheduledItems == b.domains[m].scheduledItems
  }

  /** One round of the selection loop: what was chosen stays in front of the cursor. */
  lemma SelectStep(b: Book, i: nat, chosen: seq<Name>, maxPerDomain: nat, t: real)
    requires Agree(b) && i < |b.index|
    requires NoDup(chosen) && forall c :: c in chosen ==> c in b.index[..i]
    requires Listed(b)
    ensures var (b1, ok) := CheckForScheduling(b, b.index[i], maxPerDomain, t);
            var chosen1 := if ok then chosen + [b.index[i]] else chosen;
            && Agree(b1) && SameClocks(b, b1) && SameSlots(b, b1) && b1.domains.Keys == b.domains.Keys
            && i <= |b1.index| <= |b.index| && Listed(b1) && NoDup(chosen1)
            && forall c :: c in chosen1 ==> c in b1.index[..if i < |b1.index| then i + 1 else i]
  {
    var n := b.index[i];
    var (b1, ok) := CheckForScheduling(b, n, maxPerDomain, t);
    CheckAgree(b, n, maxPerDomain, t);
    assert n !in b.index[..i];
    assert forall m :: AgreeAt(b1, m);
    if b1.index != b.index {
      RemoveFirstCut(b.index, n, i);
      assert !ok && b1.index == b.index[..i] + b.index[i + 1..];
      assert b1.index[..i] == b.index[..i];
    }
    if i < |b1.index| { assert b1.index[..i + 1] == b1.index[..i] + [b1.index[i]]; }
  }

  /** The outcome of the selection loop that began with `b`. */
  ghost predicate Selected(b: Book, b': Book, r: seq<Name>) {
    && Agree(b') && SameClocks(b, b') && SameSlots(b, b')
    && b'.domains.Keys == b.domains.Keys
    && NoDup(r) && forall c :: c in r ==> c in b'.index
  }

  lemma SelectedTrans(b: Book, b1: Book, b': Book, r: seq<Name>)
    requires SameClocks(b, b1) && SameSlots(b, b1) && b1.domains.Keys == b.domains.Keys
    requires Selected(b1, b', r)
    ensures Selected(b, b', r)
  {
  }

  lemma SelectedNow(b: Book, b1: Book, k: nat, r: seq<Name>)
    requires SameClocks(b, b1) && SameSlots(b, b1) && b1.domains.Keys == b.domains.Keys && Agree(b1)
    requires k <= |b1.index| && NoDup(r) && forall c :: c in r ==> c in b1.index[..k]
    ensures Selected(b, b1, r)
  {
  }

  lemma KnownAt(b: Book, i: nat)
    requires Listed(b) && i < |b.index|
    ensures b.index[i] in b.domains
  {
  }

  lemma SameReflexive(b: Book)
    ensures SameClocks(b, b) && SameSlots(b, b)
  {
  }

  /** The selection loop keeps the agreement although the list shrinks under
      it, and chooses distinct listed domains. */
  lemma {:induction false} SelectAgree(b: Book, i: nat, chosen: seq<Name>, maxPerDomain: nat, chunk: nat, t: real)
    requires Agree(b) && i <= |b.index|
    requires NoDup(chosen) && forall c :: c in chosen ==> c in b.index[..i]
    requires Listed(b)
    ensures var (b', r) := SelectFrom(b, i, chosen, maxPerDomain, chunk, t); Selected(b, b', r)
    decreases |b.index| - i
  {
    hide CheckForScheduling, Agree, NoDup, Listed, Selected, SameClocks, SameSlots;
    SameReflexive(b);
    if i < |b.index| {
      var n := b.index[i];
      assert n in b.domains by { KnownAt(b, i); }
      var (b1, ok) := CheckForScheduling(b, n, maxPerDomain, t);
      var chosen1 := if ok then chosen + [n] else chosen;
      SelectStep(b, i, chosen, maxPerDomain, t);
      if |chosen1| < chunk && i < |b1.index| {
        SelectAgree(b1, i + 1, chosen1, maxPerDomain, chunk, t);
        var (b', r) := SelectFrom(b1, i + 1, chosen1, maxPerDomain, chunk, t);
        SelectedTrans(b, b1, b', r);
      } else {
        SelectedNow(b, b1, if i < |b1.index| then i + 1 else i, chosen1);
      }
    } else {
      SelectedNow(b, b, i, chosen);
    }
  }

  lemma ShuffleAgree(b: Book, order: seq<Name>)
    requires Agree(b) && Permutation(b.index, order)
    ensures Agree(b.(index := order))
  {
    PermutationNoDup(b.index, order);
    forall n ensures AgreeAt(b.(index := order), n) { assert AgreeAt(b, n); }
  }
}

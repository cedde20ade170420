/** Which domains the scheduler chooses from its list, while its own test takes
    names off that list. */
module Selection {
  import opened Common
  import opened DomainIndex

  /** The domain may be asked: it is up, not to be waited for any more, and has fewer
      items scheduled than allowed. */
  predicate Fit(d: DomainRec, maxPerDomain: nat, t: real) {
    && (d.state.Safe? || d.state.Unknown?)
    && (!d.tempUnreachable || d.nextReq < t)
    && d.scheduledItems < maxPerDomain
  }

  /** The test takes the domain off the list: it is down, and not to be waited for. */
  predicate Leaves(d: DomainRec, t: real) {
    && (d.state.Unreachable? || d.state.AutoBlocked? || d.state.Blocked?)
    && (!d.tempUnreachable || d.nextReq < t)
  }

  /** The test's answer, and what it leaves of the domain's record and of the list. */
  lemma CheckExactly(b: Book, n: Name, maxPerDomain: nat, t: real)
    requires Agree(b) && n in b.domains
    ensures var (b', ok) := CheckForScheduling(b, n, maxPerDomain, t);
            var d := b.domains[n];
            && (ok <==> Fit(d, maxPerDomain, t))
            && b'.domains == b.domains[n := d.(tempUnreachable := d.tempUnreachable && !(d.nextReq < t),
                hasWaiting := d.hasWaiting && !Leaves(d, t), notScheduled := d.notScheduled && !Leaves(d, t))]
            && b'.index == (if Leaves(d, t) then RemoveFirst(b.index, n) else b.index)
  {
    assert AgreeAt(b, n);
    hide RemoveFirst, Agree, AgreeAt, NoDup;
    var d := b.domains[n];
    if d.tempUnreachable && !(d.nextReq < t) {
    } else if d.Down() {
      if !d.notScheduled { assert RemoveFirst(b.index, n) == b.index; }
    } else {
      assert d.scheduledItems > 0 ==> !d.notScheduled;
    }
  }

  // ------------------------------------------------------------------ the walk

  ghost predicate Known(b: Book, names: seq<Name>) {
    forall n :: n in names ==> n in b.domains
  }

  /** The names the loop comes to: after one that leaves the list, the next one moves
      up into its place and is passed over. */
  ghost function Visited(b: Book, names: seq<Name>, t: real): seq<Name>
    requires Known(b, names)
  {
    if names == [] then []
    else if !Leaves(b.domains[names[0]], t) then [names[0]] + Visited(b, names[1..], t)
    else if |names| == 1 then names
    else [names[0]] + Visited(b, names[2..], t)
  }

  /** The fit ones among `names`, in order. */
  ghost function Fits(b: Book, names: seq<Name>, maxPerDomain: nat, t: real): seq<Name>
    requires Known(b, names)
  {
    if names == [] then []
    else (if Fit(b.domains[names[0]], maxPerDomain, t) then [names[0]] else []) + Fits(b, names[1..], maxPerDomain, t)
  }

  function First(s: seq<Name>, k: nat): seq<Name> { if |s| <= k then s else s[..k] }

  lemma {:induction false} VisitedKnown(b: Book, names: seq<Name>, t: real)
    requires Known(b, names)
    ensures Known(b, Visited(b, names, t)) && forall n :: n in Visited(b, names, t) ==> n in names
    decreases |names|
  {
    if names != [] {
      if !Leaves(b.domains[names[0]], t) { VisitedKnown(b, names[1..], t); }
      else if |names| > 1 { VisitedKnown(b, names[2..], t); }
    }
  }

  /** The loop has come to `names`, the rest of the list, whose records it has not
      touched yet. */
  ghost predicate Ahead(b0: Book, b: Book, i: nat, names: seq<Name>) {
    && i <= |b.index| && b.index[i..] == names && Agree(b) && Listed(b) && Known(b0, names)
    && forall n :: n in names ==> b.domains[n] == b0.domains[n]
  }

  lemma AheadNext(b0: Book, b: Book, i: nat, names: seq<Name>, maxPerDomain: nat, t: real)
    requires Ahead(b0, b, i, names) && names != []
    ensures i < |b.index| && b.index[i] == names[0] && names[0] in b.domains
    ensures var (b1, ok) := CheckForScheduling(b, names[0], maxPerDomain, t);
            var d := b0.domains[names[0]];
            && (ok <==> Fit(d, maxPerDomain, t)) && Listed(b1)
            && (if !Leaves(d, t) then Ahead(b0, b1, i + 1, names[1..])
                else if |names| > 1 then Ahead(b0, b1, i + 1, names[2..]) else i + 1 > |b1.index|)
  {
    var n := names[0];
    var (b1, ok) := CheckForScheduling(b, n, maxPerDomain, t);
    CheckExactly(b, n, maxPerDomain, t);
    CheckAgree(b, n, maxPerDomain, t);
    assert n == b.index[i] && n == b.index[i..][0];
    if Leaves(b0.domains[n], t) {
      assert n !in b.index[..i];
      RemoveFirstCut(b.index, n, i);
      assert b1.index == b.index[..i] + b.index[i + 1..];
      if |names| > 1 {
        assert b1.index[i + 1..] == b.index[i + 2..] == names[2..];
        assert forall m :: m in names[2..] ==> m in names && m != n;
      }
    } else {
      assert b1.index[i + 1..] == names[1..];
      assert forall m :: m in names[1..] ==> m in names && m != n;
    }
  }

  /** From any point of the loop on, it adds the first fit ones of those it will visit. */
  lemma {:induction false} SelectsVisited(b0: Book, b: Book, i: nat, names: seq<Name>, chosen: seq<Name>,
          maxPerDomain: nat, chunk: nat, t: real)
    requires Ahead(b0, b, i, names) && |chosen| < chunk
    ensures Known(b0, Visited(b0, names, t))
    ensures SelectFrom(b, i, chosen, maxPerDomain, chunk, t).1
        == chosen + First(Fits(b0, Visited(b0, names, t), maxPerDomain, t), chunk - |chosen|)
    decreases |names|
  {
    VisitedKnown(b0, names, t);
    if names != [] {
      AheadNext(b0, b, i, names, maxPerDomain, t);
      var n, d := names[0], b0.domains[names[0]];
      var (b1, ok) := CheckForScheduling(b, n, maxPerDomain, t);
      var chosen1 := if ok then chosen + [n] else chosen;
      var rest := if !Leaves(d, t) then names[1..] else if |names| > 1 then names[2..] else [];
      SelectUnfold(b, i, chosen, maxPerDomain, chunk, t);
      VisitedCons(b0, names, rest, t);
      VisitedKnown(b0, rest, t);
      var all, more := Visited(b0, names, t), Visited(b0, rest, t);
      FitsCons(b0, n, more, maxPerDomain, t);
      hide CheckForScheduling, Ahead, Listed, SelectFrom, Visited, Fits, Fit, First, Leaves, Known;
      if |chosen1| < chunk {
        if i + 1 > |b1.index| {
          assert rest == [] && |names| == 1;
          NothingVisited(b0, b1, i + 1, chosen1, maxPerDomain, chunk, t);
        } else {
          SelectsVisited(b0, b1, i + 1, rest, chosen1, maxPerDomain, chunk, t);
        }
      }
      FirstCons(chosen, n, ok, Fits(b0, more, maxPerDomain, t), chunk);
    } else {
      NothingVisited(b0, b, i, chosen, maxPerDomain, chunk, t);
    }
  }

  lemma NothingVisited(b0: Book, b: Book, i: nat, chosen: seq<Name>, maxPerDomain: nat, chunk: nat, t: real)
    requires i >= |b.index| && Listed(b)
    ensures SelectFrom(b, i, chosen, maxPerDomain, chunk, t).1 == chosen
    ensures forall k :: First(Fits(b0, Visited(b0, [], t), maxPerDomain, t), k) == []
  {
  }

  lemma SelectUnfold(b: Book, i: nat, chosen: seq<Name>, maxPerDomain: nat, chunk: nat, t: real)
    requires i < |b.index| && Listed(b)
    ensures var (b1, ok) := CheckForScheduling(b, b.index[i], maxPerDomain, t);
            var chosen1 := if ok then chosen + [b.index[i]] else chosen;
            Listed(b1) &&
            SelectFrom(b, i, chosen, maxPerDomain, chunk, t)
              == if |chosen1| >= chunk then (b1, chosen1) else SelectFrom(b1, i + 1, chosen1, maxPerDomain, chunk, t)
  {
    RemoveFirstSubset(b.index, b.index[i]);
  }

  lemma VisitedCons(b: Book, names: seq<Name>, rest: seq<Name>, t: real)
    requires Known(b, names) && names != []
    requires rest == if !Leaves(b.domains[names[0]], t) then names[1..] else if |names| > 1 then names[2..] else []
    ensures Known(b, rest) && Visited(b, names, t) == [names[0]] + Visited(b, rest, t)
  {
    assert forall m :: m in rest ==> m in names;
    if |names| == 1 { assert names == [names[0]] + []; }
  }

  lemma FirstCons(chosen: seq<Name>, n: Name, ok: bool, more: seq<Name>, chunk: nat)
    requires |chosen| < chunk
    ensures var chosen1 := if ok then chosen + [n] else chosen;
            chosen + First((if ok then [n] else []) + more, chunk - |chosen|)
            == if |chosen1| >= chunk then chosen1 else chosen1 + First(more, chunk - |chosen1|)
  {
  }

  lemma FitsCons(b: Book, n: Name, names: seq<Name>, maxPerDomain: nat, t: real)
    requires Known(b, [n] + names)
    ensures Known(b, names)
    ensures Fits(b, [n] + names, maxPerDomain, t)
        == (if Fit(b.domains[n], maxPerDomain, t) then [n] else []) + Fits(b, names, maxPerDomain, t)
  {
    assert ([n] + names)[1..] == names;
    assert forall m :: m in names ==> m in [n] + names;
  }

  // ------------------------------------------------------------------- theorems

  lemma KnownIndex(b: Book)
    requires Agree(b)
    ensures Known(b, b.index) && Listed(b)
  {
    forall n | n in b.index ensures n in b.domains { assert AgreeAt(b, n); }
  }

  /** The loop chooses the first fit domains, up to one chunk, of those it comes to. */
  lemma SelectedExactly(b: Book, maxPerDomain: nat, chunk: nat, t: real)
    requires Agree(b) && chunk > 0
    ensures Known(b, b.index) && Listed(b) && Known(b, Visited(b, b.index, t))
    ensures SelectFrom(b, 0, [], maxPerDomain, chunk, t).1
        == First(Fits(b, Visited(b, b.index, t), maxPerDomain, t), chunk)
  {
    KnownIndex(b);
    assert b.index[0..] == b.index;
    SelectsVisited(b, b, 0, b.index, [], maxPerDomain, chunk, t);
  }

  /** With a chunk of 0 the loop still tries one domain, and keeps it when it is fit. */
  lemma SelectedOfNone(b: Book, maxPerDomain: nat, t: real)
    requires Agree(b)
    ensures Known(b, b.index) && Listed(b)
    ensures SelectFrom(b, 0, [], maxPerDomain, 0, t).1
        == if b.index != [] && Fit(b.domains[b.index[0]], maxPerDomain, t) then [b.index[0]] else []
  {
    KnownIndex(b);
    if b.index != [] {
      CheckExactly(b, b.index[0], maxPerDomain, t);
      SelectUnfold(b, 0, [], maxPerDomain, 0, t);
      hide CheckForScheduling, SelectFrom, Agree, Fit;
    }
  }

  /** No fit domain stands right behind one that leaves the list when the loop comes
      to it, before `k` fit ones were found. */
  ghost predicate NonePassedOver(b: Book, names: seq<Name>, k: nat, maxPerDomain: nat, t: real)
    requires Known(b, names)
  {
    k > 0 && names != [] ==>
      if Leaves(b.domains[names[0]], t) then
        |names| > 1 ==> !Fit(b.domains[names[1]], maxPerDomain, t)
                        && NonePassedOver(b, names[2..], k, maxPerDomain, t)
      else NonePassedOver(b, names[1..], if Fit(b.domains[names[0]], maxPerDomain, t) then k - 1 else k, maxPerDomain,
          t)
  }

  lemma {:induction false} FitsAreNames(b: Book, names: seq<Name>, maxPerDomain: nat, t: real)
    requires Known(b, names)
    ensures forall n :: n in Fits(b, names, maxPerDomain, t) ==> n in names && Fit(b.domains[n], maxPerDomain, t)
    ensures forall n :: n in names && Fit(b.domains[n], maxPerDomain, t) ==> n in Fits(b, names, maxPerDomain, t)
  {
    if names != [] { FitsAreNames(b, names[1..], maxPerDomain, t); }
  }

  lemma {:induction false} PassedOver(b: Book, names: seq<Name>, k: nat, maxPerDomain: nat, t: real)
    requires Known(b, names) && NoDup(names)
    ensures Known(b, Visited(b, names, t))
    ensures First(Fits(b, Visited(b, names, t), maxPerDomain, t), k) == First(Fits(b, names, maxPerDomain, t), k)
        <==> NonePassedOver(b, names, k, maxPerDomain, t)
    decreases |names|
  {
    VisitedKnown(b, names, t);
    if names != [] && k > 0 {
      var n, d := names[0], b.domains[names[0]];
      var rest := if !Leaves(d, t) then names[1..] else if |names| > 1 then names[2..] else [];
      VisitedCons(b, names, rest, t);
      VisitedKnown(b, rest, t);
      var fit := Fit(d, maxPerDomain, t);
      var k1 := if fit then k - 1 else k;
      FitsCons(b, n, Visited(b, rest, t), maxPerDomain, t);
      assert names == [n] + names[1..];
      FitsCons(b, n, names[1..], maxPerDomain, t);
      var seen := Fits(b, Visited(b, rest, t), maxPerDomain, t);
      FirstSame(n, fit, seen, Fits(b, names[1..], maxPerDomain, t), k);
      if |rest| < |names| - 1 { NextPassed(b, names, rest, seen, k, maxPerDomain, t); }
      hide Visited, Fits, First, Fit, Known;
      PassedOver(b, rest, k1, maxPerDomain, t);
    }
  }

  lemma FirstSame(n: Name, fit: bool, a: seq<Name>, b: seq<Name>, k: nat)
    requires k > 0
    ensures var own := if fit then [n] else [];
            First(own + a, k) == First(own + b, k) <==>
            if fit then First(a, k - 1) == First(b, k - 1) else First(a, k) == First(b, k)
  {
    if fit {
      FirstHead(n, a, k);
      FirstHead(n, b, k);
      assert [n] + First(a, k - 1) == [n] + First(b, k - 1) ==> First(a, k - 1) == First(b, k - 1) by {
        assert ([n] + First(a, k - 1))[1..] == First(a, k - 1) && ([n] + First(b, k - 1))[1..] == First(b, k - 1);
      }
    } else {
      assert [] + a == a && [] + b == b;
    }
  }

  lemma FirstHead(n: Name, a: seq<Name>, k: nat)
    requires k > 0
    ensures First([n] + a, k) == [n] + First(a, k - 1)
  {
  }

  /** The domain behind one that leaves is passed over: what the loop finds differs
      when it is fit, and goes on the same when it is not. */
  lemma NextPassed(b: Book, names: seq<Name>, rest: seq<Name>, seen: seq<Name>, k: nat, maxPerDomain: nat, t: real)
    requires |names| > 1 && NoDup(names) && Known(b, names) && rest == names[2..] && k > 0
    requires Known(b, Visited(b, rest, t)) && seen == Fits(b, Visited(b, rest, t), maxPerDomain, t)
    ensures Known(b, rest)
    ensures Fit(b.domains[names[1]], maxPerDomain, t) ==>
              First(seen, k) != First(Fits(b, names[1..], maxPerDomain, t), k)
    ensures !Fit(b.domains[names[1]], maxPerDomain, t) ==>
              Fits(b, names[1..], maxPerDomain, t) == Fits(b, rest, maxPerDomain, t)
  {
    assert forall m :: m in rest ==> m in names;
    assert names[1..] == [names[1]] + rest;
    FitsCons(b, names[1], rest, maxPerDomain, t);
    if Fit(b.domains[names[1]], maxPerDomain, t) {
      FirstHead(names[1], Fits(b, rest, maxPerDomain, t), k);
      VisitedKnown(b, rest, t);
      FitsAreNames(b, Visited(b, rest, t), maxPerDomain, t);
      assert names[1] !in rest;
      assert names[1] !in seen;
      hide Fits, Visited, Fit;
      if First(seen, k) != [] { assert First(seen, k)[0] in seen; }
    }
  }

  /** The choice is the first chunk of the fit domains, in list order, if and only if
      none of those is passed over. */
  lemma FirstFitExactly(b: Book, maxPerDomain: nat, chunk: nat, t: real)
    requires Agree(b) && chunk > 0
    ensures Known(b, b.index) && Listed(b)
    ensures SelectFrom(b, 0, [], maxPerDomain, chunk, t).1 == First(Fits(b, b.index, maxPerDomain, t), chunk)
        <==> NonePassedOver(b, b.index, chunk, maxPerDomain, t)
  {
    SelectedExactly(b, maxPerDomain, chunk, t);
    PassedOver(b, b.index, chunk, maxPerDomain, t);
  }

  /** When no listed domain is down, the choice is empty only when none is fit. */
  lemma EmptyChoice(b: Book, maxPerDomain: nat, chunk: nat, t: real)
    requires Agree(b) && chunk > 0 && Listed(b) && forall n :: n in b.index ==> !b.domains[n].Down()
    ensures SelectFrom(b, 0, [], maxPerDomain, chunk, t).1 == [] <==>
              forall n :: n in b.index ==> !Fit(b.domains[n], maxPerDomain, t)
  {
    FirstFitExactly(b, maxPerDomain, chunk, t);
    UpNotPassed(b, b.index, chunk, maxPerDomain, t);
    FitsAreNames(b, b.index, maxPerDomain, t);
    hide SelectFrom, Fit;
    var fits := Fits(b, b.index, maxPerDomain, t);
    if fits != [] { assert fits[0] in fits; }
  }

  lemma {:induction false} UpNotPassed(b: Book, names: seq<Name>, k: nat, maxPerDomain: nat, t: real)
    requires Known(b, names) && forall n :: n in names ==> !b.domains[n].Down()
    ensures NonePassedOver(b, names, k, maxPerDomain, t)
    decreases |names|
  {
    hide Fit;
    if names != [] && k > 0 {
      UpNotPassed(b, names[1..], if Fit(b.domains[names[0]], maxPerDomain, t) then k - 1 else k, maxPerDomain, t);
    }
  }

  /** A list of one domain that is down and a fit one behind it: nothing is chosen. */
  lemma FitPassedOver()
    ensures var down := FRESH.(state := Blocked, hasWaiting := true, notScheduled := true);
            var b := Book(map[[1] := down, [2] := FRESH.(hasWaiting := true, notScheduled := true)], [[1], [2]], false);
            Agree(b) && Listed(b) && Fit(b.domains[[2]], 10, 1.0) && SelectFrom(b, 0, [], 10, 5, 1.0).1 == []
  {
    var down := FRESH.(state := Blocked, hasWaiting := true, notScheduled := true);
    var b := Book(map[[1] := down, [2] := FRESH.(hasWaiting := true, notScheduled := true)], [[1], [2]], false);
    assert Agree(b) by {
      forall n ensures AgreeAt(b, n) {}
    }
    SelectedExactly(b, 10, 5, 1.0);
    assert Visited(b, b.index, 1.0) == [[1]] + Visited(b, [], 1.0) by { assert b.index[2..] == []; }
    assert Fits(b, [[1]], 10, 1.0) == [] by { assert [[1]][1..] == []; }
  }
}

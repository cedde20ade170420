/** The verifier's persisted next page: never above a page with unfinished
    actors, never above the crawl, never going back. */
module WorkerPages {
  import opened Common
  import opened VerifierWorker

  /** The page the database will hold once all submitted updates are made. */
  function Submitted(w: Worker): nat { if w.writes == [] then w.saved else w.writes[|w.writes| - 1] }

  /** The saved page and the submitted updates, in order, never decrease. */
  ghost predicate Rising(w: Worker) {
    && (forall k :: 0 <= k < |w.writes| ==> w.saved <= w.writes[k])
    && (forall j, k :: 0 <= j < k < |w.writes| ==> w.writes[j] <= w.writes[k])
  }

  /** No submitted page is above a page with unfinished actors or above the crawl. */
  ghost predicate Below(w: Worker) {
    Submitted(w) <= w.cursor && forall p :: p in w.items ==> Submitted(w) <= p <= w.cursor
  }

  /** Only actors of the crawl's page are being launched. */
  ghost predicate OnCursor(w: Worker, todo: seq<Actor>) {
    forall k :: 0 <= k < |todo| ==> todo[k].page.None? || todo[k].page.value == w.cursor
  }

  ghost predicate PagesInv(w: Worker) {
    && Rising(w) && Below(w)
    && (w.loop.Launching? || w.loop.AwaitOldest? ==> OnCursor(w, w.loop.todo))
  }

  /** The pages that matter after a crash: those with unfinished actors and the crawl's. */
  ghost function Pending(w: Worker): set<nat> { w.items.Keys + {w.cursor} }

  ghost predicate Least(m: nat, s: set<nat>) { m in s && forall p :: p in s ==> m <= p }

  /** Only `items` are left, and the least pending page is submitted. */
  ghost function Narrowed(w: Worker, items: Pages): Worker {
    w.(items := items, writes := w.writes + [NextPage(items, w.cursor)])
  }

  /** Forgetting pages keeps everything in order; what is submitted is the least
      pending page. */
  lemma ForgetPages(w: Worker, items: Pages)
    requires PagesInv(w) && items.Keys <= w.items.Keys
    ensures PagesInv(Narrowed(w, items))
    ensures Least(Submitted(Narrowed(w, items)), Pending(Narrowed(w, items)))
  {
    hide NextPage;
    var w', m := Narrowed(w, items), NextPage(items, w.cursor);
    assert m in Pending(w);
    OneUpdate(w, w', m);
  }

  /** An update to a page not below the submitted ones keeps them in order. */
  lemma OneUpdate(w: Worker, w': Worker, m: nat)
    requires Rising(w) && Submitted(w) <= m && w'.saved == w.saved && w'.writes == w.writes + [m]
    ensures Rising(w') && Submitted(w') == m
  {
    forall k | 0 <= k < |w.writes| ensures w.writes[k] <= Submitted(w) {}
  }

  ghost predicate Narrower(w: Worker, w': Worker) {
    w'.items.Keys <= w.items.Keys && w'.cursor == w.cursor
  }

  /** Some pages are forgotten or lose actors, and at most one update is submitted. */
  ghost predicate PartOf(w: Worker, w': Worker, items: Pages) {
    && items.Keys <= w.items.Keys && w'.cursor == w.cursor && w'.loop == w.loop && w'.saved == w.saved
        && w'.items == items
    && (w'.writes == w.writes || w'.writes == Narrowed(w, items).writes)
  }

  lemma PartKeeps(w: Worker, w': Worker, items: Pages)
    requires PagesInv(w) && PartOf(w, w', items)
    ensures PagesInv(w') && w'.saved == w.saved && Narrower(w, w')
  {
    ForgetPages(w, items);
    hide NextPage;
  }

  lemma SomePart(w: Worker, w': Worker, items: Pages)
    requires items.Keys <= w.items.Keys && w' == w.(items := items, tasks := w'.tasks, pusher := w'.pusher)
    ensures PartOf(w, w', items)
  {
  }

  lemma ForgetPart(w: Worker, w': Worker, page: nat, size: nat)
    requires w' == Forget(w, page, size).(tasks := w'.tasks, pusher := w'.pusher)
    ensures PartOf(w, w', w.items - {page})
  {
    hide NextPage;
  }

  lemma RemovalKeys(items: Pages, page: nat, uri: Text)
    ensures var r := RemoveItem(items, page, uri);
            (r.Kept? ==> r.items.Keys <= items.Keys) && (r.Last? ==> r.items.Keys <= items.Keys)
  {
  }

  lemma EndPages(w: Worker, i: nat)
    requires PagesInv(w) && i in w.tasks && w.tasks[i].phase.Ending?
    ensures PagesInv(EndTask(w, i)) && EndTask(w, i).saved == w.saved && Narrower(w, EndTask(w, i))
  {
    var a, w' := w.tasks[i].actor, EndTask(w, i);
    var items := w.items;
    if !w.tasks[i].phase.signed && a.page.Some? {
      var page := a.page.value;
      RemovalKeys(w.items, page, a.uri);
      hide RemoveItem, PagesInv, PartOf, Narrower, Forget;
      match RemoveItem(w.items, page, a.uri)
      case Untracked => SomePart(w, w', w.items);
      case Missing => SomePart(w, w', w.items);
      case Kept(left) => items := left; SomePart(w, w', left);
      case Emptied => items := w.items - {page}; ForgetPart(w, w', page, 0);
      case Last(left) => items := left; SomePart(w, w', left);
    } else { SomePart(w, w', w.items); }
    PartKeeps(w, w', items);
  }

  lemma SpiltPages(w: Worker, i: nat, more: bool)
    requires PagesInv(w) && i in w.tasks && w.tasks[i].phase.Spilling?
    ensures PagesInv(Spilt(w, i, more)) && Spilt(w, i, more).saved == w.saved && Narrower(w, Spilt(w, i, more))
  {
    var w' := Spilt(w, i, more);
    hide NextPage, PagesInv;
    assert PartOf(w, w', w'.items);
    PartKeeps(w, w', w'.items);
  }

  lemma DropPages(w: Worker)
    requires PagesInv(w) && w.pusher.Dropping? && w.pusher.todo != [] && w.pusher.spill.None?
    ensures PagesInv(DropNext(w)) && DropNext(w).saved == w.saved && Narrower(w, DropNext(w))
  {
    var a, w' := w.pusher.todo[0], DropNext(w);
    var items := w.items;
    if a.page.Some? {
      var page := a.page.value;
      RemovalKeys(w.items, page, a.uri);
      hide RemoveItem, PagesInv, PartOf, Narrower, Forget;
      match RemoveItem(w.items, page, a.uri)
      case Untracked => SomePart(w, w', w.items);
      case Missing => SomePart(w, w', w.items);
      case Kept(left) => items := left; SomePart(w, w', left);
      case Emptied => items := w.items - {page}; ForgetPart(w, w', page, 0);
      case Last(left) => items := left; SomePart(w, w', left);
    } else { SomePart(w, w', w.items); }
    PartKeeps(w, w', items);
  }

  lemma DropSpiltPages(w: Worker, more: bool)
    requires PagesInv(w) && w.pusher.Dropping? && w.pusher.spill.Some?
    ensures PagesInv(DropSpilt(w, more)) && DropSpilt(w, more).saved == w.saved
        && Narrower(w, DropSpilt(w, more))
  {
    var w' := DropSpilt(w, more);
    hide NextPage, PagesInv;
    assert PartOf(w, w', w'.items);
    PartKeeps(w, w', w'.items);
  }

  lemma LaunchPages(c: Settings, w: Worker)
    requires PagesInv(w) && w.loop.Launching? && w.loop.todo != []
    ensures PagesInv(Launch(c, w)) && Launch(c, w).saved == w.saved
  {
    var a, w' := w.loop.todo[0], Launch(c, w);
    assert OnCursor(w', w.loop.todo[1..]);
    assert forall p :: p in w'.items ==> p in w.items || p == w.cursor;
  }

  lemma AdvancePages(w: Worker)
    requires PagesInv(w) && w.loop.Launching?
    ensures PagesInv(Advance(w)) && Advance(w).saved == w.saved
  {
    AdvanceRising(w);
    AdvanceBelow(w);
    hide Rising, Below;
  }

  lemma AdvanceRising(w: Worker)
    requires Rising(w) && Below(w) && w.loop.Launching?
    ensures Rising(Advance(w))
  {
    var w' := Advance(w);
    if w'.writes != w.writes { OneUpdate(w, w', w.cursor + 1); }
  }

  lemma AdvanceBelow(w: Worker)
    requires Below(w) && w.loop.Launching?
    ensures Below(Advance(w))
  {
  }

  lemma WritePages(w: Worker)
    requires PagesInv(w) && w.writes != []
    ensures var w' := w.(saved := w.writes[0], writes := w.writes[1..]); PagesInv(w') && w'.saved >= w.saved
  {
    var w' := w.(saved := w.writes[0], writes := w.writes[1..]);
    assert Submitted(w') == Submitted(w);
    forall k | 0 <= k < |w'.writes| ensures w'.saved <= w'.writes[k] { assert w'.writes[k] == w.writes[k + 1]; }
  }

  /** Every step keeps the order of the pages, and the saved page never goes back. */
  lemma PagesStep(c: Settings, w: Worker, a: Action)
    requires PagesInv(w) && Enabled(c, w, a)
    ensures PagesInv(Next(c, w, a)) && Next(c, w, a).saved >= w.saved
  {
    hide EndTask, Spilt, DropNext, DropSpilt, Launch, Advance, Oldest, TooOld, Forget, Rising, Below;
    match a
    case DoPage(_, _) => SameWrites(w, Next(c, w, a));
    case DoOldestOver => SameWrites(w, Next(c, w, a));
    case DoLaunch => LaunchPages(c, w);
    case DoAdvance => AdvancePages(w);
    case DoBegin(_) => SameWrites(w, Next(c, w, a));
    case DoSign(_) => SameWrites(w, Next(c, w, a));
    case DoGiveUp(_) => SameWrites(w, Next(c, w, a));
    case DoEnd(i) => EndPages(w, i);
    case DoSpilt(i, more) => SpiltPages(w, i, more);
    case DoClose(_) => SameWrites(w, Next(c, w, a));
    case DoTakeBatch => SameWrites(w, Next(c, w, a));
    case DoPosted(_) => SameWrites(w, Next(c, w, a));
    case DoDrop => DropPages(w);
    case DoDropSpilt(more) => DropSpiltPages(w, more);
    case DoRest => SameWrites(w, Next(c, w, a));
    case DoWrite => WritePages(w);
    case DoRestart => StartedPages(c, w.saved);
  }

  lemma StartedPages(c: Settings, saved: nat)
    ensures PagesInv(Started(c, saved))
  {
  }

  lemma SameWrites(w: Worker, w': Worker)
    requires Rising(w) && Below(w)
    requires w'.items == w.items && w'.cursor == w.cursor && w'.saved == w.saved && w'.writes == w.writes
    ensures Rising(w') && Below(w')
  {
  }

  lemma {:induction false} PagesRun(c: Settings, w: Worker, run: seq<Action>, w': Worker)
    requires PagesInv(w) && Run(c, w, run, w')
    ensures PagesInv(w') && w'.saved >= w.saved
    decreases run
  {
    hide PagesInv, Next, Enabled;
    if run != [] {
      PagesStep(c, w, run[0]);
      PagesRun(c, Next(c, w, run[0]), run[1..], w');
    }
  }

  /** On every run, through any restarts: the saved page is at most every page
      with unfinished actors and at most the crawl's page, so a crash at any
      moment resumes no later than either. */
  lemma CheckpointSafe(c: Settings, start: nat, run: seq<Action>, w: Worker, p: nat)
    requires Run(c, Started(c, start), run, w) && (p in w.items || p == w.cursor)
    ensures w.saved <= p
    ensures Next(c, w, DoRestart).cursor <= p
  {
    StartedPages(c, start);
    PagesRun(c, Started(c, start), run, w);
    assert w.writes != [] ==> w.saved <= w.writes[|w.writes| - 1];
  }

  /** The saved page never decreases, whatever happens between the two moments. */
  lemma CheckpointRises(c: Settings, start: nat, run: seq<Action>, w: Worker, more: seq<Action>, w': Worker)
    requires Run(c, Started(c, start), run, w) && Run(c, w, more, w')
    ensures start <= w.saved <= w'.saved
  {
    StartedPages(c, start);
    PagesRun(c, Started(c, start), run, w);
    PagesRun(c, w, more, w');
  }

  lemma MinRises(w: Worker, w': Worker, m: nat, m': nat)
    requires Least(m, Pending(w)) && Least(m', Pending(w'))
    requires forall p :: p in Pending(w') ==> p in Pending(w) || p > w.cursor
    ensures m <= m'
  {
  }

  /** The least pending page, among the pages with unfinished actors and the
      crawl's, never decreases until a restart. */
  lemma LeastPendingRises(c: Settings, w: Worker, a: Action, m: nat, m': nat)
    requires PagesInv(w) && Enabled(c, w, a) && !a.DoRestart?
    requires Least(m, Pending(w)) && Least(m', Pending(Next(c, w, a)))
    ensures m <= m'
  {
    PendingStep(c, w, a);
    hide Next;
    MinRises(w, Next(c, w, a), m, m');
  }

  lemma PendingStep(c: Settings, w: Worker, a: Action)
    requires PagesInv(w) && Enabled(c, w, a) && !a.DoRestart?
    ensures forall p :: p in Pending(Next(c, w, a)) ==> p in Pending(w) || p > w.cursor
  {
    hide EndTask, Spilt, DropNext, DropSpilt, Oldest, TooOld, Rising, Below;
    match a
    case DoEnd(i) => EndPages(w, i);
    case DoSpilt(i, more) => SpiltPages(w, i, more);
    case DoDrop => DropPages(w);
    case DoDropSpilt(more) => DropSpiltPages(w, more);
    case _ =>
  }

  // ------------------------------------------------- what a move runs over

  /** The dictionary of a move was dropped, or is the one its page has now. */
  ghost predicate Attached(w: Worker, x: Spill) {
    x.gen < |Drops(w, x.page)| || (x.gen == |Drops(w, x.page)| && x.page in w.items)
  }

  ghost predicate MovesHold(w: Worker) {
    && (forall i :: i in w.tasks && w.tasks[i].phase.Spilling? ==> Attached(w, w.tasks[i].phase.spill))
    && (w.pusher.Dropping? && w.pusher.spill.Some? ==> Attached(w, w.pusher.spill.value))
  }

  /** Dictionaries are dropped only together with their pages. */
  ghost predicate DropsGrow(w: Worker, w': Worker) {
    forall p: nat :: |Drops(w, p)| < |Drops(w', p)|
                || (|Drops(w, p)| == |Drops(w', p)| && (p in w.items ==> p in w'.items))
  }

  lemma ForgetGrows(w: Worker, page: nat, size: nat)
    ensures DropsGrow(w, Forget(w, page, size))
  {
    hide NextPage;
  }

  lemma RemovalKeeps(w: Worker, page: nat, uri: Text)
    ensures var r := RemoveItem(w.items, page, uri);
            && (r.Kept? ==> DropsGrow(w, w.(items := r.items)))
            && (r.Last? ==> DropsGrow(w, w.(items := r.items)) && page in r.items)
  {
  }

  lemma MoveHolds(w: Worker, w1: Worker, i: nat, p: Phase)
    requires MovesHold(w) && DropsGrow(w, w1) && w1.tasks == w.tasks && w1.pusher == w.pusher && i in w.tasks
    requires p.Spilling? ==> Attached(w1, p.spill)
    ensures MovesHold(Move(w1, i, p))
  {
  }

  lemma PushHolds(w: Worker, w1: Worker, p: Pusher)
    requires MovesHold(w) && DropsGrow(w, w1) && w1.tasks == w.tasks
    requires p.Dropping? && p.spill.Some? ==> Attached(w1, p.spill.value)
    ensures MovesHold(w1.(pusher := p))
  {
  }

  lemma EndHolds(w: Worker, i: nat)
    requires MovesHold(w) && i in w.tasks && w.tasks[i].phase.Ending?
    ensures MovesHold(EndTask(w, i))
  {
    var a := w.tasks[i].actor;
    if w.tasks[i].phase.signed || a.page.None? { MoveHolds(w, w, i, Closing); }
    else {
      var page := a.page.value;
      RemovalKeeps(w, page, a.uri);
      ForgetGrows(w, page, 0);
      hide RemoveItem, Move, MovesHold, Forget;
      match RemoveItem(w.items, page, a.uri)
      case Untracked => MoveHolds(w, w, i, Closing);
      case Missing => MoveHolds(w, w, i, Failed);
      case Kept(items) => MoveHolds(w, w.(items := items), i, Closing);
      case Emptied => MoveHolds(w, Forget(w, page, 0), i, Closing) by { ForgetSame(w, page, 0); }
      case Last(items) =>
        var w1 := w.(items := items);
        MoveHolds(w, w1, i, Spilling(BeginSpill(w1, page)));
    }
  }

  lemma ForgetSame(w: Worker, page: nat, size: nat)
    ensures Forget(w, page, size).tasks == w.tasks && Forget(w, page, size).pusher == w.pusher
  {
  }

  lemma SpiltHolds(w: Worker, i: nat, more: bool)
    requires MovesHold(w) && i in w.tasks && w.tasks[i].phase.Spilling?
    ensures MovesHold(Spilt(w, i, more))
  {
    var x := w.tasks[i].phase.spill;
    hide Entries, Move, MovesHold, Forget;
    MoveHolds(w, w, i, Failed);
    if x.page in w.items {
      var size := |w.items[x.page]|;
      ForgetSame(w, x.page, size);
      ForgetGrows(w, x.page, size);
      MoveHolds(w, Forget(w, x.page, size), i, Closing);
    }
  }

  lemma DropHolds(w: Worker)
    requires MovesHold(w) && w.pusher.Dropping? && w.pusher.todo != [] && w.pusher.spill.None?
    ensures MovesHold(DropNext(w))
  {
    var a, p := w.pusher.todo[0], w.pusher.(todo := w.pusher.todo[1..]);
    PushHolds(w, w, p);
    if a.page.Some? {
      var page := a.page.value;
      RemovalKeeps(w, page, a.uri);
      ForgetGrows(w, page, 0);
      ForgetSame(w, page, 0);
      hide RemoveItem, MovesHold, Forget;
      match RemoveItem(w.items, page, a.uri)
      case Untracked =>
      case Missing => PushHolds(w, w, PushRaised(w.pusher));
      case Kept(items) => PushHolds(w, w.(items := items), p);
      case Emptied => PushHolds(w, Forget(w, page, 0), p);
      case Last(items) =>
        var w1 := w.(items := items);
        PushHolds(w, w1, p.(spill := Some(BeginSpill(w1, page))));
    }
  }

  lemma DropSpiltHolds(w: Worker, more: bool)
    requires MovesHold(w) && w.pusher.Dropping? && w.pusher.spill.Some?
    ensures MovesHold(DropSpilt(w, more))
  {
    var x := w.pusher.spill.value;
    hide Entries, MovesHold, Forget;
    PushHolds(w, w, PushRaised(w.pusher));
    if x.page in w.items {
      var size := |w.items[x.page]|;
      ForgetSame(w, x.page, size);
      ForgetGrows(w, x.page, size);
      PushHolds(w, Forget(w, x.page, size), w.pusher.(spill := None));
    }
  }

  lemma LaunchHolds(c: Settings, w: Worker)
    requires MovesHold(w) && w.loop.Launching? && w.loop.todo != []
    ensures MovesHold(Launch(c, w))
  {
    var w1 := w.(items := Track(w.items, w.loop.todo[0]));
    assert DropsGrow(w, w1);
  }

  lemma CloseHolds(w: Worker, i: nat)
    requires MovesHold(w)
    ensures MovesHold(w.(tasks := w.tasks - {i}, free := w.free + 1))
  {
  }

  lemma OthersHold(w: Worker, w': Worker)
    requires MovesHold(w) && w'.tasks == w.tasks && w'.items == w.items && w'.dropped == w.dropped
    requires w'.pusher.Dropping? && w'.pusher.spill.Some? ==> w'.pusher == w.pusher
    ensures MovesHold(w')
  {
  }

  lemma HoldsStep(c: Settings, w: Worker, a: Action)
    requires MovesHold(w) && Enabled(c, w, a)
    ensures MovesHold(Next(c, w, a))
  {
    hide MovesHold, EndTask, Spilt, DropNext, DropSpilt, Launch, Move, StartBatch, Attached, DropsGrow;
    match a
    case DoLaunch => LaunchHolds(c, w);
    case DoBegin(i) => MoveKeeps(w, w, i, Fetching);
    case DoSign(i) => MoveKeeps(w, w.(signed := w.signed + [w.tasks[i].actor]), i, Ending(true));
    case DoGiveUp(i) => MoveKeeps(w, w, i, Ending(false));
    case DoEnd(i) => EndHolds(w, i);
    case DoSpilt(i, more) => SpiltHolds(w, i, more);
    case DoClose(i) => CloseHolds(w, i);
    case DoDrop => DropHolds(w);
    case DoDropSpilt(more) => DropSpiltHolds(w, more);
    case DoRestart => assert MovesHold(Started(c, w.saved)) by { StartedHolds(c, w.saved); }
    case DoPage(actors, count) => PageHolds(c, w, actors, count);
    case _ => OthersHold(w, Next(c, w, a));
  }

  lemma MoveKeeps(w: Worker, w1: Worker, i: nat, p: Phase)
    requires MovesHold(w) && i in w.tasks && !p.Spilling? && w1 == w.(signed := w1.signed)
    ensures MovesHold(Move(w1, i, p))
  {
    assert DropsGrow(w, w1);
    MoveHolds(w, w1, i, p);
  }

  lemma StartedHolds(c: Settings, saved: nat)
    ensures MovesHold(Started(c, saved))
  {
  }

  lemma PageHolds(c: Settings, w: Worker, actors: seq<Actor>, count: nat)
    requires MovesHold(w)
    ensures MovesHold(StartBatch(c, w, actors, count))
  {
  }

  lemma {:induction false} HoldsRun(c: Settings, w: Worker, run: seq<Action>, w': Worker)
    requires MovesHold(w) && Run(c, w, run, w')
    ensures MovesHold(w')
    decreases run
  {
    hide MovesHold, Next, Enabled;
    if run != [] {
      HoldsStep(c, w, run[0]);
      HoldsRun(c, Next(c, w, run[0]), run[1..], w');
    }
  }

  /** On every run, the dictionary that a move runs over is the one its page has
      now, or was dropped with the number of entries that is known for it. */
  lemma MoveHasDictionary(c: Settings, saved: nat, run: seq<Action>, w: Worker, i: nat)
    requires Run(c, Started(c, saved), run, w) && i in w.tasks && w.tasks[i].phase.Spilling?
    ensures var x := w.tasks[i].phase.spill;
            if x.gen < |Drops(w, x.page)| then Entries(w, x) == Drops(w, x.page)[x.gen]
            else x.gen == |Drops(w, x.page)| && x.page in w.items && Entries(w, x) == |w.items[x.page]|
  {
    StartedHolds(c, saved);
    HoldsRun(c, Started(c, saved), run, w);
  }
}

/** When the verifier's worker loses a slot, its crawl or its submitter, and what
    that means for the rest of the run. */
module WorkerLimits {
  import opened Common
  import opened VerifierWorker
  import opened WorkerChain

  ghost predicate NoRestart(run: seq<Action>) {
    forall k :: 0 <= k < |run| ==> !run[k].DoRestart?
  }

  lemma {:induction false} RunAppend(c: Settings, w: Worker, a: seq<Action>, w1: Worker, b: seq<Action>, w2: Worker)
    requires Run(c, w, a, w1) && Run(c, w1, b, w2)
    ensures Run(c, w, a + b, w2)
    decreases a
  {
    hide Next, Enabled;
    if a == [] {
      assert a + b == b;
    } else {
      RunAppend(c, Next(c, w, a[0]), a[1..], w1, b, w2);
      assert (a + b)[0] == a[0] && (a + b)[1..] == a[1..] + b;
    }
  }

  /** The step `a` leads from `w` to `w'`. */
  ghost predicate Goes(c: Settings, w: Worker, a: Action, w': Worker) {
    Enabled(c, w, a) && Next(c, w, a) == w'
  }

  lemma One(c: Settings, w: Worker, a: Action, w': Worker)
    requires Goes(c, w, a, w')
    ensures Run(c, w, [a], w')
  {
    hide Next, Enabled;
    assert [a][1..] == [];
  }

  lemma Cons(c: Settings, w: Worker, a: Action, w1: Worker, rest: seq<Action>, w': Worker)
    requires Goes(c, w, a, w1) && Run(c, w1, rest, w')
    ensures Run(c, w, [a] + rest, w')
  {
    hide Next, Enabled;
    assert ([a] + rest)[1..] == rest;
  }

  lemma Two(c: Settings, w: Worker, a: Action, w1: Worker, a1: Action, w2: Worker)
    requires Goes(c, w, a, w1) && Goes(c, w1, a1, w2)
    ensures Run(c, w, [a, a1], w2)
  {
    hide Next, Enabled, Goes, Run;
    One(c, w1, a1, w2);
    Cons(c, w, a, w1, [a1], w2);
    assert [a] + [a1] == [a, a1];
  }

  lemma Three(c: Settings, w: Worker, a: Action, w1: Worker, a1: Action, w2: Worker, a2: Action, w3: Worker)
    requires Goes(c, w, a, w1) && Goes(c, w1, a1, w2) && Goes(c, w2, a2, w3)
    ensures Run(c, w, [a, a1, a2], w3)
  {
    hide Next, Enabled, Goes, Run;
    Two(c, w1, a1, w2, a2, w3);
    Cons(c, w, a, w1, [a1, a2], w3);
    assert [a] + [a1, a2] == [a, a1, a2];
  }

  lemma Four(c: Settings, w: Worker, a: Action, w1: Worker, a1: Action, w2: Worker, a2: Action, w3: Worker,
          a3: Action, w4: Worker)
    requires Goes(c, w, a, w1) && Goes(c, w1, a1, w2) && Goes(c, w2, a2, w3) && Goes(c, w3, a3, w4)
    ensures Run(c, w, [a, a1, a2, a3], w4)
  {
    hide Next, Enabled, Goes, Run;
    Three(c, w1, a1, w2, a2, w3, a3, w4);
    Cons(c, w, a, w1, [a1, a2, a3], w4);
    assert [a] + [a1, a2, a3] == [a, a1, a2, a3];
  }

  // --------------------------------------------------------- a lost slot

  /** The oldest entry is that of a failed task, more than five queue sizes back,
      and nothing is being launched. */
  ghost predicate Stuck(c: Settings, w: Worker, k: nat) {
    && k in w.tasks && w.tasks[k].phase.Failed?
    && Oldest(w, k) && TooOld(c, w, k)
    && (w.loop.AwaitOldest? ==> w.loop.id == k)
    && (w.loop.Launching? ==> w.loop.todo == [])
  }

  lemma StuckStep(c: Settings, w: Worker, a: Action, k: nat)
    requires Stuck(c, w, k) && Enabled(c, w, a) && !a.DoRestart?
    ensures Stuck(c, Next(c, w, a), k) && Next(c, w, a).nextTask == w.nextTask
  {
    if Mover(a).Some? {
      MoverMoves(c, w, a);
      assert Next(c, w, a).loop == w.loop by { hide RemoveItem, NextPage; }
      hide Next, Enabled;
    } else {
      OthersSame(c, w, a);
      if a.DoDrop? || a.DoDropSpilt? { assert Next(c, w, a).loop == w.loop by { hide RemoveItem, NextPage; } }
      if a.DoPage? { StuckPage(c, w, a.actors, a.count, k); }
      hide RemoveItem, NextPage;
    }
  }

  lemma StuckPage(c: Settings, w: Worker, actors: seq<Actor>, count: nat, k: nat)
    requires Stuck(c, w, k)
    ensures var w' := StartBatch(c, w, actors, count);
            w'.loop == if actors == [] then Launching([], count) else AwaitOldest(k, actors, count)
  {
    assert forall id: nat :: Oldest(w, id) ==> id == k;
  }

  /** Once the crawl has moved five queue sizes past a task that failed in its
      clean-up and all older tasks are over, no task is launched until a restart. */
  lemma {:induction false} LostSlotStopsTheCrawl(c: Settings, w: Worker, k: nat, run: seq<Action>, w': Worker)
    requires Stuck(c, w, k) && Run(c, w, run, w') && NoRestart(run)
    ensures w'.nextTask == w.nextTask && k in w'.tasks && w'.tasks[k].phase.Failed?
    decreases run
  {
    hide Stuck, Next, Enabled;
    if run != [] {
      StuckStep(c, w, run[0], k);
      assert NoRestart(run[1..]);
      LostSlotStopsTheCrawl(c, Next(c, w, run[0]), k, run[1..], w');
    } else {
      StuckHas(c, w, k);
    }
  }

  lemma StuckHas(c: Settings, w: Worker, k: nat)
    requires Stuck(c, w, k)
    ensures k in w.tasks && w.tasks[k].phase.Failed?
  {
  }

  /** Two unfinished tasks hold the same actor of one page, because the page was
      read again before the first was over: the one that cleans up second fails,
      unless the page is forgotten in between. */
  lemma ListedTwiceFails(c: Settings, w: Worker, i: nat, j: nat)
    requires i != j && i in w.tasks && j in w.tasks && w.tasks[i].actor == w.tasks[j].actor
        && w.tasks[i].actor.page.Some?
    requires w.tasks[i].phase == Ending(false) && w.tasks[j].phase == Ending(false)
    requires var page := w.tasks[i].actor.page.value;
             RemoveItem(w.items, page, w.tasks[i].actor.uri).Kept?
    ensures var w1 := Next(c, w, DoEnd(i));
            Enabled(c, w1, DoEnd(j)) && Next(c, w1, DoEnd(j)).tasks[j].phase.Failed?
  {
  }

  /** A task is moving the last actors of a page, undisturbed so far, and another
      one takes its actor off that page meanwhile: the move fails. */
  lemma DisturbedMoveFails(c: Settings, w: Worker, i: nat, j: nat, more: bool)
    requires i in w.tasks && w.tasks[i].phase.Spilling? && j in w.tasks && w.tasks[j].phase == Ending(false)
    requires var x, a := w.tasks[i].phase.spill, w.tasks[j].actor;
             && Entries(w, x) == x.size && x.gen == |Drops(w, x.page)|
             && x.page in w.items && a.page == Some(x.page) && a.uri in w.items[x.page]
    ensures var w1 := Next(c, w, DoEnd(j));
            Enabled(c, w1, DoSpilt(i, more)) && Next(c, w1, DoSpilt(i, more)).tasks[i].phase.Failed?
  {
    var x, uri := w.tasks[i].phase.spill, w.tasks[j].actor.uri;
    var w1 := Next(c, w, DoEnd(j));
    assert |w.items[x.page] - {uri}| == |w.items[x.page]| - 1;
    assert Entries(w1, x) == x.size - 1;
    hide RemoveItem, NextPage, Entries;
  }

  // ----------------------------------------------------------- no slot left

  /** Every slot is held by a task that failed in its clean-up. */
  ghost predicate NoSlots(w: Worker) {
    w.free == 0 && forall i :: i in w.tasks ==> w.tasks[i].phase.Failed?
  }

  /** That is the case exactly when as many tasks failed as there are slots. */
  lemma NoSlotsExactly(c: Settings, saved: nat, run: seq<Action>, w: Worker)
    requires Run(c, Started(c, saved), run, w)
    ensures NoSlots(w) <==> |FailedTasks(w)| == c.slots
  {
    SlotsExactly(c, saved, run, w);
    hide Run;
    if NoSlots(w) { assert LiveTasks(w) == {}; }
    if |FailedTasks(w)| == c.slots {
      assert |LiveTasks(w)| == 0;
      forall i | i in w.tasks ensures w.tasks[i].phase.Failed? { assert i !in LiveTasks(w); }
    }
  }

  /** With no slot left nothing is fetched and no task launched until a restart. */
  lemma {:induction false} NoSlotsStopsTheCrawl(c: Settings, w: Worker, run: seq<Action>, w': Worker)
    requires NoSlots(w) && Run(c, w, run, w') && NoRestart(run)
    ensures NoSlots(w') && w'.nextTask == w.nextTask && w'.tasks == w.tasks
    decreases run
  {
    hide Next;
    if run != [] {
      assert Mover(run[0]).None? && !run[0].DoLaunch? && !run[0].DoRestart?;
      OthersSame(c, w, run[0]);
      hide Enabled;
      assert NoRestart(run[1..]);
      NoSlotsStopsTheCrawl(c, Next(c, w, run[0]), run[1..], w');
    }
  }

  /** A batch that had to wait for the oldest task is dropped if and only if that
      task's entry is still there, as a failed one's is; else all of it is launched. */
  lemma BatchDroppedExactly(c: Settings, w: Worker)
    requires Enabled(c, w, DoOldestOver)
    ensures var w' := Next(c, w, DoOldestOver);
            && (w'.loop.Between? <==> w.loop.id in w.tasks && w.tasks[w.loop.id].phase.Failed?)
            && (!w'.loop.Between? ==> w'.loop == Launching(w.loop.todo, w.loop.count))
            && SameTasks(w, w')
  {
    OthersSame(c, w, DoOldestOver);
  }

  // ------------------------------------------------------ a lost submitter

  /** The submitter's steps after a request that is refused and then, sent
      again, accepted. */
  const REFUSED_THEN_ACCEPTED := [DoPosted(Refused), DoDrop, DoRest, DoTakeBatch, DoPosted(Accepted), DoDrop, DoDrop]

  /** A refused request takes its actors off their pages and keeps the signatures
      for another try. When that try is accepted they are taken off again: if the
      page still has other unfinished actors, the submitter stops. */
  lemma RefusedThenAcceptedStops(c: Settings, w: Worker, a: Actor) returns (w': Worker)
    requires c.batchSize > 0 && w.pusher == Posting([a]) && w.signed == [] && a.page.Some?
    requires RemoveItem(w.items, a.page.value, a.uri).Kept?
    ensures Run(c, w, REFUSED_THEN_ACCEPTED, w') && w'.pusher.Stopped? && w'.tasks == w.tasks
  {
    var items := RemoveItem(w.items, a.page.value, a.uri).items;
    assert RemoveItem(items, a.page.value, a.uri) == Missing;
    var w1 := w.(signed := [a], pusher := Dropping(Refused, [a], [a], None));
    var w2 := w.(signed := [a], items := items, pusher := Dropping(Refused, [a], [], None));
    var w3 := w2.(pusher := Resting);
    var w4 := w2.(signed := [], pusher := Posting([a]));
    var w5 := w4.(pusher := Dropping(Accepted, [a], [a], None));
    var w6 := w4.(pusher := Dropping(Broken, [a], [a], None));
    w' := w4.(pusher := Stopped);
    RefusedSteps(c, w, a, w1, w2, w3, w4);
    AcceptedSteps(c, w4, a, w5, w6, w');
    assert REFUSED_THEN_ACCEPTED == [DoPosted(Refused), DoDrop, DoRest, DoTakeBatch] + [DoPosted(Accepted), DoDrop,
        DoDrop];
    RunAppend(c, w, [DoPosted(Refused), DoDrop, DoRest, DoTakeBatch], w4, [DoPosted(Accepted), DoDrop, DoDrop], w');
  }

  lemma RefusedSteps(c: Settings, w: Worker, a: Actor, w1: Worker, w2: Worker, w3: Worker, w4: Worker)
    requires c.batchSize > 0 && w.pusher == Posting([a]) && w.signed == [] && a.page.Some?
    requires RemoveItem(w.items, a.page.value, a.uri).Kept?
    requires w1 == w.(signed := [a], pusher := Dropping(Refused, [a], [a], None))
    requires w2 == w1.(items := RemoveItem(w.items, a.page.value, a.uri).items,
        pusher := Dropping(Refused, [a], [], None))
    requires w3 == w2.(pusher := Resting)
    requires w4 == w2.(signed := [], pusher := Posting([a]))
    ensures Run(c, w, [DoPosted(Refused), DoDrop, DoRest, DoTakeBatch], w4)
  {
    hide RemoveItem, NextPage, Run;
    assert Goes(c, w, DoPosted(Refused), w1) by { assert w.pusher.batch + w.signed == [a]; }
    assert Goes(c, w1, DoDrop, w2) by { DropKept(c, w1, a, w2); }
    assert Goes(c, w2, DoRest, w3);
    assert Goes(c, w3, DoTakeBatch, w4) by { assert [a][1..] == [] && [a][..1] == [a]; }
    hide Goes;
    Four(c, w, DoPosted(Refused), w1, DoDrop, w2, DoRest, w3, DoTakeBatch, w4);
  }

  lemma DropKept(c: Settings, w: Worker, a: Actor, w': Worker)
    requires w.pusher.Dropping? && w.pusher.todo == [a] && w.pusher.spill.None? && a.page.Some?
    requires RemoveItem(w.items, a.page.value, a.uri).Kept?
    requires w' == w.(items := RemoveItem(w.items, a.page.value, a.uri).items, pusher := w.pusher.(todo := []))
    ensures Goes(c, w, DoDrop, w')
  {
    hide RemoveItem, NextPage;
    assert [a][1..] == [];
  }

  lemma DropMissing(c: Settings, w: Worker, a: Actor, w': Worker)
    requires w.pusher.Dropping? && w.pusher.todo == [a] && w.pusher.spill.None? && a.page.Some?
    requires RemoveItem(w.items, a.page.value, a.uri).Missing?
    requires w' == w.(pusher := PushRaised(w.pusher))
    ensures Goes(c, w, DoDrop, w')
  {
    hide RemoveItem, NextPage;
  }

  lemma AcceptedSteps(c: Settings, w4: Worker, a: Actor, w5: Worker, w6: Worker, w': Worker)
    requires w4.pusher == Posting([a]) && a.page.Some?
    requires RemoveItem(w4.items, a.page.value, a.uri) == Missing
    requires w5 == w4.(pusher := Dropping(Accepted, [a], [a], None))
    requires w6 == w4.(pusher := Dropping(Broken, [a], [a], None))
    requires w' == w4.(pusher := Stopped)
    ensures Run(c, w4, [DoPosted(Accepted), DoDrop, DoDrop], w')
  {
    hide RemoveItem, NextPage, Run;
    assert Goes(c, w4, DoPosted(Accepted), w5);
    hide Goes;
    DropMissing(c, w5, a, w6);
    DropMissing(c, w6, a, w');
    Three(c, w4, DoPosted(Accepted), w5, DoDrop, w6, DoDrop, w');
  }

  /** The submitter stops if and only if, not while it works off an accepted
      request, it takes off an actor whose page is tracked without that actor, or
      others disturbed its move of a page's last actors. */
  lemma StopsExactly(c: Settings, w: Worker, a: Action)
    requires Enabled(c, w, a) && !a.DoRestart? && !w.pusher.Stopped?
    ensures Next(c, w, a).pusher.Stopped? <==>
              || (a.DoDrop? && !w.pusher.why.Accepted? && w.pusher.todo[0].page.Some?
                  && w.pusher.todo[0].page.value in w.items
                  && w.pusher.todo[0].uri !in w.items[w.pusher.todo[0].page.value])
              || (a.DoDropSpilt? && !w.pusher.why.Accepted? && Disturbed(w, w.pusher.spill.value, a.more))
  {
    hide NextPage, Oldest, TooOld, EndTask, Spilt;
    if a.DoEnd? || a.DoSpilt? { CleanUpSubmits(w, a.i, a.DoSpilt? && a.more); }
  }

  /** A submitter that stopped takes no batch again until a restart. */
  lemma {:induction false} StoppedStays(c: Settings, w: Worker, run: seq<Action>, w': Worker)
    requires w.pusher.Stopped? && Run(c, w, run, w') && NoRestart(run)
    ensures w'.pusher.Stopped? && w.signed <= w'.signed
    decreases run
  {
    if run != [] {
      StoppedStep(c, w, run[0]);
      assert NoRestart(run[1..]);
      hide Next, Enabled;
      StoppedStays(c, Next(c, w, run[0]), run[1..], w');
    }
  }

  lemma CleanUpSubmits(w: Worker, i: nat, more: bool)
    requires i in w.tasks
    ensures w.tasks[i].phase.Ending? ==> EndTask(w, i).pusher == w.pusher && EndTask(w, i).signed == w.signed
    ensures w.tasks[i].phase.Spilling?
        ==> Spilt(w, i, more).pusher == w.pusher && Spilt(w, i, more).signed == w.signed
  {
    hide RemoveItem, NextPage;
  }

  lemma StoppedStep(c: Settings, w: Worker, a: Action)
    requires w.pusher.Stopped? && Enabled(c, w, a) && !a.DoRestart?
    ensures Next(c, w, a).pusher.Stopped? && w.signed <= Next(c, w, a).signed
  {
    hide RemoveItem, NextPage, Oldest, TooOld, EndTask, Spilt;
    if a.DoEnd? || a.DoSpilt? { CleanUpSubmits(w, a.i, a.DoSpilt? && a.more); }
  }
}

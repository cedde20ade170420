/** What single segments of the verifier's worker do to its pages and signatures, and
    that no signature is lost between a task and the submitter. */
module WorkerSteps {
  import opened Common
  import opened VerifierWorker
  import opened WorkerChain
  import opened WorkerPages
  import opened WorkerLimits

  // --------------------------------------------------------------- signatures

  /** The actor that a step signs. */
  ghost function SignedBy(w: Worker, a: Action): seq<Actor> {
    if a.DoSign? && a.i in w.tasks then [w.tasks[a.i].actor] else []
  }

  /** The batch that a step settles: a refused one is not. */
  ghost function SettledBy(w: Worker, a: Action): seq<Actor> {
    if a.DoPosted? && !a.answer.Refused? && w.pusher.Posting? then w.pusher.batch else []
  }

  /** The actors signed on a run, in order. */
  ghost function SignedOn(c: Settings, w: Worker, run: seq<Action>): seq<Actor>
    decreases run
  {
    if run == [] || !Enabled(c, w, run[0]) then []
    else SignedBy(w, run[0]) + SignedOn(c, Next(c, w, run[0]), run[1..])
  }

  /** The actors whose signatures were settled on a run, in order. */
  ghost function SettledOn(c: Settings, w: Worker, run: seq<Action>): seq<Actor>
    decreases run
  {
    if run == [] || !Enabled(c, w, run[0]) then []
    else SettledBy(w, run[0]) + SettledOn(c, Next(c, w, run[0]), run[1..])
  }

  /** The signatures not settled yet: those being sent, then those that wait. */
  function Unsettled(w: Worker): seq<Actor> { (if w.pusher.Posting? then w.pusher.batch else []) + w.signed }

  lemma StepInOrder(c: Settings, w: Worker, a: Action)
    requires Enabled(c, w, a) && !a.DoRestart?
    ensures SettledBy(w, a) + Unsettled(Next(c, w, a)) == Unsettled(w) + SignedBy(w, a)
  {
    if a.DoTakeBatch? || a.DoPosted? || a.DoDrop? || a.DoDropSpilt? || a.DoRest? { PusherInOrder(c, w, a); }
    else { TaskInOrder(c, w, a); }
  }

  lemma PusherInOrder(c: Settings, w: Worker, a: Action)
    requires Enabled(c, w, a) && (a.DoTakeBatch? || a.DoPosted? || a.DoDrop? || a.DoDropSpilt? || a.DoRest?)
    ensures SettledBy(w, a) + Unsettled(Next(c, w, a)) == Unsettled(w) + SignedBy(w, a)
  {
    hide RemoveItem, NextPage, DropNext, DropSpilt;
    if a.DoDrop? { DropKeepsSigned(w, false); }
    if a.DoDropSpilt? { DropKeepsSigned(w, a.more); }
    if a.DoTakeBatch? {
      var n := if c.batchSize < |w.signed| then c.batchSize else |w.signed|;
      assert w.signed[..n] + w.signed[n..] == w.signed;
    }
  }

  lemma TaskInOrder(c: Settings, w: Worker, a: Action)
    requires Enabled(c, w, a) && !a.DoRestart?
    requires !(a.DoTakeBatch? || a.DoPosted? || a.DoDrop? || a.DoDropSpilt? || a.DoRest?)
    ensures SettledBy(w, a) + Unsettled(Next(c, w, a)) == Unsettled(w) + SignedBy(w, a)
  {
    hide NextPage, Oldest, TooOld, EndTask, Spilt, Track;
    if a.DoEnd? || a.DoSpilt? { CleanUpSubmits(w, a.i, a.DoSpilt? && a.more); }
    var w' := Next(c, w, a);
    assert w'.pusher == w.pusher && w'.signed == w.signed + SignedBy(w, a);
    hide Next;
  }

  lemma DropKeepsSigned(w: Worker, more: bool)
    requires w.pusher.Dropping?
    ensures w.pusher.spill.None? && w.pusher.todo != [] ==>
              DropNext(w).signed == w.signed && !DropNext(w).pusher.Posting?
    ensures w.pusher.spill.Some? ==> DropSpilt(w, more).signed == w.signed && !DropSpilt(w, more).pusher.Posting?
  {
    hide RemoveItem, NextPage, Entries, BeginSpill;
  }

  /** On every run without a restart the signatures come to the lookup server, or are
      given up by an error, in the order in which they were made, each once: those
      settled and those unsettled are those there were and those made. */
  lemma {:induction false} NoSignatureLost(c: Settings, w: Worker, run: seq<Action>, w': Worker)
    requires Run(c, w, run, w') && NoRestart(run)
    ensures SettledOn(c, w, run) + Unsettled(w') == Unsettled(w) + SignedOn(c, w, run)
    decreases run
  {
    hide Enabled, Next, Unsettled, SignedBy, SettledBy;
    if run != [] {
      var a, w1 := run[0], Next(c, w, run[0]);
      StepInOrder(c, w, a);
      assert NoRestart(run[1..]);
      NoSignatureLost(c, w1, run[1..], w');
      var more, rest := SettledOn(c, w1, run[1..]), SignedOn(c, w1, run[1..]);
      assert SettledBy(w, a) + more + Unsettled(w') == SettledBy(w, a) + (more + Unsettled(w'));
      assert SettledBy(w, a) + (Unsettled(w1) + rest) == (SettledBy(w, a) + Unsettled(w1)) + rest;
      assert (Unsettled(w) + SignedBy(w, a)) + rest == Unsettled(w) + (SignedBy(w, a) + rest);
    }
  }

  // --------------------------------------------------------------------- pages

  /** Taking an actor off a page: nothing for an untracked page; an error when the page
      is tracked without it; else the page keeps the others, unless none is left, or
      at most three are while at least ten pages are tracked. */
  lemma RemovedExactly(items: Pages, page: nat, uri: Text)
    ensures var r := RemoveItem(items, page, uri);
            && (r.Untracked? <==> page !in items)
            && (r.Missing? <==> page in items && uri !in items[page])
            && (page in items && uri in items[page] ==>
                  var left := items[page] - {uri};
                  && (r.Emptied? <==> left == {})
                  && (r == Last(items[page := left]) <==> left != {} && |left| <= 3 && |items| >= 10)
                  && (r == Kept(items[page := left]) <==> left != {} && !(|left| <= 3 && |items| >= 10)))
  {
  }

  /** The clean-up of a task takes its actor off its page unless it was signed: with the
      last actor the page is dropped, and with one of the last few the others are moved. */
  lemma EndedExactly(c: Settings, w: Worker, i: nat)
    requires i in w.tasks && w.tasks[i].phase.Ending?
    ensures Enabled(c, w, DoEnd(i))
    ensures var w', a := Next(c, w, DoEnd(i)), w.tasks[i].actor;
            if w.tasks[i].phase.signed || a.page.None? || a.page.value !in w.items then w' == Move(w, i, Closing)
            else if a.uri !in w.items[a.page.value] then w' == Move(w, i, Failed)
            else
              var page := a.page.value;
              var left := w.items[page] - {a.uri};
              if left == {} then
                && w'.tasks == w.tasks[i := w.tasks[i].(phase := Closing)] && w'.items == w.items - {page}
                && w'.writes == w.writes + [NextPage(w.items - {page}, w.cursor)]
              else
                && w'.items == w.items[page := left] && w'.writes == w.writes
                && if |left| <= 3 && |w.items| >= 10 then
                     w'.tasks == w.tasks[i := w.tasks[i].(phase := Spilling(Spill(page, |Drops(w, page)|, |left|)))]
                   else w'.tasks == w.tasks[i := w.tasks[i].(phase := Closing)]
  {
    var a := w.tasks[i].actor;
    if a.page.Some? { RemovedExactly(w.items, a.page.value, a.uri); }
    hide NextPage, RemoveItem;
  }

  /** When a page is dropped, the least page that is still pending is submitted. */
  lemma DroppedSubmitsLeast(w: Worker, page: nat, size: nat)
    requires PagesInv(w) && page in w.items
    ensures var w' := Forget(w, page, size);
            w'.items == w.items - {page} && Least(Submitted(w'), Pending(w'))
  {
    ForgetPages(w, w.items - {page});
    hide NextPage, PagesInv;
  }

  /** Launching the next actor: it takes a slot and the next id, waits for the last task
      of its domain, if there is one, and its page tracks it from now on. */
  lemma LaunchedExactly(c: Settings, w: Worker)
    requires w.loop.Launching? && w.loop.todo != [] && w.free > 0
    ensures Enabled(c, w, DoLaunch)
    ensures var w', a := Next(c, w, DoLaunch), w.loop.todo[0];
            var n := c.netloc(a.uri);
            && w'.free == w.free - 1 && w'.nextTask == w.nextTask + 1
            && w'.tasks == w.tasks[w.nextTask := Task(a, Waiting(if n in w.prev then Some(w.prev[n]) else None))]
            && w'.prev == w.prev[n := w.nextTask]
            && w'.loop == Launching(w.loop.todo[1..], w.loop.count) && w'.writes == w.writes && w'.cursor == w.cursor
            && (a.page.None? ==> w'.items == w.items)
            && (a.page.Some? ==>
                  && w'.items.Keys == w.items.Keys + {a.page.value}
                  && (forall p :: p in w.items && p != a.page.value ==> w'.items[p] == w.items[p])
                  && forall u :: u in w'.items[a.page.value] <==>
                                   u == a.uri || (a.page.value in w.items && u in w.items[a.page.value]))
  {
  }

  /** A batch waits exactly when it is not empty and the oldest task is more than five
      queue sizes back; then it waits for that task. */
  lemma WaitsForOldest(c: Settings, w: Worker, actors: seq<Actor>, count: nat)
    requires w.loop.Between? && forall k :: 0 <= k < |actors| ==> actors[k].page in {None, Some(w.cursor)}
    ensures Enabled(c, w, DoPage(actors, count))
    ensures var w' := Next(c, w, DoPage(actors, count));
            && w' == w.(loop := w'.loop)
            && (w'.loop == Launching(actors, count) <==>
                  actors == [] || forall i :: i in w.tasks ==> w.nextTask - i <= 5 * c.slots)
            && (w'.loop != Launching(actors, count) ==>
                  w'.loop.AwaitOldest? && w'.loop == AwaitOldest(w'.loop.id, actors, count)
                  && w'.loop.id in w.tasks && forall i :: i in w.tasks ==> w'.loop.id <= i)
  {
    if actors != [] && exists i :: i in w.tasks && w.nextTask - i > 5 * c.slots {
      var i :| i in w.tasks && w.nextTask - i > 5 * c.slots;
      var id := LeastEntry(w, i);
      assert Oldest(w, id) && TooOld(c, w, id);
    }
  }

  lemma {:induction false} LeastEntry(w: Worker, i: nat) returns (k: nat)
    requires i in w.tasks
    ensures k in w.tasks && k <= i && forall j :: j in w.tasks ==> k <= j
    decreases i
  {
    if j: nat :| j < i && j in w.tasks { k := LeastEntry(w, j); } else { k := i; }
  }

  /** At the end of a round the crawl goes on to the next page if there is one, and
      submits it when no page is pending. */
  lemma AdvancedExactly(c: Settings, w: Worker)
    requires w.loop.Launching? && w.loop.todo == []
    ensures Enabled(c, w, DoAdvance)
    ensures var w' := Next(c, w, DoAdvance);
            && w'.loop.Between? && w'.items == w.items && w'.tasks == w.tasks
            && w'.cursor == (if w.cursor + 1 < w.loop.count then w.cursor + 1 else w.cursor)
            && w'.writes == (if w'.cursor > w.cursor && w.items == map[] then w.writes + [w'.cursor] else w.writes)
  {
  }

  /** A move that finds no further actor drops its page and submits the least page left;
      it goes on as long as it finds one. */
  lemma MovedExactly(c: Settings, w: Worker, i: nat)
    requires i in w.tasks && w.tasks[i].phase.Spilling? && !Disturbed(w, w.tasks[i].phase.spill, false)
    ensures Enabled(c, w, DoSpilt(i, true)) && Next(c, w, DoSpilt(i, true)) == w
    ensures Enabled(c, w, DoSpilt(i, false))
    ensures var w', page := Next(c, w, DoSpilt(i, false)), w.tasks[i].phase.spill.page;
            && w'.tasks == w.tasks[i := w.tasks[i].(phase := Closing)] && w'.items == w.items - {page}
            && w'.writes == w.writes + [NextPage(w.items - {page}, w.cursor)]
  {
    hide NextPage, Entries;
  }

  /** A task begins when the one it waits for is over; it then signs its actor or gives
      it up; and when it closes, its entry goes and its slot is free. */
  lemma TaskGoesOn(c: Settings, w: Worker, i: nat)
    requires i in w.tasks
    ensures var k := w.tasks[i];
            && (k.phase.Waiting? && (k.phase.on.Some? ==> Over(w, k.phase.on.value)) ==>
                  Enabled(c, w, DoBegin(i)) && Next(c, w, DoBegin(i)) == Move(w, i, Fetching))
            && (k.phase.Fetching? ==>
                  && Enabled(c, w, DoSign(i))
                  && Next(c, w, DoSign(i)) == Move(w.(signed := w.signed + [k.actor]), i, Ending(true))
                  && Enabled(c, w, DoGiveUp(i)) && Next(c, w, DoGiveUp(i)) == Move(w, i, Ending(false)))
            && (k.phase.Closing? ==>
                  Enabled(c, w, DoClose(i)) && Next(c, w, DoClose(i)) == w.(tasks := w.tasks - {i}, free := w.free + 1))
  {
    hide Move;
  }

  /** The submitter takes the oldest signatures, up to one batch; a refused batch goes
      back in front of the others; and after each answer the batch's actors are taken
      off their pages, one after the other. */
  lemma SubmitterGoesOn(c: Settings, w: Worker, answer: Answer)
    ensures w.pusher.Resting? && w.signed != [] && c.batchSize > 0 ==>
              && Enabled(c, w, DoTakeBatch)
              && var w' := Next(c, w, DoTakeBatch);
                 && w'.pusher.Posting? && w'.pusher.batch + w'.signed == w.signed
                 && |w'.pusher.batch| == (if |w.signed| < c.batchSize then |w.signed| else c.batchSize)
    ensures w.pusher.Posting? ==>
              && Enabled(c, w, DoPosted(answer))
              && Next(c, w, DoPosted(answer))
                 == w.(signed := if answer.Refused? then w.pusher.batch + w.signed else w.signed,
                       pusher := Dropping(answer, w.pusher.batch, w.pusher.batch, None))
    ensures w.pusher.Dropping? && w.pusher.spill.None? && w.pusher.todo == [] ==>
              Enabled(c, w, DoRest) && Next(c, w, DoRest) == w.(pusher := Resting)
  {
  }

  /** An actor taken off by the submitter: its page changes as for a task; when the page
      is tracked without it, an accepted batch is worked off again as a broken one, and
      in any other case the submitter stops. */
  lemma TakenOffExactly(c: Settings, w: Worker)
    requires w.pusher.Dropping? && w.pusher.spill.None? && w.pusher.todo != []
    ensures Enabled(c, w, DoDrop)
    ensures var w', a, p := Next(c, w, DoDrop), w.pusher.todo[0], w.pusher.(todo := w.pusher.todo[1..]);
            if a.page.None? || a.page.value !in w.items then w' == w.(pusher := p)
            else if a.uri !in w.items[a.page.value] then
              w' == w.(pusher := if w.pusher.why.Accepted? then Dropping(Broken, w.pusher.batch, w.pusher.batch, None)
                                 else Stopped)
            else
              var page := a.page.value;
              var left := w.items[page] - {a.uri};
              && w'.tasks == w.tasks
              && if left == {} then
                   && w'.pusher == p && w'.items == w.items - {page}
                   && w'.writes == w.writes + [NextPage(w.items - {page}, w.cursor)]
                 else
                   && w'.items == w.items[page := left] && w'.writes == w.writes
                   && w'.pusher == if |left| <= 3 && |w.items| >= 10
                                   then p.(spill := Some(Spill(page, |Drops(w, page)|, |left|))) else p
  {
    var a := w.pusher.todo[0];
    if a.page.Some? { RemovedExactly(w.items, a.page.value, a.uri); }
    hide NextPage, RemoveItem;
  }

  /** Updates reach the database one by one, in order; a restart begins at the page that
      is saved, with everything else forgotten. */
  lemma SavedExactly(c: Settings, w: Worker)
    ensures w.writes != [] ==>
              && Enabled(c, w, DoWrite)
              && Next(c, w, DoWrite) == w.(saved := w.writes[0], writes := w.writes[1..])
    ensures Enabled(c, w, DoRestart)
    ensures var w' := Next(c, w, DoRestart);
            && w'.cursor == w'.saved == w.saved && w'.loop.Between? && w'.pusher.Resting? && w'.free == c.slots
            && w'.tasks == map[] && w'.items == map[] && w'.signed == [] && w'.writes == []
  {
  }

  /** A batch that waited for the oldest task goes on once that is over. */
  lemma OldestOver(c: Settings, w: Worker)
    requires w.loop.AwaitOldest? && Over(w, w.loop.id)
    ensures Enabled(c, w, DoOldestOver)
    ensures Next(c, w, DoOldestOver)
        == w.(loop := if w.loop.id in w.tasks then Between else Launching(w.loop.todo, w.loop.count))
  {
  }
}

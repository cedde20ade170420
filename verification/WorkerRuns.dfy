/** Runs from the start on which the verifier's worker loses a slot, its crawl or
    its submitter, without any fault outside it but failed fetches and requests. */
module WorkerRuns {
  import opened Common
  import opened VerifierWorker
  import opened WorkerChain
  import opened WorkerLimits

  const U: Text := [1]
  const V: Text := [2]
  const ON_U := Actor(U, Some(0))
  const ON_V := Actor(V, Some(0))

  /** Every resource is a domain of its own. */
  function Plain(slots: nat, batchSize: nat): Settings { Settings((u: Text) => u, slots, batchSize) }

  const THREE := Plain(3, 50)

  function Resume(free: int, next: nat, prev: map<Text, nat>, tasks: map<nat, Task>, items: Pages,
          launched: map<nat, Text>): Worker {
    Worker(free, next, prev, tasks, items, map[], 0, Between, [], Resting, 0, [], launched)
  }

  const LISTED_ONCE := Resume(1, 2, map[U := 0, V := 1],
      map[0 := Task(ON_U, Waiting(None)), 1 := Task(ON_V, Waiting(None))],
                              map[0 := {U, V}], map[0 := U, 1 := V])

  const LISTED_TWICE := Resume(0, 3, map[U := 2, V := 1],
                               map[0 := Task(ON_U, Waiting(None)), 1 := Task(ON_V, Waiting(None)),
                                   2 := Task(ON_U, Waiting(Some(0)))],
                               map[0 := {U, V}], map[0 := U, 1 := V, 2 := U])

  const FIRST_OVER := Resume(1, 3, map[U := 2, V := 1],
                             map[1 := Task(ON_V, Waiting(None)), 2 := Task(ON_U, Waiting(Some(0)))],
                             map[0 := {V}], map[0 := U, 1 := V, 2 := U])

  const SECOND_FAILED := FIRST_OVER.(tasks := map[1 := Task(ON_V, Waiting(None)), 2 := Task(ON_U, Failed)])

  lemma PageRead(c: Settings, w: Worker, actors: seq<Actor>)
    requires w.loop.Between? && w.nextTask <= 5 * c.slots && w.cursor == 0
    requires forall k :: 0 <= k < |actors| ==> actors[k].page == Some(0)
    ensures Goes(c, w, DoPage(actors, 1), w.(loop := Launching(actors, 1)))
  {
    assert forall id: nat :: !TooOld(c, w, id);
  }

  lemma LaunchOne(c: Settings, w: Worker, a: Actor, rest: seq<Actor>, on: Option<nat>, items: Pages, w': Worker)
    requires c == Plain(c.slots, c.batchSize) && w.loop == Launching([a] + rest, 1) && w.free > 0 && a.page == Some(0)
    requires on == if a.uri in w.prev then Some(w.prev[a.uri]) else None
    requires items == w.items[0 := (if 0 in w.items then w.items[0] else {}) + {a.uri}]
    requires w' == w.(free := w.free - 1, prev := w.prev[a.uri := w.nextTask], items := items,
                      tasks := w.tasks[w.nextTask := Task(a, Waiting(on))], nextTask := w.nextTask + 1,
                      launched := w.launched[w.nextTask := a.uri], loop := Launching(rest, 1))
    ensures Goes(c, w, DoLaunch, w')
  {
    assert w.loop.todo[0] == a && w.loop.todo[1..] == rest;
  }

  lemma PageOver(c: Settings, w: Worker)
    requires w.loop == Launching([], 1) && w.cursor == 0
    ensures Goes(c, w, DoAdvance, w.(loop := Between))
  {
  }

  lemma FirstListing() returns (run: seq<Action>)
    ensures Run(THREE, Started(THREE, 0), run, LISTED_ONCE) && NoRestart(run)
  {
    var w0 := Started(THREE, 0);
    var w1 := w0.(loop := Launching([ON_U, ON_V], 1));
    var w2 := Resume(2, 1, map[U := 0], map[0 := Task(ON_U, Waiting(None))], map[0 := {U}],
        map[0 := U]).(loop := Launching([ON_V], 1));
    var w3 := LISTED_ONCE.(loop := Launching([], 1));
    run := [DoPage([ON_U, ON_V], 1), DoLaunch, DoLaunch, DoAdvance];
    hide Next, Enabled, Goes, Run;
    PageRead(THREE, w0, [ON_U, ON_V]);
    assert [ON_U] + [ON_V] == [ON_U, ON_V] && [ON_V] + [] == [ON_V] && {} + {U} == {U} && {U} + {V} == {U, V};
    LaunchOne(THREE, w1, ON_U, [ON_V], None, map[0 := {U}], w2);
    LaunchOne(THREE, w2, ON_V, [], None, map[0 := {U, V}], w3);
    PageOver(THREE, w3);
    Four(THREE, w0, run[0], w1, DoLaunch, w2, DoLaunch, w3, DoAdvance, LISTED_ONCE);
  }

  lemma SecondListing() returns (run: seq<Action>)
    ensures Run(THREE, LISTED_ONCE, run, LISTED_TWICE) && NoRestart(run)
  {
    var w0 := LISTED_ONCE;
    var w1 := w0.(loop := Launching([ON_U], 1));
    var w2 := LISTED_TWICE.(loop := Launching([], 1));
    run := [DoPage([ON_U], 1), DoLaunch, DoAdvance];
    hide Next, Enabled, Goes, Run;
    PageRead(THREE, w0, [ON_U]);
    assert [ON_U] + [] == [ON_U] && {U, V} + {U} == {U, V};
    LaunchOne(THREE, w1, ON_U, [], Some(0), map[0 := {U, V}], w2);
    PageOver(THREE, w2);
    Three(THREE, w0, run[0], w1, DoLaunch, w2, DoAdvance, LISTED_TWICE);
  }

  /** A task that need not wait begins, and its fetch fails. */
  lemma FetchFails(c: Settings, w: Worker, i: nat, w1: Worker, w2: Worker)
    requires i in w.tasks && w.tasks[i].phase.Waiting?
        && (w.tasks[i].phase.on.Some? ==> w.tasks[i].phase.on.value !in w.tasks)
    requires w1 == Move(w, i, Fetching) && w2 == Move(w1, i, Ending(false))
    ensures Goes(c, w, DoBegin(i), w1) && Goes(c, w1, DoGiveUp(i), w2)
  {
  }

  lemma FirstEnds() returns (run: seq<Action>)
    ensures Run(THREE, LISTED_TWICE, run, FIRST_OVER) && NoRestart(run)
  {
    var w0 := LISTED_TWICE;
    var w1 := Move(w0, 0, Fetching);
    var w2 := Move(w1, 0, Ending(false));
    var w3 := Move(w2.(items := map[0 := {V}]), 0, Closing);
    run := [DoBegin(0), DoGiveUp(0), DoEnd(0), DoClose(0)];
    hide Next, Enabled, Goes, Run;
    FetchFails(THREE, w0, 0, w1, w2);
    EndKept(THREE, w2, 0, map[0 := {V}]);
    CloseOne(THREE, w3, 0, FIRST_OVER);
    Four(THREE, w0, DoBegin(0), w1, DoGiveUp(0), w2, DoEnd(0), w3, DoClose(0), FIRST_OVER);
  }

  lemma CloseOne(c: Settings, w: Worker, i: nat, w': Worker)
    requires i in w.tasks && w.tasks[i].phase.Closing? && w' == w.(tasks := w.tasks - {i}, free := w.free + 1)
    ensures Goes(c, w, DoClose(i), w')
  {
  }

  lemma EndMissing(c: Settings, w: Worker, i: nat)
    requires i in w.tasks && w.tasks[i] == Task(ON_U, Ending(false)) && w.items == map[0 := {V}]
    ensures Goes(c, w, DoEnd(i), Move(w, i, Failed))
  {
    assert RemoveItem(w.items, 0, U) == Missing;
  }

  lemma EndKept(c: Settings, w: Worker, i: nat, items: Pages)
    requires i in w.tasks && w.tasks[i] == Task(ON_U, Ending(false)) && w.items == map[0 := {U, V}]
        && items == map[0 := {V}]
    ensures Goes(c, w, DoEnd(i), Move(w.(items := items), i, Closing))
  {
    assert {U, V} - {U} == {V};
    assert RemoveItem(w.items, 0, U) == Kept(items);
  }

  lemma SecondFails() returns (run: seq<Action>)
    ensures Run(THREE, FIRST_OVER, run, SECOND_FAILED) && NoRestart(run)
  {
    var w0 := FIRST_OVER;
    var w1 := Move(w0, 2, Fetching);
    var w2 := Move(w1, 2, Ending(false));
    run := [DoBegin(2), DoGiveUp(2), DoEnd(2)];
    hide Next, Enabled, Goes, Run;
    FetchFails(THREE, w0, 2, w1, w2);
    EndMissing(THREE, w2, 2);
    Three(THREE, w0, DoBegin(2), w1, DoGiveUp(2), w2, DoEnd(2), SECOND_FAILED);
  }

  lemma ToSecondFailed() returns (run: seq<Action>)
    ensures Run(THREE, Started(THREE, 0), run, SECOND_FAILED) && NoRestart(run)
  {
    var a := FirstListing();
    var b := SecondListing();
    var d := FirstEnds();
    var e := SecondFails();
    run := a + b + d + e;
    hide Run;
    RunAppend(THREE, Started(THREE, 0), a, LISTED_ONCE, b, LISTED_TWICE);
    RunAppend(THREE, Started(THREE, 0), a + b, LISTED_TWICE, d, FIRST_OVER);
    RunAppend(THREE, Started(THREE, 0), a + b + d, FIRST_OVER, e, SECOND_FAILED);
  }

  /** A run that loses a slot: the last page is read again while its actors are
      unfinished, and both fetches of one of them fail. */
  lemma SlotLost() returns (run: seq<Action>, w: Worker)
    ensures Run(THREE, Started(THREE, 0), run, w) && NoRestart(run)
    ensures w.free + |LiveTasks(w)| < THREE.slots
  {
    run := ToSecondFailed();
    w := SECOND_FAILED;
    assert LiveTasks(w) == {1};
  }

  lemma JoinNoRestart(a: seq<Action>, b: seq<Action>)
    requires NoRestart(a) && NoRestart(b)
    ensures NoRestart(a + b)
  {
  }

  // ------------------------------------------------------------ a lost crawl

  /** Only the failed task 2 has an entry, and the crawl is between batches. */
  ghost predicate OnlyFailed(w: Worker) {
    && w.loop.Between? && w.tasks == map[2 := Task(ON_U, Failed)] && w.free == 2 && w.items == map[]
    && w.cursor == 0 && 3 <= w.nextTask && (V in w.prev ==> w.prev[V] < w.nextTask)
  }

  /** The last actor of the page is given up, and the page is forgotten. */
  lemma LastEnds() returns (run: seq<Action>, w: Worker)
    ensures Run(THREE, SECOND_FAILED, run, w) && NoRestart(run) && OnlyFailed(w) && w.nextTask == 3
  {
    var w0 := SECOND_FAILED;
    var w1 := Move(w0, 1, Fetching);
    var w2 := Move(w1, 1, Ending(false));
    var w3 := Move(w2.(items := map[], dropped := map[0 := [0]], writes := [0]), 1, Closing);
    w := w3.(tasks := w3.tasks - {1}, free := w3.free + 1);
    run := [DoBegin(1), DoGiveUp(1), DoEnd(1), DoClose(1)];
    assert w.tasks == map[2 := Task(ON_U, Failed)];
    hide Next, Enabled, Goes, Run;
    FetchFails(THREE, w0, 1, w1, w2);
    EndEmptied(THREE, w2, 1);
    CloseOne(THREE, w3, 1, w);
    Four(THREE, w0, DoBegin(1), w1, DoGiveUp(1), w2, DoEnd(1), w3, DoClose(1), w);
  }

  lemma EndEmptied(c: Settings, w: Worker, i: nat)
    requires i in w.tasks && w.tasks[i] == Task(ON_V, Ending(false)) && w.items == map[0 := {V}] && w.writes == []
        && w.cursor == 0 && w.dropped == map[]
    ensures Goes(c, w, DoEnd(i), Move(w.(items := map[], dropped := map[0 := [0]], writes := [0]), i, Closing))
  {
    assert {V} - {V} == {} && w.items - {0} == map[] && Drops(w, 0) + [0] == [0];
    assert RemoveItem(w.items, 0, V) == Emptied;
  }

  const OWN_V := Actor(V, None)

  /** The state in which one actor of the verifier's own queue was launched. */
  function OwnQueued(w: Worker): Worker {
    var on := if V in w.prev then Some(w.prev[V]) else None;
    w.(free := 1, prev := w.prev[V := w.nextTask], nextTask := w.nextTask + 1,
       tasks := w.tasks[w.nextTask := Task(OWN_V, Waiting(on))], launched := w.launched[w.nextTask := V])
  }

  lemma OwnLaunch(w: Worker) returns (run: seq<Action>)
    requires OnlyFailed(w) && w.nextTask <= 17
    ensures Run(THREE, w, run, OwnQueued(w)) && NoRestart(run)
  {
    var w1 := w.(loop := Launching([OWN_V], 1));
    var w2 := OwnQueued(w).(loop := Launching([], 1));
    run := [DoPage([OWN_V], 1), DoLaunch, DoAdvance];
    OwnLaunched(w, w1, w2, OwnQueued(w));
    hide Next, Enabled, Goes, Run;
    Three(THREE, w, run[0], w1, DoLaunch, w2, DoAdvance, OwnQueued(w));
  }

  lemma OwnFinish(w: Worker) returns (run: seq<Action>, w': Worker)
    requires OnlyFailed(w)
    ensures Run(THREE, OwnQueued(w), run, w') && NoRestart(run) && OnlyFailed(w') && w'.nextTask == w.nextTask + 1
  {
    var id, w3 := w.nextTask, OwnQueued(w);
    var w4 := Move(w3, id, Fetching);
    var w5 := Move(w4, id, Ending(false));
    var w6 := Move(w5, id, Closing);
    w' := w6.(tasks := w6.tasks - {id}, free := 2);
    run := [DoBegin(id), DoGiveUp(id), DoEnd(id), DoClose(id)];
    assert w'.tasks == map[2 := Task(ON_U, Failed)];
    hide Next, Enabled, Goes, Run;
    BeginOver(w3, id, w4, w5);
    OwnEnds(w5, id);
    CloseOne(THREE, w6, id, w');
    Four(THREE, w3, run[0], w4, run[1], w5, run[2], w6, run[3], w');
  }

  /** One actor of the verifier's own queue is launched and given up. */
  lemma OneMore(w: Worker) returns (run: seq<Action>, w': Worker)
    requires OnlyFailed(w) && w.nextTask <= 17
    ensures Run(THREE, w, run, w') && NoRestart(run) && OnlyFailed(w') && w'.nextTask == w.nextTask + 1
  {
    var a := OwnLaunch(w);
    var b, last := OwnFinish(w);
    hide Run, OnlyFailed;
    run, w' := a + b, last;
    RunAppend(THREE, w, a, OwnQueued(w), b, w');
  }

  lemma OwnLaunched(w: Worker, w1: Worker, w2: Worker, w3: Worker)
    requires OnlyFailed(w) && w.nextTask <= 17
    requires w1 == w.(loop := Launching([OWN_V], 1)) && w3 == w2.(loop := Between)
    requires w2 == w.(loop := Launching([], 1), free := 1, prev := w.prev[V := w.nextTask], nextTask := w.nextTask + 1,
                      tasks := w.tasks[w.nextTask := Task(OWN_V,
                          Waiting(if V in w.prev then Some(w.prev[V]) else None))],
                      launched := w.launched[w.nextTask := V])
    ensures Goes(THREE, w, DoPage([OWN_V], 1), w1) && Goes(THREE, w1, DoLaunch, w2) && Goes(THREE, w2, DoAdvance, w3)
  {
    assert forall id: nat :: Oldest(w, id) ==> id == 2;
    assert Goes(THREE, w, DoPage([OWN_V], 1), w1);
    assert w1.loop.todo[1..] == [];
    assert THREE.slots == 3 && DomainOf(THREE, OWN_V) == V;
    hide Oldest, TooOld, RemoveItem, NextPage;
    assert Launch(THREE, w1) == w2;
  }

  lemma BeginOver(w: Worker, i: nat, w1: Worker, w2: Worker)
    requires i in w.tasks && w.tasks[i].phase.Waiting?
        && (w.tasks[i].phase.on.Some? ==> Over(w, w.tasks[i].phase.on.value))
    requires w1 == Move(w, i, Fetching) && w2 == Move(w1, i, Ending(false))
    ensures Goes(THREE, w, DoBegin(i), w1) && Goes(THREE, w1, DoGiveUp(i), w2)
  {
  }

  lemma OwnEnds(w: Worker, i: nat)
    requires i in w.tasks && w.tasks[i] == Task(OWN_V, Ending(false))
    ensures Goes(THREE, w, DoEnd(i), Move(w, i, Closing))
  {
    hide RemoveItem, NextPage;
  }

  lemma {:induction false} ManyMore(w: Worker) returns (run: seq<Action>, w': Worker)
    requires OnlyFailed(w) && w.nextTask <= 18
    ensures Run(THREE, w, run, w') && NoRestart(run) && OnlyFailed(w') && w'.nextTask == 18
    decreases 18 - w.nextTask
  {
    hide Next, Enabled, OnlyFailed;
    if w.nextTask == 18 {
      run, w' := [], w;
    } else {
      var a, w1 := OneMore(w);
      var b;
      b, w' := ManyMore(w1);
      run := a + b;
      RunAppend(THREE, w, a, w1, b, w');
    }
  }

  /** A run after which the crawl launches nothing until a restart, with two of
      three slots free: a task failed in its clean-up and fifteen others went by. */
  lemma CrawlLost() returns (run: seq<Action>, w: Worker)
    ensures Run(THREE, Started(THREE, 0), run, w) && NoRestart(run)
    ensures Stuck(THREE, w, 2) && w.free == 2
  {
    var w0 := Started(THREE, 0);
    var a := ToSecondFailed();
    var b, w1 := LastEnds();
    var d;
    d, w := ManyMore(w1);
    run := a + b + d;
    hide Run;
    RunAppend(THREE, w0, a, SECOND_FAILED, b, w1);
    RunAppend(THREE, w0, a + b, w1, d, w);
  }

  // -------------------------------------------------------- no slot left

  /** A task that need not wait begins, signs its actor and gives its slot back. */
  lemma SignAndClose(c: Settings, w: Worker, i: nat, w': Worker)
    requires i in w.tasks && w.tasks[i].phase == Waiting(None)
    requires w' == w.(tasks := w.tasks - {i}, free := w.free + 1, signed := w.signed + [w.tasks[i].actor])
    ensures Run(c, w, [DoBegin(i), DoSign(i), DoEnd(i), DoClose(i)], w')
  {
    var w1 := Move(w, i, Fetching);
    var w2 := Move(w1.(signed := w.signed + [w.tasks[i].actor]), i, Ending(true));
    var w3 := Move(w2, i, Closing);
    assert w3.tasks - {i} == w.tasks - {i};
    SignSteps(c, w, i, w1, w2, w3);
    hide Next, Enabled, Goes, Run;
    CloseOne(c, w3, i, w');
    Four(c, w, DoBegin(i), w1, DoSign(i), w2, DoEnd(i), w3, DoClose(i), w');
  }

  lemma SignSteps(c: Settings, w: Worker, i: nat, w1: Worker, w2: Worker, w3: Worker)
    requires i in w.tasks && w.tasks[i].phase == Waiting(None)
    requires w1 == Move(w, i, Fetching)
    requires w2 == Move(w1.(signed := w.signed + [w.tasks[i].actor]), i, Ending(true)) && w3 == Move(w2, i, Closing)
    ensures Goes(c, w, DoBegin(i), w1) && Goes(c, w1, DoSign(i), w2) && Goes(c, w2, DoEnd(i), w3)
  {
    hide RemoveItem, NextPage;
  }

  const ONE := Plain(1, 1)

  const BOTH_SIGNED := Resume(1, 2, map[U := 0, V := 1], map[], map[0 := {U, V}],
      map[0 := U, 1 := V]).(signed := [ON_U, ON_V])

  const LISTED_AGAIN := Resume(0, 3, map[U := 2, V := 1], map[2 := Task(ON_U, Waiting(Some(0)))],
                               map[0 := {U, V}], map[0 := U, 1 := V, 2 := U]).(signed := [ON_U, ON_V])

  const SUBMITTED := LISTED_AGAIN.(items := map[0 := {V}], signed := [ON_V],
      pusher := Dropping(Accepted, [ON_U], [], None))

  const NONE_LEFT := SUBMITTED.(tasks := map[2 := Task(ON_U, Failed)])

  const FIRST_SIGNED := Resume(1, 1, map[U := 0], map[], map[0 := {U}], map[0 := U])
    .(loop := Launching([ON_V], 1), signed := [ON_U])

  lemma SignFirst() returns (run: seq<Action>)
    ensures Run(ONE, Started(ONE, 0), run, FIRST_SIGNED) && NoRestart(run)
  {
    var w0 := Started(ONE, 0);
    var w1 := w0.(loop := Launching([ON_U, ON_V], 1));
    var w2 := FIRST_SIGNED.(free := 0, tasks := map[0 := Task(ON_U, Waiting(None))], signed := []);
    var a, b := [DoPage([ON_U, ON_V], 1), DoLaunch], [DoBegin(0), DoSign(0), DoEnd(0), DoClose(0)];
    run := a + b;
    assert [ON_U] + [ON_V] == [ON_U, ON_V] && {} + {U} == {U};
    assert w2.tasks - {0} == map[] && [] + [ON_U] == [ON_U];
    hide Next, Enabled, Goes, Run;
    PageRead(ONE, w0, [ON_U, ON_V]);
    LaunchOne(ONE, w1, ON_U, [ON_V], None, map[0 := {U}], w2);
    Two(ONE, w0, a[0], w1, a[1], w2);
    SignAndClose(ONE, w2, 0, FIRST_SIGNED);
    RunAppend(ONE, w0, a, w2, b, FIRST_SIGNED);
  }

  lemma SignSecond() returns (run: seq<Action>)
    ensures Run(ONE, FIRST_SIGNED, run, BOTH_SIGNED) && NoRestart(run)
  {
    var w0 := FIRST_SIGNED;
    var w2 := BOTH_SIGNED.(free := 0, tasks := map[1 := Task(ON_V, Waiting(None))], signed := [ON_U]);
    var w1 := w2.(loop := Launching([], 1));
    var a, b := [DoLaunch, DoAdvance], [DoBegin(1), DoSign(1), DoEnd(1), DoClose(1)];
    run := a + b;
    assert [ON_V] + [] == [ON_V] && {U} + {V} == {U, V};
    assert w2.tasks - {1} == map[] && [ON_U] + [ON_V] == [ON_U, ON_V];
    hide Next, Enabled, Goes, Run;
    LaunchOne(ONE, w0, ON_V, [], None, map[0 := {U, V}], w1);
    PageOver(ONE, w1);
    Two(ONE, w0, a[0], w1, a[1], w2);
    SignAndClose(ONE, w2, 1, BOTH_SIGNED);
    RunAppend(ONE, w0, a, w2, b, BOTH_SIGNED);
  }

  lemma ListAgain() returns (run: seq<Action>)
    ensures Run(ONE, BOTH_SIGNED, run, LISTED_AGAIN) && NoRestart(run)
  {
    var w0 := BOTH_SIGNED;
    var w1 := w0.(loop := Launching([ON_U], 1));
    var w2 := LISTED_AGAIN.(loop := Launching([], 1));
    run := [DoPage([ON_U], 1), DoLaunch, DoAdvance];
    assert [ON_U] + [] == [ON_U] && {U, V} + {U} == {U, V};
    hide Next, Enabled, Goes, Run;
    PageRead(ONE, w0, [ON_U]);
    LaunchOne(ONE, w1, ON_U, [], Some(0), map[0 := {U, V}], w2);
    PageOver(ONE, w2);
    Three(ONE, w0, run[0], w1, run[1], w2, run[2], LISTED_AGAIN);
  }

  lemma SubmitFirst() returns (run: seq<Action>)
    ensures Run(ONE, LISTED_AGAIN, run, SUBMITTED) && NoRestart(run)
  {
    var w0 := LISTED_AGAIN;
    var w1 := w0.(signed := [ON_V], pusher := Posting([ON_U]));
    var w2 := w1.(pusher := Dropping(Accepted, [ON_U], [ON_U], None));
    run := [DoTakeBatch, DoPosted(Accepted), DoDrop];
    assert [ON_U, ON_V] == [ON_U] + [ON_V];
    KeptOfTwo(w2.items);
    hide Next, Enabled, Goes, Run, RemoveItem;
    BatchTaken(ONE, w0, [ON_U], [ON_V], w1);
    PostAccepted(ONE, w1, [ON_U], w2);
    DropKept(ONE, w2, ON_U, SUBMITTED);
    Three(ONE, w0, run[0], w1, run[1], w2, run[2], SUBMITTED);
  }

  lemma BatchTaken(c: Settings, w: Worker, batch: seq<Actor>, rest: seq<Actor>, w': Worker)
    requires w.pusher.Resting? && w.signed == batch + rest && batch != [] && 0 < c.batchSize
    requires |batch| == c.batchSize || (|batch| <= c.batchSize && rest == [])
    requires w' == w.(signed := rest, pusher := Posting(batch))
    ensures Goes(c, w, DoTakeBatch, w')
  {
    hide RemoveItem, NextPage;
    assert (batch + rest)[..|batch|] == batch && (batch + rest)[|batch|..] == rest;
  }

  lemma PostAccepted(c: Settings, w: Worker, batch: seq<Actor>, w': Worker)
    requires w.pusher == Posting(batch) && w' == w.(pusher := Dropping(Accepted, batch, batch, None))
    ensures Goes(c, w, DoPosted(Accepted), w')
  {
    hide RemoveItem, NextPage;
  }

  lemma LastSlotGoes() returns (run: seq<Action>)
    ensures Run(ONE, SUBMITTED, run, NONE_LEFT) && NoRestart(run)
  {
    var w0 := SUBMITTED;
    var w1 := Move(w0, 2, Fetching);
    var w2 := Move(w1, 2, Ending(false));
    run := [DoBegin(2), DoGiveUp(2), DoEnd(2)];
    hide Next, Enabled, Goes, Run;
    FetchFails(ONE, w0, 2, w1, w2);
    EndMissing(ONE, w2, 2);
    Three(ONE, w0, run[0], w1, run[1], w2, run[2], NONE_LEFT);
  }

  /** A run after which no slot is left: both actors of the last page are signed,
      the page is read again, and while one of them is being fetched once more its
      first signature is submitted; the new fetch fails. */
  lemma AllSlotsLost() returns (run: seq<Action>, w: Worker)
    ensures Run(ONE, Started(ONE, 0), run, w) && NoRestart(run) && NoSlots(w)
  {
    var w0 := Started(ONE, 0);
    var a := SignFirst();
    var b := SignSecond();
    var d := ListAgain();
    var e := SubmitFirst();
    var f := LastSlotGoes();
    w := NONE_LEFT;
    run := a + b + d + e + f;
    hide Run;
    RunAppend(ONE, w0, a, FIRST_SIGNED, b, BOTH_SIGNED);
    RunAppend(ONE, w0, a + b, BOTH_SIGNED, d, LISTED_AGAIN);
    RunAppend(ONE, w0, a + b + d, LISTED_AGAIN, e, SUBMITTED);
    RunAppend(ONE, w0, a + b + d + e, SUBMITTED, f, w);
  }

  // ------------------------------------------------------ a lost submitter

  /** A run after which the submitter is stopped: of two actors of a page one is
      signed, and its signature is refused once and then accepted. */
  lemma SubmitterLost() returns (run: seq<Action>, w: Worker)
    ensures Run(THREE, Started(THREE, 0), run, w) && NoRestart(run) && w.pusher.Stopped?
    ensures Live(w, 1) && w.tasks[1].actor == ON_V
  {
    var w0 := Started(THREE, 0);
    var a := FirstListing();
    var b, w1 := FirstPosted();
    var d := REFUSED_THEN_ACCEPTED;
    JoinNoRestart(a, b);
    JoinNoRestart(a + b, d) by { RefusedNoRestart(); }
    hide Run, RemoveItem, NoRestart, REFUSED_THEN_ACCEPTED;
    w := RefusedThenAcceptedStops(THREE, w1, ON_U);
    run := a + b + d;
    RunAppend(THREE, w0, a, LISTED_ONCE, b, w1);
    RunAppend(THREE, w0, a + b, w1, d, w);
  }

  lemma RefusedNoRestart()
    ensures NoRestart(REFUSED_THEN_ACCEPTED)
  {
  }

  lemma KeptOfTwo(items: Pages)
    requires items == map[0 := {U, V}]
    ensures RemoveItem(items, 0, U) == Kept(map[0 := {V}])
  {
    assert {U, V} - {U} == {V};
  }

  lemma FirstPosted() returns (run: seq<Action>, w: Worker)
    ensures Run(THREE, LISTED_ONCE, run, w) && NoRestart(run)
    ensures w.pusher == Posting([ON_U]) && w.signed == [] && RemoveItem(w.items, 0, U).Kept?
    ensures w.tasks == map[0 := Task(ON_U, Ending(true)), 1 := Task(ON_V, Waiting(None))]
  {
    var w0 := LISTED_ONCE;
    var w1 := Move(w0, 0, Fetching);
    var w2 := Move(w1.(signed := [ON_U]), 0, Ending(true));
    w := w2.(signed := [], pusher := Posting([ON_U]));
    run := [DoBegin(0), DoSign(0), DoTakeBatch];
    assert [] + [ON_U] == [ON_U] && [ON_U] + [] == [ON_U];
    SignSteps(THREE, w0, 0, w1, w2, Move(w2, 0, Closing));
    KeptOfTwo(w.items);
    hide Next, Enabled, Goes, Run, RemoveItem;
    BatchTaken(THREE, w2, [ON_U], [], w);
    Three(THREE, w0, run[0], w1, run[1], w2, run[2], w);
  }
}

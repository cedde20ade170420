/** The verifier's tasks: one fetch per domain at a time, no task waiting for
    ever, every slot accounted for. */
module WorkerChain {
  import opened Common
  import opened VerifierWorker

  /** The task has an entry and is not over. */
  predicate Live(w: Worker, i: nat) { i in w.tasks && !w.tasks[i].phase.Failed? }

  predicate IsWaiting(w: Worker, i: nat) { i in w.tasks && w.tasks[i].phase.Waiting? }

  /** Both ids belong to tasks of one domain, `i` launched before `j`. */
  predicate Earlier(w: Worker, i: nat, j: nat) {
    i in w.launched && j in w.launched && i < j && w.launched[i] == w.launched[j]
  }

  ghost predicate IdsRight(c: Settings, w: Worker) {
    && (forall i :: i in w.tasks ==> i in w.launched && w.launched[i] == DomainOf(c, w.tasks[i].actor))
    && (forall i :: i in w.launched ==> i < w.nextTask)
  }

  /** `prev` knows the last task of each domain. */
  ghost predicate PrevRight(w: Worker) {
    && (forall d :: d in w.prev ==> w.prev[d] in w.launched && w.launched[w.prev[d]] == d)
    && (forall i :: i in w.launched ==> w.launched[i] in w.prev && i <= w.prev[w.launched[i]])
  }

  /** A task waits for the last task of its domain launched before it. */
  ghost predicate WaitRight(w: Worker, j: nat)
    requires IsWaiting(w, j)
  {
    var on := w.tasks[j].phase.on;
    && (on.Some? ==> Earlier(w, on.value, j))
    && (forall i: nat :: Earlier(w, i, j) ==> on.Some? && i <= on.value)
  }

  /** While a task is not over, later tasks of its domain have not begun. */
  ghost predicate InOrder(w: Worker) {
    forall i, j :: Live(w, i) && Earlier(w, i, j) ==> IsWaiting(w, j)
  }

  ghost predicate ChainInv(c: Settings, w: Worker) {
    && IdsRight(c, w)
    && PrevRight(w)
    && (forall j :: IsWaiting(w, j) ==> WaitRight(w, j))
    && InOrder(w)
  }

  /** Slots and entries: failed tasks keep theirs. */
  ghost predicate SlotInv(c: Settings, w: Worker) {
    0 <= w.free && w.free + |w.tasks| == c.slots
  }

  // ------------------------------------------------------------------ one step

  lemma LaunchChain(c: Settings, w: Worker)
    requires ChainInv(c, w) && w.loop.Launching? && w.loop.todo != []
    ensures ChainInv(c, Launch(c, w))
  {
    var w', k := Launch(c, w), w.nextTask;
    assert k !in w.launched && k !in w.tasks;
    forall j | IsWaiting(w', j) ensures WaitRight(w', j) {
      if j != k {
        assert WaitRight(w, j);
        forall i: nat | Earlier(w', i, j) ensures w'.tasks[j].phase.on.Some? && i <= w'.tasks[j].phase.on.value {
          assert Earlier(w, i, j);
        }
      }
    }
    forall i, j | Live(w', i) && Earlier(w', i, j) ensures IsWaiting(w', j) {
      if j != k { assert Earlier(w, i, j); }
    }
  }

  /** One task moves on, or its entry goes; nothing is launched. */
  ghost predicate OneMoves(w: Worker, w': Worker, k: nat) {
    && w'.nextTask == w.nextTask && w'.prev == w.prev && w'.launched == w.launched
    && k in w.tasks
    && (forall i :: i != k ==> (i in w'.tasks <==> i in w.tasks))
    && (forall i :: i in w'.tasks ==> i in w.tasks && w'.tasks[i].actor == w.tasks[i].actor)
    && (forall i :: i in w'.tasks && i != k ==> w'.tasks[i] == w.tasks[i])
    && !IsWaiting(w', k)
    && (Live(w', k) ==> Live(w, k))
  }

  /** A task that goes on after waiting has no live predecessor in its domain. */
  lemma FirstInLine(c: Settings, w: Worker, k: nat, i: nat)
    requires ChainInv(c, w) && Live(w, k) && Earlier(w, i, k)
    requires IsWaiting(w, k) ==> (w.tasks[k].phase.on.Some? ==> Over(w, w.tasks[k].phase.on.value))
    ensures !Live(w, i)
  {
    if IsWaiting(w, k) {
      assert WaitRight(w, k);
      var on := w.tasks[k].phase.on.value;
      assert i < on ==> Earlier(w, i, on);
    }
  }

  lemma MoveChain(c: Settings, w: Worker, w': Worker, k: nat)
    requires ChainInv(c, w) && OneMoves(w, w', k) && Live(w, k)
    requires IsWaiting(w, k) ==> (w.tasks[k].phase.on.Some? ==> Over(w, w.tasks[k].phase.on.value))
    ensures ChainInv(c, w')
  {
    forall j | IsWaiting(w', j) ensures WaitRight(w', j) {
      assert WaitRight(w, j);
      forall i: nat | Earlier(w', i, j) ensures w'.tasks[j].phase.on.Some? && i <= w'.tasks[j].phase.on.value {
        assert Earlier(w, i, j);
      }
    }
    forall i, j | Live(w', i) && Earlier(w', i, j) ensures IsWaiting(w', j) {
      assert Earlier(w, i, j) && Live(w, i);
      if j == k { FirstInLine(c, w, k, i); }
    }
  }

  /** The task that a step moves. */
  function Mover(a: Action): Option<nat> {
    match a
    case DoBegin(i) => Some(i)
    case DoSign(i) => Some(i)
    case DoGiveUp(i) => Some(i)
    case DoEnd(i) => Some(i)
    case DoSpilt(i, _) => Some(i)
    case DoClose(i) => Some(i)
    case _ => None
  }

  /** Nothing about the tasks changes. */
  ghost predicate SameTasks(w: Worker, w': Worker) {
    && w'.tasks == w.tasks && w'.nextTask == w.nextTask && w'.prev == w.prev
    && w'.launched == w.launched && w'.free == w.free
  }

  lemma MovesTo(w: Worker, w1: Worker, k: nat, p: Phase)
    requires SameTasks(w, w1) && Live(w, k) && !p.Waiting?
    ensures OneMoves(w, Move(w1, k, p), k)
    ensures Move(w1, k, p).free == w.free && Move(w1, k, p).tasks.Keys == w.tasks.Keys
  {
  }

  lemma EndMoves(w: Worker, i: nat)
    requires i in w.tasks && w.tasks[i].phase.Ending?
    ensures OneMoves(w, EndTask(w, i), i) && EndTask(w, i).free == w.free && EndTask(w, i).tasks.Keys == w.tasks.Keys
  {
    var a := w.tasks[i].actor;
    hide RemoveItem, NextPage, OneMoves, Move;
    if w.tasks[i].phase.signed || a.page.None? { MovesTo(w, w, i, Closing); }
    else {
      match RemoveItem(w.items, a.page.value, a.uri)
      case Untracked => MovesTo(w, w, i, Closing);
      case Missing => MovesTo(w, w, i, Failed);
      case Kept(items) => MovesTo(w, w.(items := items), i, Closing);
      case Emptied => MovesTo(w, Forget(w, a.page.value, 0), i, Closing);
      case Last(items) => MovesTo(w, w.(items := items), i, Spilling(BeginSpill(w.(items := items), a.page.value)));
    }
  }

  lemma SpiltMoves(w: Worker, i: nat, more: bool)
    requires i in w.tasks && w.tasks[i].phase.Spilling?
    ensures OneMoves(w, Spilt(w, i, more), i) && Spilt(w, i, more).free == w.free
        && Spilt(w, i, more).tasks.Keys == w.tasks.Keys
  {
    var x := w.tasks[i].phase.spill;
    assert OneMoves(w, w, i);
    hide NextPage, OneMoves, Move, Entries;
    MovesTo(w, w, i, Failed);
    if x.page in w.items { MovesTo(w, Forget(w, x.page, |w.items[x.page]|), i, Closing); }
  }

  lemma CloseMoves(w: Worker, i: nat, w': Worker)
    requires i in w.tasks && w' == w.(tasks := w.tasks - {i}, free := w.free + 1)
    ensures OneMoves(w, w', i)
  {
  }

  /** The step's task moves, and was not waiting unless it begins now. */
  lemma MoverMoves(c: Settings, w: Worker, a: Action)
    requires Enabled(c, w, a) && Mover(a).Some?
    ensures OneMoves(w, Next(c, w, a), Mover(a).value) && Live(w, Mover(a).value)
    ensures !a.DoClose? ==> Next(c, w, a).free == w.free && Next(c, w, a).tasks.Keys == w.tasks.Keys
    ensures IsWaiting(w, Mover(a).value) ==> a.DoBegin?
  {
    hide RemoveItem, NextPage, OneMoves, Move, EndTask, Spilt;
    match a
    case DoBegin(i) => MovesTo(w, w, i, Fetching);
    case DoSign(i) => MovesTo(w, w.(signed := w.signed + [w.tasks[i].actor]), i, Ending(true));
    case DoGiveUp(i) => MovesTo(w, w, i, Ending(false));
    case DoEnd(i) => EndMoves(w, i);
    case DoSpilt(i, more) => SpiltMoves(w, i, more);
    case DoClose(i) => CloseMoves(w, i, Next(c, w, a));
  }

  lemma AdvanceSame(w: Worker)
    requires w.loop.Launching?
    ensures SameTasks(w, Advance(w))
  {
  }

  lemma DropNextSame(w: Worker)
    requires w.pusher.Dropping? && w.pusher.todo != [] && w.pusher.spill.None?
    ensures SameTasks(w, DropNext(w))
  {
    hide RemoveItem, NextPage, BeginSpill, PushRaised, Drops;
    var a := w.pusher.todo[0];
    if a.page.Some? {
      match RemoveItem(w.items, a.page.value, a.uri)
      case Untracked =>
      case Missing =>
      case Kept(_) =>
      case Emptied =>
      case Last(_) =>
    }
  }

  lemma DropSpiltSame(w: Worker, more: bool)
    requires w.pusher.Dropping? && w.pusher.spill.Some?
    ensures SameTasks(w, DropSpilt(w, more))
  {
    hide NextPage, Entries, PushRaised, Drops;
  }

  lemma OthersSame(c: Settings, w: Worker, a: Action)
    requires Enabled(c, w, a) && Mover(a).None? && !a.DoLaunch? && !a.DoRestart?
    ensures SameTasks(w, Next(c, w, a))
  {
    hide DropNext, DropSpilt, Oldest, TooOld, NextPage, Advance;
    if a.DoAdvance? { AdvanceSame(w); }
    if a.DoDrop? { DropNextSame(w); }
    if a.DoDropSpilt? { DropSpiltSame(w, a.more); }
  }

  lemma ChainStep(c: Settings, w: Worker, a: Action)
    requires ChainInv(c, w) && Enabled(c, w, a)
    ensures ChainInv(c, Next(c, w, a))
  {
    var w' := Next(c, w, a);
    if a.DoLaunch? { LaunchChain(c, w); }
    else if a.DoRestart? {}
    else if Mover(a).Some? {
      MoverMoves(c, w, a);
      assert a.DoBegin? ==> w.tasks[a.i].phase.on.Some? ==> Over(w, w.tasks[a.i].phase.on.value);
      hide Next, ChainInv;
      MoveChain(c, w, w', Mover(a).value);
    } else {
      OthersSame(c, w, a);
      hide Next;
      SameChain(c, w, w');
    }
  }

  lemma SameChain(c: Settings, w: Worker, w': Worker)
    requires ChainInv(c, w) && SameTasks(w, w')
    ensures ChainInv(c, w')
  {
    forall j | IsWaiting(w', j) ensures WaitRight(w', j) {
      assert WaitRight(w, j);
      assert forall i: nat :: Earlier(w', i, j) <==> Earlier(w, i, j);
    }
    forall i, j | Live(w', i) && Earlier(w', i, j) ensures IsWaiting(w', j) { assert Live(w, i) && Earlier(w, i, j); }
  }

  lemma SlotStep(c: Settings, w: Worker, a: Action)
    requires ChainInv(c, w) && SlotInv(c, w) && Enabled(c, w, a)
    ensures SlotInv(c, Next(c, w, a))
  {
    hide SlotInv, ChainInv, OneMoves, Launch;
    if a.DoLaunch? { LaunchSlots(c, w); }
    else if a.DoClose? { CloseSlots(c, w, a.i); }
    else if a.DoRestart? { StartedSlots(c, w.saved); }
    else {
      if Mover(a).Some? { MoverMoves(c, w, a); } else { OthersSame(c, w, a); }
      hide Next, Enabled;
      SameSlots(c, w, Next(c, w, a));
    }
  }

  lemma CloseSlots(c: Settings, w: Worker, i: nat)
    requires SlotInv(c, w) && i in w.tasks
    ensures SlotInv(c, w.(tasks := w.tasks - {i}, free := w.free + 1))
  {
    var tasks := w.tasks - {i};
    assert w.tasks.Keys == tasks.Keys + {i};
    MapSize(w.tasks);
    MapSize(tasks);
  }

  lemma SameSlots(c: Settings, w: Worker, w': Worker)
    requires SlotInv(c, w) && w'.free == w.free && w'.tasks.Keys == w.tasks.Keys
    ensures SlotInv(c, w')
  {
    MapSize(w.tasks);
    MapSize(w'.tasks);
  }

  lemma LaunchSlots(c: Settings, w: Worker)
    requires ChainInv(c, w) && SlotInv(c, w) && w.loop.Launching? && w.loop.todo != [] && w.free > 0
    ensures SlotInv(c, Launch(c, w))
  {
    LaunchKeys(c, w);
    hide Launch, ChainInv;
    MapSize(w.tasks);
    MapSize(Launch(c, w).tasks);
  }

  lemma StartedSlots(c: Settings, saved: nat)
    ensures SlotInv(c, Started(c, saved))
  {
  }

  lemma LaunchKeys(c: Settings, w: Worker)
    requires ChainInv(c, w) && w.loop.Launching? && w.loop.todo != []
    ensures w.nextTask !in w.tasks && Launch(c, w).tasks.Keys == w.tasks.Keys + {w.nextTask}
        && Launch(c, w).free == w.free - 1
  {
  }

  lemma {:induction false} ChainRun(c: Settings, w: Worker, run: seq<Action>, w': Worker)
    requires ChainInv(c, w) && SlotInv(c, w) && Run(c, w, run, w')
    ensures ChainInv(c, w') && SlotInv(c, w')
    decreases run
  {
    hide ChainInv, SlotInv, Next, Enabled;
    if run != [] {
      ChainStep(c, w, run[0]);
      SlotStep(c, w, run[0]);
      ChainRun(c, Next(c, w, run[0]), run[1..], w');
    }
  }

  // ------------------------------------------------------------------ theorems

  /** On every run at most one task of a domain is between the start of its fetch
      and the end of its clean-up. */
  lemma OneFetchPerDomain(c: Settings, saved: nat, run: seq<Action>, w: Worker, i: nat, j: nat)
    requires Run(c, Started(c, saved), run, w)
    requires Live(w, i) && !IsWaiting(w, i) && Live(w, j) && !IsWaiting(w, j)
    requires c.netloc(w.tasks[i].actor.uri) == c.netloc(w.tasks[j].actor.uri)
    ensures i == j
  {
    ChainRun(c, Started(c, saved), run, w);
    assert IdsRight(c, w);
    assert i < j ==> Earlier(w, i, j);
    assert j < i ==> Earlier(w, j, i);
  }

  /** Tasks wait only for tasks launched before them, so the wait graph has no cycle. */
  lemma WaitsBackwards(c: Settings, saved: nat, run: seq<Action>, w: Worker, j: nat)
    requires Run(c, Started(c, saved), run, w) && IsWaiting(w, j) && w.tasks[j].phase.on.Some?
    ensures w.tasks[j].phase.on.value < j
  {
    ChainRun(c, Started(c, saved), run, w);
    assert WaitRight(w, j);
  }

  lemma {:induction false} LeastLive(w: Worker, i: nat) returns (k: nat)
    requires Live(w, i)
    ensures Live(w, k) && forall j: nat :: j < k ==> !Live(w, j)
    decreases i
  {
    if j: nat :| j < i && Live(w, j) { k := LeastLive(w, j); } else { k := i; }
  }

  /** The next step of a task. */
  function NextOf(w: Worker, k: nat): Action
    requires Live(w, k)
  {
    match w.tasks[k].phase
    case Waiting(_) => DoBegin(k)
    case Fetching => DoGiveUp(k)
    case Ending(_) => DoEnd(k)
    case Spilling(_) => DoSpilt(k, false)
    case _ => DoClose(k)
  }

  /** As long as some task is not over, some task can go on. */
  lemma NoDeadlock(c: Settings, saved: nat, run: seq<Action>, w: Worker, i: nat)
    requires Run(c, Started(c, saved), run, w) && Live(w, i)
    ensures exists k :: Live(w, k) && Enabled(c, w, NextOf(w, k))
  {
    var k := LeastLive(w, i);
    assert Live(w, k);
    if IsWaiting(w, k) && w.tasks[k].phase.on.Some? {
      WaitsBackwards(c, saved, run, w, k);
      assert !Live(w, w.tasks[k].phase.on.value);
    }
  }

  ghost function LiveTasks(w: Worker): set<nat> { set i | i in w.tasks && Live(w, i) }

  ghost function FailedTasks(w: Worker): set<nat> { set i | i in w.tasks && !Live(w, i) }

  /** Unfinished tasks and free slots make up the queue size exactly when no task
      failed in its clean-up; each one that did keeps a slot. */
  lemma SlotsExactly(c: Settings, saved: nat, run: seq<Action>, w: Worker)
    requires Run(c, Started(c, saved), run, w)
    ensures w.free >= 0 && |LiveTasks(w)| + |FailedTasks(w)| + w.free == c.slots
    ensures |LiveTasks(w)| + w.free == c.slots <==> FailedTasks(w) == {}
  {
    ChainRun(c, Started(c, saved), run, w);
    hide Run, ChainInv;
    assert LiveTasks(w) + FailedTasks(w) == w.tasks.Keys;
    assert LiveTasks(w) !! FailedTasks(w);
    MapSize(w.tasks);
  }

  /** The iteration of a move cannot go on: its dictionary has another size than
      when it began, or it is over and its page is not tracked any more. */
  predicate Disturbed(w: Worker, x: Spill, more: bool) {
    Entries(w, x) != x.size || (!more && x.page !in w.items)
  }

  /** A task fails in its clean-up exactly when its page is tracked without it,
      or others disturbed its move of a page's last actors. */
  lemma FailsExactly(c: Settings, w: Worker, a: Action, i: nat)
    requires Enabled(c, w, a) && Live(w, i)
    ensures var w' := Next(c, w, a);
            i in w'.tasks && w'.tasks[i].phase.Failed? <==>
            || (a == DoEnd(i) && !w.tasks[i].phase.signed && w.tasks[i].actor.page.Some?
                && w.tasks[i].actor.page.value in w.items
                    && w.tasks[i].actor.uri !in w.items[w.tasks[i].actor.page.value])
            || (a.DoSpilt? && a.i == i && Disturbed(w, w.tasks[i].phase.spill, a.more))
  {
    if Mover(a).Some? {
      if Mover(a).value != i { MoverMoves(c, w, a); }
    } else if !a.DoLaunch? && !a.DoRestart? { OthersSame(c, w, a); }
  }
}

/** The verifier's worker as a step machine: the crawl over the lookup server's
    pages, one task per actor chained by domain, the pages with unfinished
    actors, the submitter of signatures, and the persisted next page. */
module VerifierWorker {
  import opened Common

  /** The configuration: queue slots, signatures per request, and Python's `urlparse(..).netloc`. */
  datatype Settings = Settings(netloc: Text -> Text, slots: nat, batchSize: nat)

  /** An actor to sign; those read from the verifier's own queue have no page. */
  datatype Actor = Actor(uri: Text, page: Option<nat>)

  /** A move of the last actors of a page to the queue: it runs over the dictionary
      that was the page's `gen`-th when it began, and which then had `size` entries. */
  datatype Spill = Spill(page: nat, gen: nat, size: nat)

  /** Where a task is suspended. A failed one raised while cleaning up: it is over,
      but its entry and its slot stay taken. */
  datatype Phase =
    | Waiting(on: Option<nat>)  // for the previous task of its domain
    | Fetching                  // in `fetch_ap`, or comparing and signing
    | Ending(signed: bool)      // about to take its actor off its page
    | Spilling(spill: Spill)    // moving the last actors of a page to the queue
    | Closing                   // about to give its slot back
    | Failed

  datatype Task = Task(actor: Actor, phase: Phase)

  /** Where the crawl is suspended. */
  datatype Loop =
    | Between
    | AwaitOldest(id: nat, todo: seq<Actor>, count: nat)
    | Launching(todo: seq<Actor>, count: nat)

  datatype Answer = Accepted | Refused | Broken

  /** Where the submitter is suspended; it has stopped when an exception left its loop. */
  datatype Pusher =
    | Resting
    | Posting(batch: seq<Actor>)
    | Dropping(why: Answer, batch: seq<Actor>, todo: seq<Actor>, spill: Option<Spill>)
    | Stopped

  type Pages = map<nat, set<Text>>

  /** `saved` and `writes` are the page in the verifier's database and the updates
      submitted to it; `dropped` holds, for each page, how many entries its
      dictionaries had when they were dropped, one after the other; `launched` is
      history: the domain of every task so far. */
  datatype Worker = Worker(
    free: int, nextTask: nat, prev: map<Text, nat>, tasks: map<nat, Task>,
    items: Pages, dropped: map<nat, seq<nat>>, cursor: nat, loop: Loop,
    signed: seq<Actor>, pusher: Pusher,
    saved: nat, writes: seq<nat>,
    launched: map<nat, Text>)

  function Started(c: Settings, saved: nat): Worker {
    Worker(c.slots, 0, map[], map[], map[], map[], saved, Between, [], Resting, saved, [], map[])
  }

  function DomainOf(c: Settings, a: Actor): Text { c.netloc(a.uri) }

  // ------------------------------------------------------------ pages in memory

  /** The least page in `items`, or `cursor` when there is none. */
  ghost function NextPage(items: Pages, cursor: nat): (m: nat)
    ensures forall p :: p in items ==> m <= p
    ensures if items == map[] then m == cursor else m in items
  {
    if items == map[] then cursor
    else
      var p :| p in items;
      var rest := items - {p};
      assert forall q :: q in items && q != p ==> q in rest;
      if rest == map[] then p
      else var m := NextPage(rest, cursor); if p < m then p else m
  }

  datatype Removal = Untracked | Missing | Kept(items: Pages) | Emptied | Last(items: Pages)

  /** `remove_from_queue`, up to its first suspension. */
  function RemoveItem(items: Pages, page: nat, uri: Text): Removal {
    if page !in items then Untracked
    else if uri !in items[page] then Missing
    else
      var left := items[page] - {uri};
      if left == {} then Emptied
      else if |left| <= 3 && |items| >= 10 then Last(items[page := left])
      else Kept(items[page := left])
  }

  function Drops(w: Worker, page: nat): seq<nat> { if page in w.dropped then w.dropped[page] else [] }

  /** A page is dropped, its dictionary with `size` entries left; the least page
      that remains is submitted. */
  ghost function Forget(w: Worker, page: nat, size: nat): Worker {
    w.(items := w.items - {page}, dropped := w.dropped[page := Drops(w, page) + [size]],
       writes := w.writes + [NextPage(w.items - {page}, w.cursor)])
  }

  /** The iteration over what is left of a page begins. */
  function BeginSpill(w: Worker, page: nat): Spill {
    Spill(page, |Drops(w, page)|, if page in w.items then |w.items[page]| else 0)
  }

  /** How many entries the dictionary of a move has now. The page may have been
      dropped meanwhile, and even be tracked again with another dictionary. */
  function Entries(w: Worker, x: Spill): nat {
    if x.gen < |Drops(w, x.page)| then Drops(w, x.page)[x.gen]
    else if x.page in w.items then |w.items[x.page]| else 0
  }

  // ----------------------------------------------------------------- the crawl

  /** The least id with an entry. */
  predicate Oldest(w: Worker, id: nat) {
    id in w.tasks && forall i :: i in w.tasks ==> id <= i
  }

  /** So many tasks were launched after the oldest that the crawl waits for it. */
  predicate TooOld(c: Settings, w: Worker, id: nat) {
    w.nextTask - id > 5 * c.slots
  }

  /** An actor of a page is being handled. */
  function Track(items: Pages, a: Actor): Pages {
    if a.page.None? then items
    else items[a.page.value := (if a.page.value in items then items[a.page.value] else {}) + {a.uri}]
  }

  function Launch(c: Settings, w: Worker): Worker
    requires w.loop.Launching? && w.loop.todo != []
  {
    var a, n := w.loop.todo[0], DomainOf(c, w.loop.todo[0]);
    var on := if n in w.prev then Some(w.prev[n]) else None;
    w.(free := w.free - 1, prev := w.prev[n := w.nextTask], items := Track(w.items, a),
       tasks := w.tasks[w.nextTask := Task(a, Waiting(on))], nextTask := w.nextTask + 1,
       launched := w.launched[w.nextTask := n], loop := Launching(w.loop.todo[1..], w.loop.count))
  }

  function Advance(w: Worker): Worker
    requires w.loop.Launching?
  {
    if w.cursor + 1 < w.loop.count then
      w.(loop := Between, cursor := w.cursor + 1,
          writes := if w.items == map[] then w.writes + [w.cursor + 1] else w.writes)
    else w.(loop := Between)
  }

  // ----------------------------------------------------------------- the tasks

  function Move(w: Worker, i: nat, p: Phase): Worker
    requires i in w.tasks
  {
    w.(tasks := w.tasks[i := w.tasks[i].(phase := p)])
  }

  /** The clean-up of a task, up to its first suspension. */
  ghost function EndTask(w: Worker, i: nat): Worker
    requires i in w.tasks && w.tasks[i].phase.Ending?
  {
    var a := w.tasks[i].actor;
    if w.tasks[i].phase.signed || a.page.None? then Move(w, i, Closing)
    else
      match RemoveItem(w.items, a.page.value, a.uri)
      case Untracked => Move(w, i, Closing)
      case Missing => Move(w, i, Failed)
      case Kept(items) => Move(w.(items := items), i, Closing)
      case Emptied => Move(Forget(w, a.page.value, 0), i, Closing)
      case Last(items) => Move(w.(items := items), i, Spilling(BeginSpill(w.(items := items), a.page.value)))
  }

  /** One of the last actors of a page has been moved. The iteration raises when its
      dictionary has another size than at the start; else it goes on to the next
      actor if it finds one, and drops the page if not. */
  ghost function Spilt(w: Worker, i: nat, more: bool): Worker
    requires i in w.tasks && w.tasks[i].phase.Spilling?
  {
    var x := w.tasks[i].phase.spill;
    if Entries(w, x) != x.size then Move(w, i, Failed)
    else if more then w
    else if x.page !in w.items then Move(w, i, Failed)
    else Move(Forget(w, x.page, |w.items[x.page]|), i, Closing)
  }

  // ------------------------------------------------------------- the submitter

  /** An exception inside the submitter's loop; one raised by its own handlers ends it. */
  function PushRaised(p: Pusher): Pusher
    requires p.Dropping?
  {
    if p.why.Accepted? then Dropping(Broken, p.batch, p.batch, None) else Stopped
  }

  /** Taking the next submitted actor off its page. */
  ghost function DropNext(w: Worker): Worker
    requires w.pusher.Dropping? && w.pusher.todo != [] && w.pusher.spill.None?
  {
    var a, p := w.pusher.todo[0], w.pusher.(todo := w.pusher.todo[1..]);
    if a.page.None? then w.(pusher := p)
    else
      match RemoveItem(w.items, a.page.value, a.uri)
      case Untracked => w.(pusher := p)
      case Missing => w.(pusher := PushRaised(w.pusher))
      case Kept(items) => w.(items := items, pusher := p)
      case Emptied => Forget(w, a.page.value, 0).(pusher := p)
      case Last(items) =>
        w.(items := items, pusher := p.(spill := Some(BeginSpill(w.(items := items), a.page.value))))
  }

  ghost function DropSpilt(w: Worker, more: bool): Worker
    requires w.pusher.Dropping? && w.pusher.spill.Some?
  {
    var x := w.pusher.spill.value;
    if Entries(w, x) != x.size then w.(pusher := PushRaised(w.pusher))
    else if more then w
    else if x.page !in w.items then w.(pusher := PushRaised(w.pusher))
    else Forget(w, x.page, |w.items[x.page]|).(pusher := w.pusher.(spill := None))
  }

  // --------------------------------------------------------------------- steps

  datatype Action =
    | DoPage(actors: seq<Actor>, count: nat)  // a page and the queue's actors were read
    | DoOldestOver
    | DoLaunch
    | DoAdvance
    | DoBegin(i: nat)
    | DoSign(i: nat)
    | DoGiveUp(i: nat)
    | DoEnd(i: nat)
    | DoSpilt(i: nat, more: bool)  // one actor of a page was moved; are there more?
    | DoClose(i: nat)
    | DoTakeBatch
    | DoPosted(answer: Answer)
    | DoDrop
    | DoDropSpilt(more: bool)
    | DoRest
    | DoWrite
    | DoRestart

  /** The task `i` is over: gone, or failed. */
  predicate Over(w: Worker, i: nat) { i in w.tasks ==> w.tasks[i].phase.Failed? }

  ghost predicate Enabled(c: Settings, w: Worker, a: Action) {
    match a
    case DoPage(actors, _) =>
      w.loop.Between? && forall k :: 0 <= k < |actors| ==> actors[k].page.None? || actors[k].page.value == w.cursor
    case DoOldestOver => w.loop.AwaitOldest? && Over(w, w.loop.id)
    case DoLaunch => w.loop.Launching? && w.loop.todo != [] && w.free > 0
    case DoAdvance => w.loop.Launching? && w.loop.todo == []
    case DoBegin(i) => i in w.tasks && w.tasks[i].phase.Waiting?
                       && (w.tasks[i].phase.on.Some? ==> Over(w, w.tasks[i].phase.on.value))
    case DoSign(i) => i in w.tasks && w.tasks[i].phase.Fetching?
    case DoGiveUp(i) => i in w.tasks && w.tasks[i].phase.Fetching?
    case DoEnd(i) => i in w.tasks && w.tasks[i].phase.Ending?
    case DoSpilt(i, _) => i in w.tasks && w.tasks[i].phase.Spilling?
    case DoClose(i) => i in w.tasks && w.tasks[i].phase.Closing?
    case DoTakeBatch => w.pusher.Resting? && w.signed != [] && c.batchSize > 0
    case DoPosted(_) => w.pusher.Posting?
    case DoDrop => w.pusher.Dropping? && w.pusher.spill.None? && w.pusher.todo != []
    case DoDropSpilt(_) => w.pusher.Dropping? && w.pusher.spill.Some?
    case DoRest => w.pusher.Dropping? && w.pusher.spill.None? && w.pusher.todo == []
    case DoWrite => w.writes != []
    case DoRestart => true
  }

  /** The batch is launched now, or after the oldest task is over. */
  ghost function StartBatch(c: Settings, w: Worker, actors: seq<Actor>, count: nat): Worker {
    if actors != [] && exists id :: Oldest(w, id) && TooOld(c, w, id) then
      var id :| Oldest(w, id) && TooOld(c, w, id);
      w.(loop := AwaitOldest(id, actors, count))
    else w.(loop := Launching(actors, count))
  }

  ghost function Next(c: Settings, w: Worker, a: Action): Worker
    requires Enabled(c, w, a)
  {
    match a
    case DoPage(actors, count) => StartBatch(c, w, actors, count)
    case DoOldestOver => w.(loop := if w.loop.id in w.tasks then Between else Launching(w.loop.todo, w.loop.count))
    case DoLaunch => Launch(c, w)
    case DoAdvance => Advance(w)
    case DoBegin(i) => Move(w, i, Fetching)
    case DoSign(i) => Move(w.(signed := w.signed + [w.tasks[i].actor]), i, Ending(true))
    case DoGiveUp(i) => Move(w, i, Ending(false))
    case DoEnd(i) => EndTask(w, i)
    case DoSpilt(i, more) => Spilt(w, i, more)
    case DoClose(i) => w.(tasks := w.tasks - {i}, free := w.free + 1)
    case DoTakeBatch =>
      var n := if c.batchSize < |w.signed| then c.batchSize else |w.signed|;
      w.(signed := w.signed[n..], pusher := Posting(w.signed[..n]))
    case DoPosted(answer) =>
      w.(signed := if answer.Refused? then w.pusher.batch + w.signed else w.signed,
         pusher := Dropping(answer, w.pusher.batch, w.pusher.batch, None))
    case DoDrop => DropNext(w)
    case DoDropSpilt(more) => DropSpilt(w, more)
    case DoRest => w.(pusher := Resting)
    case DoWrite => w.(saved := w.writes[0], writes := w.writes[1..])
    case DoRestart => Started(c, w.saved)
  }

  ghost predicate Run(c: Settings, w: Worker, run: seq<Action>, w': Worker)
    decreases run
  {
    if run == [] then w == w' else Enabled(c, w, run[0]) && Run(c, Next(c, w, run[0]), run[1..], w')
  }
}

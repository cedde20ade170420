/** The verifier's worker object, changed in place by the crawl, the tasks and the
    submitter. Each method has the effect of the step machine's segment. */
module WorkerObjects {
  import opened Common
  import opened VerifierWorker

  class WorkerObject {
    const c: Settings
    var free: int  // the semaphore
    var nextTask: nat
    var prev: map<Text, nat>
    var tasks: map<nat, Task>
    var items: Pages
    var dropped: map<nat, seq<nat>>  // stands for the dictionaries that moves under way hold on to
    var cursor: nat
    var loop: Loop
    var signed: seq<Actor>
    var pusher: Pusher
    var saved: nat
    var writes: seq<nat>
    ghost var launched: map<nat, Text>

    constructor (c: Settings, saved: nat)
      ensures this.c == c && Model() == Started(c, saved)
    {
      this.c := c;
      free := c.slots;
      nextTask := 0;
      prev := map[];
      tasks := map[];
      items := map[];
      dropped := map[];
      cursor := saved;
      loop := Between;
      signed := [];
      pusher := Resting;
      this.saved := saved;
      writes := [];
      launched := map[];
    }

    ghost function Model(): Worker
      reads this
    {
      Worker(free, nextTask, prev, tasks, items, dropped, cursor, loop, signed, pusher, saved, writes, launched)
    }

    /** `min(self.items_in_page.keys())`, or the crawl's page without any. */
    method LeastPage() returns (m: nat)
      ensures m == NextPage(items, cursor)
    {
      if items == map[] { return cursor; }
      var left := items.Keys;
      var first :| first in left;
      m := first;
      while left != {}
        invariant left <= items.Keys && m in items
        invariant forall p :: p in items && p !in left ==> m <= p
        decreases |left|
      {
        var p :| p in left;
        left := left - {p};
        if p < m { m := p; }
      }
    }

    /** `min` over the ids of tasks with an entry. */
    method OldestTask() returns (id: Option<nat>)
      ensures id.None? <==> tasks == map[]
      ensures id.Some? ==> Oldest(Model(), id.value)
    {
      if tasks == map[] { return None; }
      var left := tasks.Keys;
      var m :| m in left;
      while left != {}
        invariant left <= tasks.Keys && m in tasks
        invariant forall p :: p in tasks && p !in left ==> m <= p
        decreases |left|
      {
        var p :| p in left;
        left := left - {p};
        if p < m { m := p; }
      }
      return Some(m);
    }

    /** The start of `get_signatures`. */
    method GetSignatures(actors: seq<Actor>, count: nat)
      modifies this
      ensures Model() == StartBatch(c, old(Model()), actors, count)
    {
      var oldest := OldestTask();
      if actors != [] && oldest.Some? && nextTask - oldest.value > 5 * c.slots {
        OnlyOldest(Model(), oldest.value);
        loop := AwaitOldest(oldest.value, actors, count);
      } else {
        if oldest.Some? { OnlyOldest(Model(), oldest.value); }
        loop := Launching(actors, count);
      }
    }

    /** An actor of a page is being handled. */
    method TrackActor(a: Actor)
      modifies this`items
      ensures items == Track(old(items), a)
    {
      if a.page.Some? {
        var page := a.page.value;
        if page !in items { items := items[page := {}]; }
        items := items[page := items[page] + {a.uri}];
      }
    }

    /** The task that a new task of domain `n` waits for, and the new last one. */
    method Chain(n: Text, id: nat) returns (on: Option<nat>)
      modifies this`prev
      ensures on == if n in old(prev) then Some(old(prev)[n]) else None
      ensures prev == old(prev)[n := id]
    {
      on := if n in prev then Some(prev[n]) else None;
      prev := prev[n := id];
    }

    /** The body of the launch loop, once the semaphore is acquired. */
    method LaunchNext()
      requires loop.Launching? && loop.todo != [] && free > 0
      modifies this
      ensures Model() == Launch(c, old(Model()))
    {
      hide Track;
      var a, id := loop.todo[0], nextTask;
      free := free - 1;
      var on := Chain(c.netloc(a.uri), id);
      TrackActor(a);
      tasks := tasks[id := Task(a, Waiting(on))];
      launched := launched[id := c.netloc(a.uri)];
      nextTask := id + 1;
      loop := Launching(loop.todo[1..], loop.count);
    }

    /** The end of a round of the crawl. */
    method NextRound()
      requires loop.Launching?
      modifies this
      ensures Model() == Advance(old(Model()))
    {
      if cursor + 1 < loop.count {
        cursor := cursor + 1;
        if items == map[] { writes := writes + [cursor]; }
      }
      loop := Between;
    }

    /** `remove_from_queue`, up to its first suspension. */
    method RemoveFromQueue(page: nat, uri: Text) returns (r: Removal)
      modifies this
      ensures r == RemoveItem(old(items), page, uri)
      ensures Model() == match r
                         case Untracked => old(Model())
                         case Missing => old(Model())
                         case Kept(i) => old(Model()).(items := i)
                         case Last(i) => old(Model()).(items := i)
                         case Emptied => Forget(old(Model()), page, 0)
    {
      if page !in items { return Untracked; }
      if uri !in items[page] { return Missing; }
      items := items[page := items[page] - {uri}];
      if items[page] == {} {
        assert items - {page} == old(items) - {page};
        ForgetPage(page);
        return Emptied;
      }
      if |items[page]| <= 3 && |items| >= 10 {
        assert |items| == |old(items)| by { assert items.Keys == old(items).Keys; MapSize(items); MapSize(old(items)); }
        return Last(items);
      }
      assert |items| == |old(items)| by { assert items.Keys == old(items).Keys; MapSize(items); MapSize(old(items)); }
      return Kept(items);
    }

    /** Dropping a page and submitting the new next page. */
    method ForgetPage(page: nat)
      requires page in items
      modifies this
      ensures Model() == Forget(old(Model()), page, |old(items)[page]|)
    {
      dropped := dropped[page := (if page in dropped then dropped[page] else []) + [|items[page]|]];
      items := items - {page};
      var m := LeastPage();
      writes := writes + [m];
    }

    /** The dictionary that a move takes hold of. */
    function StartSpill(page: nat): (x: Spill)
      reads this
      ensures x == BeginSpill(Model(), page)
    {
      Spill(page, if page in dropped then |dropped[page]| else 0, if page in items then |items[page]| else 0)
    }

    /** The test with which the iteration of a move goes on. */
    predicate SameSize(x: Spill)
      reads this
      ensures SameSize(x) <==> Entries(Model(), x) == x.size
    {
      if x.page in dropped && x.gen < |dropped[x.page]| then dropped[x.page][x.gen] == x.size
      else x.size == if x.page in items then |items[x.page]| else 0
    }

    /** The clean-up of a task, up to its first suspension. */
    method CleanUp(i: nat)
      requires i in tasks && tasks[i].phase.Ending?
      modifies this
      ensures Model() == EndTask(old(Model()), i)
    {
      hide RemoveItem, NextPage;
      var t := tasks[i];
      var p := Closing;
      if !t.phase.signed && t.actor.page.Some? {
        var r := RemoveFromQueue(t.actor.page.value, t.actor.uri);
        if r.Missing? { p := Failed; }
        if r.Last? { p := Spilling(StartSpill(t.actor.page.value)); }
      }
      tasks := tasks[i := tasks[i].(phase := p)];
    }

    /** A task after it moved one of the last actors of its page. */
    method AfterSpill(i: nat, more: bool)
      requires i in tasks && tasks[i].phase.Spilling?
      modifies this
      ensures Model() == Spilt(old(Model()), i, more)
    {
      hide NextPage, Entries;
      var x := tasks[i].phase.spill;
      if SameSize(x) && more { return; }
      var p := Failed;
      if SameSize(x) && x.page in items {
        ForgetPage(x.page);
        p := Closing;
      }
      tasks := tasks[i := tasks[i].(phase := p)];
    }

    /** The submitter after it moved one of the last actors of a page. */
    method AfterSubmittedSpill(more: bool)
      requires pusher.Dropping? && pusher.spill.Some?
      modifies this
      ensures Model() == DropSpilt(old(Model()), more)
    {
      hide NextPage, Entries;
      var x := pusher.spill.value;
      if SameSize(x) && more { return; }
      if SameSize(x) && x.page in items {
        ForgetPage(x.page);
        pusher := pusher.(spill := None);
      } else {
        pusher := PushRaised(pusher);
      }
    }

    /** The submitter takes the next submitted actor off its page. */
    method DropSubmitted()
      requires pusher.Dropping? && pusher.todo != [] && pusher.spill.None?
      modifies this
      ensures Model() == DropNext(old(Model()))
    {
      hide RemoveItem, NextPage;
      var a, rest := pusher.todo[0], pusher.(todo := pusher.todo[1..]);
      if a.page.None? {
        pusher := rest;
      } else {
        var r := RemoveFromQueue(a.page.value, a.uri);
        pusher := match r
                  case Missing => PushRaised(pusher)
                  case Last(_) => rest.(spill := Some(StartSpill(a.page.value)))
                  case _ => rest;
      }
    }

    /** The submitter takes a batch. */
    method TakeBatch()
      requires pusher.Resting? && signed != [] && c.batchSize > 0
      modifies this
      ensures Model() == Next(c, old(Model()), DoTakeBatch)
      ensures pusher.Posting? && pusher.batch + signed == old(signed) && 0 < |pusher.batch| <= c.batchSize
    {
      var n := if c.batchSize < |signed| then c.batchSize else |signed|;
      pusher := Posting(signed[..n]);
      signed := signed[n..];
    }
  }

  lemma OnlyOldest(w: Worker, id: nat)
    requires Oldest(w, id)
    ensures forall other: nat :: Oldest(w, other) ==> other == id
  {
  }
}

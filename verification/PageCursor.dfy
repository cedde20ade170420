/** A verifier walks the lookup server's pages while actors are stored and
    replaced: which versions its cursor has passed without seeing them. */
module PageCursor {
  import opened Common
  import opened Json
  import opened ObjectHandler
  import opened LookupStore

  /** `max(num)` over the table. */
  ghost function MaxNum(rows: map<Text, ObjectRow>): (m: nat)
    ensures forall u :: u in rows ==> rows[u].num <= m
    ensures rows != map[] ==> exists u :: u in rows && rows[u].num == m
  {
    if rows == map[] then 0
    else
      var u :| u in rows;
      var rest := MaxNum(rows - {u});
      assert forall v :: v in rows && v != u ==> v in rows - {u} && (rows - {u})[v] == rows[v];
      if rows[u].num > rest then rows[u].num else rest
  }

  /** `get_page_count`: rounding up the highest number; with no rows there is no
      highest number and the request fails. */
  ghost function PageCount(db: Db): Option<nat> {
    if db.rows == map[] then None else Some((MaxNum(db.rows) + PAGE_SIZE - 1) / PAGE_SIZE)
  }

  /** The page of number `num`. */
  function PageOf(num: nat): int { (num - 1) / PAGE_SIZE }

  /** Where the handler of one page request stands between its two reads. */
  datatype Answer =
    | NoAnswer
    | HalfAnswer(rows: set<ObjectRow>, lastNum: nat)
    | FullAnswer(rows: set<ObjectRow>, count: nat)

  /** The server's table, the verifier's cursor, the request for the cursor's
      page, and every row version delivered so far. */
  datatype World = World(db: Db, cursor: nat, answer: Answer, delivered: set<ObjectRow>)

  datatype Action =
    | Replace(uri: Text, json: Json, typ: ObjectType, aux: Json)
    | ReadPage
    | ReadCount
    | Deliver
    | Restart(page: nat)

  ghost predicate Enabled(w: World, a: Action) {
    match a
    case Replace(_, _, _, _) => true
    case ReadPage => w.answer.NoAnswer?
    case ReadCount => w.answer.HalfAnswer?
    case Deliver => w.answer.FullAnswer?
    // A checkpoint is never above the cursor; a lost answer restarts at the cursor itself.
    case Restart(page) => page <= w.cursor
  }

  ghost function Next(w: World, a: Action): World
    requires Enabled(w, a)
  {
    match a
    case Replace(uri, json, typ, aux) => w.(db := InsertObject(w.db, uri, json, typ, aux))
    case ReadPage => w.(answer := HalfAnswer(ObjectsPage(w.db, w.cursor), w.db.lastNum))
    case ReadCount =>
      var count := PageCount(w.db);
      w.(answer := if count.None? then NoAnswer else FullAnswer(w.answer.rows, count.value))
    case Deliver =>
      w.(delivered := w.delivered + w.answer.rows, answer := NoAnswer,
         cursor := if w.cursor + 1 < w.answer.count then w.cursor + 1 else w.cursor)
    case Restart(page) => w.(cursor := page, answer := NoAnswer)
  }

  ghost predicate Run(w: World, run: seq<Action>, w': World)
    decreases run
  {
    if run == [] then w == w' else Enabled(w, run[0]) && Run(Next(w, run[0]), run[1..], w')
  }

  // ---------------------------------------------------------------- the promise

  /** Live actor versions lie at or after the cursor, or were delivered. */
  ghost predicate Covered(w: World) {
    forall u :: u in w.db.rows && w.db.rows[u].typ.Actor?
        ==> PageOf(w.db.rows[u].num) >= w.cursor || w.db.rows[u] in w.delivered
  }

  /** Numbers are positive and at most the counter, which is in use. */
  ghost predicate Numbered(db: Db) {
    && (db.rows != map[] ==> MaxNum(db.rows) == db.lastNum)
    && forall u :: u in db.rows ==> 0 < db.rows[u].num <= db.lastNum
  }

  /** The cursor is never beyond the page of the next number. */
  ghost predicate NotAhead(w: World) { w.cursor * PAGE_SIZE <= w.db.lastNum }

  /** What was read was in the table before. */
  ghost predicate ReadEarlier(w: World) {
    && (forall r :: r in w.delivered ==> r.num <= w.db.lastNum)
    && (w.answer.HalfAnswer? ==> forall r :: r in w.answer.rows ==> r.num <= w.answer.lastNum)
    && (w.answer.FullAnswer? ==> forall r :: r in w.answer.rows ==> r.num <= w.db.lastNum)
  }

  /** The answer holds every live actor of the cursor's page numbered up to `last`. */
  ghost predicate HoldsUpTo(w: World, rows: set<ObjectRow>, last: nat) {
    forall u :: u in w.db.rows && OnPage(w.db.rows[u], w.cursor) && w.db.rows[u].num <= last ==> w.db.rows[u] in rows
  }

  /** The cursor's page can get no more rows and the answer holds its live actors. */
  ghost predicate HoldsPage(w: World, rows: set<ObjectRow>) {
    && w.db.lastNum >= (w.cursor + 1) * PAGE_SIZE
    && forall u :: u in w.db.rows && OnPage(w.db.rows[u], w.cursor) ==> w.db.rows[u] in rows
  }

  /** What a pending answer promises about the rows still live. */
  ghost predicate AnswerSound(w: World) {
    match w.answer
    case NoAnswer => true
    case HalfAnswer(rows, last) => last <= w.db.lastNum && HoldsUpTo(w, rows, last)
    case FullAnswer(rows, count) => w.cursor + 1 < count ==> HoldsPage(w, rows)
  }

  ghost predicate CursorInv(w: World) {
    Numbered(w.db) && NotAhead(w) && ReadEarlier(w) && Covered(w) && AnswerSound(w)
  }

  /** Both reads of a page request see the same table, or the page was already
      full at the first one. */
  ghost predicate OneTable(w: World, a: Action) {
    a.ReadCount? && w.answer.HalfAnswer? ==> w.answer.lastNum == w.db.lastNum || PageFull(w)
  }

  ghost predicate PageFull(w: World)
    requires w.answer.HalfAnswer?
  {
    w.answer.lastNum >= (w.cursor + 1) * PAGE_SIZE
  }

  // ---------------------------------------------------------------- its steps

  lemma InsertNumbered(db: Db, uri: Text, json: Json, typ: ObjectType, aux: Json)
    requires Numbered(db)
    ensures Numbered(InsertObject(db, uri, json, typ, aux))
  {
    var db' := InsertObject(db, uri, json, typ, aux);
    assert db'.rows[uri].num == db'.lastNum;
    assert forall u :: u in db'.rows ==> db'.rows[u].num <= db'.lastNum;
  }

  lemma ReplaceStep(w: World, a: Action)
    requires CursorInv(w) && a.Replace?
    ensures CursorInv(Next(w, a))
  {
    InsertNumbered(w.db, a.uri, a.json, a.typ, a.aux);
    hide MaxNum, Numbered;
    var w' := Next(w, a);
    assert PageOf(w.db.lastNum + 1) >= w.cursor;
    assert w'.db.rows[a.uri].num == w.db.lastNum + 1;
  }

  lemma ReadPageStep(w: World)
    requires CursorInv(w) && w.answer.NoAnswer?
    ensures CursorInv(Next(w, ReadPage))
  {
    hide MaxNum;
    forall r | r in ObjectsPage(w.db, w.cursor) ensures r.num <= w.db.lastNum {
      var u :| u in w.db.rows && w.db.rows[u] == r;
    }
  }

  lemma ReadCountStep(w: World)
    requires CursorInv(w) && w.answer.HalfAnswer? && OneTable(w, ReadCount)
    ensures CursorInv(Next(w, ReadCount))
  {
    hide MaxNum;
    var w' := Next(w, ReadCount);
    if w'.answer.FullAnswer? && w.cursor + 1 < w'.answer.count {
      assert w.db.lastNum > (w.cursor + 1) * PAGE_SIZE;
      forall u | u in w.db.rows && OnPage(w.db.rows[u], w.cursor) ensures w.db.rows[u] in w.answer.rows {
        assert w.db.rows[u].num <= w.answer.lastNum;
      }
    }
  }

  lemma DeliverStep(w: World)
    requires CursorInv(w) && w.answer.FullAnswer?
    ensures CursorInv(Next(w, Deliver))
  {
    hide MaxNum, Numbered;
    var w' := Next(w, Deliver);
    assert Numbered(w'.db);
    if w'.cursor != w.cursor {
      forall u | u in w.db.rows && w.db.rows[u].typ.Actor? && PageOf(w.db.rows[u].num) == w.cursor
        ensures w.db.rows[u] in w'.delivered
      {
        assert OnPage(w.db.rows[u], w.cursor) by { Positive(w.db, u); }
      }
    }
  }

  lemma Positive(db: Db, u: Text)
    requires Numbered(db) && u in db.rows
    ensures db.rows[u].num > 0
  {
  }

  lemma CursorStep(w: World, a: Action)
    requires CursorInv(w) && Enabled(w, a) && OneTable(w, a)
    ensures CursorInv(Next(w, a))
  {
    hide MaxNum, Numbered, InsertObject;
    match a
    case Replace(_, _, _, _) => ReplaceStep(w, a);
    case ReadPage => ReadPageStep(w);
    case ReadCount => ReadCountStep(w);
    case Deliver => DeliverStep(w);
    case Restart(_) =>
  }

  /** Every page request of the run is answered from one table, or from a full page. */
  ghost predicate AllOneTable(w: World, run: seq<Action>)
    decreases run
  {
    run == [] || (Enabled(w, run[0]) ==> OneTable(w, run[0]) && AllOneTable(Next(w, run[0]), run[1..]))
  }

  lemma {:induction false} CursorRun(w: World, run: seq<Action>, w': World)
    requires CursorInv(w) && Run(w, run, w') && AllOneTable(w, run)
    ensures CursorInv(w')
    decreases run
  {
    hide CursorInv, Next, Enabled, OneTable;
    if run != [] {
      CursorStep(w, run[0]);
      CursorRun(Next(w, run[0]), run[1..], w');
    }
  }

  const EMPTY_DB := Db(map[], 0, map[], map[])

  /** However stores, page requests and restarts interleave, every live actor
      version lies on a page at or after the cursor, or was delivered in an
      answer for its page. */
  lemma NoVersionSkipped(run: seq<Action>, w: World, u: Text)
    requires Run(World(EMPTY_DB, 0, NoAnswer, {}), run, w) && AllOneTable(World(EMPTY_DB, 0, NoAnswer, {}), run)
    requires u in w.db.rows && w.db.rows[u].typ.Actor?
    ensures (w.db.rows[u].num - 1) / PAGE_SIZE >= w.cursor || w.db.rows[u] in w.delivered
  {
    assert CursorInv(World(EMPTY_DB, 0, NoAnswer, {}));
    CursorRun(World(EMPTY_DB, 0, NoAnswer, {}), run, w);
  }

  // -------------------------------------------------------------- it goes on

  /** A page holds the live actors with its hundred numbers. */
  lemma PageExactly(db: Db, page: nat, r: ObjectRow)
    ensures r in ObjectsPage(db, page) <==>
              (exists u :: u in db.rows && db.rows[u] == r) && r.typ.Actor? && 100 * page < r.num <= 100 * page + 100
  {
  }

  /** There are as many pages as hold the highest number. */
  lemma PagesExactly(db: Db, page: nat)
    requires Numbered(db) && db.rows != map[]
    ensures PageCount(db).Some? && (page + 1 < PageCount(db).value <==> db.lastNum > 100 * (page + 1))
  {
    hide MaxNum;
  }

  /** The three steps of a page request between which nothing is stored: all live actors
      of the page are delivered, and the cursor goes on when there are later numbers. */
  lemma OnePage(w: World) returns (w': World)
    requires Numbered(w.db) && w.db.rows != map[] && w.answer.NoAnswer?
    ensures Run(w, [ReadPage, ReadCount, Deliver], w')
    ensures w' == w.(delivered := w.delivered + ObjectsPage(w.db, w.cursor),
                     cursor := if w.db.lastNum > 100 * (w.cursor + 1) then w.cursor + 1 else w.cursor)
  {
    PagesExactly(w.db, w.cursor);
    hide PageCount, Numbered, ObjectsPage;
    var w1 := Next(w, ReadPage);
    var w2 := Next(w1, ReadCount);
    w' := Next(w2, Deliver);
    assert [ReadPage, ReadCount, Deliver][1..] == [ReadCount, Deliver] && [ReadCount, Deliver][1..] == [Deliver]
        && [Deliver][1..] == [];
    assert Run(w2, [Deliver], w');
    assert Run(w1, [ReadCount, Deliver], w');
  }

  lemma {:induction false} RunOn(w: World, a: seq<Action>, w1: World, b: seq<Action>, w2: World)
    requires Run(w, a, w1) && Run(w1, b, w2)
    ensures Run(w, a + b, w2)
    decreases a
  {
    hide Next, Enabled;
    if a == [] {
      assert a + b == b;
    } else {
      assert (a + b)[0] == a[0] && (a + b)[1..] == a[1..] + b;
      RunOn(Next(w, a[0]), a[1..], w1, b, w2);
    }
  }

  ghost predicate DeliveredFrom(w: World, w': World, page: nat) {
    forall u :: u in w.db.rows && w.db.rows[u].typ.Actor? && PageOf(w.db.rows[u].num) >= page ==>
                  w.db.rows[u] in w'.delivered
  }

  /** A verifier that goes on asking, while nothing is stored, gets every live actor
      from its cursor on. */
  lemma {:induction false} AllDelivered(w: World) returns (run: seq<Action>, w': World)
    requires Numbered(w.db) && w.db.rows != map[] && w.answer.NoAnswer?
    ensures Run(w, run, w') && w'.db == w.db && w.delivered <= w'.delivered && DeliveredFrom(w, w', w.cursor)
    decreases w.db.lastNum - 100 * w.cursor
  {
    var w1 := OnePage(w);
    hide Run;
    run, w' := [ReadPage, ReadCount, Deliver], w1;
    if w.db.lastNum > 100 * (w.cursor + 1) {
      var more;
      more, w' := AllDelivered(w1);
      RunOn(w, run, w1, more, w');
      run := run + more;
    }
    forall u | u in w.db.rows && w.db.rows[u].typ.Actor? && PageOf(w.db.rows[u].num) >= w.cursor
      ensures w.db.rows[u] in w'.delivered
    {
      var r := w.db.rows[u];
      PageExactly(w.db, w.cursor, r);
      Positive(w.db, u);
      assert w.delivered + ObjectsPage(w.db, w.cursor) == w1.delivered;
      hide ObjectsPage, Numbered;
    }
  }

  /** So after any run whose requests see one table, it gets every live actor there is. */
  lemma EveryActorDelivered(run: seq<Action>, w: World) returns (more: seq<Action>, w': World)
    requires Run(World(EMPTY_DB, 0, NoAnswer, {}), run, w) && AllOneTable(World(EMPTY_DB, 0, NoAnswer, {}), run)
    requires w.answer.NoAnswer? && w.db.rows != map[]
    ensures Run(w, more, w') && w'.db == w.db
    ensures forall u :: u in w.db.rows && w.db.rows[u].typ.Actor? ==> w.db.rows[u] in w'.delivered
  {
    var w0 := World(EMPTY_DB, 0, NoAnswer, {});
    assert CursorInv(w0);
    CursorRun(w0, run, w);
    hide Run;
    more, w' := AllDelivered(w);
  }

  // ------------------------------------------------------- when it can skip

  ghost predicate OnlyStores(run: seq<Action>) {
    forall k :: 0 <= k < |run| ==> run[k].Replace?
  }

  /** Whatever is stored before the second read of the pending page request, its
      answer passes no version over. */
  ghost predicate SafeAnswer(w: World) {
    forall stores: seq<Action>, w': World :: OnlyStores(stores) && Run(w, stores + [ReadCount, Deliver], w')
        ==> Covered(w')
  }

  /** Storing the same resource again and again. */
  function Repeat(a: Action, n: nat): (r: seq<Action>)
    ensures |r| == n && forall k :: 0 <= k < n ==> r[k] == a
  {
    if n == 0 then [] else [a] + Repeat(a, n - 1)
  }

  /** `w` after `n` stores of the resource that `a` stores. */
  ghost function Restored(w: World, a: Action, n: nat): World
    requires a.Replace?
    decreases n
  {
    if n == 0 then w else Restored(Next(w, a), a, n - 1)
  }

  lemma {:induction false} RestoredEffect(w: World, a: Action, n: nat, u: Text)
    requires a.Replace? && u in w.db.rows && u != a.uri && Numbered(w.db)
    ensures var w' := Restored(w, a, n);
            && w'.db.lastNum == w.db.lastNum + n && Numbered(w'.db)
            && u in w'.db.rows && w'.db.rows[u] == w.db.rows[u]
            && w'.(db := w.db) == w
    decreases n
  {
    hide MaxNum, Numbered;
    if n > 0 {
      InsertNumbered(w.db, a.uri, a.json, a.typ, a.aux);
      RestoredEffect(Next(w, a), a, n - 1, u);
    }
  }

  lemma {:induction false} RunRestored(w: World, a: Action, n: nat, more: seq<Action>, w': World)
    requires a.Replace?
    ensures Run(w, Repeat(a, n) + more, w') <==> Run(Restored(w, a, n), more, w')
    decreases n
  {
    hide Next;
    if n == 0 {
      assert Repeat(a, n) + more == more;
    } else {
      var all := Repeat(a, n) + more;
      assert all[0] == a && all[1..] == Repeat(a, n - 1) + more;
      RunRestored(Next(w, a), a, n - 1, more, w');
    }
  }

  /** Between the reads of a page that is not full, an actor is stored on it and
      then so many others that the count passes the next page. */
  lemma OpenPageSkips(w: World) returns (stores: seq<Action>, w': World)
    requires CursorInv(w) && w.answer.HalfAnswer? && w.answer.lastNum == w.db.lastNum && !PageFull(w)
    ensures OnlyStores(stores) && Run(w, stores + [ReadCount, Deliver], w') && !Covered(w')
  {
    var late := Action.Replace([0], Null, Actor, Null);
    var other := Action.Replace([1], Null, Other, Null);
    var n := (w.cursor + 1) * PAGE_SIZE - w.db.lastNum;
    var w1 := Next(w, late);
    InsertNumbered(w.db, [0], Null, Actor, Null);
    RestoredEffect(w1, other, n, [0]);
    var w2 := Restored(w1, other, n);
    w' := Next(Next(w2, ReadCount), Deliver);
    stores := [late] + Repeat(other, n);
    SkipRun(w, late, other, n, w2, w');
    hide Numbered, MaxNum, Covered, Restored, Run, CursorInv;
    LateSkipped(w, w1, w2, w');
  }

  lemma SkipRun(w: World, late: Action, other: Action, n: nat, w2: World, w': World)
    requires late.Replace? && other.Replace? && w2 == Restored(Next(w, late), other, n) && w2.answer.HalfAnswer?
    requires PageCount(w2.db).Some?
    requires w' == Next(Next(w2, ReadCount), Deliver)
    ensures Run(w, [late] + Repeat(other, n) + [ReadCount, Deliver], w')
  {
    hide Restored;
    var all := [late] + Repeat(other, n) + [ReadCount, Deliver];
    assert all[0] == late && all[1..] == Repeat(other, n) + [ReadCount, Deliver];
    RunRestored(Next(w, late), other, n, [ReadCount, Deliver], w');
    RunTwo(w2, w');
  }

  lemma RunTwo(w2: World, w': World)
    requires w2.answer.HalfAnswer? && PageCount(w2.db).Some? && w' == Next(Next(w2, ReadCount), Deliver)
    ensures Run(w2, [ReadCount, Deliver], w')
  {
    hide PageCount;
    assert [ReadCount, Deliver][1..] == [Deliver];
    assert [Deliver][1..] == [];
    assert Run(Next(w2, ReadCount), [Deliver], w');
  }

  lemma LateSkipped(w: World, w1: World, w2: World, w': World)
    requires CursorInv(w) && w.answer.HalfAnswer? && w.answer.lastNum == w.db.lastNum && !PageFull(w)
    requires w1 == Next(w, Action.Replace([0], Null, Actor, Null))
    requires Numbered(w2.db) && w2.db.lastNum == (w.cursor + 1) * PAGE_SIZE + 1
    requires [0] in w2.db.rows && w2.db.rows[[0]] == w1.db.rows[[0]] && w2.(db := w1.db) == w1
    requires w' == Next(Next(w2, ReadCount), Deliver)
    ensures !Covered(w')
  {
    hide MaxNum;
    var row := w'.db.rows[[0]];
    assert row.num == w.db.lastNum + 1 && PageOf(row.num) == w.cursor;
    assert row !in w.answer.rows && row !in w.delivered;
    assert PageCount(w2.db) == Some(w.cursor + 2);
  }

  /** A page request that has read its page is safe, whatever is stored before it
      reads the page count, exactly when the page was full. */
  lemma SafeExactlyWhenFull(w: World)
    requires CursorInv(w) && w.answer.HalfAnswer? && w.answer.lastNum == w.db.lastNum
    ensures SafeAnswer(w) <==> PageFull(w)
  {
    if PageFull(w) {
      forall stores: seq<Action>, w': World | OnlyStores(stores) && Run(w, stores + [ReadCount, Deliver], w')
        ensures Covered(w')
      {
        StoresKeepOneTable(w, stores);
        CursorRun(w, stores + [ReadCount, Deliver], w');
      }
    } else {
      var stores, w' := OpenPageSkips(w);
      assert OnlyStores(stores) && Run(w, stores + [ReadCount, Deliver], w');
    }
  }

  lemma {:induction false} StoresKeepOneTable(w: World, stores: seq<Action>)
    requires OnlyStores(stores) && w.answer.HalfAnswer? && PageFull(w)
    ensures AllOneTable(w, stores + [ReadCount, Deliver])
    decreases stores
  {
    hide PageCount;
    var all := stores + [ReadCount, Deliver];
    if stores == [] {
      assert all == [ReadCount, Deliver];
      assert all[1..] == [Deliver];
      assert [Deliver][1..] == [];
    } else {
      assert all[0] == stores[0] && all[1..] == stores[1..] + [ReadCount, Deliver];
      StoresKeepOneTable(Next(w, stores[0]), stores[1..]);
    }
  }
}

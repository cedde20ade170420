/** What may be stored, marked and reported while an object is handled. */
module HandlerProofs {
  import opened Common
  import opened Json
  import opened SigningData
  import opened ObjectHandler

  /** The remembered dictionary agrees with the history of its walk. */
  ghost predicate Coherent(aux: Option<Aux>, walk: Walk) {
    && EmptyPages(aux) == walk.emptied <= 2
    && (aux.Some? ==> aux.value.colDir == Some(T("next")) || aux.value.colDir == Some(T("prev")))
  }

  /** What a call made below the root with (`aux`, `walk`) may be. */
  ghost predicate Nested(env: Env, trust: Option<Text>, aux: Option<Aux>, walk: Walk, e: Effect) {
    match e
    case Store(uri, _, typ, _) => typ.Other? && Some(env.netloc(uri)) == trust
    case Mark(uri, digest) => digest.None? && Some(env.netloc(uri)) == trust
    case Report(_, _, a, w) => Coherent(aux, walk) ==> Onward(aux, walk, a, w)
  }

  /** (`a`, `w`) continues the walk (`aux`, `walk`) or begins a new one. */
  ghost predicate Onward(aux: Option<Aux>, walk: Walk, a: Option<Aux>, w: Walk) {
    && Coherent(a, w)
    && (walk.embedded ==> w.embedded)
    && (!w.embedded ==> w.emptied >= walk.emptied)
    && (!w.embedded && aux.Some? ==> a.Some? && a.value.colDir == aux.value.colDir)
  }

  ghost predicate AllNested(env: Env, trust: Option<Text>, aux: Option<Aux>, walk: Walk, es: seq<Effect>) {
    forall k :: 0 <= k < |es| ==> Nested(env, trust, aux, walk, es[k])
  }

  /** Calls of a new walk are allowed anywhere. */
  lemma NestedFresh(env: Env, trust: Option<Text>, aux: Option<Aux>, walk: Walk, es: seq<Effect>)
    requires AllNested(env, trust, None, NEW_WALK, es)
    ensures AllNested(env, trust, aux, walk, es)
  {
    forall k | 0 <= k < |es| ensures Nested(env, trust, aux, walk, es[k]) {
      assert Nested(env, trust, None, NEW_WALK, es[k]);
    }
  }

  /** One expanded page: the dictionary it hands on continues the walk. */
  lemma PageCoherent(fields: seq<Field>, aux: Option<Aux>, walk: Walk)
    requires Coherent(aux, walk) && !(NoItems(fields) && EmptyPages(aux) + 1 > 2)
    ensures Coherent(Some(NextAux(fields, aux)), if NoItems(fields) then walk.(emptied := walk.emptied + 1) else walk)
    ensures aux.Some? ==> NextAux(fields, aux).colDir == aux.value.colDir
  {
  }

  lemma NestedContinue(env: Env, trust: Option<Text>, fields: seq<Field>, aux: Option<Aux>, walk: Walk, walk1: Walk,
          es: seq<Effect>)
    requires !(NoItems(fields) && EmptyPages(aux) + 1 > 2)
    requires walk1 == if NoItems(fields) then walk.(emptied := walk.emptied + 1) else walk
    requires AllNested(env, trust, Some(NextAux(fields, aux)), walk1, es)
    ensures AllNested(env, trust, aux, walk, es)
  {
    if Coherent(aux, walk) { PageCoherent(fields, aux, walk); }
    forall k | 0 <= k < |es| ensures Nested(env, trust, aux, walk, es[k]) {
      assert Nested(env, trust, Some(NextAux(fields, aux)), walk1, es[k]);
    }
  }

  // ------------------------------------------------------------ below the root

  lemma {:induction false} HandleNested(env: Env, v: Json, trust: Option<Text>, priority: bool, aux: Option<Aux>,
          walk: Walk)
    ensures AllNested(env, trust, aux, walk, Handle(env, v, trust, priority, false, aux, walk))
    decreases v, 3
  {
    if v.Obj? {
      var oid := AsId(env, v.fields);
      var typ := TypeOf(v.fields);
      if !Given(oid) || (Some(env.netloc(oid.value)) == trust && !Heavy(typ)) {
        DispatchNested(env, v, trust, priority, aux, walk);
      }
    }
  }

  lemma {:induction false} DispatchNested(env: Env, v: Json, trust: Option<Text>, priority: bool, aux: Option<Aux>,
          walk: Walk)
    requires v.Obj?
    requires var oid := AsId(env, v.fields);
        Given(oid)
        ==> Some(env.netloc(oid.value)) == trust && !Heavy(TypeOf(v.fields))
    ensures AllNested(env, trust, aux, walk, Dispatch(env, v, trust, priority, aux, walk))
    decreases v, 2
  {
    var typ := TypeOf(v.fields);
    if TypeIn(typ, ACTOR_TYPES) {
      ActorNested(env, v, trust);
      ActorSplit(env, v, trust);
      NestedFresh(env, trust, aux, walk, ActorCalls(env, v, trust));
    } else if TypeIn(typ, COLLECTION_TYPES) {
      PagesNested(env, v, trust, priority, aux, walk);
      CollectionSplit(env, v, trust, priority, aux, walk);
    } else if typ == Json.Str(T("Note")) {
      NoteNested(env, v, trust);
      NestedFresh(env, trust, aux, walk, HandleNote(env, v, trust));
    } else if typ == Json.Str(T("Create")) {
      FieldsNested(env, v, ["actor", "object"], trust, false, None, NEW_WALK);
      NestedFresh(env, trust, aux, walk, Dispatch(env, v, trust, priority, aux, walk));
    }
  }

  /** Everything an actor handler does after its own store. */
  function ActorCalls(env: Env, v: Json, trust: Option<Text>): seq<Effect>
    requires v.Obj?
  {
    Fields(env, v, ["followers", "following"], trust, true, None, NEW_WALK)
    + Fields(env, v, ["outbox"], trust, false, None, NEW_WALK)
  }

  lemma ActorSplit(env: Env, v: Json, trust: Option<Text>)
    requires v.Obj?
    ensures HandleActor(env, v, trust) == StoreIf(env, v, trust, true, Actor) + ActorCalls(env, v, trust)
  {
  }

  lemma {:induction false} ActorNested(env: Env, v: Json, trust: Option<Text>)
    requires v.Obj?
    ensures AllNested(env, trust, None, NEW_WALK, ActorCalls(env, v, trust))
    decreases v, 0, 3
  {
    FieldsNested(env, v, ["followers", "following"], trust, true, None, NEW_WALK);
    FieldsNested(env, v, ["outbox"], trust, false, None, NEW_WALK);
  }

  lemma {:induction false} NoteNested(env: Env, v: Json, trust: Option<Text>)
    requires v.Obj?
    requires var oid := AsId(env, v.fields); Given(oid) ==> Some(env.netloc(oid.value)) == trust
    ensures AllNested(env, trust, None, NEW_WALK, HandleNote(env, v, trust))
    decreases v, 1
  {
    FieldsNested(env, v, ["to", "cc", "attributedTo"], trust, true, None, NEW_WALK);
    FieldsNested(env, v, ["replies"], trust, false, None, NEW_WALK);
  }

  /** Everything a collection handler does after its own store. */
  function PageCalls(env: Env, v: Json, trust: Option<Text>, priority: bool, aux: Option<Aux>, walk: Walk): seq<Effect>
    requires v.Obj?
  {
    if NoItems(v.fields) && EmptyPages(aux) + 1 > 2 then []
    else
      var next := Some(NextAux(v.fields, aux));
      var walk1 := if NoItems(v.fields) then walk.(emptied := walk.emptied + 1) else walk;
      Fields(env, v, ["items", "orderedItems"], trust, priority, next, walk1)
      + FieldAt(env, v, Direction(v.fields, aux).0, trust, priority, next, walk1)
  }

  lemma CollectionSplit(env: Env, v: Json, trust: Option<Text>, priority: bool, aux: Option<Aux>, walk: Walk)
    requires v.Obj?
    ensures HandleCollection(env, v, trust, priority, aux, walk)
         == StoreIf(env, v, trust, env.archiveCollections, Feed) + PageCalls(env, v, trust, priority, aux, walk)
  {
  }

  lemma {:induction false} PagesNested(env: Env, v: Json, trust: Option<Text>, priority: bool, aux: Option<Aux>,
          walk: Walk)
    requires v.Obj?
    ensures AllNested(env, trust, aux, walk, PageCalls(env, v, trust, priority, aux, walk))
    decreases v, 0, 3
  {
    if !(NoItems(v.fields) && EmptyPages(aux) + 1 > 2) {
      var next := Some(NextAux(v.fields, aux));
      var walk1 := if NoItems(v.fields) then walk.(emptied := walk.emptied + 1) else walk;
      FieldsNested(env, v, ["items", "orderedItems"], trust, priority, next, walk1);
      FieldAtNested(env, v, Direction(v.fields, aux).0, trust, priority, next, walk1);
      NestedContinue(env, trust, v.fields, aux, walk, walk1, PageCalls(env, v, trust, priority, aux, walk));
    }
  }

  lemma {:induction false} FieldsNested(env: Env, v: Json, names: seq<string>, trust: Option<Text>, priority: bool,
          aux: Option<Aux>, walk: Walk)
    requires v.Obj?
    ensures AllNested(env, trust, aux, walk, Fields(env, v, names, trust, priority, aux, walk))
    decreases v, 0, |names|, 1
  {
    if names != [] {
      FieldAtNested(env, v, T(names[0]), trust, priority, aux, walk);
      FieldsNested(env, v, names[1..], trust, priority, aux, walk);
    }
  }

  lemma {:induction false} FieldAtNested(env: Env, v: Json, name: Text, trust: Option<Text>, priority: bool,
          aux: Option<Aux>, walk: Walk)
    requires v.Obj?
    ensures AllNested(env, trust, aux, walk, FieldAt(env, v, name, trust, priority, aux, walk))
    decreases v, 0, 0, 0
  {
    var i := FindField(v.fields, name);
    if i >= 0 {
      var part := v.fields[i].value;
      if part.Arr? { ItemsNested(env, part.items, trust, priority, aux, walk); }
      else { HandleNested(env, part, trust, priority, aux, walk); }
    }
  }

  lemma {:induction false} ItemsNested(env: Env, items: seq<Json>, trust: Option<Text>, priority: bool,
          aux: Option<Aux>, walk: Walk)
    ensures AllNested(env, trust, aux, walk, Items(env, items, trust, priority, aux, walk))
    decreases items, 0
  {
    if items != [] {
      HandleNested(env, items[0], trust, priority, aux, walk);
      ItemsNested(env, items[1..], trust, priority, aux, walk);
    }
  }

  // ----------------------------------------------------------------- the root

  predicate IsHeavyStore(e: Effect) { e.Store? && !e.typ.Other? }

  /** The stores of actors and collections, in order. */
  function HeavyStores(es: seq<Effect>): seq<Effect> {
    if es == [] then []
    else (if IsHeavyStore(es[0]) then [es[0]] else []) + HeavyStores(es[1..])
  }

  lemma {:induction false} HeavyAppend(a: seq<Effect>, b: seq<Effect>)
    ensures HeavyStores(a + b) == HeavyStores(a) + HeavyStores(b)
  {
    if a == [] {
      assert a + b == b;
    } else {
      assert (a + b)[1..] == a[1..] + b;
      HeavyAppend(a[1..], b);
    }
  }

  lemma {:induction false} NoHeavy(es: seq<Effect>)
    requires forall k :: 0 <= k < |es| ==> !IsHeavyStore(es[k])
    ensures HeavyStores(es) == []
  {
    if es != [] { NoHeavy(es[1..]); }
  }

  lemma NestedLight(env: Env, trust: Option<Text>, aux: Option<Aux>, walk: Walk, es: seq<Effect>)
    requires AllNested(env, trust, aux, walk, es)
    ensures HeavyStores(es) == []
  {
    forall k | 0 <= k < |es| ensures !IsHeavyStore(es[k]) { assert Nested(env, trust, aux, walk, es[k]); }
    NoHeavy(es);
  }

  /** The one store of an actor or a collection that a root may cause. */
  function RootStores(env: Env, v: Json, trust: Option<Text>): seq<Effect>
    requires v.Obj?
  {
    var oid, typ := AsId(env, v.fields), TypeOf(v.fields);
    if !(Given(trust) && Given(oid) && Some(env.netloc(oid.value)) == trust) then []
    else if TypeIn(typ, ACTOR_TYPES) then [Store(oid.value, v, Actor, env.webfinger(v))]
    else if TypeIn(typ, COLLECTION_TYPES) && env.archiveCollections then [Store(oid.value, v, Feed, None)]
    else []
  }

  /** A root's own store, followed by nested calls only. */
  lemma RootDispatch(env: Env, v: Json, trust: Option<Text>, priority: bool, aux: Option<Aux>,
          walk: Walk) returns (rest: seq<Effect>)
    requires v.Obj?
    requires var oid := AsId(env, v.fields); Given(oid) ==> Some(env.netloc(oid.value)) == trust
    ensures AllNested(env, trust, aux, walk, rest)
    ensures Dispatch(env, v, trust, priority, aux, walk) == RootStores(env, v, trust) + rest
  {
    var typ := TypeOf(v.fields);
    if TypeIn(typ, ACTOR_TYPES) {
      rest := ActorCalls(env, v, trust);
      ActorNested(env, v, trust);
      ActorSplit(env, v, trust);
      NestedFresh(env, trust, aux, walk, rest);
    } else if TypeIn(typ, COLLECTION_TYPES) {
      rest := PageCalls(env, v, trust, priority, aux, walk);
      PagesNested(env, v, trust, priority, aux, walk);
      CollectionSplit(env, v, trust, priority, aux, walk);
    } else {
      rest := Dispatch(env, v, trust, priority, aux, walk);
      DispatchNested(env, v, trust, priority, aux, walk);
      assert rest == RootStores(env, v, trust) + rest;
    }
  }

  /** Calls made for the root itself, then nested calls. */
  lemma OwnThenNested(env: Env, trust: Option<Text>, aux: Option<Aux>, walk: Walk, marks: seq<Effect>,
          stores: seq<Effect>, rest: seq<Effect>)
    requires |marks| <= 1 && |stores| <= 1
    requires forall k :: 0 <= k < |marks| ==> marks[k].Mark? && Some(env.netloc(marks[k].uri)) == trust
    requires forall k :: 0 <= k < |stores| ==> IsHeavyStore(stores[k]) && Some(env.netloc(stores[k].uri)) == trust
    requires AllNested(env, trust, aux, walk, rest)
    ensures var es := marks + (stores + rest);
            && HeavyStores(es) == stores
            && forall k :: 0 <= k < |es| && !es[k].Report? ==> Some(env.netloc(es[k].uri)) == trust
  {
    var es := marks + (stores + rest);
    NestedLight(env, trust, aux, walk, rest);
    HeavyAppend(stores, rest);
    HeavyAppend(marks, stores + rest);
    NoHeavy(marks);
    if stores != [] { assert stores == [stores[0]]; }
    assert HeavyStores(stores) == stores;
    forall k | 0 <= k < |es| && !es[k].Report? ensures Some(env.netloc(es[k].uri)) == trust {
      if k >= |marks| + |stores| { assert Nested(env, trust, aux, walk, rest[k - |marks| - |stores|]); }
    }
  }

  /** The trust rule: whatever the tree holds, an actor or a collection is
      stored only for the root, and exactly when the root has an id on the
      trusted domain (collections also need the archive setting); and nothing is
      stored or marked fetched under an id outside the trusted domain. */
  lemma TrustRule(env: Env, v: Json, trust: Option<Text>, priority: bool, aux: Option<Aux>, walk: Walk)
    requires v.Obj?
    ensures var es := Handle(env, v, trust, priority, true, aux, walk);
            && HeavyStores(es) == RootStores(env, v, trust)
            && forall k :: 0 <= k < |es| && !es[k].Report? ==> Some(env.netloc(es[k].uri)) == trust
  {
    hide Nested, AllNested, Dispatch, TypeIn;
    var oid := AsId(env, v.fields);
    var es := Handle(env, v, trust, priority, true, aux, walk);
    if Given(oid) && Some(env.netloc(oid.value)) != trust {
      NoHeavy(es);
    } else {
      var rest := RootDispatch(env, v, trust, priority, aux, walk);
      var marks := if Given(oid) then [Mark(oid.value,
          if Heavy(TypeOf(v.fields)) then Some(env.digest(v)) else None)] else [];
      assert es == marks + (RootStores(env, v, trust) + rest);
      OwnThenNested(env, trust, aux, walk, marks, RootStores(env, v, trust), rest);
    }
  }

  // ------------------------------------------------------ the collection walk

  /** A fetched object, with the dictionary reloaded from its queue row. */
  datatype Visit = Visit(obj: Json, trust: Option<Text>, priority: bool, aux: Option<Aux>, walk: Walk)

  function CallsOf(env: Env, x: Visit): seq<Effect> {
    Handle(env, x.obj, x.trust, x.priority, true, x.aux, x.walk)
  }

  /** A visit to a resource whose row carries no dictionary: no page has come yet. */
  ghost predicate Unwalked(y: Visit) { y.aux.None? && y.walk == Walk(false, 0) }

  /** `y` is a visit to a link that the call `e` reported: its row carries the
      dictionary of the report, and the pages counted there count on. A report
      without a dictionary leads to a visit like any first one. */
  ghost predicate ReportedBy(e: Effect, y: Visit) {
    && e.Report? && y.aux == e.aux
    && y.walk == if e.aux.None? then Walk(false, 0) else Walk(false, e.walk.emptied)
  }

  /** The call continues the walk of the visit it was made in, rather than that of
      a collection embedded in the visited object. */
  ghost predicate Continues(e: Effect, y: Visit) {
    ReportedBy(e, y) && e.aux.Some? && !e.walk.embedded
  }

  /** Some call made for `x` led to `y`. */
  ghost predicate Follows(env: Env, x: Visit, y: Visit) {
    exists k :: 0 <= k < |CallsOf(env, x)| && ReportedBy(CallsOf(env, x)[k], y)
  }

  /** Some call made for `x` led to `y` as the next page of the same walk. */
  ghost predicate NextPage(env: Env, x: Visit, y: Visit) {
    exists k :: 0 <= k < |CallsOf(env, x)| && Continues(CallsOf(env, x)[k], y)
  }

  /** Visits that lead one to the next, each by any report of the one before. */
  ghost predicate Journey(env: Env, xs: seq<Visit>) {
    && xs != [] && Unwalked(xs[0])
    && (forall i :: 0 <= i < |xs| ==> xs[i].obj.Obj?)
    && forall i :: 0 <= i < |xs| - 1 ==> Follows(env, xs[i], xs[i + 1])
  }

  /** The visits from `j` to `i` are pages of one walk. */
  ghost predicate OneWalk(env: Env, xs: seq<Visit>, j: nat, i: nat) {
    j <= i < |xs| && forall k :: j <= k < i ==> NextPage(env, xs[k], xs[k + 1])
  }

  /** Every report of a visit continues its walk or starts a new one. */
  lemma VisitOnward(env: Env, x: Visit, k: nat)
    requires x.obj.Obj? && k < |CallsOf(env, x)| && CallsOf(env, x)[k].Report? && Coherent(x.aux, x.walk)
    ensures Onward(x.aux, x.walk, CallsOf(env, x)[k].aux, CallsOf(env, x)[k].walk)
  {
    var oid := AsId(env, x.obj.fields);
    var es := CallsOf(env, x);
    if !Given(oid) || Some(env.netloc(oid.value)) == x.trust {
      var rest := RootDispatch(env, x.obj, x.trust, x.priority, x.aux, x.walk);
      var d := |es| - |rest|;
      assert k >= d && es[k] == rest[k - d];
      assert Nested(env, x.trust, x.aux, x.walk, rest[k - d]);
    }
  }

  /** Wherever a journey has led, the dictionary of the row agrees with its walk. */
  lemma {:induction false} JourneyCoherent(env: Env, xs: seq<Visit>, i: nat)
    requires Journey(env, xs) && i < |xs|
    ensures Coherent(xs[i].aux, xs[i].walk)
  {
    if i > 0 {
      JourneyCoherent(env, xs, i - 1);
      var x, y := xs[i - 1], xs[i];
      assert Follows(env, x, xs[i - 1 + 1]);
      var k :| 0 <= k < |CallsOf(env, x)| && ReportedBy(CallsOf(env, x)[k], y);
      VisitOnward(env, x, k);
    }
  }

  /** Along the pages of one walk, wherever on a journey it begins, the direction
      chosen by its first page stays, and at most two pages without items are
      expanded: the count kept in the dictionary is the number of such pages really
      expanded. The first page may be an object fetched for itself, which then
      chooses the direction at `xs[j]`, or a collection inside the object fetched
      before, which has chosen it already when `xs[j]` is visited. */
  lemma {:induction false} WalkKeepsDirection(env: Env, xs: seq<Visit>, j: nat, i: nat)
    requires Journey(env, xs) && OneWalk(env, xs, j, i)
    ensures xs[i].walk.emptied == EmptyPages(xs[i].aux) <= 2
    ensures i > j ==> xs[i].walk.emptied >= xs[i - 1].walk.emptied
    ensures xs[j].aux.Some? ==> xs[i].aux.Some? && xs[i].aux.value.colDir == xs[j].aux.value.colDir
    ensures i > j ==> xs[i].aux.Some? && xs[j + 1].aux.Some? && xs[i].aux.value.colDir == xs[j + 1].aux.value.colDir
    ensures xs[i].aux.Some? ==> xs[i].aux.value.colDir in [Some(T("next")), Some(T("prev"))]
    decreases i
  {
    JourneyCoherent(env, xs, i);
    hide T;
    if i > j {
      assert OneWalk(env, xs, j, i - 1);
      WalkKeepsDirection(env, xs, j, i - 1);
      JourneyCoherent(env, xs, i - 1);
      var x, y := xs[i - 1], xs[i];
      assert NextPage(env, x, xs[i - 1 + 1]);
      var k :| 0 <= k < |CallsOf(env, x)| && Continues(CallsOf(env, x)[k], y);
      VisitOnward(env, x, k);
    }
  }

  /** A collection without an id or items that names its first page. */
  function FirstOnly(page: Text): Json {
    Obj([Field(T("type"), Str(T("OrderedCollection"))), Field(T("first"), Str(page))])
  }

  lemma {:induction false} GetFinds(fields: seq<Field>, key: Text, default: Json)
    ensures Get(fields, key, default)
        == if FindField(fields, key) >= 0 then fields[FindField(fields, key)].value else default
  {
    if fields != [] && fields[0].key != key { GetFinds(fields[1..], key, default); }
  }

  /** Looking a name up in an object of two members. */
  lemma FindOfTwo(a: string, v: Json, b: string, w: Json, key: string)
    ensures FindField([Field(T(a), v), Field(T(b), w)], T(key)) == if key == a then 0 else if key == b then 1 else -1
  {
    var fs := [Field(T(a), v), Field(T(b), w)];
    assert fs[1..] == [Field(T(b), w)] && fs[1..][1..] == [];
    if T(key) == T(a) { TInjective(key, a); }
    if T(key) == T(b) { TInjective(key, b); }
  }

  lemma FirstOnlyFields(page: Text)
    ensures var fs := FirstOnly(page).fields;
            && FindField(fs, T("id")) < 0 && FindField(fs, T("uri")) < 0 && FindField(fs, T("next")) < 0
            && FindField(fs, T("items")) < 0 && FindField(fs, T("orderedItems")) < 0
            && FindField(fs, T("type")) == 0 && FindField(fs, T("first")) == 1
  {
    assert "items"[0] != "first"[0] && "next"[0] != "type"[0];
    var typ, first := Str(T("OrderedCollection")), Str(page);
    hide FindField, T;
    FindOfTwo("type", typ, "first", first, "id");
    FindOfTwo("type", typ, "first", first, "uri");
    FindOfTwo("type", typ, "first", first, "next");
    FindOfTwo("type", typ, "first", first, "items");
    FindOfTwo("type", typ, "first", first, "orderedItems");
    FindOfTwo("type", typ, "first", first, "type");
    FindOfTwo("type", typ, "first", first, "first");
  }

  lemma PersonFields(outbox: Json)
    ensures var fs := [Field(T("type"), Str(T("Person"))), Field(T("outbox"), outbox)];
            && FindField(fs, T("id")) < 0 && FindField(fs, T("uri")) < 0 && FindField(fs, T("type")) == 0
            && FindField(fs, T("followers")) < 0 && FindField(fs, T("following")) < 0 && FindField(fs, T("outbox")) == 1
  {
    var typ := Str(T("Person"));
    hide FindField, T;
    FindOfTwo("type", typ, "outbox", outbox, "id");
    FindOfTwo("type", typ, "outbox", outbox, "uri");
    FindOfTwo("type", typ, "outbox", outbox, "type");
    FindOfTwo("type", typ, "outbox", outbox, "followers");
    FindOfTwo("type", typ, "outbox", outbox, "following");
    FindOfTwo("type", typ, "outbox", outbox, "outbox");
  }

  lemma FirstOnlyType()
    ensures var typ := Str(T("OrderedCollection"));
            !TypeIn(typ, ACTOR_TYPES) && TypeIn(typ, COLLECTION_TYPES) && TypeIn(Str(T("Person")), ACTOR_TYPES)
  {
    assert COLLECTION_TYPES[0] == "OrderedCollection" && ACTOR_TYPES[0] == "Person";
    forall k | 0 <= k < |ACTOR_TYPES| ensures Str(T("OrderedCollection")) != Str(T(ACTOR_TYPES[k])) {
      assert |T(ACTOR_TYPES[k])| < 17 == |T("OrderedCollection")|;
    }
  }

  lemma OneField(env: Env, v: Json, a: string, trust: Option<Text>, priority: bool, aux: Option<Aux>, walk: Walk)
    requires v.Obj?
    ensures Fields(env, v, [a], trust, priority, aux, walk) == FieldAt(env, v, T(a), trust, priority, aux, walk)
  {
    hide FieldAt, T;
    assert [a][1..] == [];
  }

  lemma NoFields(env: Env, v: Json, a: string, b: string, trust: Option<Text>, priority: bool, aux: Option<Aux>,
          walk: Walk)
    requires v.Obj? && FindField(v.fields, T(a)) < 0 && FindField(v.fields, T(b)) < 0
    ensures Fields(env, v, [a, b], trust, priority, aux, walk) == []
  {
    hide T, FindField;
    assert [a, b][1..] == [b];
    OneField(env, v, b, trust, priority, aux, walk);
  }

  /** Handled inside another object, it reports its first page, as a page of a new
      walk whose direction is chosen and whose missing items are counted. */
  lemma FirstOnlyReports(env: Env, page: Text, trust: Option<Text>)
    ensures Handle(env, FirstOnly(page), trust, false, false, None, NEW_WALK)
         == [Report(page, false, Some(Aux(Some(T("next")), Some(1))), Walk(true, 1))]
  {
    var v := FirstOnly(page);
    FirstOnlyFields(page);
    FirstOnlyType();
    hide FindField, TypeIn, T;
    GetFinds(v.fields, T("type"), Null);
    GetFinds(v.fields, T("items"), Null);
    GetFinds(v.fields, T("orderedItems"), Null);
    assert NoItems(v.fields);
    assert Direction(v.fields, None) == (T("first"), T("next"));
    var next := Some(NextAux(v.fields, None));
    NoFields(env, v, "items", "orderedItems", trust, false, next, Walk(true, 1));
    assert FieldAt(env, v, T("first"), trust, false, next, Walk(true, 1)) == [Report(page, false, next, Walk(true, 1))];
    assert AsId(env, v.fields) == None && TypeOf(v.fields) == Str(T("OrderedCollection"));
    assert HandleCollection(env, v, trust, false, None, NEW_WALK) == [Report(page, false, next, Walk(true, 1))] by {
      hide Fields, FieldAt, NoItems, Direction, NextAux;
    }
    assert Dispatch(env, v, trust, false, None, NEW_WALK) == HandleCollection(env, v, trust, false, None, NEW_WALK);
  }

  /** A walk that begins inside a fetched object: an actor's outbox given as such a
      collection leads on to its first page. */
  lemma EmbeddedStart(env: Env, x: Visit, page: Text, y: Visit)
    requires Unwalked(x) && x.obj == Obj([Field(T("type"), Str(T("Person"))), Field(T("outbox"), FirstOnly(page))])
    requires y.obj.Obj? && y.aux == Some(Aux(Some(T("next")), Some(1))) && y.walk == Walk(false, 1)
    ensures Journey(env, [x, y])
    ensures CallsOf(env, x) == [Report(page, false, y.aux, Walk(true, 1))]
  {
    var v := x.obj;
    PersonFields(FirstOnly(page));
    GetFinds(v.fields, T("type"), Null);
    FirstOnlyType();
    FirstOnlyReports(env, page, x.trust);
    hide FindField, TypeIn, T, FirstOnly;
    NoFields(env, v, "followers", "following", x.trust, true, None, NEW_WALK);
    OneField(env, v, "outbox", x.trust, false, None, NEW_WALK);
    assert AsId(env, v.fields) == None && TypeOf(v.fields) == Str(T("Person"));
    assert HandleActor(env, v, x.trust) == [Report(page, false, y.aux, Walk(true, 1))];
    assert Dispatch(env, v, x.trust, x.priority, None, x.walk) == HandleActor(env, v, x.trust);
    assert ReportedBy(CallsOf(env, x)[0], y);
  }
}

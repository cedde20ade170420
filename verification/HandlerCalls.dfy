/** Which calls are made, in order, for the objects that a fetch brings: the mark of
    the root, the store, and the reports of what the object refers to. */
module HandlerCalls {
  import opened Common
  import opened Json
  import opened SigningData
  import opened ObjectHandler
  import opened HandlerProofs

  /** Python's `str` of a value. */
  function TextOf(env: Env, v: Json): Text { if v.Str? then v.s else env.str(v) }

  /** The id of an object is what it has under "id", else what it has under "uri". */
  lemma IdExactly(env: Env, fields: seq<Field>)
    ensures forall i :: 0 <= i < |fields| && FirstWith(fields, T("id"), i) ==>
                AsId(env, fields) == Some(TextOf(env, fields[i].value))
    ensures forall i :: 0 <= i < |fields| && FirstWith(fields, T("uri"), i) && NoKey(fields, "id") ==>
                AsId(env, fields) == Some(TextOf(env, fields[i].value))
    ensures AsId(env, fields).None? <==> NoKey(fields, "id") && NoKey(fields, "uri")
  {
    hide T;
    FindsFirst(fields, T("id"));
    FindsFirst(fields, T("uri"));
  }

  ghost predicate NoKey(fields: seq<Field>, key: string) {
    forall i :: 0 <= i < |fields| ==> fields[i].key != T(key)
  }

  lemma {:induction false} FindsFirst(fields: seq<Field>, key: Text)
    ensures var i := FindField(fields, key);
            if i < 0 then forall j :: 0 <= j < |fields| ==> fields[j].key != key else FirstWith(fields, key, i)
  {
    if fields != [] && fields[0].key != key { FindsFirst(fields[1..], key); }
  }

  /** The type is one of an actor. */
  predicate ActorType(typ: Json) {
    typ in {Str(T("Person")), Str(T("Application")), Str(T("Group")), Str(T("Service"))}
  }

  /** The type is one of a collection or of a page of one. */
  predicate CollectionType(typ: Json) {
    typ in {Str(T("OrderedCollection")), Str(T("Collection")), Str(T("OrderedCollectionPage")),
            Str(T("CollectionPage"))}
  }

  lemma TypesAre(typ: Json)
    ensures TypeIn(typ, ACTOR_TYPES) <==> ActorType(typ)
    ensures TypeIn(typ, COLLECTION_TYPES) <==> CollectionType(typ)
    ensures !(ActorType(typ) && CollectionType(typ))
  {
    hide T;
    assert ACTOR_TYPES[0] == "Person" && ACTOR_TYPES[1] == "Application" && ACTOR_TYPES[2] == "Group"
        && ACTOR_TYPES[3] == "Service";
    assert COLLECTION_TYPES[0] == "OrderedCollection" && COLLECTION_TYPES[1] == "Collection"
        && COLLECTION_TYPES[2] == "OrderedCollectionPage" && COLLECTION_TYPES[3] == "CollectionPage";
    assert !(ActorType(typ) && CollectionType(typ)) by { NoCommonType(); }
  }

  lemma NoCommonType()
    ensures {Str(T("Person")), Str(T("Application")), Str(T("Group")), Str(T("Service"))}
         !! {Str(T("OrderedCollection")), Str(T("Collection")), Str(T("OrderedCollectionPage")),
             Str(T("CollectionPage"))}
  {
    assert |T("Person")| == 6 && |T("Application")| == 11 && |T("Group")| == 5 && |T("Service")| == 7
        && |T("OrderedCollection")| == 17 && |T("Collection")| == 10 && |T("OrderedCollectionPage")| == 21
        && |T("CollectionPage")| == 14;
    hide T;
  }

  // ----------------------------------------------------------------- the root

  /** The object's own id lies on the domain it was fetched from. */
  ghost predicate Trusted(env: Env, v: Json, host: Text) {
    && v.Obj? && host != []
    && var oid := AsId(env, v.fields); oid.Some? && oid.value != [] && env.netloc(oid.value) == host
  }

  /** A root on its domain is marked fetched first: with its digest when it is an
      actor, a collection or a page of one, and without one when it is anything
      else. No later mark carries a digest. */
  lemma RootMarkedFirst(env: Env, v: Json, host: Text, priority: bool, aux: Option<Aux>, walk: Walk)
    requires Trusted(env, v, host)
    ensures var es := Handle(env, v, Some(host), priority, true, aux, walk);
            var typ := Get(v.fields, T("type"), Null);
            && es != []
            && es[0] == Mark(AsId(env, v.fields).value,
                             if ActorType(typ) || CollectionType(typ) then Some(env.digest(v)) else None)
            && forall k :: 0 < k < |es| && es[k].Mark? ==> es[k].digest.None?
  {
    hide T, SigningData.Get, Dispatch, TypeIn, ActorType, CollectionType, StoreIf, RootStores;
    TypesAre(Get(v.fields, T("type"), Null));
    var rest := RootDispatch(env, v, Some(host), priority, aux, walk);
    RootStoresNoMark(env, v, Some(host));
    var own := RootStores(env, v, Some(host));
    var es := Handle(env, v, Some(host), priority, true, aux, walk);
    assert es[1..] == own + rest;
    forall k | 0 < k < |es| && es[k].Mark? ensures es[k].digest.None? {
      assert es[k] == (own + rest)[k - 1];
      if k - 1 >= |own| { assert Nested(env, Some(host), aux, walk, rest[k - 1 - |own|]); }
    }
  }

  lemma RootStoresNoMark(env: Env, v: Json, trust: Option<Text>)
    requires v.Obj?
    ensures forall k :: 0 <= k < |RootStores(env, v, trust)| ==> RootStores(env, v, trust)[k].Store?
  {
    hide TypeIn;
  }

  /** After its mark, an actor's first call is its store. */
  lemma RootActorFirst(env: Env, v: Json, host: Text, priority: bool, aux: Option<Aux>, walk: Walk)
    requires Trusted(env, v, host) && ActorType(Get(v.fields, T("type"), Null))
    ensures var es := Handle(env, v, Some(host), priority, true, aux, walk);
            && |es| >= 2 && es[0] == Mark(AsId(env, v.fields).value, Some(env.digest(v)))
            && es[1] == Store(AsId(env, v.fields).value, v, Actor, env.webfinger(v))
  {
    TypesAre(Get(v.fields, T("type"), Null));
    ActorSplit(env, v, Some(host));
    hide T, SigningData.Get, TypeIn, ActorType, CollectionType, HandleActor, ActorCalls;
  }

  lemma RootCollectionFirst(env: Env, v: Json, host: Text, priority: bool, aux: Option<Aux>, walk: Walk)
    requires Trusted(env, v, host) && CollectionType(Get(v.fields, T("type"), Null))
    ensures var es := Handle(env, v, Some(host), priority, true, aux, walk);
            && es != [] && es[0] == Mark(AsId(env, v.fields).value, Some(env.digest(v)))
            && (env.archiveCollections ==> |es| >= 2 && es[1] == Store(AsId(env, v.fields).value, v, Feed, None))
  {
    TypesAre(Get(v.fields, T("type"), Null));
    CollectionSplit(env, v, Some(host), priority, aux, walk);
    hide T, SigningData.Get, TypeIn, ActorType, CollectionType, HandleCollection, PageCalls;
  }

  // --------------------------------------------------- what an object refers to

  /** A field that holds a string reports it. */
  lemma StringField(env: Env, v: Json, name: Text, s: Text, trust: Option<Text>, priority: bool, aux: Option<Aux>,
          walk: Walk)
    requires v.Obj? && Get(v.fields, name, Null) == Str(s)
    ensures FieldAt(env, v, name, trust, priority, aux, walk)
        == [Report(s, priority, if aux == Some(Aux(None, None)) then None else aux, walk)]
  {
    GetFinds(v.fields, name, Null);
  }

  /** What the object has under `key` is the string `s`. */
  ghost predicate Names(v: Json, key: string, s: Text) { v.Obj? && Get(v.fields, T(key), Null) == Str(s) }

  /** A report that begins a walk of its own. */
  function Plainly(s: Text, priority: bool): Effect { Report(s, priority, None, Walk(true, 0)) }

  lemma TwoFields(env: Env, v: Json, a: string, b: string, s: Text, t: Text, trust: Option<Text>, priority: bool)
    requires Names(v, a, s) && Names(v, b, t)
    ensures Fields(env, v, [a, b], trust, priority, None, NEW_WALK) == [Plainly(s, priority), Plainly(t, priority)]
  {
    hide T, SigningData.Get;
    StringField(env, v, T(a), s, trust, priority, None, NEW_WALK);
    StringField(env, v, T(b), t, trust, priority, None, NEW_WALK);
    hide FieldAt;
    assert [a, b][1..] == [b] && [b][1..] == [];
    assert Fields(env, v, [b], trust, priority, None, NEW_WALK) == [Plainly(t, priority)];
  }

  lemma FieldReported(env: Env, v: Json, a: string, s: Text, trust: Option<Text>, priority: bool)
    requires Names(v, a, s)
    ensures Fields(env, v, [a], trust, priority, None, NEW_WALK) == [Plainly(s, priority)]
  {
    hide T, SigningData.Get;
    StringField(env, v, T(a), s, trust, priority, None, NEW_WALK);
    hide FieldAt;
    assert [a][1..] == [];
  }

  /** An actor fetched from its own domain is marked with its digest and stored with
      its WebFinger name; its followers and following are reported with priority, its
      outbox without. */
  lemma ActorCallsAre(env: Env, v: Json, host: Text, priority: bool, aux: Option<Aux>, walk: Walk, followers: Text,
          following: Text, outbox: Text)
    requires Trusted(env, v, host) && ActorType(Get(v.fields, T("type"), Null))
    requires Names(v, "followers", followers) && Names(v, "following", following) && Names(v, "outbox", outbox)
    ensures Handle(env, v, Some(host), priority, true, aux, walk)
        == [Mark(AsId(env, v.fields).value, Some(env.digest(v))),
            Store(AsId(env, v.fields).value, v, Actor, env.webfinger(v)),
            Plainly(followers, true), Plainly(following, true), Plainly(outbox, false)]
  {
    TypesAre(Get(v.fields, T("type"), Null));
    TwoFields(env, v, "followers", "following", followers, following, Some(host), true);
    FieldReported(env, v, "outbox", outbox, Some(host), false);
    hide T, SigningData.Get, TypeIn, ActorType, CollectionType, Fields, Names;
    assert HandleActor(env, v, Some(host))
        == [Store(AsId(env, v.fields).value, v, Actor, env.webfinger(v))]
           + [Plainly(followers, true), Plainly(following, true)] + [Plainly(outbox, false)];
  }

  lemma ThreeFields(env: Env, v: Json, a: string, b: string, c: string, s: Text, t: Text, u: Text,
          trust: Option<Text>, priority: bool)
    requires Names(v, a, s) && Names(v, b, t) && Names(v, c, u)
    ensures Fields(env, v, [a, b, c], trust, priority, None, NEW_WALK)
        == [Plainly(s, priority), Plainly(t, priority), Plainly(u, priority)]
  {
    TwoFields(env, v, b, c, t, u, trust, priority);
    hide T, SigningData.Get;
    StringField(env, v, T(a), s, trust, priority, None, NEW_WALK);
    hide FieldAt;
    assert [a, b, c][1..] == [b, c];
  }

  lemma NoteType(typ: Json)
    requires typ == Str(T("Note")) || typ == Str(T("Create"))
    ensures !ActorType(typ) && !CollectionType(typ) && Str(T("Note")) != Str(T("Create"))
  {
    assert |T("Person")| == 6 && |T("Application")| == 11 && |T("Group")| == 5 && |T("Service")| == 7
        && |T("OrderedCollection")| == 17 && |T("Collection")| == 10 && |T("OrderedCollectionPage")| == 21
        && |T("CollectionPage")| == 14 && |T("Note")| == 4 && |T("Create")| == 6;
    assert T("Person")[0] != T("Create")[0];
    hide T;
  }

  /** A note is marked without a digest and stored when notes are archived; whom it is
      from and to is reported with priority, its replies without. */
  lemma NoteCallsAre(env: Env, v: Json, host: Text, priority: bool, aux: Option<Aux>, walk: Walk, to: Text, cc: Text,
          by_: Text, replies: Text)
    requires Trusted(env, v, host) && Get(v.fields, T("type"), Null) == Str(T("Note"))
    requires Names(v, "to", to) && Names(v, "cc", cc) && Names(v, "attributedTo", by_) && Names(v, "replies", replies)
    ensures Handle(env, v, Some(host), priority, true, aux, walk)
        == [Mark(AsId(env, v.fields).value, None)]
           + (if env.archiveNotes then [Store(AsId(env, v.fields).value, v, Other, None)] else [])
           + [Plainly(to, true), Plainly(cc, true), Plainly(by_, true), Plainly(replies, false)]
  {
    TypesAre(Get(v.fields, T("type"), Null));
    NoteType(Get(v.fields, T("type"), Null));
    ThreeFields(env, v, "to", "cc", "attributedTo", to, cc, by_, Some(host), true);
    FieldReported(env, v, "replies", replies, Some(host), false);
    hide T, SigningData.Get, TypeIn, ActorType, CollectionType, Fields, Names;
    assert HandleNote(env, v, Some(host))
        == (if env.archiveNotes then [Store(AsId(env, v.fields).value, v, Other, None)] else [])
           + [Plainly(to, true), Plainly(cc, true), Plainly(by_, true)] + [Plainly(replies, false)];
  }

  /** Of a `Create` activity, who acted and what was made are reported. */
  lemma CreateCallsAre(env: Env, v: Json, host: Text, priority: bool, aux: Option<Aux>, walk: Walk, actor: Text,
          made: Text)
    requires Trusted(env, v, host) && Get(v.fields, T("type"), Null) == Str(T("Create"))
    requires Names(v, "actor", actor) && Names(v, "object", made)
    ensures Handle(env, v, Some(host), priority, true, aux, walk)
        == [Mark(AsId(env, v.fields).value, None), Plainly(actor, false), Plainly(made, false)]
  {
    TypesAre(Get(v.fields, T("type"), Null));
    NoteType(Get(v.fields, T("type"), Null));
    TwoFields(env, v, "actor", "object", actor, made, Some(host), false);
    hide T, SigningData.Get, TypeIn, ActorType, CollectionType, Fields, Names;
  }

  // ---------------------------------------------------------------- collections

  /** The field that leads on from a page, and the direction that is remembered: the
      one chosen before, else towards "next" from "first" or "next", else towards
      "prev" from "last". */
  ghost predicate LeadsOn(fields: seq<Field>, aux: Option<Aux>, field: Text, dir: Text) {
    if aux.Some? && aux.value.colDir.Some? then field == dir == aux.value.colDir.value
    else if !NoKey(fields, "first") then field == T("first") && dir == T("next")
    else if !NoKey(fields, "next") then field == dir == T("next")
    else field == T("last") && dir == T("prev")
  }

  function Strings(xs: seq<Text>): (r: seq<Json>)
    ensures |r| == |xs| && forall k :: 0 <= k < |xs| ==> r[k] == Str(xs[k])
  {
    if xs == [] then [] else [Str(xs[0])] + Strings(xs[1..])
  }

  function ReportAll(xs: seq<Text>, priority: bool, aux: Option<Aux>, walk: Walk): (r: seq<Effect>)
    ensures |r| == |xs| && forall k :: 0 <= k < |xs| ==> r[k] == Report(xs[k], priority, aux, walk)
  {
    if xs == [] then [] else [Report(xs[0], priority, aux, walk)] + ReportAll(xs[1..], priority, aux, walk)
  }

  lemma {:induction false} StringItems(env: Env, xs: seq<Text>, trust: Option<Text>, priority: bool, aux: Aux,
          walk: Walk)
    requires aux.colDir.Some?
    ensures Items(env, Strings(xs), trust, priority, Some(aux), walk) == ReportAll(xs, priority, Some(aux), walk)
  {
    if xs != [] {
      StringItems(env, xs[1..], trust, priority, aux, walk);
      assert Strings(xs)[1..] == Strings(xs[1..]);
    }
  }

  /** How many pages without items were counted before. */
  function CountedBefore(aux: Option<Aux>): int {
    if aux.Some? && aux.value.empPag.Some? then aux.value.empPag.value else 0
  }

  /** The dictionary that a page hands on: the direction, and one page more counted
      when this one is without items. */
  function HandedOn(aux: Option<Aux>, empty: bool, dir: Text): Aux {
    Aux(Some(dir), if empty then Some(CountedBefore(aux) + 1) else if aux.Some? then aux.value.empPag else None)
  }

  /** What a page with the items `xs` and the link `page` reports: after two pages
      without items a third goes no further. */
  function PageReports(xs: seq<Text>, page: Text, priority: bool, aux: Option<Aux>, dir: Text,
          walk: Walk): seq<Effect> {
    if xs == [] && CountedBefore(aux) >= 2 then []
    else ReportAll(xs + [page], priority, Some(HandedOn(aux, xs == [], dir)),
        Walk(walk.embedded, walk.emptied + if xs == [] then 1 else 0))
  }

  /** What the object has under `key` is a list of the strings `xs`, or it is missing. */
  ghost predicate Lists(v: Json, key: string, xs: seq<Text>) {
    && v.Obj?
    && (Get(v.fields, T(key), Null) == Arr(Strings(xs)) || (NoKey(v.fields, key) && xs == []))
  }

  /** A page of a collection with the items `xs` and `ys`, all strings, and the link
      `page`: it is marked with its digest and stored when collections are archived; its items
      and then the link are reported, each with the direction to go on in and the
      number of pages without items. */
  lemma PageCallsAre(env: Env, v: Json, host: Text, priority: bool, aux: Option<Aux>, walk: Walk, xs: seq<Text>,
          ys: seq<Text>, field: Text, dir: Text, page: Text)
    requires Trusted(env, v, host) && CollectionType(Get(v.fields, T("type"), Null))
    requires Lists(v, "items", xs) && Lists(v, "orderedItems", ys)
    requires LeadsOn(v.fields, aux, field, dir) && Get(v.fields, field, Null) == Str(page)
    ensures Handle(env, v, Some(host), priority, true, aux, walk)
        == [Mark(AsId(env, v.fields).value, Some(env.digest(v)))]
           + (if env.archiveCollections then [Store(AsId(env, v.fields).value, v, Feed, None)] else [])
           + PageReports(xs + ys, page, priority, aux, dir, walk)
  {
    TypesAre(Get(v.fields, T("type"), Null));
    DirectionExactly(v.fields, aux, field, dir);
    CollectionSplit(env, v, Some(host), priority, aux, walk);
    OwnStore(env, v, host);
    LinksAre(env, v, host, priority, aux, walk, xs, ys, field, dir, page);
    hide T, SigningData.Get, TypeIn, ActorType, CollectionType, HandleCollection, PageCalls, PageReports, LeadsOn,
        Lists, StoreIf;
    var own := if env.archiveCollections then [Store(AsId(env, v.fields).value, v, Feed, None)] else [];
    Append3([Mark(AsId(env, v.fields).value, Some(env.digest(v)))], own,
        PageReports(xs + ys, page, priority, aux, dir, walk));
  }

  lemma Append3(a: seq<Effect>, b: seq<Effect>, c: seq<Effect>)
    ensures a + (b + c) == a + b + c
  {
  }

  lemma DirectionExactly(fields: seq<Field>, aux: Option<Aux>, field: Text, dir: Text)
    ensures LeadsOn(fields, aux, field, dir) <==> Direction(fields, aux) == (field, dir)
  {
    hide T;
    FindsFirst(fields, T("first"));
    FindsFirst(fields, T("next"));
  }

  lemma OwnStore(env: Env, v: Json, host: Text)
    requires Trusted(env, v, host)
    ensures StoreIf(env, v, Some(host), env.archiveCollections, Feed)
        == if env.archiveCollections then [Store(AsId(env, v.fields).value, v, Feed, None)] else []
  {
    hide AsId;
  }

  /** The items and the link of a page, with the dictionary that the page hands on. */
  lemma LinksAre(env: Env, v: Json, host: Text, priority: bool, aux: Option<Aux>, walk: Walk, xs: seq<Text>,
          ys: seq<Text>, field: Text, dir: Text, page: Text)
    requires v.Obj? && Direction(v.fields, aux) == (field, dir) && Get(v.fields, field, Null) == Str(page)
    requires Lists(v, "items", xs) && Lists(v, "orderedItems", ys)
    ensures PageCalls(env, v, Some(host), priority, aux, walk) == PageReports(xs + ys, page, priority, aux, dir, walk)
  {
    var all := xs + ys;
    ItemsAre(v, xs, ys);
    var next := HandedOn(aux, all == [], dir);
    var walk1 := Walk(walk.embedded, walk.emptied + if all == [] then 1 else 0);
    assert next == NextAux(v.fields, aux);
    ItemFields(env, v, host, priority, next, walk1, xs, ys);
    StringField(env, v, field, page, Some(host), priority, Some(next), walk1);
    ReportMore(all, [page], priority, Some(next), walk1);
    assert ReportAll([page], priority, Some(next), walk1) == [Report(page, priority, Some(next), walk1)];
    hide T, SigningData.Get, NoItems, Direction, Fields, FieldAt, Lists, ReportAll, NextAux;
  }

  lemma ReportMore(xs: seq<Text>, ys: seq<Text>, priority: bool, aux: Option<Aux>, walk: Walk)
    ensures ReportAll(xs + ys, priority, aux, walk)
        == ReportAll(xs, priority, aux, walk) + ReportAll(ys, priority, aux, walk)
  {
  }

  /** Whether a page is without items. */
  lemma ItemsAre(v: Json, xs: seq<Text>, ys: seq<Text>)
    requires Lists(v, "items", xs) && Lists(v, "orderedItems", ys)
    ensures NoItems(v.fields) <==> xs + ys == []
  {
    hide T;
    GetExactly(v.fields, T("items"), Null);
    GetExactly(v.fields, T("orderedItems"), Null);
  }

  /** Values that Python takes for false. */
  predicate Falsy(v: Json) {
    v in {Null, Bool(false), Int(0), Float("0.0"), Float("-0.0"), Str([]), Arr([]), Obj([])}
  }

  /** A page is without items when what it has under "orderedItems", or, where that is
      falsy, under "items", is no list or an empty one. */
  lemma NoItemsExactly(fields: seq<Field>)
    ensures var ordered := Get(fields, T("orderedItems"), Null);
            var items := if Falsy(ordered) then Get(fields, T("items"), Null) else ordered;
            NoItems(fields) <==> !(items.Arr? && items.items != [])
  {
    hide T, SigningData.Get;
  }

  lemma ListField(env: Env, v: Json, key: string, xs: seq<Text>, host: Text, priority: bool, aux: Aux, walk: Walk)
    requires Lists(v, key, xs) && aux.colDir.Some?
    ensures FieldAt(env, v, T(key), Some(host), priority, Some(aux), walk) == ReportAll(xs, priority, Some(aux), walk)
  {
    hide T;
    GetFinds(v.fields, T(key), Null);
    FindsFirst(v.fields, T(key));
    StringItems(env, xs, Some(host), priority, aux, walk);
    hide SigningData.Get, FindField, Items, Handle;
  }

  lemma ItemFields(env: Env, v: Json, host: Text, priority: bool, aux: Aux, walk: Walk, xs: seq<Text>, ys: seq<Text>)
    requires aux.colDir.Some? && Lists(v, "items", xs) && Lists(v, "orderedItems", ys)
    ensures Fields(env, v, ["items", "orderedItems"], Some(host), priority, Some(aux), walk)
        == ReportAll(xs + ys, priority, Some(aux), walk)
  {
    ListField(env, v, "items", xs, host, priority, aux, walk);
    ListField(env, v, "orderedItems", ys, host, priority, aux, walk);
    ReportMore(xs, ys, priority, Some(aux), walk);
    hide T, FieldAt, ReportAll, Lists;
    assert ["items", "orderedItems"][1..] == ["orderedItems"] && ["orderedItems"][1..] == [];
    assert Fields(env, v, ["orderedItems"], Some(host), priority, Some(aux), walk)
        == ReportAll(ys, priority, Some(aux), walk);
  }

  // --------------------------------------------------------- inside an object

  /** An actor or a collection inside an object is reported by its id, with the
      priority of its place, and not gone into, even on the trusted domain. */
  lemma InsideReported(env: Env, v: Json, trust: Option<Text>, priority: bool, aux: Option<Aux>, walk: Walk)
    requires v.Obj? && AsId(env, v.fields).Some? && AsId(env, v.fields).value != []
    requires var typ := Get(v.fields, T("type"), Null);
             ActorType(typ) || CollectionType(typ) || Some(env.netloc(AsId(env, v.fields).value)) != trust
    ensures Handle(env, v, trust, priority, false, aux, walk) == [Plainly(AsId(env, v.fields).value, priority)]
  {
    TypesAre(Get(v.fields, T("type"), Null));
    hide T, SigningData.Get, TypeIn, ActorType, CollectionType;
  }

  /** A root whose id lies on another domain than it was fetched from is only reported. */
  lemma ForeignReported(env: Env, v: Json, trust: Option<Text>, priority: bool, aux: Option<Aux>, walk: Walk)
    requires v.Obj? && AsId(env, v.fields).Some? && AsId(env, v.fields).value != []
    requires Some(env.netloc(AsId(env, v.fields).value)) != trust
    ensures Handle(env, v, trust, priority, true, aux, walk) == [Plainly(AsId(env, v.fields).value, priority)]
  {
  }

  /** Anything else on the trusted domain is handled inside an object as it is at the
      root, and so is anything without an id. */
  lemma InsideHandled(env: Env, v: Json, trust: Option<Text>, priority: bool, aux: Option<Aux>, walk: Walk)
    requires v.Obj?
    requires var typ := Get(v.fields, T("type"), Null);
             !Given(AsId(env, v.fields)) || (!ActorType(typ) && !CollectionType(typ))
    ensures Handle(env, v, trust, priority, false, aux, walk) == Handle(env, v, trust, priority, true, aux, walk)
  {
    TypesAre(Get(v.fields, T("type"), Null));
    hide T, SigningData.Get, TypeIn, ActorType, CollectionType, Dispatch;
  }
}

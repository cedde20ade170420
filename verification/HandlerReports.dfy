/** Which resources are reported while an object is handled: exactly the strings
    and the untrusted or separate objects that the walk comes to. */
module HandlerReports {
  import opened Common
  import opened Json
  import opened ObjectHandler

  /** The values under a name: none, the elements of a list, or the value itself. */
  function Values(v: Json, name: Text): (r: seq<Json>)
    requires v.Obj?
    ensures forall p :: p in r ==> p < v
  {
    var i := FindField(v.fields, name);
    if i < 0 then []
    else
      var part := v.fields[i].value;
      assert v.fields[i] < v && part < v;
      if part.Arr? then part.items else [part]
  }

  function ValuesOf(v: Json, names: seq<string>): (r: seq<Json>)
    requires v.Obj?
    ensures forall p :: p in r ==> p < v
  {
    if names == [] then [] else Values(v, T(names[0])) + ValuesOf(v, names[1..])
  }

  /** The values that the handler of an object's type goes into, and the
      dictionary it hands them. */
  function Parts(v: Json, aux: Option<Aux>): (r: (seq<Json>, Option<Aux>))
    requires v.Obj?
    ensures forall p :: p in r.0 ==> p < v
  {
    var typ := TypeOf(v.fields);
    if TypeIn(typ, ACTOR_TYPES) then (ValuesOf(v, ["followers", "following"]) + ValuesOf(v, ["outbox"]), None)
    else if TypeIn(typ, COLLECTION_TYPES) then
      if NoItems(v.fields) && EmptyPages(aux) + 1 > 2 then ([], None)
      else (ValuesOf(v, ["items", "orderedItems"]) + Values(v, Direction(v.fields, aux).0),
          Some(NextAux(v.fields, aux)))
    else if typ == Json.Str(T("Note")) then (ValuesOf(v, ["to", "cc", "attributedTo"]) + ValuesOf(v, ["replies"]), None)
    else if typ == Json.Str(T("Create")) then (ValuesOf(v, ["actor", "object"]), None)
    else ([], None)
  }

  /** The object is handled in place: it has no id, or one on the trusted domain
      and, below the root, is no actor or collection. */
  predicate Opened(env: Env, v: Json, trust: Option<Text>, top: bool) {
    v.Obj? &&
    var oid := AsId(env, v.fields);
    !Given(oid) || (Some(env.netloc(oid.value)) == trust && (top || !Heavy(TypeOf(v.fields))))
  }

  /** What is reported for a value that is not handled in place. */
  function NamedBy(env: Env, v: Json, trust: Option<Text>, top: bool): Option<Text> {
    if v.Str? then Some(v.s)
    else if v.Obj? && !Opened(env, v, trust, top) then AsId(env, v.fields)
    else None
  }

  /** The walk through a nested value `v` comes to `x`. */
  ghost predicate Reaches(env: Env, v: Json, trust: Option<Text>, aux: Option<Aux>, x: Json)
    decreases v, 1
  {
    x == v || (Opened(env, v, trust, false) && Inside(env, v, trust, aux, x))
  }

  /** The walk through the parts of `v` comes to `x`. */
  ghost predicate Inside(env: Env, v: Json, trust: Option<Text>, aux: Option<Aux>, x: Json)
    requires v.Obj?
    decreases v, 0
  {
    var (ps, a) := Parts(v, aux);
    exists p :: p in ps && p < v && Reaches(env, p, trust, a, x)
  }

  ghost predicate Reports(es: seq<Effect>, u: Text) {
    exists k :: 0 <= k < |es| && es[k].Report? && es[k].uri == u
  }

  lemma ReportsAppend(a: seq<Effect>, b: seq<Effect>, u: Text)
    ensures Reports(a + b, u) <==> Reports(a, u) || Reports(b, u)
  {
    if Reports(a, u) {
      var k :| 0 <= k < |a| && a[k].Report? && a[k].uri == u;
      assert (a + b)[k] == a[k];
    }
    if Reports(b, u) {
      var k :| 0 <= k < |b| && b[k].Report? && b[k].uri == u;
      assert (a + b)[|a| + k] == b[k];
    }
    if Reports(a + b, u) {
      var k :| 0 <= k < |a + b| && (a + b)[k].Report? && (a + b)[k].uri == u;
      if k >= |a| { assert b[k - |a|] == (a + b)[k]; }
    }
  }

  /** Some value of `ps` leads to the name `u`. */
  ghost predicate Leads(env: Env, v: Json, ps: seq<Json>, trust: Option<Text>, aux: Option<Aux>, u: Text) {
    exists p :: p in ps && p < v &&
      exists x :: Reaches(env, p, trust, aux, x) && NamedBy(env, x, trust, false) == Some(u)
  }

  lemma LeadsAppend(env: Env, v: Json, a: seq<Json>, b: seq<Json>, trust: Option<Text>, aux: Option<Aux>, u: Text)
    ensures Leads(env, v, a + b, trust, aux, u) <==> Leads(env, v, a, trust, aux, u) || Leads(env, v, b, trust, aux, u)
  {
    hide Reaches, NamedBy;
    assert forall p :: p in a + b <==> p in a || p in b;
  }

  /** A nested value reports exactly the names that the walk through it comes to. */
  lemma {:induction false} ValueReports(env: Env, v: Json, trust: Option<Text>, priority: bool, aux: Option<Aux>,
          walk: Walk, u: Text)
    ensures Reports(Handle(env, v, trust, priority, false, aux, walk), u) <==>
              exists x :: Reaches(env, v, trust, aux, x) && NamedBy(env, x, trust, false) == Some(u)
    decreases v, 3
  {
    var es := Handle(env, v, trust, priority, false, aux, walk);
    if Opened(env, v, trust, false) {
      OpenedReports(env, v, trust, priority, false, aux, walk, u);
      OpenedReaches(env, v, trust, aux, u);
    } else {
      ClosedReaches(env, v, trust, aux, u);
      if v.Str? || v.Obj? { assert es[0].Report?; }
    }
  }

  /** A value not handled in place leads to its own name only. */
  lemma ClosedReaches(env: Env, v: Json, trust: Option<Text>, aux: Option<Aux>, u: Text)
    requires !Opened(env, v, trust, false)
    ensures (exists x :: Reaches(env, v, trust, aux, x) && NamedBy(env, x, trust, false) == Some(u))
        <==> NamedBy(env, v, trust, false) == Some(u)
  {
    hide Opened, NamedBy;
    assert Reaches(env, v, trust, aux, v);
  }

  /** An object handled in place leads to what its parts lead to. */
  lemma OpenedReaches(env: Env, v: Json, trust: Option<Text>, aux: Option<Aux>, u: Text)
    requires Opened(env, v, trust, false)
    ensures (exists x :: Reaches(env, v, trust, aux, x) && NamedBy(env, x, trust, false) == Some(u))
        <==> exists x :: Inside(env, v, trust, aux, x) && NamedBy(env, x, trust, false) == Some(u)
  {
    assert NamedBy(env, v, trust, false) == None;
    hide Opened, NamedBy, Inside;
    forall x ensures Reaches(env, v, trust, aux, x) <==> x == v || Inside(env, v, trust, aux, x) {}
  }

  /** What lies inside an object is what its parts lead to. */
  lemma InsideLeads(env: Env, v: Json, trust: Option<Text>, aux: Option<Aux>, u: Text)
    requires v.Obj?
    ensures (exists x :: Inside(env, v, trust, aux, x) && NamedBy(env, x, trust, false) == Some(u))
        <==> Leads(env, v, Parts(v, aux).0, trust, Parts(v, aux).1, u)
  {
    hide NamedBy, Reaches, Parts;
    var (ps, a) := Parts(v, aux);
    if Leads(env, v, ps, trust, a, u) {
      var p :| p in ps && p < v && exists x :: Reaches(env, p, trust, a, x) && NamedBy(env, x, trust, false) == Some(u);
      var x :| Reaches(env, p, trust, a, x) && NamedBy(env, x, trust, false) == Some(u);
      assert Inside(env, v, trust, aux, x);
    }
  }

  /** An object handled in place, the root too, reports what its parts lead to. */
  lemma {:induction false} OpenedReports(env: Env, v: Json, trust: Option<Text>, priority: bool, top: bool,
          aux: Option<Aux>, walk: Walk, u: Text)
    requires Opened(env, v, trust, top)
    ensures Reports(Handle(env, v, trust, priority, top, aux, walk), u)
        <==> exists x :: Inside(env, v, trust, aux, x) && NamedBy(env, x, trust, false) == Some(u)
    decreases v, 2
  {
    var oid := AsId(env, v.fields);
    var d := Dispatch(env, v, trust, priority, aux, walk);
    var marks := if Given(oid) then [Mark(oid.value,
        if Heavy(TypeOf(v.fields)) then Some(env.digest(v)) else None)] else [];
    assert Handle(env, v, trust, priority, top, aux, walk) == marks + d;
    hide Dispatch, Handle, Inside, Parts, NamedBy;
    ReportsAppend(marks, d, u);
    DispatchReports(env, v, trust, priority, aux, walk, u);
    InsideLeads(env, v, trust, aux, u);
  }

  lemma {:induction false} DispatchReports(env: Env, v: Json, trust: Option<Text>, priority: bool, aux: Option<Aux>,
          walk: Walk, u: Text)
    requires v.Obj?
    ensures Reports(Dispatch(env, v, trust, priority, aux, walk), u)
        <==> Leads(env, v, Parts(v, aux).0, trust, Parts(v, aux).1, u)
    decreases v, 1
  {
    hide Reports, Leads, Fields, ValuesOf, Values, FieldAt, NoItems, Direction, NextAux, Reaches;
    var typ := TypeOf(v.fields);
    NoneReported(u);
    NothingLeads(env, v, trust, Parts(v, aux).1, u);
    if TypeIn(typ, ACTOR_TYPES) {
      StoresReportNothing(env, v, trust, true, Actor, u);
      TwoReport(env, v, ["followers", "following"], ["outbox"], trust, true, false, None, NEW_WALK, NEW_WALK,
        StoreIf(env, v, trust, true, Actor), u);
    } else if TypeIn(typ, COLLECTION_TYPES) {
      CollectionReports(env, v, trust, priority, aux, walk, u);
    } else if typ == Json.Str(T("Note")) {
      StoresReportNothing(env, v, trust, env.archiveNotes, Other, u);
      TwoReport(env, v, ["to", "cc", "attributedTo"], ["replies"], trust, true, false, None, NEW_WALK, NEW_WALK,
        StoreIf(env, v, trust, env.archiveNotes, Other), u);
    } else if typ == Json.Str(T("Create")) {
      FieldsReport(env, v, ["actor", "object"], trust, false, None, NEW_WALK, u);
    }
  }

  lemma NoneReported(u: Text)
    ensures !Reports([], u)
  {
  }

  lemma NothingLeads(env: Env, v: Json, trust: Option<Text>, aux: Option<Aux>, u: Text)
    ensures !Leads(env, v, [], trust, aux, u)
  {
  }

  lemma StoresReportNothing(env: Env, v: Json, trust: Option<Text>, archive: bool, typ: ObjectType, u: Text)
    requires v.Obj?
    ensures !Reports(StoreIf(env, v, trust, archive, typ), u)
  {
  }

  lemma {:induction false} TwoReport(env: Env, v: Json, names: seq<string>, more: seq<string>, trust: Option<Text>,
          priority: bool, priority1: bool, aux: Option<Aux>, walk: Walk, walk1: Walk, own: seq<Effect>, u: Text)
    requires v.Obj? && !Reports(own, u)
    ensures Reports(own + Fields(env, v, names, trust, priority, aux, walk) + Fields(env, v, more, trust, priority1,
        aux, walk1), u)
        <==> Leads(env, v, ValuesOf(v, names) + ValuesOf(v, more), trust, aux, u)
    decreases v, 0, 3
  {
    hide Reports, Leads, Fields, ValuesOf;
    var a, b := Fields(env, v, names, trust, priority, aux, walk), Fields(env, v, more, trust, priority1, aux, walk1);
    ReportsAppend(own, a, u);
    ReportsAppend(own + a, b, u);
    LeadsAppend(env, v, ValuesOf(v, names), ValuesOf(v, more), trust, aux, u);
    FieldsReport(env, v, names, trust, priority, aux, walk, u);
    FieldsReport(env, v, more, trust, priority1, aux, walk1, u);
  }

  lemma {:induction false} CollectionReports(env: Env, v: Json, trust: Option<Text>, priority: bool, aux: Option<Aux>,
          walk: Walk, u: Text)
    requires v.Obj? && TypeIn(TypeOf(v.fields), COLLECTION_TYPES) && !TypeIn(TypeOf(v.fields), ACTOR_TYPES)
    ensures Reports(HandleCollection(env, v, trust, priority, aux, walk), u)
        <==> Leads(env, v, Parts(v, aux).0, trust, Parts(v, aux).1, u)
    decreases v, 0, 4
  {
    hide Reports, Leads, Fields, ValuesOf, Values, FieldAt, NoItems, Direction, NextAux, TypeIn;
    var own := StoreIf(env, v, trust, env.archiveCollections, Feed);
    StoresReportNothing(env, v, trust, env.archiveCollections, Feed, u);
    if NoItems(v.fields) && EmptyPages(aux) + 1 > 2 {
      NothingLeads(env, v, trust, None, u);
    } else {
      var next, name := Some(NextAux(v.fields, aux)), Direction(v.fields, aux).0;
      var walk1 := if NoItems(v.fields) then walk.(emptied := walk.emptied + 1) else walk;
      var names := ["items", "orderedItems"];
      var a := Fields(env, v, names, trust, priority, next, walk1);
      var b := FieldAt(env, v, name, trust, priority, next, walk1);
      ReportsAppend(own, a, u);
      ReportsAppend(own + a, b, u);
      LeadsAppend(env, v, ValuesOf(v, names), Values(v, name), trust, next, u);
      FieldsReport(env, v, names, trust, priority, next, walk1, u);
      FieldReports(env, v, name, trust, priority, next, walk1, u);
    }
  }

  lemma {:induction false} FieldsReport(env: Env, v: Json, names: seq<string>, trust: Option<Text>, priority: bool,
          aux: Option<Aux>, walk: Walk, u: Text)
    requires v.Obj?
    ensures Reports(Fields(env, v, names, trust, priority, aux, walk), u)
        <==> Leads(env, v, ValuesOf(v, names), trust, aux, u)
    decreases v, 0, 2, |names|
  {
    hide Reports, Leads, FieldAt, Values, T;
    if names == [] {
      NoneReported(u);
      NothingLeads(env, v, trust, aux, u);
    } else {
      var rest := names[1..];
      ReportsAppend(FieldAt(env, v, T(names[0]), trust, priority, aux, walk),
          Fields(env, v, rest, trust, priority, aux, walk), u);
      LeadsAppend(env, v, Values(v, T(names[0])), ValuesOf(v, rest), trust, aux, u);
      FieldReports(env, v, T(names[0]), trust, priority, aux, walk, u);
      FieldsReport(env, v, rest, trust, priority, aux, walk, u);
    }
  }

  lemma {:induction false} FieldReports(env: Env, v: Json, name: Text, trust: Option<Text>, priority: bool,
          aux: Option<Aux>, walk: Walk, u: Text)
    requires v.Obj?
    ensures Reports(FieldAt(env, v, name, trust, priority, aux, walk), u)
        <==> Leads(env, v, Values(v, name), trust, aux, u)
    decreases v, 0, 1
  {
    hide Reports, Leads, Handle, Items;
    var i := FindField(v.fields, name);
    if i < 0 {
      NoneReported(u);
      NothingLeads(env, v, trust, aux, u);
    } else {
      var part := v.fields[i].value;
      assert v.fields[i] < v && part < v;
      if part.Arr? {
        ItemsReport(env, v, part.items, trust, priority, aux, walk, u);
      } else {
        ValueReports(env, part, trust, priority, aux, walk, u);
        OneLeads(env, v, part, trust, aux, u);
      }
    }
  }

  lemma OneLeads(env: Env, v: Json, p: Json, trust: Option<Text>, aux: Option<Aux>, u: Text)
    requires p < v
    ensures Leads(env, v, [p], trust, aux, u) <==>
              exists x :: Reaches(env, p, trust, aux, x) && NamedBy(env, x, trust, false) == Some(u)
  {
    hide Reaches, NamedBy;
    assert p in [p];
  }

  lemma {:induction false} ItemsReport(env: Env, v: Json, items: seq<Json>, trust: Option<Text>, priority: bool,
          aux: Option<Aux>, walk: Walk, u: Text)
    requires forall p :: p in items ==> p < v
    ensures Reports(Items(env, items, trust, priority, aux, walk), u) <==> Leads(env, v, items, trust, aux, u)
    decreases v, 0, 0, |items|
  {
    hide Reports, Leads, Handle;
    if items == [] {
      NoneReported(u);
      NothingLeads(env, v, trust, aux, u);
    } else {
      assert items[0] in items;
      ReportsAppend(Handle(env, items[0], trust, priority, false, aux, walk),
          Items(env, items[1..], trust, priority, aux, walk), u);
      assert items == [items[0]] + items[1..];
      assert forall p :: p in items[1..] ==> p in items;
      LeadsAppend(env, v, [items[0]], items[1..], trust, aux, u);
      ValueReports(env, items[0], trust, priority, aux, walk, u);
      OneLeads(env, v, items[0], trust, aux, u);
      ItemsReport(env, v, items[1..], trust, priority, aux, walk, u);
    }
  }

  /** The reporting half of the trust rule: handling a fetched object reports a
      resource if and only if it is the object's own id, when that lies outside the
      trusted domain, or else the walk through the object's parts comes to it: as a
      string, or as the id of an actor, a collection or an object of another domain. */
  lemma ReportRule(env: Env, v: Json, trust: Option<Text>, priority: bool, aux: Option<Aux>, walk: Walk, u: Text)
    requires v.Obj?
    ensures Reports(Handle(env, v, trust, priority, true, aux, walk), u) <==>
              if Opened(env, v, trust, true) then
                exists x :: Inside(env, v, trust, aux, x) && NamedBy(env, x, trust, false) == Some(u)
              else AsId(env, v.fields) == Some(u)
  {
    if Opened(env, v, trust, true) {
      OpenedReports(env, v, trust, priority, true, aux, walk, u);
    } else {
      assert Handle(env, v, trust, priority, true, aux, walk)[0].Report?;
    }
  }
}

/** The object handler as it runs: a recursion over the value with loops over
    fields and items, making its calls one after the other. */
module HandlerObject {
  import opened Common
  import opened Json
  import opened ObjectHandler
  import opened RowTable
  import opened CrawlerModel
  import opened FifoQueueObject

  class Handler {
    const env: Env
    var log: seq<Effect>  // the calls made, in order

    constructor (env: Env)
      ensures this.env == env && log == []
    {
      this.env := env;
      log := [];
    }

    method Call(e: Effect)
      modifies this
      ensures log == old(log) + [e]
    {
      log := log + [e];
    }

    /** `_handle` */
    method HandleValue(v: Json, trust: Option<Text>, priority: bool, top: bool, aux: Option<Aux>, walk: Walk)
      modifies this
      ensures log == old(log) + Handle(env, v, trust, priority, top, aux, walk)
      decreases v, 3
    {
      hide Dispatch, Heavy;
      if v.Str? {
        Call(Report(v.s, priority, Saved(aux), walk));
        return;
      }
      if !v.Obj? { return; }
      var oid, typ := AsId(env, v.fields), TypeOf(v.fields);
      if Given(oid) {
        if Some(env.netloc(oid.value)) == trust && (top || !Heavy(typ)) {
          Call(Mark(oid.value, if Heavy(typ) then Some(env.digest(v)) else None));
        } else {
          Call(Report(oid.value, priority, None, NEW_WALK));
          return;
        }
      }
      HandleByType(v, trust, priority, aux, walk);
    }

    method HandleByType(v: Json, trust: Option<Text>, priority: bool, aux: Option<Aux>, walk: Walk)
      requires v.Obj?
      modifies this
      ensures log == old(log) + Dispatch(env, v, trust, priority, aux, walk)
      decreases v, 2
    {
      hide ObjectHandler.HandleActor, ObjectHandler.HandleCollection, ObjectHandler.HandleNote, Fields;
      var typ := TypeOf(v.fields);
      if TypeIn(typ, ACTOR_TYPES) { HandleActor(v, trust); }
      else if TypeIn(typ, COLLECTION_TYPES) { HandleCollection(v, trust, priority, aux, walk); }
      else if typ == Json.Str(T("Note")) { HandleNote(v, trust); }
      else if typ == Json.Str(T("Create")) { HandleFields(v, ["actor", "object"], trust, false, None, NEW_WALK); }
    }

    /** The store that a handler makes when the trust domain and the id are given. */
    method StoreWhen(v: Json, trust: Option<Text>, archive: bool, typ: ObjectType)
      requires v.Obj?
      modifies this
      ensures log == old(log) + StoreIf(env, v, trust, archive, typ)
    {
      var oid := AsId(env, v.fields);
      if Given(trust) && archive && Given(oid) {
        Call(Store(oid.value, v, typ, if typ.Actor? then env.webfinger(v) else None));
      }
    }

    method HandleActor(v: Json, trust: Option<Text>)
      requires v.Obj?
      modifies this
      ensures log == old(log) + ObjectHandler.HandleActor(env, v, trust)
      decreases v, 1
    {
      hide Fields, StoreIf;
      StoreWhen(v, trust, true, Actor);
      HandleFields(v, ["followers", "following"], trust, true, None, NEW_WALK);
      HandleFields(v, ["outbox"], trust, false, None, NEW_WALK);
    }

    method HandleNote(v: Json, trust: Option<Text>)
      requires v.Obj?
      modifies this
      ensures log == old(log) + ObjectHandler.HandleNote(env, v, trust)
      decreases v, 1
    {
      hide Fields, StoreIf;
      StoreWhen(v, trust, env.archiveNotes, Other);
      HandleFields(v, ["to", "cc", "attributedTo"], trust, true, None, NEW_WALK);
      HandleFields(v, ["replies"], trust, false, None, NEW_WALK);
    }

    /** The dictionary that the parts of a collection get, and the field that leads on. */
    method Onward(fields: seq<Field>, before: Option<Aux>) returns (field: Text, aux: Aux, stop: bool)
      ensures field == Direction(fields, before).0 && aux == NextAux(fields, before)
      ensures stop == (NoItems(fields) && EmptyPages(before) + 1 > 2)
    {
      aux := if before.None? then Aux(None, None) else before.value;
      if aux.colDir.Some? {
        field := aux.colDir.value;
      } else if ObjectHandler.HasKey(fields, "first") || ObjectHandler.HasKey(fields, "next") {
        field := if ObjectHandler.HasKey(fields, "first") then T("first") else T("next");
        aux := aux.(colDir := Some(T("next")));
      } else {
        field := T("last");
        aux := aux.(colDir := Some(T("prev")));
      }
      stop := false;
      if NoItems(fields) {
        aux := aux.(empPag := Some((if aux.empPag.Some? then aux.empPag.value else 0) + 1));
        stop := aux.empPag.value > 2;
      }
    }

    method HandleCollection(v: Json, trust: Option<Text>, priority: bool, before: Option<Aux>, walk: Walk)
      requires v.Obj?
      modifies this
      ensures log == old(log) + ObjectHandler.HandleCollection(env, v, trust, priority, before, walk)
      decreases v, 1
    {
      hide Fields, FieldAt, NoItems, Direction, NextAux, StoreIf, EmptyPages;
      StoreWhen(v, trust, env.archiveCollections, Feed);
      var field, aux, stop := Onward(v.fields, before);
      if stop { return; }
      var walk1 := if NoItems(v.fields) then walk.(emptied := walk.emptied + 1) else walk;
      HandleFields(v, ["items", "orderedItems"], trust, priority, Some(aux), walk1);
      HandleField(v, field, trust, priority, Some(aux), walk1);
    }

    /** `_handle_fields` */
    method HandleFields(v: Json, names: seq<string>, trust: Option<Text>, priority: bool, aux: Option<Aux>, walk: Walk)
      requires v.Obj?
      modifies this
      ensures log == old(log) + Fields(env, v, names, trust, priority, aux, walk)
      decreases v, 0, 2
    {
      hide FieldAt;
      assert names[0..] == names;
      for k := 0 to |names|
        invariant log + Fields(env, v, names[k..], trust, priority, aux, walk)
            == old(log) + Fields(env, v, names, trust, priority, aux, walk)
      {
        assert names[k..][0] == names[k] && names[k..][1..] == names[k + 1..];
        HandleField(v, T(names[k]), trust, priority, aux, walk);
      }
      assert names[|names|..] == [];
    }

    /** One field: nothing when absent, each item of a list, or the value. */
    method HandleField(v: Json, name: Text, trust: Option<Text>, priority: bool, aux: Option<Aux>, walk: Walk)
      requires v.Obj?
      modifies this
      ensures log == old(log) + FieldAt(env, v, name, trust, priority, aux, walk)
      decreases v, 0, 1
    {
      hide Handle;
      var i := FindField(v.fields, name);
      if i < 0 { return; }
      var part := v.fields[i].value;
      assert v.fields[i] < v && part < v;
      if part.Arr? {
        var items := part.items;
        assert items[0..] == items;
        for k := 0 to |items|
          invariant log + Items(env, items[k..], trust, priority, aux, walk)
              == old(log) + Items(env, items, trust, priority, aux, walk)
        {
          assert items[k..][0] == items[k] && items[k..][1..] == items[k + 1..];
          assert items[k] < part;
          HandleValue(items[k], trust, priority, false, aux, walk);
        }
        assert items[|items|..] == [];
      } else {
        HandleValue(part, trust, priority, false, aux, walk);
      }
    }
  }

  // ------------------------------------------------------- marking a row fetched

  /** The part of `_handle` that marks the object's row. */
  method MarkFetched(c: Settings, q: FifoQueue, uri: Text, trust: Text, digest: Option<string>, now: real)
    modifies q
    ensures var before := if uri in old(q.rows) then Some(old(q.rows)[uri]) else None;
            q.rows == Marked(c, old(q.rows), uri, trust, digest, before, now)
    ensures uri in q.rows && q.rows[uri].state == FETCHED
  {
    if uri in q.rows {
      if digest.Some? {
        var period := if 2.0 * c.minUpdate <= c.maxUpdate then 2.0 * c.minUpdate else c.maxUpdate;
        var row := q.rows[uri];
        if row.hash.Some? {
          if row.hash.value != digest.value {
            period := if c.minUpdate >= row.updateTime as real / 2.0 then c.minUpdate else row.updateTime as real / 2.0;
          }
        }
        var found := q.UpdateStateTime(uri, FETCHED, period, digest.value, now);
      } else {
        var found := q.UpdateState(uri, FETCHED);
      }
    } else {
      var inserted := q.Insert(uri, trust, FETCHED, if digest.Some? then c.minUpdate else INFINITY_TIME, None, now);
    }
  }
}

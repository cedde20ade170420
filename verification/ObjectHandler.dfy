/** What the lookup server does with a fetched JSON object: the recursive walk
    over its parts, the trust rule, and the walk along collection pages. */
module ObjectHandler {
  import opened Common
  import opened Json
  import opened SigningData

  /** The dictionary that travels with a collection walk. */
  datatype Aux = Aux(colDir: Option<Text>, empPag: Option<int>)

  datatype ObjectType = Actor | Feed | Other

  /** History of one walk along collection pages: whether it began inside the
      object now handled, and how many pages without items it has expanded. */
  datatype Walk = Walk(embedded: bool, emptied: nat)

  const NEW_WALK := Walk(true, 0)

  /** Calls out of the handler, in order: a row marked fetched, `on_id_found`,
      and `objects.insert`. The walk of a report is history, not an argument. */
  datatype Effect =
    | Mark(uri: Text, digest: Option<string>)
    | Report(uri: Text, priority: bool, aux: Option<Aux>, walk: Walk)
    | Store(uri: Text, obj: Json, typ: ObjectType, webfinger: Option<Text>)

  /** Python's `urlparse(..).netloc` and `str`, the MD5 digest, WebFinger
      lookups and the configuration, seen from outside. */
  datatype Env = Env(
    netloc: Text -> Text,
    str: Json -> Text,
    digest: Json -> string,
    webfinger: Json -> Option<Text>,
    archiveNotes: bool,
    archiveCollections: bool)

  function FindField(fields: seq<Field>, key: Text): (i: int)
    ensures -1 <= i < |fields|
    ensures i >= 0 ==> fields[i].key == key
    ensures i < 0 ==> forall j :: 0 <= j < |fields| ==> fields[j].key != key
  {
    if fields == [] then -1
    else if fields[0].key == key then 0
    else var i := FindField(fields[1..], key); if i < 0 then -1 else i + 1
  }

  predicate HasKey(fields: seq<Field>, key: string) { FindField(fields, T(key)) >= 0 }

  function Str(env: Env, v: Json): Text { if v.Str? then v.s else env.str(v) }

  /** `get_as_id` */
  function AsId(env: Env, fields: seq<Field>): Option<Text> {
    var i, u := FindField(fields, T("id")), FindField(fields, T("uri"));
    if i >= 0 then Some(Str(env, fields[i].value))
    else if u >= 0 then Some(Str(env, fields[u].value))
    else None
  }

  /** Python truth of an optional string. */
  predicate Given(s: Option<Text>) { s.Some? && s.value != [] }

  const ACTOR_TYPES: seq<string> := ["Person", "Application", "Group", "Service"]
  const COLLECTION_TYPES: seq<string> := ["OrderedCollection", "Collection", "OrderedCollectionPage", "CollectionPage"]

  predicate TypeIn(v: Json, names: seq<string>) {
    exists k :: 0 <= k < |names| && v == Json.Str(T(names[k]))
  }

  function TypeOf(fields: seq<Field>): Json { Get(fields, T("type"), Null) }

  predicate Heavy(typ: Json) { TypeIn(typ, ACTOR_TYPES) || TypeIn(typ, COLLECTION_TYPES) }

  predicate Truthy(v: Json) {
    match v
    case Null => false
    case Bool(b) => b
    case Int(n) => n != 0
    case Float(r) => r != "0.0" && r != "-0.0"
    case Str(s) => s != []
    case Arr(items) => items != []
    case Obj(fields) => fields != []
  }

  /** `(aux and json.dumps(aux)) or None`, read back by `json.loads`. */
  function Saved(aux: Option<Aux>): Option<Aux> {
    if aux == Some(Aux(None, None)) then None else aux
  }

  function EmptyPages(aux: Option<Aux>): int {
    if aux.Some? && aux.value.empPag.Some? then aux.value.empPag.value else 0
  }

  predicate NoItems(fields: seq<Field>) {
    var ordered := Get(fields, T("orderedItems"), Null);
    var items := if Truthy(ordered) then ordered else Get(fields, T("items"), Null);
    !items.Arr? || items.items == []
  }

  /** The field that leads to the next page, and the direction to remember. */
  function Direction(fields: seq<Field>, aux: Option<Aux>): (Text, Text) {
    if aux.Some? && aux.value.colDir.Some? then (aux.value.colDir.value, aux.value.colDir.value)
    else if HasKey(fields, "first") then (T("first"), T("next"))
    else if HasKey(fields, "next") then (T("next"), T("next"))
    else (T("last"), T("prev"))
  }

  /** The dictionary handed to the parts of a collection. */
  function NextAux(fields: seq<Field>, aux: Option<Aux>): Aux {
    Aux(Some(Direction(fields, aux).1),
        if NoItems(fields) then Some(EmptyPages(aux) + 1)
        else if aux.Some? then aux.value.empPag else None)
  }

  // ------------------------------------------------------------------- the walk

  /** `_handle` */
  function Handle(env: Env, v: Json, trust: Option<Text>, priority: bool, top: bool, aux: Option<Aux>,
          walk: Walk): seq<Effect>
    decreases v, 3
  {
    match v
    case Str(s) => [Report(s, priority, Saved(aux), walk)]
    case Obj(fields) =>
      var oid := AsId(env, fields);
      var typ := TypeOf(fields);
      if !Given(oid) then Dispatch(env, v, trust, priority, aux, walk)
      else if Some(env.netloc(oid.value)) == trust && (top || !Heavy(typ)) then
        [Mark(oid.value, if Heavy(typ) then Some(env.digest(v)) else None)]
        + Dispatch(env, v, trust, priority, aux, walk)
      else [Report(oid.value, priority, None, NEW_WALK)]
    case _ => []
  }

  function Dispatch(env: Env, v: Json, trust: Option<Text>, priority: bool, aux: Option<Aux>, walk: Walk): seq<Effect>
    requires v.Obj?
    decreases v, 2
  {
    var typ := TypeOf(v.fields);
    if TypeIn(typ, ACTOR_TYPES) then HandleActor(env, v, trust)
    else if TypeIn(typ, COLLECTION_TYPES) then HandleCollection(env, v, trust, priority, aux, walk)
    else if typ == Json.Str(T("Note")) then HandleNote(env, v, trust)
    else if typ == Json.Str(T("Create")) then Fields(env, v, ["actor", "object"], trust, false, None, NEW_WALK)
    else []
  }

  /** The store call of a handler, made when the trust domain and the id are given. */
  function StoreIf(env: Env, v: Json, trust: Option<Text>, archive: bool, typ: ObjectType): seq<Effect>
    requires v.Obj?
  {
    var oid := AsId(env, v.fields);
    if Given(trust) && archive && Given(oid) then
      [Store(oid.value, v, typ, if typ.Actor? then env.webfinger(v) else None)]
    else []
  }

  function HandleActor(env: Env, v: Json, trust: Option<Text>): seq<Effect>
    requires v.Obj?
    decreases v, 1
  {
    StoreIf(env, v, trust, true, Actor)
    + Fields(env, v, ["followers", "following"], trust, true, None, NEW_WALK)
    + Fields(env, v, ["outbox"], trust, false, None, NEW_WALK)
  }

  function HandleNote(env: Env, v: Json, trust: Option<Text>): seq<Effect>
    requires v.Obj?
    decreases v, 1
  {
    StoreIf(env, v, trust, env.archiveNotes, Other)
    + Fields(env, v, ["to", "cc", "attributedTo"], trust, true, None, NEW_WALK)
    + Fields(env, v, ["replies"], trust, false, None, NEW_WALK)
  }

  function HandleCollection(env: Env, v: Json, trust: Option<Text>, priority: bool, aux: Option<Aux>,
          walk: Walk): seq<Effect>
    requires v.Obj?
    decreases v, 1
  {
    var stored := StoreIf(env, v, trust, env.archiveCollections, Feed);
    var next := NextAux(v.fields, aux);
    if NoItems(v.fields) && EmptyPages(aux) + 1 > 2 then stored
    else
      var walk1 := if NoItems(v.fields) then walk.(emptied := walk.emptied + 1) else walk;
      stored
      + Fields(env, v, ["items", "orderedItems"], trust, priority, Some(next), walk1)
      + FieldAt(env, v, Direction(v.fields, aux).0, trust, priority, Some(next), walk1)
  }

  /** `_handle_fields` */
  function Fields(env: Env, v: Json, names: seq<string>, trust: Option<Text>, priority: bool, aux: Option<Aux>,
          walk: Walk): seq<Effect>
    requires v.Obj?
    decreases v, 0, |names|, 1
  {
    if names == [] then []
    else FieldAt(env, v, T(names[0]), trust, priority, aux, walk)
         + Fields(env, v, names[1..], trust, priority, aux, walk)
  }

  function FieldAt(env: Env, v: Json, name: Text, trust: Option<Text>, priority: bool, aux: Option<Aux>,
          walk: Walk): seq<Effect>
    requires v.Obj?
    decreases v, 0, 0, 0
  {
    var i := FindField(v.fields, name);
    if i < 0 then []
    else
      var part := v.fields[i].value;
      if part.Arr? then Items(env, part.items, trust, priority, aux, walk)
      else Handle(env, part, trust, priority, false, aux, walk)
  }

  function Items(env: Env, items: seq<Json>, trust: Option<Text>, priority: bool, aux: Option<Aux>,
          walk: Walk): seq<Effect>
    decreases items, 0
  {
    if items == [] then []
    else Handle(env, items[0], trust, priority, false, aux, walk)
         + Items(env, items[1..], trust, priority, aux, walk)
  }
}

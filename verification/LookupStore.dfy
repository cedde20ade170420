/** The lookup server's objects, verifiers and signatures, and the requests that
    read and write them between each other's database calls. */
module LookupStore {
  import opened Common
  import opened Json
  import opened SigningData
  import opened ObjectHandler

  const PAGE_SIZE := 100

  /** A row of `as_objects`; its JSON columns are kept as the values they encode. */
  datatype ObjectRow = ObjectRow(num: nat, uri: Text, typ: ObjectType, json: Json, aux: Json)

  datatype VerifierRow = VerifierRow(uri: Text, key: Key)

  datatype SignatureRow = SignatureRow(sig: Signature, time: Json)

  /** `lastNum` is the table's autoincrement counter. */
  datatype Db = Db(
    rows: map<Text, ObjectRow>,
    lastNum: nat,
    verifiers: map<nat, VerifierRow>,
    signatures: map<(nat, nat), SignatureRow>)

  /** `REPLACE INTO as_objects`: an old row of the same resource goes, the new one
      gets the next number. */
  function InsertObject(db: Db, uri: Text, json: Json, typ: ObjectType, aux: Json): Db {
    db.(rows := db.rows[uri := ObjectRow(db.lastNum + 1, uri, typ, json, aux)], lastNum := db.lastNum + 1)
  }

  function InsertSignature(db: Db, verifier: nat, num: nat, sig: Signature, time: Json): Db {
    db.(signatures := db.signatures[(verifier, num) := SignatureRow(sig, time)])
  }

  /** `get_objects_page` */
  predicate OnPage(row: ObjectRow, page: nat) {
    row.typ.Actor? && page * PAGE_SIZE < row.num <= (page + 1) * PAGE_SIZE
  }

  function ObjectsPage(db: Db, page: nat): set<ObjectRow> {
    set u | u in db.rows && OnPage(db.rows[u], page) :: db.rows[u]
  }

  /** `get_object_signatures` */
  function ObjectSignatures(db: Db, num: nat): map<nat, SignatureRow> {
    map v | v in db.verifiers && (v, num) in db.signatures :: db.signatures[(v, num)]
  }

  /** `get_not_signed`, without its limit: the versions the verifier has not signed. */
  function NotSignedBy(db: Db, verifier: nat): set<nat> {
    set u | u in db.rows && (verifier, db.rows[u].num) !in db.signatures :: db.rows[u].num
  }

  // ------------------------------------------------------------------ submitting

  /** One element of a submitted batch; it may lack any of its keys. */
  datatype Submission = NotADict | Submission(uri: Option<Text>, sig: Option<Signature>, time: Option<Json>)

  /** What `add_signatures` does with an element, given the row it reads for it:
      skip it, store a signature for that row, or abandon the whole batch. */
  datatype Outcome = Skip | Accept(num: nat, sig: Signature, time: Json) | Abort

  function Judge(scheme: Scheme, rows: map<Text, ObjectRow>, key: Key, x: Submission): Outcome {
    if x.NotADict? then Skip
    else if x.uri.None? then Abort
    else if x.uri.value !in rows then Skip
    else if x.sig.None? || x.time.None? then Abort
    else
      var row := rows[x.uri.value];
      match Verify(scheme, row.json, row.aux, key, x.sig.value, x.time.value)
      case Valid => Accept(row.num, x.sig.value, x.time.value)
      case Invalid => Skip
      case Error => Abort
  }

  /** `add_signatures` when nothing else writes meanwhile. */
  function AddSignatures(scheme: Scheme, db: Db, verifier: nat, key: Key, batch: seq<Submission>): Db
    decreases batch
  {
    if batch == [] then db
    else
      match Judge(scheme, db.rows, key, batch[0])
      case Skip => AddSignatures(scheme, db, verifier, key, batch[1..])
      case Abort => db
      case Accept(num, sig, time) =>
        AddSignatures(scheme, InsertSignature(db, verifier, num, sig, time), verifier, key, batch[1..])
  }

  // ------------------------------------------------------------------- requests

  /** A request under way, suspended between database calls. */
  datatype Request =
    | Adding(verifier: nat, key: Key, rest: seq<Submission>)                 // about to read the next row
    | Checking(verifier: nat, key: Key, row: ObjectRow, sig: Signature, time: Json, rest: seq<Submission>)
    | Writing(verifier: nat, key: Key, row: ObjectRow, sig: Signature, time: Json, rest: seq<Submission>)
    | Reading(row: ObjectRow)                                                // about to read its signatures

  /** An answer of the `get` handler: the row and the signatures shown with it. */
  datatype Answer = Answer(row: ObjectRow, keySignatures: map<nat, SignatureRow>, keys: map<nat, VerifierRow>)

  /** The server, with history: every row version ever stored, by number, and
      every answer given. */
  datatype Server = Server(db: Db, requests: map<nat, Request>, versions: map<nat, ObjectRow>, answers: seq<Answer>)

  datatype Action =
    | Replace(uri: Text, json: Json, typ: ObjectType, aux: Json)
    | AddVerifier(id: nat, row: VerifierRow)
    | Submit(i: nat, verifier: nat, batch: seq<Submission>)
    | ReadRow(i: nat)
    | CheckSignature(i: nat)
    | WriteSignature(i: nat)
    | Get(i: nat, uri: Text)
    | ReadSignatures(i: nat)

  ghost predicate Enabled(s: Server, a: Action) {
    match a
    case Replace(_, _, _, _) => true
    case AddVerifier(id, _) => id !in s.db.verifiers
    case Submit(i, v, _) => i !in s.requests && v in s.db.verifiers
    case ReadRow(i) => i in s.requests && s.requests[i].Adding?
    case CheckSignature(i) => i in s.requests && s.requests[i].Checking?
    case WriteSignature(i) => i in s.requests && s.requests[i].Writing?
    case Get(i, uri) => i !in s.requests && uri in s.db.rows
    case ReadSignatures(i) => i in s.requests && s.requests[i].Reading?
  }

  function Finish(s: Server, i: nat): Server { s.(requests := s.requests - {i}) }

  function Continue(s: Server, i: nat, r: Request): Server { s.(requests := s.requests[i := r]) }

  /** Reading the row for the next element of a batch. */
  function ReadRowStep(s: Server, i: nat): Server
    requires i in s.requests && s.requests[i].Adding?
  {
    var r := s.requests[i];
    if r.rest == [] then Finish(s, i)
    else
      var x, rest := r.rest[0], r.rest[1..];
      if x.NotADict? then Continue(s, i, Adding(r.verifier, r.key, rest))
      else if x.uri.None? then Finish(s, i)
      else if x.uri.value !in s.db.rows then Continue(s, i, Adding(r.verifier, r.key, rest))
      else if x.sig.None? || x.time.None? then Finish(s, i)
      else Continue(s, i, Checking(r.verifier, r.key, s.db.rows[x.uri.value], x.sig.value, x.time.value, rest))
  }

  function CheckStep(scheme: Scheme, s: Server, i: nat): Server
    requires i in s.requests && s.requests[i].Checking?
  {
    var r := s.requests[i];
    match Verify(scheme, r.row.json, r.row.aux, r.key, r.sig, r.time)
    case Valid => Continue(s, i, Writing(r.verifier, r.key, r.row, r.sig, r.time, r.rest))
    case Invalid => Continue(s, i, Adding(r.verifier, r.key, r.rest))
    case Error => Finish(s, i)
  }

  function Next(scheme: Scheme, s: Server, a: Action): Server
    requires Enabled(s, a)
  {
    match a
    case Replace(uri, json, typ, aux) =>
      var db := InsertObject(s.db, uri, json, typ, aux);
      s.(db := db, versions := s.versions[db.lastNum := db.rows[uri]])
    case AddVerifier(id, row) => s.(db := s.db.(verifiers := s.db.verifiers[id := row]))
    case Submit(i, v, batch) => Continue(s, i, Adding(v, s.db.verifiers[v].key, batch))
    case ReadRow(i) => ReadRowStep(s, i)
    case CheckSignature(i) => CheckStep(scheme, s, i)
    case WriteSignature(i) =>
      var r := s.requests[i];
      Continue(s.(db := InsertSignature(s.db, r.verifier, r.row.num, r.sig, r.time)), i,
          Adding(r.verifier, r.key, r.rest))
    case Get(i, uri) => Continue(s, i, Reading(s.db.rows[uri]))
    case ReadSignatures(i) =>
      var row := s.requests[i].row;
      Finish(s.(answers := s.answers + [Answer(row, if row.typ.Actor? then ObjectSignatures(s.db, row.num) else map[],
          s.db.verifiers)]), i)
  }

  ghost predicate Run(scheme: Scheme, s: Server, run: seq<Action>, s': Server)
    decreases run
  {
    if run == [] then s == s'
    else Enabled(s, run[0]) && Run(scheme, Next(scheme, s, run[0]), run[1..], s')
  }

  // ------------------------------------------------------------------ invariants

  /** Numbers are never reused: each live row is the version stored under its
      number, and no number beyond the counter has been given out. */
  ghost predicate VersionsRight(s: Server) {
    && (forall u :: u in s.db.rows ==> s.db.rows[u].uri == u && IsVersion(s, s.db.rows[u]))
    && forall n :: n in s.versions ==> 0 < n <= s.db.lastNum && s.versions[n].num == n
  }

  ghost predicate IsVersion(s: Server, row: ObjectRow) { row.num in s.versions && s.versions[row.num] == row }

  /** The signature was verified, under the stored key of its verifier, against
      the JSON and auxiliary data of the given version. */
  ghost predicate Verified(scheme: Scheme, row: ObjectRow, key: Key, sig: Signature, time: Json) {
    Verify(scheme, row.json, row.aux, key, sig, time) == Valid
  }

  ghost predicate SignaturesRight(scheme: Scheme, s: Server) {
    forall v, n :: (v, n) in s.db.signatures ==>
      && n in s.versions && v in s.db.verifiers
      && Verified(scheme, s.versions[n], s.db.verifiers[v].key, s.db.signatures[(v, n)].sig,
          s.db.signatures[(v, n)].time)
  }

  ghost predicate RequestRight(scheme: Scheme, s: Server, r: Request) {
    && (r.Checking? || r.Writing? || r.Reading? ==> IsVersion(s, r.row))
    && (!r.Reading? ==> r.verifier in s.db.verifiers && s.db.verifiers[r.verifier].key == r.key)
    && (r.Writing? ==> Verified(scheme, r.row, r.key, r.sig, r.time))
  }

  ghost predicate AnswerRight(scheme: Scheme, s: Server, x: Answer) {
    && IsVersion(s, x.row)
    && forall v :: v in x.keySignatures ==>
         && v in x.keys && v in s.db.verifiers && x.keys[v] == s.db.verifiers[v]
         && Verified(scheme, x.row, x.keys[v].key, x.keySignatures[v].sig, x.keySignatures[v].time)
  }

  ghost predicate ServerInv(scheme: Scheme, s: Server) {
    && VersionsRight(s)
    && SignaturesRight(scheme, s)
    && (forall i :: i in s.requests ==> RequestRight(scheme, s, s.requests[i]))
    && forall k :: 0 <= k < |s.answers| ==> AnswerRight(scheme, s, s.answers[k])
  }

  /** Versions and verifiers only accumulate. */
  ghost predicate Accumulates(s: Server, s': Server) {
    && (forall n :: n in s.versions ==> n in s'.versions && s'.versions[n] == s.versions[n])
    && (forall v :: v in s.db.verifiers ==> v in s'.db.verifiers && s'.db.verifiers[v] == s.db.verifiers[v])
  }

  lemma StepAccumulates(scheme: Scheme, s: Server, a: Action)
    requires ServerInv(scheme, s) && Enabled(s, a)
    ensures Accumulates(s, Next(scheme, s, a))
  {
    hide CheckStep, ReadRowStep;
    assert a.CheckSignature? ==>
        CheckStep(scheme, s, a.i).db == s.db
        && CheckStep(scheme, s, a.i).versions == s.versions by { CheckFrame(scheme, s, a); }
    assert a.ReadRow? ==>
        ReadRowStep(s, a.i).db == s.db
        && ReadRowStep(s, a.i).versions == s.versions by { CheckFrame(scheme, s, a); }
  }

  /** Checking a signature and reading a row write nothing. */
  lemma CheckFrame(scheme: Scheme, s: Server, a: Action)
    requires Enabled(s, a)
    ensures a.CheckSignature? ==> CheckStep(scheme, s, a.i).(requests := s.requests) == s
    ensures a.ReadRow? ==> ReadRowStep(s, a.i).(requests := s.requests) == s
  {
    hide Verify;
  }

  lemma StoreStep(scheme: Scheme, s: Server, a: Action)
    requires ServerInv(scheme, s) && Enabled(s, a)
    ensures VersionsRight(Next(scheme, s, a)) && SignaturesRight(scheme, Next(scheme, s, a))
  {
    hide Verified, CheckStep, ReadRowStep;
    CheckFrame(scheme, s, a);
    if a.WriteSignature? { assert RequestRight(scheme, s, s.requests[a.i]); }
  }

  lemma RequestKept(scheme: Scheme, s: Server, s': Server, r: Request)
    requires Accumulates(s, s') && RequestRight(scheme, s, r)
    ensures RequestRight(scheme, s', r)
  {
  }

  lemma AnswerKept(scheme: Scheme, s: Server, s': Server, x: Answer)
    requires Accumulates(s, s') && AnswerRight(scheme, s, x)
    ensures AnswerRight(scheme, s', x)
  {
  }

  /** The request that moves in a step is right afterwards. */
  lemma MovedRequest(scheme: Scheme, s: Server, a: Action, i: nat)
    requires ServerInv(scheme, s) && Enabled(s, a) && !a.Replace? && !a.AddVerifier? && a.i == i
    requires i in Next(scheme, s, a).requests
    ensures RequestRight(scheme, Next(scheme, s, a), Next(scheme, s, a).requests[i])
  {
    hide Verify;
    if i in s.requests { assert RequestRight(scheme, s, s.requests[i]); }
  }

  lemma RequestsStep(scheme: Scheme, s: Server, a: Action)
    requires ServerInv(scheme, s) && Enabled(s, a)
    ensures forall i ::
        i in Next(scheme, s, a).requests
        ==> RequestRight(scheme, Next(scheme, s, a), Next(scheme, s, a).requests[i])
  {
    StepAccumulates(scheme, s, a);
    var s' := Next(scheme, s, a);
    OtherRequests(scheme, s, a);
    hide Next, ServerInv, RequestRight;
    forall i | i in s'.requests ensures RequestRight(scheme, s', s'.requests[i]) {
      if !a.Replace? && !a.AddVerifier? && a.i == i { MovedRequest(scheme, s, a, i); }
      else { RequestKept(scheme, s, s', s.requests[i]); }
    }
  }

  lemma OtherRequests(scheme: Scheme, s: Server, a: Action)
    requires ServerInv(scheme, s) && Enabled(s, a)
    ensures forall i :: (i in Next(scheme, s, a).requests && (a.Replace? || a.AddVerifier? || a.i != i)
                         ==> i in s.requests && Next(scheme, s, a).requests[i] == s.requests[i]
                             && RequestRight(scheme, s, s.requests[i]))
  {
    hide Verify, RequestRight;
  }

  lemma AnswersStep(scheme: Scheme, s: Server, a: Action)
    requires ServerInv(scheme, s) && Enabled(s, a)
    ensures forall k ::
        0 <= k < |Next(scheme, s, a).answers|
        ==> AnswerRight(scheme, Next(scheme, s, a), Next(scheme, s, a).answers[k])
  {
    StepAccumulates(scheme, s, a);
    var s' := Next(scheme, s, a);
    if a.ReadSignatures? {
      assert RequestRight(scheme, s, s.requests[a.i]);
      NewAnswer(scheme, s, s.requests[a.i].row);
    } else {
      assert s'.answers == s.answers by { hide Verify; }
    }
    hide Next;
    forall k | 0 <= k < |s'.answers| ensures AnswerRight(scheme, s', s'.answers[k]) {
      if k < |s.answers| { AnswerKept(scheme, s, s', s.answers[k]); }
    }
  }

  lemma NewAnswer(scheme: Scheme, s: Server, row: ObjectRow)
    requires ServerInv(scheme, s) && IsVersion(s, row)
    ensures AnswerRight(scheme, s, Answer(row, if row.typ.Actor? then ObjectSignatures(s.db, row.num) else map[],
        s.db.verifiers))
  {
    hide Verified;
  }

  lemma ServerStep(scheme: Scheme, s: Server, a: Action)
    requires ServerInv(scheme, s) && Enabled(s, a)
    ensures ServerInv(scheme, Next(scheme, s, a))
  {
    hide Next;
    StoreStep(scheme, s, a);
    RequestsStep(scheme, s, a);
    AnswersStep(scheme, s, a);
  }

  lemma {:induction false} ServerRun(scheme: Scheme, s: Server, run: seq<Action>, s': Server)
    requires ServerInv(scheme, s) && Run(scheme, s, run, s')
    ensures ServerInv(scheme, s')
    decreases run
  {
    hide ServerInv, Next, Enabled;
    if run != [] {
      ServerStep(scheme, s, run[0]);
      ServerRun(scheme, Next(scheme, s, run[0]), run[1..], s');
    }
  }

  const EMPTY := Server(Db(map[], 0, map[], map[]), map[], map[], [])

  /** Whatever interleaves with it, an answer shows with a row only signatures
      that were verified, under the stored key of the verifier named, against
      exactly that row's JSON and auxiliary data. */
  lemma ServedSignaturesMatch(scheme: Scheme, run: seq<Action>, s: Server, k: nat, v: nat)
    requires Run(scheme, EMPTY, run, s) && k < |s.answers| && v in s.answers[k].keySignatures
    ensures var x := s.answers[k];
            && v in x.keys && v in s.db.verifiers && x.keys[v] == s.db.verifiers[v]
            && DataToSign(x.row.json, x.row.aux, x.keySignatures[v].time).Data?
            && scheme.check(x.keys[v].key, DataToSign(x.row.json, x.row.aux, x.keySignatures[v].time).text,
                 x.keySignatures[v].sig)
            && x.row.num in s.versions && s.versions[x.row.num] == x.row
  {
    assert ServerInv(scheme, EMPTY);
    ServerRun(scheme, EMPTY, run, s);
    var x := s.answers[k];
    assert AnswerRight(scheme, s, x);
    VerifyExactly(scheme, x.row.json, x.row.aux, x.keys[v].key, x.keySignatures[v].sig, x.keySignatures[v].time);
    DataExactly(x.row.json, x.row.aux, x.keySignatures[v].time);
    hide Verify, DataToSign, SigningData.Get, T, ServerInv;
  }

  /** Two stored versions with the same number are the same version. */
  lemma NumbersNeverReused(scheme: Scheme, run: seq<Action>, s: Server, more: seq<Action>, s': Server, n: nat)
    requires Run(scheme, EMPTY, run, s) && Run(scheme, s, more, s') && n in s.versions
    ensures n in s'.versions && s'.versions[n] == s.versions[n]
  {
    assert ServerInv(scheme, EMPTY);
    ServerRun(scheme, EMPTY, run, s);
    RunAccumulates(scheme, s, more, s');
  }

  lemma {:induction false} RunAccumulates(scheme: Scheme, s: Server, run: seq<Action>, s': Server)
    requires ServerInv(scheme, s) && Run(scheme, s, run, s')
    ensures Accumulates(s, s')
    decreases run
  {
    hide ServerInv, Next, Enabled;
    if run != [] {
      StepAccumulates(scheme, s, run[0]);
      ServerStep(scheme, s, run[0]);
      RunAccumulates(scheme, Next(scheme, s, run[0]), run[1..], s');
    }
  }
}

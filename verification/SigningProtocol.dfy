/** From an actor compared and signed by a verifier to a signature stored by the
    lookup server. */
module SigningProtocol {
  import opened Common
  import opened Json
  import opened SigningData
  import opened ObjectHandler
  import opened LookupStore

  /** `check_aux`, given the WebFinger name that the server resolves for the actor. */
  function CheckAux(aux: Json, resolved: Option<Text>): bool
    requires aux.Obj?
  {
    var w := WebfingerOf(aux);
    w.Null? || (resolved.Some? && w == Json.Str(resolved.value))
  }

  /** What a verifier's task makes of an actor it was asked to sign: `actual` is
      what it fetched, `listed` and `aux` what the lookup server listed. */
  function SignListed(env: Env, scheme: Scheme, key: Key, uri: Text, actual: Json, listed: Json, aux: Json,
          resolved: Option<Text>, time: int): Signing
    requires actual.Obj?
  {
    if AsId(env, actual.fields) != Some(uri) then NotSigned
    else if !aux.Obj? then SignError
    else if !CheckAux(aux, resolved) then NotSigned
    else CompareAndSign(scheme, key, actual, listed, aux, Int(time))
  }

  /** A signature is made exactly when the fetched object is the actor asked for,
      its recorded WebFinger name is confirmed, and the two agree on the whole
      signed projection. */
  lemma SignedExactlyWhenConfirmed(env: Env, scheme: Scheme, key: Key, uri: Text, actual: Json, listed: Json,
          aux: Json, resolved: Option<Text>, time: int)
    requires actual.Obj? && Decoded(actual) && Decoded(listed) && Decoded(aux)
    ensures SignListed(env, scheme, key, uri, actual, listed, aux, resolved, time).Signed? <==>
            && AsId(env, actual.fields) == Some(uri)
            && aux.Obj? && Confirmed(aux, resolved)
            && listed.Obj? && PublicKey(actual).Obj? && PublicKey(listed).Obj?
            && SameProjection(actual, aux, Int(time), listed, aux, Int(time))
  {
    SignedExactlyWhenSame(scheme, key, actual, listed, aux, Int(time));
    hide SameProjection, DataToSign, CompareAndSign, SigningData.Get, T;
  }

  /** No name is recorded for the actor, or the one recorded is the one resolved now. */
  predicate Confirmed(aux: Json, resolved: Option<Text>)
    requires aux.Obj?
  {
    var recorded := SigningData.Get(aux.fields, T("webfinger"), Null);
    recorded == Null || (resolved.Some? && recorded == Json.Str(resolved.value))
  }

  /** Without a signature a task either records a difference or, when the listed actor's
      auxiliary data is no dictionary, raises. */
  lemma RaisesExactly(env: Env, scheme: Scheme, key: Key, uri: Text, actual: Json, listed: Json, aux: Json,
          resolved: Option<Text>, time: int)
    requires actual.Obj? && Decoded(actual) && Decoded(listed) && Decoded(aux)
    ensures SignListed(env, scheme, key, uri, actual, listed, aux, resolved, time).SignError? <==>
            AsId(env, actual.fields) == Some(uri) && !aux.Obj?
  {
    SignedExactlyWhenSame(scheme, key, actual, listed, aux, Int(time));
    hide SameProjection, DataToSign, CompareAndSign, SigningData.Get, T;
  }

  // -------------------------------------------------------- what a batch leaves

  /** What becomes of one element: it is stored, under the number of the row that its
      URI names, exactly when it has all its keys and its signature is accepted for the
      text of that row; what is no dictionary, names no row, or is signed wrongly or
      for an actor without a key is skipped. */
  lemma JudgedExactly(scheme: Scheme, rows: map<Text, ObjectRow>, key: Key, x: Submission)
    ensures var j := Judge(scheme, rows, key, x);
            && (j.Accept? <==>
                  && x.Submission? && x.uri.Some? && x.sig.Some? && x.time.Some? && x.uri.value in rows
                  && var row := rows[x.uri.value];
                     DataToSign(row.json, row.aux, x.time.value).Data?
                     && scheme.check(key, DataToSign(row.json, row.aux, x.time.value).text, x.sig.value))
            && (j.Accept? ==> j == Accept(rows[x.uri.value].num, x.sig.value, x.time.value))
  {
    if x.Submission? && x.uri.Some? && x.sig.Some? && x.time.Some? && x.uri.value in rows {
      var row := rows[x.uri.value];
      VerifyExactly(scheme, row.json, row.aux, key, x.sig.value, x.time.value);
      DataExactly(row.json, row.aux, x.time.value);
    }
    hide Verify, DataToSign, SigningData.Get, T;
  }

  /** The versions a verifier has still to sign: those stored without a signature of its. */
  lemma ToSignExactly(db: Db, verifier: nat, n: nat)
    ensures n in NotSignedBy(db, verifier) <==>
              (exists u :: u in db.rows && db.rows[u].num == n) && (verifier, n) !in db.signatures
  {
  }

  /** No element of the batch makes the server abandon it. */
  ghost predicate WellFormed(scheme: Scheme, rows: map<Text, ObjectRow>, key: Key, batch: seq<Submission>) {
    forall k :: 0 <= k < |batch| ==> Judge(scheme, rows, key, batch[k]) != Abort
  }

  /** The batch holds an acceptable signature for version `num`. */
  ghost predicate Accepts(scheme: Scheme, rows: map<Text, ObjectRow>, key: Key, batch: seq<Submission>, num: nat) {
    exists k :: 0 <= k < |batch| && Judge(scheme, rows, key, batch[k]).Accept?
        && Judge(scheme, rows, key, batch[k]).num == num
  }

  lemma AcceptsCons(scheme: Scheme, rows: map<Text, ObjectRow>, key: Key, batch: seq<Submission>, num: nat)
    requires batch != []
    ensures Accepts(scheme, rows, key, batch, num) <==>
            (Judge(scheme, rows, key, batch[0]).Accept? && Judge(scheme, rows, key, batch[0]).num == num)
            || Accepts(scheme, rows, key, batch[1..], num)
  {
    hide Judge;
    if Accepts(scheme, rows, key, batch[1..], num) {
      var k :| 0 <= k < |batch[1..]| && Judge(scheme, rows, key, batch[1..][k]).Accept?
          && Judge(scheme, rows, key, batch[1..][k]).num == num;
      assert batch[k + 1] == batch[1..][k];
    }
    if Accepts(scheme, rows, key, batch, num) {
      var k :| 0 <= k < |batch| && Judge(scheme, rows, key, batch[k]).Accept?
          && Judge(scheme, rows, key, batch[k]).num == num;
      if k > 0 { assert batch[k] == batch[1..][k - 1]; }
    }
  }

  /** `batch[k]` is the last element with an acceptable signature for its version. */
  ghost predicate LastAccepted(scheme: Scheme, rows: map<Text, ObjectRow>, key: Key, batch: seq<Submission>, k: nat) {
    && k < |batch| && Judge(scheme, rows, key, batch[k]).Accept?
    && forall l :: k < l < |batch| && Judge(scheme, rows, key, batch[l]).Accept? ==>
                     Judge(scheme, rows, key, batch[l]).num != Judge(scheme, rows, key, batch[k]).num
  }

  /** A well-formed batch stores a signature for exactly the versions it holds an
      acceptable signature for and touches nothing else. */
  lemma {:induction false} BatchVersions(scheme: Scheme, db: Db, verifier: nat, key: Key, batch: seq<Submission>)
    requires WellFormed(scheme, db.rows, key, batch)
    ensures var db' := AddSignatures(scheme, db, verifier, key, batch);
            && db' == db.(signatures := db'.signatures)
            && forall v: nat, n: nat :: if v == verifier && Accepts(scheme, db.rows, key, batch, n)
                              then (v, n) in db'.signatures
                              else ((v, n) in db'.signatures <==> (v, n) in db.signatures)
                                   && ((v, n) in db.signatures ==> db'.signatures[(v, n)] == db.signatures[(v, n)])
    decreases batch
  {
    hide Judge;
    if batch != [] {
      var j := Judge(scheme, db.rows, key, batch[0]);
      var db1 := if j.Accept? then InsertSignature(db, verifier, j.num, j.sig, j.time) else db;
      assert forall k :: 0 <= k < |batch[1..]| ==> batch[1..][k] == batch[k + 1];
      BatchVersions(scheme, db1, verifier, key, batch[1..]);
      forall n ensures Accepts(scheme, db.rows, key, batch, n)
          <==> (j.Accept? && j.num == n) || Accepts(scheme, db.rows, key, batch[1..], n) {
        AcceptsCons(scheme, db.rows, key, batch, n);
      }
    }
  }

  /** The signature that a well-formed batch leaves for a version is the one of the
      last element it accepts for that version, with that element's time. */
  lemma {:induction false} LastSignatureStays(scheme: Scheme, db: Db, verifier: nat, key: Key, batch: seq<Submission>,
          k: nat)
    requires WellFormed(scheme, db.rows, key, batch) && LastAccepted(scheme, db.rows, key, batch, k)
    ensures StoredFor(AddSignatures(scheme, db, verifier, key, batch), verifier, Judge(scheme, db.rows, key, batch[k]))
    decreases batch
  {
    hide Judge;
    var j := Judge(scheme, db.rows, key, batch[0]);
    var db1 := if j.Accept? then InsertSignature(db, verifier, j.num, j.sig, j.time) else db;
    var rest := batch[1..];
    assert forall l :: 0 <= l < |rest| ==> rest[l] == batch[l + 1];
    if k == 0 {
      assert !Accepts(scheme, db.rows, key, rest, j.num);
      BatchVersions(scheme, db1, verifier, key, rest);
    } else {
      LastSignatureStays(scheme, db1, verifier, key, rest, k - 1);
    }
  }

  /** What a well-formed batch leaves: for each version it holds acceptable
      signatures for, the last of them with its time; every other signature, and
      everything else, as it was. */
  lemma BatchStoresExactly(scheme: Scheme, db: Db, verifier: nat, key: Key, batch: seq<Submission>)
    requires WellFormed(scheme, db.rows, key, batch)
    ensures var db' := AddSignatures(scheme, db, verifier, key, batch);
            && db' == db.(signatures := db'.signatures)
            && (forall v: nat, n: nat :: if v == verifier && Accepts(scheme, db.rows, key, batch, n)
                              then (v, n) in db'.signatures
                              else ((v, n) in db'.signatures <==> (v, n) in db.signatures)
                                   && ((v, n) in db.signatures ==> db'.signatures[(v, n)] == db.signatures[(v, n)]))
            && forall k: nat :: LastAccepted(scheme, db.rows, key, batch, k) ==>
                             StoredFor(db', verifier, Judge(scheme, db.rows, key, batch[k]))
  {
    BatchVersions(scheme, db, verifier, key, batch);
    hide Judge, AddSignatures;
    forall k: nat | LastAccepted(scheme, db.rows, key, batch, k)
      ensures StoredFor(AddSignatures(scheme, db, verifier, key, batch), verifier,
          Judge(scheme, db.rows, key, batch[k]))
    {
      LastSignatureStays(scheme, db, verifier, key, batch, k);
    }
  }

  /** The accepted signature is the one kept for its version. */
  ghost predicate StoredFor(db: Db, verifier: nat, j: Outcome)
    requires j.Accept?
  {
    (verifier, j.num) in db.signatures && db.signatures[(verifier, j.num)] == SignatureRow(j.sig, j.time)
  }

  /** A well-formed batch takes exactly the versions it holds acceptable signatures
      for off the list of what the verifier has still to sign, and changes no
      other verifier's list. */
  lemma StillToSign(scheme: Scheme, db: Db, verifier: nat, key: Key, batch: seq<Submission>, other: nat, n: nat)
    requires WellFormed(scheme, db.rows, key, batch)
    ensures var db' := AddSignatures(scheme, db, verifier, key, batch);
            n in NotSignedBy(db', other) <==>
                n in NotSignedBy(db, other)
                && !(other == verifier && Accepts(scheme, db.rows, key, batch, n))
  {
    BatchStoresExactly(scheme, db, verifier, key, batch);
    hide WellFormed, Accepts, AddSignatures;
    var db' := AddSignatures(scheme, db, verifier, key, batch);
    assert n in NotSignedBy(db', other)
        <==> (other, n) !in db'.signatures && exists u :: u in db.rows && db.rows[u].num == n;
    assert n in NotSignedBy(db, other)
        <==> (other, n) !in db.signatures && exists u :: u in db.rows && db.rows[u].num == n;
  }

  /** Storing a new version puts it on every verifier's list, as long as all
      signatures are for numbers given out. */
  lemma NewVersionUnsigned(db: Db, uri: Text, json: Json, typ: ObjectType, aux: Json, verifier: nat)
    requires forall v: nat, n: nat :: (v, n) in db.signatures ==> n <= db.lastNum
    ensures var db' := InsertObject(db, uri, json, typ, aux);
            db'.rows[uri].num in NotSignedBy(db', verifier)
  {
    var db' := InsertObject(db, uri, json, typ, aux);
    assert uri in db'.rows && (verifier, db'.rows[uri].num) !in db'.signatures;
  }

  /** An abandoned batch still stores what came before the bad element. */
  lemma {:induction false} AbandonedBatch(scheme: Scheme, db: Db, verifier: nat, key: Key, good: seq<Submission>,
          bad: Submission, rest: seq<Submission>)
    requires WellFormed(scheme, db.rows, key, good) && Judge(scheme, db.rows, key, bad) == Abort
    ensures AddSignatures(scheme, db, verifier, key, good + [bad] + rest)
        == AddSignatures(scheme, db, verifier, key, good)
    decreases good
  {
    hide Judge;
    var all := good + [bad] + rest;
    if good != [] {
      var j := Judge(scheme, db.rows, key, good[0]);
      var db1 := if j.Accept? then InsertSignature(db, verifier, j.num, j.sig, j.time) else db;
      assert forall k :: 0 <= k < |good[1..]| ==> good[1..][k] == good[k + 1];
      assert all[0] == good[0] && all[1..] == good[1..] + [bad] + rest;
      AbandonedBatch(scheme, db1, verifier, key, good[1..], bad, rest);
    } else {
      assert all[0] == bad;
    }
  }

  /** An element without its keys: without a URI, or without a signature or a time
      for a stored object. */
  predicate Incomplete(rows: map<Text, ObjectRow>, x: Submission) {
    x.Submission? && (x.uri.None? || (x.uri.value in rows && (x.sig.None? || x.time.None?)))
  }

  /** The element is for a stored actor with a key but without auxiliary data. */
  predicate WithoutAux(rows: map<Text, ObjectRow>, x: Submission) {
    && x.Submission? && x.uri.Some? && x.uri.value in rows
    && rows[x.uri.value].json.Obj? && PublicKey(rows[x.uri.value].json).Obj? && !rows[x.uri.value].aux.Obj?
  }

  /** A batch is kept whole exactly when all its elements have their keys and none is
      for a stored actor without auxiliary data. */
  lemma WellFormedExactly(scheme: Scheme, rows: map<Text, ObjectRow>, key: Key, batch: seq<Submission>)
    ensures WellFormed(scheme, rows, key, batch)
        <==> forall k :: 0 <= k < |batch| ==> !Incomplete(rows, batch[k]) && !WithoutAux(rows, batch[k])
  {
    hide Print, SignedObject, PublicKey;
    forall k | 0 <= k < |batch|
      ensures Judge(scheme, rows, key, batch[k]) == Abort
          <==> Incomplete(rows, batch[k]) || WithoutAux(rows, batch[k]) {
    }
    hide Judge, Incomplete, WithoutAux;
  }

  /** Once an actor was stored with auxiliary data `null`, the first element that
      signs it ends the batch, whatever its signature is. */
  lemma NullAuxAbandons(scheme: Scheme, db: Db, uri: Text, json: Json, typ: ObjectType, verifier: nat, key: Key,
          good: seq<Submission>, sig: Signature, time: Json, rest: seq<Submission>)
    requires json.Obj? && PublicKey(json).Obj?
    requires WellFormed(scheme, InsertObject(db, uri, json, typ, Null).rows, key, good)
    ensures var db' := InsertObject(db, uri, json, typ, Null);
            AddSignatures(scheme, db', verifier, key, good + [Submission(Some(uri), Some(sig), Some(time))] + rest)
            == AddSignatures(scheme, db', verifier, key, good)
  {
    AbandonedBatch(scheme, InsertObject(db, uri, json, typ, Null), verifier, key, good,
        Submission(Some(uri), Some(sig), Some(time)), rest);
  }

  /** So does the first element without a URI. */
  lemma NoUriAbandons(scheme: Scheme, db: Db, verifier: nat, key: Key, good: seq<Submission>,
          sig: Option<Signature>, time: Option<Json>, rest: seq<Submission>)
    requires WellFormed(scheme, db.rows, key, good)
    ensures AddSignatures(scheme, db, verifier, key, good + [Submission(None, sig, time)] + rest)
        == AddSignatures(scheme, db, verifier, key, good)
  {
    AbandonedBatch(scheme, db, verifier, key, good, Submission(None, sig, time), rest);
  }

  /** End to end: if a verifier's task signed an actor, then what it fetched
      agrees with the stored version on the whole signed projection, a well-formed
      batch with that signature has it accepted for that version, and unless the
      batch holds a later one for the same version it is the signature kept. */
  lemma SignedIsAccepted(env: Env, scheme: Scheme, secret: Key, uri: Text, actual: Json, listed: Json, aux: Json,
          resolved: Option<Text>, time: int, db: Db, verifier: nat, batch: seq<Submission>, k: nat)
    requires Correct(scheme) && actual.Obj? && Decoded(actual) && Decoded(listed) && Decoded(aux)
    requires SignListed(env, scheme, secret, uri, actual, listed, aux, resolved, time).Signed?
    requires uri in db.rows && Decoded(db.rows[uri].json) && Decoded(db.rows[uri].aux) && db.rows[uri].json.Obj?
        && db.rows[uri].aux.Obj?
    requires listed.Obj? && aux.Obj?
    requires SameProjection(listed, aux, Int(time), db.rows[uri].json, db.rows[uri].aux, Int(time))
    requires k < |batch| && WellFormed(scheme, db.rows, scheme.publicKey(secret), batch)
    requires batch[k] == Submission(Some(uri),
        Some(SignListed(env, scheme, secret, uri, actual, listed, aux, resolved, time).sig), Some(Int(time)))
    ensures SameProjection(actual, aux, Int(time), db.rows[uri].json, db.rows[uri].aux, Int(time))
    ensures var sig := SignListed(env, scheme, secret, uri, actual, listed, aux, resolved, time).sig;
            var num, db' := db.rows[uri].num, AddSignatures(scheme, db, verifier, scheme.publicKey(secret), batch);
            && Judge(scheme, db.rows, scheme.publicKey(secret), batch[k]) == Accept(num, sig, Int(time))
            && (verifier, num) in db'.signatures
            && (LastAccepted(scheme, db.rows, scheme.publicKey(secret), batch, k) ==>
                  db'.signatures[(verifier, num)] == SignatureRow(sig, Int(time)))
  {
    var row := db.rows[uri];
    SignedThenValid(scheme, secret, actual, listed, aux, Int(time), row.json, row.aux);
    TextsMeet(actual, aux, Int(time), listed, row.json,
        row.aux) by { SignedExactlyWhenSame(scheme, secret, actual, listed, aux, Int(time)); }
    hide SameProjection, DataToSign, Verify, CompareAndSign;
    BatchStoresExactly(scheme, db, verifier, scheme.publicKey(secret), batch);
    JudgeValid(scheme, db.rows, scheme.publicKey(secret), batch[k]);
    assert Accepts(scheme, db.rows, scheme.publicKey(secret), batch, row.num);
  }

  lemma JudgeValid(scheme: Scheme, rows: map<Text, ObjectRow>, key: Key, x: Submission)
    requires x.Submission? && x.uri.Some? && x.sig.Some? && x.time.Some? && x.uri.value in rows
    requires Verify(scheme, rows[x.uri.value].json, rows[x.uri.value].aux, key, x.sig.value, x.time.value) == Valid
    ensures Judge(scheme, rows, key, x) == Accept(rows[x.uri.value].num, x.sig.value, x.time.value)
  {
    hide Verify;
  }

  lemma SameKeyKind(a: Json, b: Json)
    requires a.Obj? && b.Obj? && SameUnder(a, b, "publicKey", Obj([])) && PublicKey(a).Obj?
    ensures PublicKey(b).Obj?
  {
  }

  /** Agreement on the signed projection passes through the listed copy. */
  lemma TextsMeet(actual: Json, aux: Json, time: Json, listed: Json, stored: Json, storedAux: Json)
    requires Decoded(actual) && Decoded(listed) && Decoded(aux) && Decoded(time) && Decoded(stored)
        && Decoded(storedAux)
    requires actual.Obj? && listed.Obj? && aux.Obj? && stored.Obj? && storedAux.Obj?
    requires PublicKey(actual).Obj? && PublicKey(listed).Obj?
    requires SameProjection(actual, aux, time, listed, aux, time)
        && SameProjection(listed, aux, time, stored, storedAux, time)
    ensures SameProjection(actual, aux, time, stored, storedAux, time)
  {
    hide SameUnder, Same, SigningData.Get, T, DataToSign, Decoded;
    SameKeyKind(listed, stored);
    hide SameProjection;
    DataExactly(actual, aux, time);
    DataExactly(listed, aux, time);
    DataExactly(stored, storedAux, time);
    SignedTextIsProjection(actual, aux, time, listed, aux, time);
    SignedTextIsProjection(listed, aux, time, stored, storedAux, time);
    SignedTextIsProjection(actual, aux, time, stored, storedAux, time);
  }
}

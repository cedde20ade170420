/** The text that a verifier signs for an actor, and signing and checking it
    over an abstract signature scheme. */
module SigningData {
  import opened Common
  import opened Json
  import opened CanonicalJson

  /** `None`, a text, or an `AttributeError` from an auxiliary value without `get`. */
  datatype ToSign = Refused | Raised | Data(text: string)

  /** `dict.get(key, default)` */
  function Get(fields: seq<Field>, key: Text, default: Json): Json {
    if fields == [] then default
    else if fields[0].key == key then fields[0].value
    else Get(fields[1..], key, default)
  }

  /** The `i`-th member is the first with this key. */
  ghost predicate FirstWith(fields: seq<Field>, key: Text, i: int)
    requires 0 <= i < |fields|
  {
    fields[i].key == key && forall j :: 0 <= j < i ==> fields[j].key != key
  }

  /** A key's value is that of its first member; a missing key gives the default. */
  lemma {:induction false} GetExactly(fields: seq<Field>, key: Text, default: Json)
    ensures (forall i :: 0 <= i < |fields| ==> fields[i].key != key) ==> Get(fields, key, default) == default
    ensures forall i :: 0 <= i < |fields| && FirstWith(fields, key, i) ==> Get(fields, key, default) == fields[i].value
  {
    if fields != [] && fields[0].key != key {
      GetExactly(fields[1..], key, default);
      forall i | 0 <= i < |fields| && FirstWith(fields, key, i) ensures Get(fields, key, default) == fields[i].value {
        assert FirstWith(fields[1..], key, i - 1);
      }
    }
  }

  /** The actor properties that are signed as they are, null when missing. */
  const PROPERTIES: seq<string> := ["id", "uri", "type", "following", "followers", "inbox",
                                    "outbox", "name", "url", "published", "endpoints"]

  function Property(actor: Json, k: int): Json
    requires actor.Obj? && 0 <= k < |PROPERTIES|
  {
    Get(actor.fields, T(PROPERTIES[k]), Null)
  }

  function PublicKey(actor: Json): Json
    requires actor.Obj?
  {
    Get(actor.fields, T("publicKey"), Obj([]))
  }

  function WebfingerOf(aux: Json): Json
    requires aux.Obj?
  {
    Get(aux.fields, T("webfinger"), Null)
  }

  const NAMES: seq<string> := ["actor_id", "actor_uri", "actor_type", "actor_following", "actor_followers",
                               "actor_inbox", "actor_outbox", "actor_name", "actor_url", "actor_published",
                               "actor_endpoints", "webfinger", "key", "signature_time"]

  function SignedValue(actor: Json, aux: Json, time: Json, k: int): Json
    requires actor.Obj? && aux.Obj? && 0 <= k < 14
  {
    if k < 11 then Property(actor, k)
    else if k == 11 then WebfingerOf(aux)
    else if k == 12 then PublicKey(actor)
    else time
  }

  function SignedObject(actor: Json, aux: Json, time: Json): Json
    requires actor.Obj? && aux.Obj?
  {
    Obj(seq(14, k requires 0 <= k < 14 => Field(T(NAMES[k]), SignedValue(actor, aux, time, k))))
  }

  /** `get_data_to_sign` */
  function DataToSign(actor: Json, aux: Json, time: Json): ToSign {
    if !actor.Obj? then Refused
    else if !PublicKey(actor).Obj? then Refused
    else if !aux.Obj? then Raised
    else Data(Print(SignedObject(actor, aux, time)))
  }

  // ------------------------------------------------------------- the projection

  /** Both objects have the same value under `key`, `default` where it is missing. */
  ghost predicate SameUnder(a: Json, b: Json, key: string, default: Json)
    requires a.Obj? && b.Obj?
  {
    Same(Get(a.fields, T(key), default), Get(b.fields, T(key), default))
  }

  /** Both sides agree on every signed property, the key, the webfinger name and
      the time; a missing property counts as null and a missing key as `{}`. */
  ghost predicate SameProjection(a: Json, x: Json, t: Json, a': Json, x': Json, t': Json)
    requires a.Obj? && x.Obj? && a'.Obj? && x'.Obj?
  {
    && SameUnder(a, a', "id", Null) && SameUnder(a, a', "uri", Null) && SameUnder(a, a', "type", Null)
    && SameUnder(a, a', "following", Null) && SameUnder(a, a', "followers", Null)
    && SameUnder(a, a', "inbox", Null) && SameUnder(a, a', "outbox", Null)
    && SameUnder(a, a', "name", Null) && SameUnder(a, a', "url", Null)
    && SameUnder(a, a', "published", Null) && SameUnder(a, a', "endpoints", Null)
    && SameUnder(x, x', "webfinger", Null)
    && SameUnder(a, a', "publicKey", Obj([]))
    && Same(t, t')
  }

  lemma TInjective(s: string, t: string)
    requires T(s) == T(t)
    ensures s == t
  {
    assert |s| == |T(s)| == |T(t)| == |t|;
    forall i | 0 <= i < |s| ensures s[i] == t[i] { assert T(s)[i] == T(t)[i]; }
  }

  lemma NamesDistinct()
    ensures forall i, j :: 0 <= i < j < 14 ==> T(NAMES[i]) != T(NAMES[j])
  {
    forall i, j | 0 <= i < j < 14 ensures T(NAMES[i]) != T(NAMES[j]) {
      var a, b := NAMES[i], NAMES[j];
      assert |a| != |b| || a[|a| - 1] != b[|b| - 1] || a[|a| - 3] != b[|b| - 3];
      if T(a) == T(b) { TInjective(a, b); }
    }
  }

  lemma AsciiJoined(s: string)
    requires forall i :: 0 <= i < |s| ==> s[i] as int < 128
    ensures Joined(T(s))
  {
  }

  lemma {:induction false} GetDecoded(fields: seq<Field>, key: Text, default: Json)
    requires Decoded(default) && forall i :: 0 <= i < |fields| ==> Decoded(fields[i].value)
    ensures Decoded(Get(fields, key, default))
  {
    if fields != [] && fields[0].key != key { GetDecoded(fields[1..], key, default); }
  }

  lemma SignedValueDecoded(a: Json, x: Json, t: Json, k: int)
    requires a.Obj? && x.Obj? && Decoded(a) && Decoded(x) && Decoded(t) && 0 <= k < 14
    ensures Decoded(SignedValue(a, x, t, k))
  {
    if k < 11 {
      GetDecoded(a.fields, T(PROPERTIES[k]), Null);
    } else {
      GetDecoded(x.fields, T("webfinger"), Null);
      GetDecoded(a.fields, T("publicKey"), Obj([]));
    }
  }

  lemma NamesAscii(k: int)
    requires 0 <= k < 14
    ensures Joined(T(NAMES[k]))
  {
    AsciiJoined(NAMES[k]);
  }

  lemma SignedObjectDecoded(a: Json, x: Json, t: Json)
    requires a.Obj? && x.Obj? && Decoded(a) && Decoded(x) && Decoded(t)
    ensures Decoded(SignedObject(a, x, t))
  {
    NamesDistinct();
    forall k | 0 <= k < 14 ensures Joined(T(NAMES[k])) && Decoded(SignedValue(a, x, t, k)) {
      NamesAscii(k);
      SignedValueDecoded(a, x, t, k);
    }
  }

  /** Both objects have the same distinct keys at the same places. */
  ghost predicate Aligned(fs: seq<Field>, gs: seq<Field>) {
    |fs| == |gs| && DistinctKeys(gs) && forall i :: 0 <= i < |fs| ==> fs[i].key == gs[i].key
  }

  lemma SameAtPlace(fs: seq<Field>, gs: seq<Field>, i: nat)
    requires Aligned(fs, gs) && Same(Obj(fs), Obj(gs)) && i < |fs|
    ensures Same(fs[i].value, gs[i].value)
  {
    assert HasField(gs, fs[i]);
    var j :| 0 <= j < |gs| && SameField(fs[i], gs[j]);
    KeyPlace(gs, j, i);
  }

  lemma SameFromPlaces(fs: seq<Field>, gs: seq<Field>)
    requires Aligned(fs, gs) && forall i :: 0 <= i < |fs| ==> Same(fs[i].value, gs[i].value)
    ensures Same(Obj(fs), Obj(gs))
  {
    forall i | 0 <= i < |fs| ensures HasField(gs, fs[i]) { assert SameField(fs[i], gs[i]); }
    forall j | 0 <= j < |gs| ensures HasKey(fs, gs[j].key) { assert fs[j].key == gs[j].key; }
  }

  lemma ProjectionPlaces(a: Json, x: Json, t: Json, a': Json, x': Json, t': Json)
    requires a.Obj? && x.Obj? && a'.Obj? && x'.Obj?
    ensures SameProjection(a, x, t, a', x', t') <==>
            forall k :: 0 <= k < 14 ==> Same(SignedValue(a, x, t, k), SignedValue(a', x', t', k))
  {
    hide Get, Same, T;
    assert PROPERTIES[0] == "id" && PROPERTIES[1] == "uri" && PROPERTIES[2] == "type" && PROPERTIES[3] == "following"
        && PROPERTIES[4] == "followers" && PROPERTIES[5] == "inbox" && PROPERTIES[6] == "outbox"
        && PROPERTIES[7] == "name" && PROPERTIES[8] == "url" && PROPERTIES[9] == "published"
        && PROPERTIES[10] == "endpoints";
    if forall k :: 0 <= k < 14 ==> Same(SignedValue(a, x, t, k), SignedValue(a', x', t', k)) {
      forall k | 0 <= k < |PROPERTIES| ensures SameUnder(a, a', PROPERTIES[k], Null) {
        assert Same(SignedValue(a, x, t, k), SignedValue(a', x', t', k));
      }
      assert Same(SignedValue(a, x, t, 11), SignedValue(a', x', t', 11));
      assert Same(SignedValue(a, x, t, 12), SignedValue(a', x', t', 12));
      assert Same(SignedValue(a, x, t, 13), SignedValue(a', x', t', 13));
    }
  }

  lemma SignedObjectSame(a: Json, x: Json, t: Json, a': Json, x': Json, t': Json)
    requires a.Obj? && x.Obj? && a'.Obj? && x'.Obj?
    ensures Same(SignedObject(a, x, t), SignedObject(a', x', t')) <==> SameProjection(a, x, t, a', x', t')
  {
    hide Same, SignedValue, SameProjection;
    var v, w := SignedObject(a, x, t), SignedObject(a', x', t');
    NamesDistinct();
    assert Aligned(v.fields, w.fields);
    ProjectionPlaces(a, x, t, a', x', t');
    if Same(v, w) {
      forall k | 0 <= k < 14 ensures Same(SignedValue(a, x, t, k), SignedValue(a', x', t', k)) {
        SameAtPlace(v.fields, w.fields, k);
      }
    }
    if SameProjection(a, x, t, a', x', t') {
      forall k | 0 <= k < |v.fields| ensures Same(v.fields[k].value, w.fields[k].value) {
        assert Same(SignedValue(a, x, t, k), SignedValue(a', x', t', k));
      }
      SameFromPlaces(v.fields, w.fields);
    }
  }

  /** What can be signed: an actor whose key is a dictionary, or missing, with
      auxiliary data that is one. */
  lemma DataExactly(actor: Json, aux: Json, time: Json)
    ensures DataToSign(actor, aux, time).Data? <==>
              actor.Obj? && Get(actor.fields, T("publicKey"), Obj([])).Obj? && aux.Obj?
    ensures DataToSign(actor, aux, time).Refused? <==>
              !actor.Obj? || !Get(actor.fields, T("publicKey"), Obj([])).Obj?
  {
    hide Get, T;
  }

  /** The signed text is the same exactly when the signed projection is. */
  lemma SignedTextIsProjection(a: Json, x: Json, t: Json, a': Json, x': Json, t': Json)
    requires Decoded(a) && Decoded(x) && Decoded(t) && Decoded(a') && Decoded(x') && Decoded(t')
    requires DataToSign(a, x, t).Data? && DataToSign(a', x', t').Data?
    ensures DataToSign(a, x, t) == DataToSign(a', x', t') <==> SameProjection(a, x, t, a', x', t')
    ensures DataToSign(a, x, t) == DataToSign(a', x', t') <==>
            && SameUnder(a, a', "id", Null) && SameUnder(a, a', "uri", Null) && SameUnder(a, a', "type", Null)
            && SameUnder(a, a', "following", Null) && SameUnder(a, a', "followers", Null)
            && SameUnder(a, a', "inbox", Null) && SameUnder(a, a', "outbox", Null)
            && SameUnder(a, a', "name", Null) && SameUnder(a, a', "url", Null)
            && SameUnder(a, a', "published", Null) && SameUnder(a, a', "endpoints", Null)
            && SameUnder(a, a', "publicKey", Obj([]))
            && SameUnder(x, x', "webfinger", Null) && Same(t, t')
  {
    hide Print, Same, SameUnder, SignedObject, Decoded;
    SignedObjectDecoded(a, x, t);
    SignedObjectDecoded(a', x', t');
    PrintCanonical(SignedObject(a, x, t), SignedObject(a', x', t'));
    SignedObjectSame(a, x, t, a', x', t');
  }

  // ------------------------------------------------------------ sign and verify

  type Key = string
  type Signature = string

  /** RSA with PKCS#1 v1.5 over SHA-256, seen from outside. */
  datatype Scheme = Scheme(
    publicKey: Key -> Key,
    sign: (Key, string) -> Signature,
    check: (Key, string, Signature) -> bool)

  /** A signature made with a key checks under its public half. */
  ghost predicate Correct(s: Scheme) {
    forall k: Key, d: string :: s.check(s.publicKey(k), d, s.sign(k, d))
  }

  datatype Verdict = Valid | Invalid | Error

  /** `Verifier.verify` */
  function Verify(s: Scheme, actor: Json, aux: Json, key: Key, sig: Signature, time: Json): Verdict {
    match DataToSign(actor, aux, time)
    case Refused => Invalid
    case Raised => Error
    case Data(text) => if s.check(key, text, sig) then Valid else Invalid
  }

  datatype Signing = NotSigned | Signed(sig: Signature) | SignError

  /** `Signer.compare_and_sign` */
  function CompareAndSign(s: Scheme, key: Key, actor: Json, actor2: Json, aux: Json, time: Json): Signing {
    var data, data2 := DataToSign(actor, aux, time), DataToSign(actor2, aux, time);
    if data.Raised? || data2.Raised? then SignError
    else if data.Refused? || data != data2 then NotSigned
    else Signed(s.sign(key, data.text))
  }

  /** A signature comes out exactly when both actors carry a dictionary key and
      agree on the whole signed projection. */
  lemma SignedExactlyWhenSame(s: Scheme, key: Key, a: Json, b: Json, aux: Json, time: Json)
    requires Decoded(a) && Decoded(b) && Decoded(aux) && Decoded(time)
    ensures CompareAndSign(s, key, a, b, aux, time).Signed? <==>
            && a.Obj? && b.Obj? && aux.Obj? && PublicKey(a).Obj? && PublicKey(b).Obj?
            && SameProjection(a, aux, time, b, aux, time)
    ensures CompareAndSign(s, key, a, b, aux, time).SignError? <==>
            !aux.Obj? && ((a.Obj? && PublicKey(a).Obj?) || (b.Obj? && PublicKey(b).Obj?))
  {
    hide SameProjection, SameUnder, Print, SignedObject, PublicKey, Decoded;
    if DataToSign(a, aux, time).Data? && DataToSign(b, aux, time).Data? {
      SignedTextIsProjection(a, aux, time, b, aux, time);
    }
  }

  /** A signature is valid exactly when the scheme accepts it for the text of the
      actor; auxiliary data that is no dictionary raises for an actor with a key. */
  lemma VerifyExactly(s: Scheme, actor: Json, aux: Json, key: Key, sig: Signature, time: Json)
    ensures Verify(s, actor, aux, key, sig, time) == Valid <==>
            && actor.Obj? && Get(actor.fields, T("publicKey"), Obj([])).Obj? && aux.Obj?
            && s.check(key, DataToSign(actor, aux, time).text, sig)
    ensures Verify(s, actor, aux, key, sig, time) == Error <==>
            actor.Obj? && Get(actor.fields, T("publicKey"), Obj([])).Obj? && !aux.Obj?
  {
    hide Get, T, Print, SignedObject;
  }

  /** A signature made while comparing two actors is valid for every stored
      version with the same signed projection. */
  lemma SignedThenValid(s: Scheme, key: Key, a: Json, b: Json, aux: Json, time: Json, stored: Json, storedAux: Json)
    requires Correct(s)
    requires Decoded(a) && Decoded(b) && Decoded(aux) && Decoded(time) && Decoded(stored) && Decoded(storedAux)
    requires CompareAndSign(s, key, a, b, aux, time).Signed?
    requires stored.Obj? && storedAux.Obj? && SameProjection(b, aux, time, stored, storedAux, time)
    ensures Verify(s, stored, storedAux, s.publicKey(key), CompareAndSign(s, key, a, b, aux, time).sig, time) == Valid
  {
    assert PublicKey(stored).Obj? by { assert Same(PublicKey(b), PublicKey(stored)); }
    hide Print, Same, SameProjection, SignedObject, Decoded;
    SignedTextIsProjection(b, aux, time, stored, storedAux, time);
  }
}

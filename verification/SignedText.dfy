/** The text that is signed, character by character. */
module SignedText {
  import opened Common
  import opened Json
  import opened CanonicalJson
  import opened SigningData

  /** Characters that are written as they are. */
  predicate PlainAscii(s: string) {
    forall i :: 0 <= i < |s| ==> 32 <= s[i] as int < 127 && s[i] != '\"' && s[i] != '\\'
  }

  lemma {:induction false} PlainUnits(s: string)
    requires PlainAscii(s)
    ensures EscapeAll(Utf16(T(s))) == s
  {
    if s != "" {
      var t := T(s);
      assert t[0] == s[0] as int && t[1..] == T(s[1..]);
      PlainUnits(s[1..]);
      var u: Unit := s[0] as int;
      assert Units(t[0]) == [u];
      assert Utf16(t) == [u] + Utf16(t[1..]);
      assert ([u] + Utf16(t[1..]))[1..] == Utf16(t[1..]);
      assert Escape(u) == [s[0]];
    }
  }

  /** A plain name in quotes. */
  lemma PlainText(s: string)
    requires PlainAscii(s)
    ensures PrintStr(T(s)) == "\"" + s + "\""
  {
    PlainUnits(s);
  }

  /** Names that part at place `k` are ordered by the characters there. */
  lemma {:induction false} LessAt(s: string, t: string, k: nat)
    requires k < |t| && k <= |s| && s[..k] == t[..k] && (k == |s| || s[k] < t[k])
    ensures Less(T(s), T(t))
    decreases k
  {
    if k > 0 {
      assert s[0] == s[..k][0] == t[..k][0] == t[0];
      assert s[1..][..k - 1] == s[..k][1..] && t[1..][..k - 1] == t[..k][1..];
      assert T(s)[1..] == T(s[1..]) && T(t)[1..] == T(t[1..]);
      LessAt(s[1..], t[1..], k - 1);
    }
  }

  function Under(v: Json, key: string): Json
    requires v.Obj?
  {
    Get(v.fields, T(key), Null)
  }

  /** The signed values in the order of their names. */
  function SignedValues(actor: Json, aux: Json, time: Json): (vs: seq<Json>)
    requires actor.Obj? && aux.Obj?
    ensures |vs| == 14
  {
    [Under(actor, "endpoints"),
     Under(actor, "followers"),
     Under(actor, "following"),
     Under(actor, "id"),
     Under(actor, "inbox"),
     Under(actor, "name"),
     Under(actor, "outbox"),
     Under(actor, "published"),
     Under(actor, "type"),
     Under(actor, "uri"),
     Under(actor, "url"),
     PublicKey(actor),
     time,
     Under(aux, "webfinger")]
  }

  function InNameOrder(actor: Json, aux: Json, time: Json): (ms: seq<Member>)
    requires actor.Obj? && aux.Obj?
    ensures |ms| == 14
  {
    seq(14, k requires 0 <= k < 14 => Of(SORTED[k], SignedValues(actor, aux, time)[k]))
  }

  function Of(name: string, v: Json): Member { Member(T(name), Print(v)) }

  /** Where the member at place `j` stands in the unsorted object, and back. */
  const PLACES: seq<nat> := [10, 4, 3, 0, 5, 7, 6, 9, 2, 1, 8, 12, 13, 11]
  const BACK: seq<nat> := [3, 9, 8, 2, 1, 4, 6, 5, 10, 7, 0, 13, 11, 12]

  lemma PlacesAll(k: nat)
    requires k < 14
    ensures |BACK| == |PLACES| == 14
    ensures 0 <= BACK[k] < 14 && PLACES[BACK[k]] == k && 0 <= PLACES[k] < 14
  {
  }

  lemma NextLess(j: nat)
    requires j < 13
    ensures Less(T(SORTED[j]), T(SORTED[j + 1]))
  {
    var s, t := SORTED[j], SORTED[j + 1];
    LessAt(s, t, DIFFER[j]);
  }

  const SORTED: seq<string> := ["actor_endpoints", "actor_followers", "actor_following", "actor_id", "actor_inbox",
      "actor_name", "actor_outbox", "actor_published", "actor_type", "actor_uri", "actor_url", "key",
      "signature_time", "webfinger"]

  /** Where neighbours among the sorted names part. */
  const DIFFER: seq<nat> := [6, 12, 6, 7, 6, 6, 6, 6, 6, 8, 0, 0, 0]

  lemma {:induction false} Chain(ms: seq<Member>, i: nat, j: nat)
    requires i < j < |ms| && forall k :: 0 <= k < |ms| - 1 ==> Less(ms[k].key, ms[k + 1].key)
    ensures Less(ms[i].key, ms[j].key)
  {
    assert Less(ms[j - 1].key, ms[j - 1 + 1].key);
    if i < j - 1 {
      Chain(ms, i, j - 1);
      LessTransitive(ms[i].key, ms[j - 1].key, ms[j].key);
    }
  }

  lemma NameOrderIncreasing(actor: Json, aux: Json, time: Json)
    requires actor.Obj? && aux.Obj?
    ensures Increasing(InNameOrder(actor, aux, time))
  {
    var ms := InNameOrder(actor, aux, time);
    assert forall k :: 0 <= k < 14 ==> ms[k].key == T(SORTED[k]);
    hide InNameOrder, T, Less;
    forall k | 0 <= k < |ms| - 1 ensures Less(ms[k].key, ms[k + 1].key) { NextLess(k); }
    forall i, j | 0 <= i < j < |ms| ensures Less(ms[i].key, ms[j].key) { Chain(ms, i, j); }
  }

  lemma FromPlaces(actor: Json, aux: Json, time: Json)
    requires actor.Obj? && aux.Obj?
    ensures var ms := PrintFields(SignedObject(actor, aux, time).fields);
            |ms| == 14 && forall j :: 0 <= j < 14 ==> InNameOrder(actor, aux, time)[j] == ms[PLACES[j]]
  {
    hide T, Get, Print;
    var fs := SignedObject(actor, aux, time).fields;
    forall j | 0 <= j < 14
      ensures InNameOrder(actor, aux, time)[j] == Member(fs[PLACES[j]].key, Print(fs[PLACES[j]].value)) {
    }
  }

  lemma SortedByName(actor: Json, aux: Json, time: Json)
    requires actor.Obj? && aux.Obj?
    ensures SortMembers(PrintFields(SignedObject(actor, aux, time).fields)) == InNameOrder(actor, aux, time)
  {
    var ms, os := PrintFields(SignedObject(actor, aux, time).fields), InNameOrder(actor, aux, time);
    FromPlaces(actor, aux, time);
    NamesDistinct();
    SignedNames(actor, aux, time);
    NameOrderIncreasing(actor, aux, time);
    hide SignedObject, InNameOrder, T, PrintFields, Less, PLACES, BACK;
    SortIncreasing(ms);
    SortElements(ms);
    SameElements(ms, os);
    IncreasingUnique(SortMembers(ms), os);
  }

  lemma SameElements(ms: seq<Member>, os: seq<Member>)
    requires |ms| == |os| == 14 && forall j :: 0 <= j < 14 ==> 0 <= PLACES[j] < 14 && os[j] == ms[PLACES[j]]
    ensures forall x :: x in os <==> x in ms
  {
    hide PLACES, BACK;
    forall x ensures x in os <==> x in ms {
      if x in ms {
        var k :| 0 <= k < 14 && ms[k] == x;
        PlacesAll(k);
        assert os[BACK[k]] == x;
      }
    }
  }

  lemma SignedNames(actor: Json, aux: Json, time: Json)
    requires actor.Obj? && aux.Obj?
    ensures var ms := PrintFields(SignedObject(actor, aux, time).fields);
            forall k :: 0 <= k < 14 ==> ms[k].key == T(NAMES[k])
  {
  }

  /** A member as it is written. */
  function Line(name: string, v: Json): string { "\"" + name + "\":" + Print(v) }

  /** The lines of the signed text, with what the actor has under the key behind each. */
  function Lines(actor: Json, aux: Json, time: Json): (r: seq<string>)
    requires actor.Obj? && aux.Obj?
    ensures |r| == 14
  {
    [Line("actor_endpoints", Under(actor, "endpoints")),
     Line("actor_followers", Under(actor, "followers")),
     Line("actor_following", Under(actor, "following")),
     Line("actor_id", Under(actor, "id")),
     Line("actor_inbox", Under(actor, "inbox")),
     Line("actor_name", Under(actor, "name")),
     Line("actor_outbox", Under(actor, "outbox")),
     Line("actor_published", Under(actor, "published")),
     Line("actor_type", Under(actor, "type")),
     Line("actor_uri", Under(actor, "uri")),
     Line("actor_url", Under(actor, "url")),
     Line("key", PublicKey(actor)),
     Line("signature_time", time),
     Line("webfinger", Under(aux, "webfinger"))]
  }

  lemma LinesAre(actor: Json, aux: Json, time: Json, k: nat)
    requires actor.Obj? && aux.Obj? && k < 14
    ensures MemberText(InNameOrder(actor, aux, time)[k]) == Lines(actor, aux, time)[k]
  {
    LineOf(actor, aux, time, k);
    assert InNameOrder(actor, aux, time)[k] == Of(SORTED[k], SignedValues(actor, aux, time)[k]);
    NamesPlain(k);
    hide Lines, SignedValues, SORTED, InNameOrder, PlainAscii, Of, Line, MemberText;
    OfLine(SORTED[k], SignedValues(actor, aux, time)[k]);
  }

  lemma OfLine(name: string, v: Json)
    requires PlainAscii(name)
    ensures MemberText(Of(name, v)) == Line(name, v)
  {
    PlainText(name);
    hide T, Print, PlainAscii;
  }

  lemma LineOf(actor: Json, aux: Json, time: Json, k: nat)
    requires actor.Obj? && aux.Obj? && k < 14
    ensures Lines(actor, aux, time)[k] == Line(SORTED[k], SignedValues(actor, aux, time)[k])
  {
    hide T, Get, Print, Line;
  }

  lemma NamesPlain(k: nat)
    requires k < 14
    ensures PlainAscii(SORTED[k])
  {
  }

  /** The signed text of an actor, character by character: fourteen members in the
      order of their names, without any space. */
  lemma TextIs(actor: Json, aux: Json, time: Json)
    requires DataToSign(actor, aux, time).Data?
    ensures DataToSign(actor, aux, time).text == "{" + JoinTexts(Lines(actor, aux, time)) + "}"
  {
    TextOfMembers(actor, aux, time);
    SortedByName(actor, aux, time);
    AllLines(actor, aux, time);
    hide DataToSign, InNameOrder, Lines, SortMembers, SignedObject, PrintFields, JoinTexts, MemberTexts;
  }

  lemma TextOfMembers(actor: Json, aux: Json, time: Json)
    requires DataToSign(actor, aux, time).Data?
    ensures actor.Obj? && aux.Obj?
    ensures DataToSign(actor, aux, time).text
        == "{" + JoinTexts(MemberTexts(SortMembers(PrintFields(SignedObject(actor, aux, time).fields)))) + "}"
  {
    hide PrintFields, SortMembers, MemberTexts, JoinTexts, PublicKey;
  }

  lemma AllLines(actor: Json, aux: Json, time: Json)
    requires actor.Obj? && aux.Obj?
    ensures MemberTexts(InNameOrder(actor, aux, time)) == Lines(actor, aux, time)
  {
    var ms, lines := InNameOrder(actor, aux, time), Lines(actor, aux, time);
    hide InNameOrder, Lines, MemberText;
    MemberTextsAt(ms);
    forall k | 0 <= k < 14 ensures MemberText(ms[k]) == lines[k] { LinesAre(actor, aux, time, k); }
  }
}

/** The canonical printer gives equal texts exactly for the same JSON value. */
module CanonicalJson {
  import opened Common
  import opened Json

  // ------------------------------------------------------------------ strings

  lemma HexUnique(a: int, b: int)
    requires 0 <= a < 16 && 0 <= b < 16 && Hex(a) == Hex(b)
    ensures a == b
  {
  }

  lemma UnitFromHex(u: Unit)
    ensures u == (u / 4096) * 4096 + (u / 256 % 16) * 256 + (u / 16 % 16) * 16 + u % 16
  {
    assert u / 16 == (u / 256) * 16 + u / 16 % 16;
    assert u / 256 == (u / 4096) * 16 + u / 256 % 16;
  }

  lemma EscapeInjective(u: Unit, v: Unit)
    requires Escape(u) == Escape(v)
    ensures u == v
  {
    if |Escape(u)| == 6 {
      assert Escape(u)[2] == Escape(v)[2] && Escape(u)[3] == Escape(v)[3] && Escape(u)[4] == Escape(v)[4]
          && Escape(u)[5] == Escape(v)[5];
      HexUnique(u / 4096, v / 4096);
      HexUnique(u / 256 % 16, v / 256 % 16);
      HexUnique(u / 16 % 16, v / 16 % 16);
      HexUnique(u % 16, v % 16);
      UnitFromHex(u);
      UnitFromHex(v);
    } else {
      assert Escape(u)[0] == Escape(v)[0];
      if |Escape(u)| == 2 { assert Escape(u)[1] == Escape(v)[1]; }
    }
  }

  /** The length of an escape can be read off its first two characters. */
  function EscapeLength(a: char, b: char): nat {
    if a != '\\' then 1 else if b == 'u' then 6 else 2
  }

  lemma EscapeLengthRight(u: Unit, x: string)
    requires x != ""
    ensures var s := Escape(u) + x; |Escape(u)| == EscapeLength(s[0], s[1]) && s[0] != '\"'
  {
    var s := Escape(u) + x;
    assert s[0] == Escape(u)[0];
    if |Escape(u)| > 1 { assert s[1] == Escape(u)[1]; }
  }

  lemma EscapeSplit(u: Unit, x: string, v: Unit, y: string)
    requires x != "" && y != "" && Escape(u) + x == Escape(v) + y
    ensures u == v && x == y
  {
    EscapeLengthRight(u, x);
    EscapeLengthRight(v, y);
    var k := |Escape(u)|;
    assert Escape(u) == (Escape(u) + x)[..k] == (Escape(v) + y)[..k] == Escape(v);
    assert x == (Escape(u) + x)[k..] == (Escape(v) + y)[k..] == y;
    EscapeInjective(u, v);
  }

  /** The rest of a printed string after its opening quote, and what follows it. */
  function Body(us: seq<Unit>, r: string): string {
    EscapeAll(us) + (['\"'] + r)
  }

  lemma BodyCons(us: seq<Unit>, r: string)
    requires us != []
    ensures Body(us, r) == Escape(us[0]) + Body(us[1..], r)
    ensures Body(us, r)[0] != '\"'
  {
    assert Body(us, r) == Escape(us[0]) + Body(us[1..], r);
    EscapeLengthRight(us[0], Body(us[1..], r));
  }

  lemma BodyNil(r: string)
    ensures Body([], r)[0] == '\"' && Body([], r)[1..] == r
  {
  }

  /** The closing quote ends the body of a string unambiguously. */
  lemma {:induction false} BodySplit(us: seq<Unit>, r: string, vs: seq<Unit>, q: string)
    requires Body(us, r) == Body(vs, q)
    ensures us == vs && r == q
    decreases |us|
  {
    if us != [] { BodyCons(us, r); }
    if vs != [] { BodyCons(vs, q); }
    BodyNil(r);
    BodyNil(q);
    if us != [] {
      EscapeSplit(us[0], Body(us[1..], r), vs[0], Body(vs[1..], q));
      BodySplit(us[1..], r, vs[1..], q);
      assert us == [us[0]] + us[1..] && vs == [vs[0]] + vs[1..];
    }
  }

  lemma FirstUnit(s: Text)
    requires s != []
    ensures Utf16(s) != [] && Utf16(s)[0] == Units(s[0])[0]
    ensures s[0] < 0x1_0000 ==> Utf16(s)[1..] == Utf16(s[1..])
    ensures s[0] >= 0x1_0000 ==>
        IsHigh(Utf16(s)[0]) && |Utf16(s)| >= 2 && IsLow(Utf16(s)[1])
        && Utf16(s)[2..] == Utf16(s[1..])
    ensures Utf16(s)[..|Units(s[0])|] == Units(s[0])
  {
  }

  lemma UnitsInjective(c: CodePoint, d: CodePoint)
    requires Units(c) == Units(d)
    ensures c == d
  {
    if c >= 0x1_0000 {
      assert Units(c)[0] == Units(d)[0] && Units(c)[1] == Units(d)[1];
    } else {
      assert Units(c)[0] == Units(d)[0];
    }
  }

  /** Whether a text begins with a code point outside the basic plane can be
      seen from its first two units, because decoded strings hold no split pair. */
  lemma WideStart(s: Text)
    requires s != [] && Joined(s)
    ensures s[0] >= 0x1_0000 <==> |Utf16(s)| >= 2 && IsHigh(Utf16(s)[0]) && IsLow(Utf16(s)[1])
  {
    FirstUnit(s);
    if s[0] < 0x1_0000 && |Utf16(s)| >= 2 {
      assert Utf16(s)[1] == Utf16(s[1..])[0];
      assert s[1..] != [];
      FirstUnit(s[1..]);
    }
  }

  lemma JoinedTail(s: Text)
    requires Joined(s) && s != []
    ensures Joined(s[1..])
  {
    forall i | 0 <= i < |s[1..]| - 1 ensures !(IsHigh(s[1..][i]) && IsLow(s[1..][i + 1])) {
      assert !(IsHigh(s[i + 1]) && IsLow(s[i + 1 + 1]));
    }
  }

  lemma {:induction false} Utf16Injective(s: Text, t: Text)
    requires Joined(s) && Joined(t) && Utf16(s) == Utf16(t)
    ensures s == t
  {
    if s == [] || t == [] {
      if s != [] { FirstUnit(s); }
      if t != [] { FirstUnit(t); }
    } else {
      FirstUnit(s);
      FirstUnit(t);
      WideStart(s);
      WideStart(t);
      assert Units(s[0]) == Utf16(s)[..|Units(s[0])|] == Utf16(t)[..|Units(t[0])|] == Units(t[0]);
      UnitsInjective(s[0], t[0]);
      JoinedTail(s);
      JoinedTail(t);
      Utf16Injective(s[1..], t[1..]);
      assert s == [s[0]] + s[1..] && t == [t[0]] + t[1..];
    }
  }

  lemma PrintStrBody(s: Text, r: string)
    ensures (PrintStr(s) + r)[1..] == Body(Utf16(s), r)
  {
  }

  /** A printed string followed by anything determines both. */
  lemma StrSplit(s: Text, r: string, t: Text, q: string)
    requires Joined(s) && Joined(t) && PrintStr(s) + r == PrintStr(t) + q
    ensures s == t && r == q
  {
    PrintStrBody(s, r);
    PrintStrBody(t, q);
    BodySplit(Utf16(s), r, Utf16(t), q);
    Utf16Injective(s, t);
  }

  /** Two different Python strings with the same printed text: the pair of lone
      surrogates that `json.loads` would have joined, and the joined character. */
  lemma SplitPairClash()
    ensures var s: Text := [0xD83D, 0xDE00]; var t: Text := [0x1F600];
            s != t && PrintStr(s) == PrintStr(t) && !Joined(s) && Joined(t)
  {
    var s: Text := [0xD83D, 0xDE00];
    var t: Text := [0x1F600];
    assert s[1..] == [0xDE00] && s[1..][1..] == [] && t[1..] == [];
    assert Utf16(s) == [0xD83D, 0xDE00];
    assert Utf16(t) == [0xD83D, 0xDE00];
    assert IsHigh(s[0]) && IsLow(s[0 + 1]);
  }

  /** How characters are written: short escapes for seven of them, printable ASCII as
      it is, and everything else in four lower-case hexadecimal digits. */
  lemma EscapesAre(u: Unit)
    ensures Escape(0x22) == "\\\"" && Escape(0x5C) == "\\\\" && Escape(0x0A) == "\\n" && Escape(0x0D) == "\\r"
        && Escape(0x09) == "\\t" && Escape(0x0C) == "\\f" && Escape(0x08) == "\\b"
    ensures 32 <= u < 127 && u != 0x22 && u != 0x5C ==> Escape(u) == [u as char]
    ensures u >= 127 || u in {0, 1, 2, 3, 4, 5, 6, 7, 11} || 14 <= u < 32 ==>
              |Escape(u)| == 6 && Escape(u)[..2] == "\\u" && forall k ::
                  2 <= k < 6
                  ==> Escape(u)[k] in "0123456789abcdef"
  {
  }

  // ------------------------------------------------------------------ numbers

  lemma {:induction false} NatInjective(a: nat, b: nat)
    requires PrintNat(a) == PrintNat(b)
    ensures a == b
  {
    if a >= 10 { NatChars(a / 10); }
    if b >= 10 { NatChars(b / 10); }
    var s, t := PrintNat(a), PrintNat(b);
    assert s[|s| - 1] == t[|t| - 1];
    assert a % 10 == b % 10;
    if a >= 10 && b >= 10 {
      assert PrintNat(a / 10) == s[..|s| - 1] == t[..|t| - 1] == PrintNat(b / 10);
      NatInjective(a / 10, b / 10);
    }
  }

  lemma IntInjective(a: int, b: int)
    requires PrintInt(a) == PrintInt(b)
    ensures a == b
  {
    NatChars(if a < 0 then -a else a);
    NatChars(if b < 0 then -b else b);
    assert PrintInt(a)[0] == PrintInt(b)[0];
    if a < 0 && b < 0 {
      assert PrintNat(-a) == PrintInt(a)[1..] == PrintInt(b)[1..] == PrintNat(-b);
      NatInjective(-a, -b);
    } else if a >= 0 && b >= 0 {
      NatInjective(a, b);
    }
  }

  // ------------------------------------------------------------------ sorting

  lemma {:induction false} LessTransitive(a: Text, b: Text, c: Text)
    requires Less(a, b) && Less(b, c)
    ensures Less(a, c)
  {
    if a != [] && a[0] == b[0] && b[0] == c[0] { LessTransitive(a[1..], b[1..], c[1..]); }
  }

  lemma {:induction false} LessTotal(a: Text, b: Text)
    ensures Less(a, b) || a == b || Less(b, a)
    ensures !(Less(a, b) && Less(b, a)) && (a == b ==> !Less(a, b))
  {
    if a != [] && b != [] && a[0] == b[0] {
      LessTotal(a[1..], b[1..]);
      assert a == [a[0]] + a[1..] && b == [b[0]] + b[1..];
    }
  }

  /** The texts part at place `k`: there `a` ends, or has the smaller code point. */
  ghost predicate PartAt(a: Text, b: Text, k: nat) {
    k <= |a| && k < |b| && a[..k] == b[..k] && (k == |a| || a[k] < b[k])
  }

  /** The order of member names: by the first code points that differ, a proper prefix
      first. */
  lemma {:induction false} LessExactly(a: Text, b: Text)
    ensures Less(a, b) <==> exists k: nat :: PartAt(a, b, k)
  {
    if a != [] && b != [] && a[0] == b[0] {
      LessExactly(a[1..], b[1..]);
      if k: nat :| PartAt(a[1..], b[1..], k) {
        assert a[..k + 1] == [a[0]] + a[1..][..k] && b[..k + 1] == [b[0]] + b[1..][..k];
        assert PartAt(a, b, k + 1);
      }
      if k: nat :| PartAt(a, b, k) {
        assert a[1..][..k - 1] == a[..k][1..] && b[1..][..k - 1] == b[..k][1..];
        assert PartAt(a[1..], b[1..], k - 1);
      }
    } else if b != [] {
      assert Less(a, b) ==> PartAt(a, b, 0);
      if k: nat :| PartAt(a, b, k) {
        if k > 0 { assert a[..k][0] == b[..k][0]; }
      }
    }
  }

  ghost predicate Increasing(ms: seq<Member>) {
    forall i, j :: 0 <= i < j < |ms| ==> Less(ms[i].key, ms[j].key)
  }

  ghost predicate DistinctMembers(ms: seq<Member>) {
    forall i, j :: 0 <= i < j < |ms| ==> ms[i].key != ms[j].key
  }

  lemma {:induction false} InsertIncreasing(ms: seq<Member>, m: Member)
    requires Increasing(ms) && forall i :: 0 <= i < |ms| ==> ms[i].key != m.key
    ensures Increasing(InsertMember(ms, m))
  {
    if ms != [] {
      LessTotal(m.key, ms[0].key);
      if Less(m.key, ms[0].key) {
        forall j | 0 <= j < |ms| ensures Less(m.key, ms[j].key) {
          if j > 0 { LessTransitive(m.key, ms[0].key, ms[j].key); }
        }
      } else {
        InsertIncreasing(ms[1..], m);
        InsertElements(ms[1..], m);
        forall x | x in InsertMember(ms[1..], m) ensures Less(ms[0].key, x.key) {
          if x != m {
            var j :| 0 <= j < |ms[1..]| && ms[1..][j] == x;
            assert Less(ms[0].key, ms[j + 1].key);
          }
        }
      }
    }
  }

  lemma {:induction false} SortIncreasing(ms: seq<Member>)
    requires DistinctMembers(ms)
    ensures Increasing(SortMembers(ms))
  {
    if ms != [] {
      SortIncreasing(ms[1..]);
      SortElements(ms[1..]);
      var sorted := SortMembers(ms[1..]);
      forall i | 0 <= i < |sorted| ensures sorted[i].key != ms[0].key {
        assert sorted[i] in ms[1..];
        var j :| 0 <= j < |ms[1..]| && ms[1..][j] == sorted[i];
        assert ms[0].key != ms[j + 1].key;
      }
      InsertIncreasing(sorted, ms[0]);
    }
  }

  /** An increasing list is determined by its elements. */
  lemma {:induction false} IncreasingUnique(a: seq<Member>, b: seq<Member>)
    requires Increasing(a) && Increasing(b) && forall x :: x in a <==> x in b
    ensures a == b
  {
    assert a != [] ==> a[0] in b;
    assert b != [] ==> b[0] in a;
    if a != [] {
      var i :| 0 <= i < |b| && b[i] == a[0];
      var j :| 0 <= j < |a| && a[j] == b[0];
      LessTotal(a[0].key, b[0].key);
      assert i == 0;
      IncreasingTail(a, b);
      IncreasingTail(b, a);
      IncreasingUnique(a[1..], b[1..]);
      assert a == [a[0]] + a[1..] && b == [b[0]] + b[1..];
    }
  }

  lemma IncreasingTail(a: seq<Member>, b: seq<Member>)
    requires Increasing(a) && a != [] && b != [] && a[0] == b[0]
    requires forall x :: x in a ==> x in b
    ensures forall x :: x in a[1..] ==> x in b[1..]
    ensures Increasing(a[1..])
  {
    forall x | x in a[1..] ensures x in b[1..] {
      var k :| 0 <= k < |a[1..]| && a[1..][k] == x;
      assert a[k + 1] == x && Less(a[0].key, x.key);
      LessTotal(a[0].key, x.key);
      assert x in a;
      var m :| 0 <= m < |b| && b[m] == x;
      assert m != 0;
      assert b[1..][m - 1] == x;
    }
  }

  lemma FieldMembers(fields: seq<Field>)
    requires DistinctKeys(fields)
    ensures DistinctMembers(PrintFields(fields))
  {
  }

  // ---------------------------------------------------- equal texts, same value

  /** What the first character of a printed value says about it. */
  predicate Starts(v: Json, c: char) {
    match v
    case Null => c == 'n'
    case Bool(b) => c == if b then 't' else 'f'
    case Int(_) => c in "-0123456789"
    case Float(_) => c in "-0123456789NI"
    case Str(_) => c == '\"'
    case Arr(_) => c == '['
    case Obj(_) => c == '{'
  }

  lemma FirstChar(v: Json)
    requires Decoded(v)
    ensures Print(v) != "" && Starts(v, Print(v)[0])
  {
    if v.Int? { IntChars(v.n); }
  }

  /** A text that is no number's has a letter where a number has a digit. */
  lemma NotFiniteLetter(r: string) returns (at: nat)
    requires r in NOT_FINITE
    ensures at < |r| && r[at] in "NI"
  {
    at := if r == "-Infinity" then 1 else 0;
  }

  lemma IntNotFloat(n: int, r: string)
    requires FloatText(r)
    ensures PrintInt(n) != r
  {
    IntChars(n);
    if r in NOT_FINITE { var at := NotFiniteLetter(r); }
  }

  lemma MemberSplit(m: Member, k: Member)
    requires Joined(m.key) && Joined(k.key) && MemberText(m) == MemberText(k)
    ensures m == k
  {
    assert MemberText(m) == PrintStr(m.key) + (":" + m.text);
    assert MemberText(k) == PrintStr(k.key) + (":" + k.text);
    StrSplit(m.key, ":" + m.text, k.key, ":" + k.text);
    assert m.text == (":" + m.text)[1..] == (":" + k.text)[1..] == k.text;
  }

  lemma ItemTextsEqual(xs: seq<Json>, ys: seq<Json>)
    requires Decoded(Arr(xs)) && Decoded(Arr(ys)) && Print(Arr(xs)) == Print(Arr(ys))
    ensures PrintItems(xs) == PrintItems(ys)
  {
    var a, b := PrintItems(xs), PrintItems(ys);
    assert JoinTexts(a) == Print(Arr(xs))[1..|Print(Arr(xs))| - 1];
    assert JoinTexts(b) == Print(Arr(ys))[1..|Print(Arr(ys))| - 1];
    forall i | 0 <= i < |xs| ensures Closed(a[i]) { PrintClosed(xs[i]); }
    forall i | 0 <= i < |ys| ensures Closed(b[i]) { PrintClosed(ys[i]); }
    JoinUnique(a, b);
  }

  lemma SortedKeysJoined(fields: seq<Field>)
    requires forall i :: 0 <= i < |fields| ==> Joined(fields[i].key)
    ensures var ms := SortMembers(PrintFields(fields)); forall i :: 0 <= i < |ms| ==> Joined(ms[i].key)
  {
    var ms := SortMembers(PrintFields(fields));
    SortElements(PrintFields(fields));
    forall i | 0 <= i < |ms| ensures Joined(ms[i].key) { assert ms[i] in PrintFields(fields); }
  }

  lemma SortedMembersEqual(fs: seq<Field>, gs: seq<Field>)
    requires Decoded(Obj(fs)) && Decoded(Obj(gs)) && Print(Obj(fs)) == Print(Obj(gs))
    ensures SortMembers(PrintFields(fs)) == SortMembers(PrintFields(gs))
  {
    var a, b := SortMembers(PrintFields(fs)), SortMembers(PrintFields(gs));
    var ta, tb := MemberTexts(a), MemberTexts(b);
    assert JoinTexts(ta) == Print(Obj(fs))[1..|Print(Obj(fs))| - 1];
    assert JoinTexts(tb) == Print(Obj(gs))[1..|Print(Obj(gs))| - 1];
    FieldTextsClosed(fs, ta);
    FieldTextsClosed(gs, tb);
    JoinUnique(ta, tb);
    MemberTextsAt(a);
    MemberTextsAt(b);
    SortedKeysJoined(fs);
    SortedKeysJoined(gs);
    forall i | 0 <= i < |a| ensures a[i] == b[i] { assert ta[i] == tb[i]; MemberSplit(a[i], b[i]); }
  }

  lemma SameMembers(fs: seq<Field>, gs: seq<Field>)
    requires SortMembers(PrintFields(fs)) == SortMembers(PrintFields(gs))
    ensures forall x :: x in PrintFields(fs) <==> x in PrintFields(gs)
  {
    SortElements(PrintFields(fs));
    SortElements(PrintFields(gs));
  }

  /** Equal printed texts come from the same value. */
  lemma {:induction false} PrintInjective(v: Json, w: Json)
    requires Decoded(v) && Decoded(w) && Print(v) == Print(w)
    ensures Same(v, w)
    decreases v, 1
  {
    FirstChar(v);
    FirstChar(w);
    match (v, w) {
      case (Int(m), Int(n)) => IntInjective(m, n);
      case (Int(m), Float(r)) => IntNotFloat(m, r);
      case (Float(r), Int(m)) => IntNotFloat(m, r);
      case (Str(s), Str(t)) =>
        assert Print(v) == PrintStr(s) + "" && Print(w) == PrintStr(t) + "";
        StrSplit(s, "", t, "");
      case (Arr(xs), Arr(ys)) =>
        ItemTextsEqual(xs, ys);
        forall i | 0 <= i < |xs| ensures Same(xs[i], ys[i]) { PrintInjective(xs[i], ys[i]); }
      case (Obj(fs), Obj(gs)) =>
        SortedMembersEqual(fs, gs);
        SameMembers(fs, gs);
        FieldsInjective(fs, gs);
      case _ =>
    }
  }

  lemma {:induction false} FieldsInjective(fs: seq<Field>, gs: seq<Field>)
    requires Decoded(Obj(fs)) && Decoded(Obj(gs))
    requires forall x :: x in PrintFields(fs) <==> x in PrintFields(gs)
    ensures Same(Obj(fs), Obj(gs))
    decreases fs, 0
  {
    var a, b := PrintFields(fs), PrintFields(gs);
    forall i | 0 <= i < |fs| ensures HasField(gs, fs[i]) {
      assert a[i] in b;
      var j :| 0 <= j < |b| && b[j] == a[i];
      PrintInjective(fs[i].value, gs[j].value);
      assert SameField(fs[i], gs[j]);
    }
    forall j | 0 <= j < |gs| ensures HasKey(fs, gs[j].key) {
      assert b[j] in a;
      var i :| 0 <= i < |a| && a[i] == b[j];
      assert fs[i].key == gs[j].key;
    }
  }

  /** The same value prints the same whatever the order of its members. */
  lemma {:induction false} PrintOrderFree(v: Json, w: Json)
    requires Decoded(v) && Decoded(w) && Same(v, w)
    ensures Print(v) == Print(w)
    decreases v, 1
  {
    match (v, w) {
      case (Arr(xs), Arr(ys)) =>
        forall i | 0 <= i < |xs| ensures PrintItems(xs)[i] == PrintItems(ys)[i] { PrintOrderFree(xs[i], ys[i]); }
        assert PrintItems(xs) == PrintItems(ys);
      case (Obj(fs), Obj(gs)) =>
        FieldsOrderFree(fs, gs);
        FieldMembers(fs);
        FieldMembers(gs);
        SortElements(PrintFields(fs));
        SortElements(PrintFields(gs));
        SortIncreasing(PrintFields(fs));
        SortIncreasing(PrintFields(gs));
        IncreasingUnique(SortMembers(PrintFields(fs)), SortMembers(PrintFields(gs)));
      case _ =>
    }
  }

  lemma {:induction false} FieldsOrderFree(fs: seq<Field>, gs: seq<Field>)
    requires Decoded(Obj(fs)) && Decoded(Obj(gs)) && Same(Obj(fs), Obj(gs))
    ensures forall x :: x in PrintFields(fs) <==> x in PrintFields(gs)
    decreases fs, 0
  {
    var a, b := PrintFields(fs), PrintFields(gs);
    forall i | 0 <= i < |fs| ensures a[i] in b {
      assert HasField(gs, fs[i]);
      var j :| 0 <= j < |gs| && SameField(fs[i], gs[j]);
      PrintOrderFree(fs[i].value, gs[j].value);
      assert a[i] == b[j];
    }
    forall j | 0 <= j < |gs| ensures b[j] in a {
      var i := Partner(fs, gs, j);
      PrintOrderFree(fs[i].value, gs[j].value);
      assert b[j] == a[i];
    }
  }

  lemma Partner(fs: seq<Field>, gs: seq<Field>, j: nat) returns (i: nat)
    requires DistinctKeys(gs) && Same(Obj(fs), Obj(gs)) && j < |gs|
    ensures i < |fs| && SameField(fs[i], gs[j])
  {
    assert HasKey(fs, gs[j].key);
    i :| 0 <= i < |fs| && fs[i].key == gs[j].key;
    assert HasField(gs, fs[i]);
    var k :| 0 <= k < |gs| && SameField(fs[i], gs[k]);
    KeyPlace(gs, k, j);
  }

  lemma KeyPlace(gs: seq<Field>, k: int, j: int)
    requires DistinctKeys(gs) && 0 <= k < |gs| && 0 <= j < |gs| && gs[k].key == gs[j].key
    ensures k == j
  {
  }

  /** Equal texts exactly for the same value. */
  lemma PrintCanonical(v: Json, w: Json)
    requires Decoded(v) && Decoded(w)
    ensures Print(v) == Print(w) <==> Same(v, w)
  {
    if Print(v) == Print(w) { PrintInjective(v, w); }
    if Same(v, w) { PrintOrderFree(v, w); }
  }

  /** No printed value is a proper prefix of another where a reader would stop. */
  lemma PrintPrefixFree(v: Json, r: string, w: Json, q: string)
    requires Decoded(v) && Decoded(w) && Print(v) + r == Print(w) + q
    requires (r == "" || Delimiter(r[0])) && (q == "" || Delimiter(q[0]))
    ensures Same(v, w) && r == q
  {
    PrintClosed(v);
    PrintClosed(w);
    SplitUnique(Print(v), r, Print(w), q);
    PrintInjective(v, w);
  }
}

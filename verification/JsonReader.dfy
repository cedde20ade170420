/** A reader of JSON texts after the grammar of RFC 8259, as `json.loads` reads
    them, and the proof that it reads back what the printer wrote. */
module JsonReader {
  import opened Common
  import opened Json
  import opened CanonicalJson

  datatype Read<T> = Fail | Read(value: T, rest: string)

  // ------------------------------------------------------------------- strings

  function HexValue(c: char): int {
    if '0' <= c <= '9' then c as int - '0' as int
    else if 'a' <= c <= 'f' then c as int - 'a' as int + 10
    else if 'A' <= c <= 'F' then c as int - 'A' as int + 10
    else -1
  }

  /** One character of a string, or one escape (section 7). */
  function ReadUnit(s: string): (r: Read<Unit>)
    ensures r.Read? ==> |r.rest| < |s|
  {
    if s == "" || s[0] == '\"' || !(32 <= s[0] as int < 0x1_0000) then Fail
    else if s[0] != '\\' then Read(s[0] as int, s[1..])
    else if |s| >= 2 && s[1] in "\"\\/" then Read(s[1] as int, s[2..])
    else if |s| >= 2 && s[1] == 'b' then Read(0x08, s[2..])
    else if |s| >= 2 && s[1] == 'f' then Read(0x0C, s[2..])
    else if |s| >= 2 && s[1] == 'n' then Read(0x0A, s[2..])
    else if |s| >= 2 && s[1] == 'r' then Read(0x0D, s[2..])
    else if |s| >= 2 && s[1] == 't' then Read(0x09, s[2..])
    else if |s| >= 6 && s[1] == 'u' then
      var a, b, c, d := HexValue(s[2]), HexValue(s[3]), HexValue(s[4]), HexValue(s[5]);
      if a < 0 || b < 0 || c < 0 || d < 0 then Fail else Read(0x1000 * a + 0x100 * b + 0x10 * c + d, s[6..])
    else Fail
  }

  /** The units up to the closing quote. */
  function ReadUnits(s: string): (r: Read<seq<Unit>>)
    ensures r.Read? ==> |r.rest| < |s|
    decreases |s|
  {
    if s != "" && s[0] == '\"' then Read([], s[1..])
    else
      var u := ReadUnit(s);
      if u.Fail? then Fail
      else
        var us := ReadUnits(u.rest);
        if us.Fail? then Fail else Read([u.value] + us.value, us.rest)
  }

  /** A high surrogate followed by a low one is one code point. */
  function Join(us: seq<Unit>): Text {
    if us == [] then []
    else if IsHigh(us[0]) && |us| >= 2 && IsLow(us[1]) then
      [0x1_0000 + (us[0] - 0xD800) * 0x400 + (us[1] - 0xDC00)] + Join(us[2..])
    else [us[0]] + Join(us[1..])
  }

  // ------------------------------------------------------------------- numbers

  /** How many number characters a text begins with. */
  function NumberLength(s: string): (n: nat)
    ensures n <= |s|
  {
    if s == "" || !NumberChar(s[0]) then 0 else 1 + NumberLength(s[1..])
  }

  predicate Digits(s: string) { s != "" && forall i :: 0 <= i < |s| ==> '0' <= s[i] <= '9' }

  function Decimal(s: string): nat
    requires forall i :: 0 <= i < |s| ==> '0' <= s[i] <= '9'
  {
    if s == "" then 0 else 10 * Decimal(s[..|s| - 1]) + (s[|s| - 1] as int - '0' as int)
  }

  /** Digits, with or without a minus, are an integer; all else is a float's text. */
  function Number(s: string): Json {
    if Digits(s) then Int(Decimal(s))
    else if s != "" && s[0] == '-' && Digits(s[1..]) then Int(0 - Decimal(s[1..]))
    else Float(s)
  }

  // -------------------------------------------------------------------- values

  predicate StartsWith(s: string, w: string) { |w| <= |s| && s[..|w|] == w }

  /** A value without any white space (section 3). */
  function ReadValue(s: string): (r: Read<Json>)
    ensures r.Read? ==> |r.rest| < |s|
    decreases |s|, 0
  {
    if s == "" then Fail
    else if StartsWith(s, "null") then Read(Null, s[4..])
    else if StartsWith(s, "true") then Read(Bool(true), s[4..])
    else if StartsWith(s, "false") then Read(Bool(false), s[5..])
    else if s[0] == '\"' then
      var t := ReadUnits(s[1..]);
      if t.Fail? then Fail else Read(Str(Join(t.value)), t.rest)
    else if s[0] == '[' then
      if StartsWith(s, "[]") then Read(Arr([]), s[2..])
      else
        var items := ReadItems(s[1..]);
        if items.Fail? then Fail else Read(Arr(items.value), items.rest)
    else if s[0] == '{' then
      if StartsWith(s, "{}") then Read(Obj([]), s[2..])
      else
        var fields := ReadFields(s[1..]);
        if fields.Fail? then Fail else Read(Obj(fields.value), fields.rest)
    else if NumberLength(s) == 0 then Fail
    else Read(Number(s[..NumberLength(s)]), s[NumberLength(s)..])
  }

  /** Items up to the closing bracket (section 5). */
  function ReadItems(s: string): (r: Read<seq<Json>>)
    ensures r.Read? ==> |r.rest| < |s|
    decreases |s|, 1
  {
    var x := ReadValue(s);
    if x.Fail? || x.rest == "" then Fail
    else if x.rest[0] == ']' then Read([x.value], x.rest[1..])
    else if x.rest[0] != ',' then Fail
    else
      var more := ReadItems(x.rest[1..]);
      if more.Fail? then Fail else Read([x.value] + more.value, more.rest)
  }

  /** Members up to the closing brace (section 4). */
  function ReadFields(s: string): (r: Read<seq<Field>>)
    ensures r.Read? ==> |r.rest| < |s|
    decreases |s|, 1
  {
    if s == "" || s[0] != '\"' then Fail
    else
      var key := ReadUnits(s[1..]);
      if key.Fail? || key.rest == "" || key.rest[0] != ':' then Fail
      else
        var x := ReadValue(key.rest[1..]);
        if x.Fail? || x.rest == "" then Fail
        else if x.rest[0] == '}' then Read([Field(Join(key.value), x.value)], x.rest[1..])
        else if x.rest[0] != ',' then Fail
        else
          var more := ReadFields(x.rest[1..]);
          if more.Fail? then Fail else Read([Field(Join(key.value), x.value)] + more.value, more.rest)
  }

  // ------------------------------------------------------- strings are read back

  lemma HexBack(d: int)
    requires 0 <= d < 16
    ensures HexValue(Hex(d)) == d
  {
  }

  lemma UnitBack(u: Unit, r: string)
    ensures ReadUnit(Escape(u) + r) == Read(u, r)
  {
    var s := Escape(u) + r;
    assert s[|Escape(u)|..] == r;
    if |Escape(u)| == 6 {
      assert Escape(u) == ['\\', 'u', Hex(u / 4096), Hex(u / 256 % 16), Hex(u / 16 % 16), Hex(u % 16)];
      hide Escape;
      LongBack(u, s);
    } else {
      assert s[0] == Escape(u)[0];
      if |Escape(u)| == 2 { assert s[1] == Escape(u)[1]; }
      hide HexValue, Hex;
    }
  }

  lemma LongBack(u: Unit, s: string)
    requires |s| >= 6 && s[0] == '\\' && s[1] == 'u'
    requires s[2] == Hex(u / 4096) && s[3] == Hex(u / 256 % 16) && s[4] == Hex(u / 16 % 16) && s[5] == Hex(u % 16)
    ensures ReadUnit(s) == Read(u, s[6..])
  {
    HexBack(u / 4096);
    HexBack(u / 256 % 16);
    HexBack(u / 16 % 16);
    HexBack(u % 16);
    UnitFromHex(u);
    hide Hex, HexValue;
  }

  lemma {:induction false} UnitsBack(us: seq<Unit>, r: string)
    ensures ReadUnits(EscapeAll(us) + ['\"'] + r) == Read(us, r)
  {
    hide ReadUnit, Escape;
    var s := EscapeAll(us) + ['\"'] + r;
    if us == [] {
      assert s[0] == '\"' && s[1..] == r;
    } else {
      var rest := EscapeAll(us[1..]) + ['\"'] + r;
      assert s == Escape(us[0]) + rest;
      EscapeOpen(us[0]);
      UnitBack(us[0], rest);
      UnitsBack(us[1..], r);
      assert [us[0]] + us[1..] == us;
    }
  }

  lemma EscapeOpen(u: Unit)
    ensures Escape(u) != "" && Escape(u)[0] != '\"'
  {
  }

  lemma {:induction false} JoinBack(s: Text)
    requires Joined(s)
    ensures Join(Utf16(s)) == s
  {
    if s != [] {
      FirstUnit(s);
      WideStart(s);
      JoinedTail(s);
      JoinBack(s[1..]);
      if s[0] < 0x1_0000 {
        assert Utf16(s)[0] == s[0];
      } else {
        assert Utf16(s)[0] == Units(s[0])[0] && Utf16(s)[1] == Utf16(s)[..2][1] == Units(s[0])[1];
      }
      assert s == [s[0]] + s[1..];
    }
  }

  /** A printed string and what follows it are read back. */
  lemma StrBack(s: Text, r: string)
    requires Joined(s)
    ensures var t := PrintStr(s) + r;
            t[0] == '\"' && ReadUnits(t[1..]).Read? && Join(ReadUnits(t[1..]).value) == s && ReadUnits(t[1..]).rest == r
  {
    var t := PrintStr(s) + r;
    assert t[1..] == EscapeAll(Utf16(s)) + ['\"'] + r;
    UnitsBack(Utf16(s), r);
    JoinBack(s);
  }

  // ------------------------------------------------------- numbers are read back

  lemma {:induction false} DecimalBack(n: nat)
    ensures Digits(PrintNat(n)) && Decimal(PrintNat(n)) == n
  {
    NatChars(n);
    var s := PrintNat(n);
    if n >= 10 {
      DecimalBack(n / 10);
      assert s[..|s| - 1] == PrintNat(n / 10);
    } else {
      assert s[..0] == "";
    }
  }

  lemma IntBack(n: int)
    ensures Number(PrintInt(n)) == Int(n)
  {
    DecimalBack(if n < 0 then -n else n);
    if n < 0 { assert PrintInt(n)[1..] == PrintNat(-n); }
  }

  lemma FloatBack(r: string)
    requires FloatText(r)
    ensures Number(r) == Float(r)
  {
  }

  lemma {:induction false} LexemeEnds(s: string, r: string)
    requires forall i :: 0 <= i < |s| ==> NumberChar(s[i])
    requires r == "" || !NumberChar(r[0])
    ensures NumberLength(s + r) == |s|
  {
    if s == "" { assert s + r == r; }
    else {
      assert (s + r)[1..] == s[1..] + r;
      LexemeEnds(s[1..], r);
    }
  }

  /** A number's text, up to where it ends. */
  lemma NumberBack(s: string, r: string)
    requires s != "" && (forall i :: 0 <= i < |s| ==> NumberChar(s[i])) && s[0] in "-0123456789NI"
    requires r == "" || Delimiter(r[0])
    ensures ReadValue(s + r) == Read(Number(s), r)
  {
    LexemeEnds(s, r);
    var t := s + r;
    assert t[0] == s[0] && t[..|s|] == s && t[|s|..] == r;
    NumberStart(t);
    NotWord(t);
    hide Number, NumberLength, NumberChar, Delimiter, StartsWith, ReadUnits, ReadItems, ReadFields;
  }

  lemma NumberStart(t: string)
    requires t != "" && t[0] in "-0123456789NI"
    ensures t[0] !in "ntf" && t[0] != '\"' && t[0] != '[' && t[0] != '{'
  {
  }

  // -------------------------------------------------------- values are read back

  lemma NotWord(t: string)
    requires t != "" && t[0] !in "ntf"
    ensures !StartsWith(t, "null") && !StartsWith(t, "true") && !StartsWith(t, "false")
  {
  }

  /** A bracketed text is read as what its inside is. */
  lemma BracketBack(t: string, inner: string)
    requires t == ['['] + inner && inner != "" && inner[0] != ']'
    ensures ReadValue(t) == var items := ReadItems(inner); if items.Fail? then Fail else Read(Arr(items.value),
        items.rest)
  {
    assert t[1..] == inner;
    NotWord(t);
    assert !StartsWith(t, "[]") by { assert t[..2][1] == inner[0]; }
    hide StartsWith, ReadItems, ReadFields, ReadUnits, NumberLength, Number;
  }

  lemma BraceBack(t: string, inner: string)
    requires t == ['{'] + inner && inner != "" && inner[0] != '}'
    ensures ReadValue(t)
        == var fields := ReadFields(inner); if fields.Fail? then Fail else Read(Obj(fields.value), fields.rest)
  {
    assert t[1..] == inner;
    NotWord(t);
    assert !StartsWith(t, "{}") by { assert t[..2][1] == inner[0]; }
    hide StartsWith, ReadItems, ReadFields, ReadUnits, NumberLength, Number;
  }

  lemma WordBack(w: string, r: string)
    requires w in ["null", "true", "false", "[]", "{}"]
    ensures ReadValue(w + r) == Read(match w[0] case 'n' => Null case 't' => Bool(true) case 'f' => Bool(false)
                                     case '[' => Arr([]) case _ => Obj([]), r)
  {
    var t := w + r;
    assert t[..|w|] == w && t[|w|..] == r && t[0] == w[0];
    hide ReadItems, ReadFields, ReadUnits, NumberLength, Number;
  }

  /** What the printer wrote is read back as the same value, up to where it ends. */
  lemma {:induction false} ReadBack(v: Json, r: string) returns (w: Json)
    requires Decoded(v) && (r == "" || Delimiter(r[0]))
    ensures ReadValue(Print(v) + r) == Read(w, r) && Same(w, v)
    decreases v, 1
  {
    hide ReadValue, ReadItems, ReadFields, ReadUnits, Number, NumberLength, PrintInt, PrintStr, JoinTexts;
    match v
    case Null => WordBack("null", r); w := Null;
    case Bool(b) => WordBack(if b then "true" else "false", r); w := v;
    case Int(n) => IntBack(n); IntChars(n); NumberBack(PrintInt(n), r); w := v;
    case Float(x) => FloatBack(x); NumberBack(x, r); w := v;
    case Str(s) => StringBack(s, r); w := v;
    case Arr(items) =>
      w := ArrBack(items, r);
    case Obj(fields) =>
      w := ObjBack(fields, r);
  }

  lemma {:induction false} ArrBack(items: seq<Json>, r: string) returns (w: Json)
    requires Decoded(Arr(items)) && (r == "" || Delimiter(r[0]))
    ensures ReadValue(Print(Arr(items)) + r) == Read(w, r) && Same(w, Arr(items))
    decreases items, 3
  {
    hide ReadValue, ReadItems;
    if items == [] {
      assert Print(Arr(items)) == "[]";
      WordBack("[]", r);
      w := Arr([]);
    } else {
      var ws := ItemsBack(items, r);
      ItemsOpen(items, r);
      var inner := JoinTexts(PrintItems(items)) + "]" + r;
      assert Print(Arr(items)) + r == ['['] + inner;
      BracketBack(['['] + inner, inner);
      w := Arr(ws);
    }
  }

  lemma {:induction false} ItemsBack(items: seq<Json>, r: string) returns (ws: seq<Json>)
    requires items != [] && forall i :: 0 <= i < |items| ==> Decoded(items[i])
    ensures ReadItems(JoinTexts(PrintItems(items)) + "]" + r) == Read(ws, r)
    ensures |ws| == |items| && forall i :: 0 <= i < |items| ==> Same(ws[i], items[i])
    decreases items, 0
  {
    hide ReadValue;
    var ts := PrintItems(items);
    var rest := if |items| == 1 then "]" + r else "," + (JoinTexts(ts[1..]) + "]" + r);
    FirstText(ts, "]", r);
    hide Print;
    var w := ReadBack(items[0], rest);
    if |items| == 1 {
      ws := [w];
    } else {
      assert ts[1..] == PrintItems(items[1..]);
      var more := ItemsBack(items[1..], r);
      ws := [w] + more;
    }
  }

  /** The first text of a list and what follows it. */
  lemma FirstText(ts: seq<string>, end: string, r: string)
    requires ts != []
    ensures JoinTexts(ts) + end + r
        == ts[0] + if |ts| == 1 then end + r else "," + (JoinTexts(ts[1..]) + end + r)
  {
    if |ts| > 1 {
      var more := JoinTexts(ts[1..]);
      assert JoinTexts(ts) == ts[0] + "," + more;
      hide JoinTexts;
      Associate(ts[0] + ",", more, end);
      Associate(ts[0] + ",", more + end, r);
      Associate(ts[0], ",", more + end + r);
    } else {
      Associate(ts[0], end, r);
    }
  }

  lemma Associate(a: string, b: string, c: string)
    ensures (a + b) + c == a + (b + c)
  {
  }

  lemma ItemsOpen(items: seq<Json>, r: string)
    requires items != [] && Decoded(items[0])
    ensures var inner := JoinTexts(PrintItems(items)) + "]" + r; inner != "" && inner[0] != ']'
  {
    FirstChar(items[0]);
    assert JoinTexts(PrintItems(items))[0] == Print(items[0])[0];
  }

  ghost predicate FromField(fields: seq<Field>, m: Member) {
    exists j :: 0 <= j < |fields| && m == Member(fields[j].key, Print(fields[j].value))
  }

  /** Every member comes from a field, printed. */
  ghost predicate Printed(fields: seq<Field>, ms: seq<Member>) {
    forall m :: m in ms ==> FromField(fields, m)
  }

  lemma {:induction false} ObjBack(fields: seq<Field>, r: string) returns (w: Json)
    requires Decoded(Obj(fields)) && (r == "" || Delimiter(r[0]))
    ensures ReadValue(Print(Obj(fields)) + r) == Read(w, r) && Same(w, Obj(fields))
    decreases fields, 3
  {
    hide ReadValue, ReadFields;
    var ps := PrintFields(fields);
    var ms := SortMembers(ps);
    SortElements(ps);
    if fields == [] {
      assert Print(Obj(fields)) == "{}";
      WordBack("{}", r);
      w := Obj([]);
    } else {
      BraceText(fields, r);
      hide Print, JoinTexts, MemberTexts, SortMembers, Same, Decoded, PrintFields;
      var inner := MembersText(ms, r);
      AllPrinted(fields, ms);
      MembersOpen(ms);
      hide Printed;
      var gs := FieldsBack(fields, ms, r);
      BraceBack(['{'] + inner, inner);
      w := Obj(gs);
      ReadSame(fields, ms, gs);
    }
  }

  lemma BraceText(fields: seq<Field>, r: string)
    ensures Print(Obj(fields)) + r == ['{'] + MembersText(SortMembers(PrintFields(fields)), r)
  {
    var inner := JoinTexts(MemberTexts(SortMembers(PrintFields(fields))));
    assert Print(Obj(fields)) == "{" + inner + "}";
    hide Print, JoinTexts, MemberTexts, SortMembers, PrintFields;
    Associate("{" + inner, "}", r);
    Associate("{", inner, "}" + r);
    Associate(inner, "}", r);
  }

  lemma AllPrinted(fields: seq<Field>, ms: seq<Member>)
    requires forall x :: x in ms <==> x in PrintFields(fields)
    ensures Printed(fields, ms)
  {
    var ps := PrintFields(fields);
    forall m | m in ms ensures FromField(fields, m) {
      assert m in ps;
      var j :| 0 <= j < |ps| && ps[j] == m;
    }
  }

  /** Fields read back from all the members are the same object. */
  lemma ReadSame(fields: seq<Field>, ms: seq<Member>, gs: seq<Field>)
    requires forall x :: x in ms <==> x in PrintFields(fields)
    requires |gs| == |ms| && forall i :: 0 <= i < |ms| ==> gs[i].key == ms[i].key && HasField(fields, gs[i])
    ensures Same(Obj(gs), Obj(fields))
  {
    var ps := PrintFields(fields);
    forall j | 0 <= j < |fields| ensures HasKey(gs, fields[j].key) {
      assert ps[j] in ms;
      var i :| 0 <= i < |ms| && ms[i] == ps[j];
      assert gs[i].key == fields[j].key;
    }
  }

  lemma MembersOpen(ms: seq<Member>)
    requires ms != []
    ensures forall r :: MembersText(ms, r) != "" && MembersText(ms, r)[0] == '\"'
  {
    assert MemberTexts(ms)[0] == MemberText(ms[0]);
    assert MemberText(ms[0])[0] == '\"';
  }

  lemma {:induction false} FieldsBack(fields: seq<Field>, ms: seq<Member>, r: string) returns (gs: seq<Field>)
    requires ms != [] && Printed(fields, ms)
    requires forall i :: 0 <= i < |fields| ==> Joined(fields[i].key) && Decoded(fields[i].value)
    ensures ReadFields(MembersText(ms, r)) == Read(gs, r)
    ensures |gs| == |ms| && forall i :: 0 <= i < |ms| ==> gs[i].key == ms[i].key && HasField(fields, gs[i])
    decreases fields, 1, |ms|
  {
    hide ReadValue, ReadUnits, ReadFields, Print, PrintStr, JoinTexts, MemberTexts, Joined, Decoded, Same, HasField;
    assert ms[0] in ms;
    var j :| 0 <= j < |fields| && ms[0] == Member(fields[j].key, Print(fields[j].value));
    MemberFirst(ms, r);
    var w := ReadBack(fields[j].value, Rest(ms, r));
    var g := Field(ms[0].key, w);
    FoundField(fields, g, j);
    FieldBack(MembersText(ms, r), g, ms[0].text, Rest(ms, r));
    RestIs(ms, r);
    hide Rest, MembersText;
    if |ms| == 1 {
      gs := [g];
    } else {
      TailPrinted(fields, ms);
      hide Printed;
      var more := FieldsBack(fields, ms[1..], r);
      gs := [g] + more;
      MoreFields(fields, ms, g, more);
    }
  }

  lemma MoreFields(fields: seq<Field>, ms: seq<Member>, g: Field, more: seq<Field>)
    requires ms != [] && g.key == ms[0].key && HasField(fields, g) && |more| == |ms[1..]|
    requires forall i :: 0 <= i < |more| ==> more[i].key == ms[1..][i].key && HasField(fields, more[i])
    ensures forall i :: 0 <= i < |ms| ==> ([g] + more)[i].key == ms[i].key && HasField(fields, ([g] + more)[i])
  {
    hide HasField;
  }

  lemma TailPrinted(fields: seq<Field>, ms: seq<Member>)
    requires ms != [] && Printed(fields, ms)
    ensures Printed(fields, ms[1..])
  {
    forall m | m in ms[1..] ensures FromField(fields, m) {
      assert m in ms;
    }
  }

  /** The members' texts up to the closing brace, and what follows. */
  function MembersText(ms: seq<Member>, r: string): string { JoinTexts(MemberTexts(ms)) + "}" + r }

  /** What follows the first member's text. */
  function Rest(ms: seq<Member>, r: string): string
    requires ms != []
  {
    if |ms| == 1 then "}" + r else "," + MembersText(ms[1..], r)
  }

  lemma RestIs(ms: seq<Member>, r: string)
    requires ms != []
    ensures Rest(ms, r) != ""
    ensures if |ms| == 1 then Rest(ms, r)[0] == '}' && Rest(ms, r)[1..] == r
            else Rest(ms, r)[0] == ',' && Rest(ms, r)[1..] == MembersText(ms[1..], r)
  {
    hide MembersText;
  }

  lemma FoundField(fields: seq<Field>, g: Field, j: nat)
    requires j < |fields| && g.key == fields[j].key && Same(g.value, fields[j].value)
    ensures HasField(fields, g)
  {
    assert SameField(g, fields[j]);
  }

  /** One member is read, and what follows it decides whether there are more. */
  lemma FieldBack(s: string, g: Field, text: string, rest: string)
    requires s == PrintStr(g.key) + (":" + (text + rest)) && Joined(g.key)
    requires ReadValue(text + rest) == Read(g.value, rest)
    requires rest != "" && (rest[0] == ',' || rest[0] == '}')
    ensures ReadFields(s)
        == if rest[0] == '}' then Read([g], rest[1..])
           else var more := ReadFields(rest[1..]); if more.Fail? then Fail else Read([g] + more.value, more.rest)
  {
    StrBack(g.key, ":" + (text + rest));
    assert (":" + (text + rest))[1..] == text + rest;
    hide ReadValue, ReadUnits, PrintStr, Joined;
  }

  /** The first member's text and what follows it. */
  lemma MemberFirst(ms: seq<Member>, r: string)
    requires ms != []
    ensures MembersText(ms, r) == PrintStr(ms[0].key) + (":" + (ms[0].text + Rest(ms, r)))
  {
    var ts := MemberTexts(ms);
    var key, text, rest := PrintStr(ms[0].key), ms[0].text, Rest(ms, r);
    MemberTextsAt(ms);
    assert ts[0] == key + ":" + text && ts[1..] == MemberTexts(ms[1..]);
    FirstText(ts, "}", r);
    hide PrintStr, JoinTexts, MemberTexts, MemberText;
    Associate(key + ":", text, rest);
    Associate(key, ":", text + rest);
  }

  lemma StringBack(s: Text, r: string)
    requires Joined(s)
    ensures ReadValue(PrintStr(s) + r) == Read(Str(s), r)
  {
    StrBack(s, r);
    NotWord(PrintStr(s) + r);
    hide ReadItems, ReadFields, ReadUnits, NumberLength, PrintStr, StartsWith, Number;
  }

  /** Round trip: reading a printed value gives the value back, up to the order of
      members, and nothing is left. */
  lemma RoundTrip(v: Json) returns (w: Json)
    requires Decoded(v)
    ensures ReadValue(Print(v)) == Read(w, "") && Same(w, v)
  {
    w := ReadBack(v, "");
    assert Print(v) + "" == Print(v);
  }
}

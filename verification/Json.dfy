/** JSON values and the compact printer with sorted keys
    (`json.dumps(v, sort_keys=True, separators=(",", ":"))`), with the proof
    that its output determines the value up to the order of object members. */
module Json {
  import opened Common

  /** A float is kept as the text that `float.__repr__` gives for it. */
  datatype Json =
    | Null
    | Bool(b: bool)
    | Int(n: int)
    | Float(repr: string)
    | Str(s: Text)
    | Arr(items: seq<Json>)
    | Obj(fields: seq<Field>)

  datatype Field = Field(key: Text, value: Json)

  // --------------------------------------------------------------- the printer

  function Digit(d: int): char
    requires 0 <= d < 10
  {
    "0123456789"[d]
  }

  function Hex(d: int): char
    requires 0 <= d < 16
  {
    "0123456789abcdef"[d]
  }

  function PrintNat(n: nat): string {
    if n < 10 then [Digit(n)] else PrintNat(n / 10) + [Digit(n % 10)]
  }

  function PrintInt(n: int): string {
    if n < 0 then "-" + PrintNat(-n) else PrintNat(n)
  }

  type Unit = u: int | 0 <= u < 0x1_0000

  /** A code point outside the basic plane is written as a surrogate pair. */
  function Units(c: CodePoint): seq<Unit> {
    if c < 0x1_0000 then [c]
    else [0xD800 + (c - 0x1_0000) / 0x400, 0xDC00 + (c - 0x1_0000) % 0x400]
  }

  function Utf16(s: Text): seq<Unit> {
    if s == [] then [] else Units(s[0]) + Utf16(s[1..])
  }

  function Escape(u: Unit): string {
    if u == '\"' as int then "\\\""
    else if u == '\\' as int then "\\\\"
    else if u == 10 then "\\n"
    else if u == 13 then "\\r"
    else if u == 9 then "\\t"
    else if u == 12 then "\\f"
    else if u == 8 then "\\b"
    else if 32 <= u <= 126 then [u as char]
    else ['\\', 'u', Hex(u / 4096), Hex(u / 256 % 16), Hex(u / 16 % 16), Hex(u % 16)]
  }

  function EscapeAll(us: seq<Unit>): string {
    if us == [] then "" else Escape(us[0]) + EscapeAll(us[1..])
  }

  function PrintStr(s: Text): string {
    "\"" + EscapeAll(Utf16(s)) + "\""
  }

  function JoinTexts(ts: seq<string>): string {
    if ts == [] then "" else if |ts| == 1 then ts[0] else ts[0] + "," + JoinTexts(ts[1..])
  }

  /** A member of an object whose value is already printed. */
  datatype Member = Member(key: Text, text: string)

  function MemberText(m: Member): string {
    PrintStr(m.key) + ":" + m.text
  }

  function MemberTexts(ms: seq<Member>): seq<string> {
    if ms == [] then [] else [MemberText(ms[0])] + MemberTexts(ms[1..])
  }

  /** Python's order on strings: by code point, a proper prefix first. */
  predicate Less(a: Text, b: Text) {
    b != [] && (a == [] || a[0] < b[0] || (a[0] == b[0] && Less(a[1..], b[1..])))
  }

  function InsertMember(ms: seq<Member>, m: Member): seq<Member> {
    if ms == [] || Less(m.key, ms[0].key) then [m] + ms
    else [ms[0]] + InsertMember(ms[1..], m)
  }

  function SortMembers(ms: seq<Member>): seq<Member> {
    if ms == [] then [] else InsertMember(SortMembers(ms[1..]), ms[0])
  }

  function Print(v: Json): string {
    match v
    case Null => "null"
    case Bool(b) => if b then "true" else "false"
    case Int(n) => PrintInt(n)
    case Float(r) => r
    case Str(s) => PrintStr(s)
    case Arr(items) => "[" + JoinTexts(PrintItems(items)) + "]"
    case Obj(fields) => "{" + JoinTexts(MemberTexts(SortMembers(PrintFields(fields)))) + "}"
  }

  function PrintItems(items: seq<Json>): (ts: seq<string>)
    ensures |ts| == |items|
    ensures forall i :: 0 <= i < |items| ==> ts[i] == Print(items[i])
  {
    if items == [] then [] else [Print(items[0])] + PrintItems(items[1..])
  }

  function PrintFields(fields: seq<Field>): (ms: seq<Member>)
    ensures |ms| == |fields|
    ensures forall i :: 0 <= i < |fields| ==> ms[i] == Member(fields[i].key, Print(fields[i].value))
  {
    if fields == [] then [] else [Member(fields[0].key, Print(fields[0].value))] + PrintFields(fields[1..])
  }

  // ------------------------------------------------------ what inputs look like

  predicate IsHigh(c: int) { 0xD800 <= c < 0xDC00 }
  predicate IsLow(c: int) { 0xDC00 <= c < 0xE000 }

  /** No high surrogate is directly followed by a low one. `json.loads` joins
      such pairs, so every decoded string has this form. */
  ghost predicate Joined(s: Text) {
    forall i :: 0 <= i < |s| - 1 ==> !(IsHigh(s[i]) && IsLow(s[i + 1]))
  }

  predicate NumberChar(c: char) {
    c in "0123456789+-.eNaIfinty"
  }

  const NOT_FINITE: seq<string> := ["NaN", "Infinity", "-Infinity"]

  /** A float's text is `NaN`, an infinity, or a number lexeme that is no integer's. */
  ghost predicate FloatText(r: string) {
    r in NOT_FINITE || FiniteText(r)
  }

  /** Number characters that end in a digit; every text `float.__repr__` gives for a
      finite number is one. */
  ghost predicate FiniteText(r: string) {
    && r != "" && r[0] in "-0123456789" && r[|r| - 1] in "0123456789"
    && (forall i :: 0 <= i < |r| ==> r[i] in "0123456789+-.e")
    && exists i :: 0 <= i < |r| && r[i] !in "-0123456789"
  }

  ghost predicate DistinctKeys(fields: seq<Field>) {
    forall i, j :: 0 <= i < j < |fields| ==> fields[i].key != fields[j].key
  }

  /** A value that `json.loads` can return. */
  ghost predicate Decoded(v: Json) {
    match v
    case Null => true
    case Bool(_) => true
    case Int(_) => true
    case Float(r) => FloatText(r)
    case Str(s) => Joined(s)
    case Arr(items) => forall i :: 0 <= i < |items| ==> Decoded(items[i])
    case Obj(fields) =>
      && DistinctKeys(fields)
      && forall i :: 0 <= i < |fields| ==> Joined(fields[i].key) && Decoded(fields[i].value)
  }

  /** The same JSON value: equal except that object members may come in any order. */
  ghost predicate Same(v: Json, w: Json)
    decreases v, 0
  {
    match (v, w)
    case (Arr(xs), Arr(ys)) => |xs| == |ys| && forall i :: 0 <= i < |xs| ==> Same(xs[i], ys[i])
    case (Obj(fs), Obj(gs)) =>
      && (forall i :: 0 <= i < |fs| ==> HasField(gs, fs[i]))
      && (forall j :: 0 <= j < |gs| ==> HasKey(fs, gs[j].key))
    case _ => v == w
  }

  ghost predicate HasField(gs: seq<Field>, f: Field)
    decreases f, 1
  {
    exists j :: 0 <= j < |gs| && SameField(f, gs[j])
  }

  ghost predicate SameField(f: Field, g: Field)
    decreases f, 0
  {
    f.key == g.key && Same(f.value, g.value)
  }

  ghost predicate HasKey(fs: seq<Field>, k: Text) {
    exists i :: 0 <= i < |fs| && fs[i].key == k
  }

  // ------------------------------------------- the scanner: texts are delimited

  /** Where a left-to-right reader is: nesting depth and position in a string. */
  datatype Mode = Outside | InString | AfterBackslash
  datatype Place = Place(depth: nat, mode: Mode) | Stopped

  const TOP := Place(0, Outside)

  function Advance(p: Place, c: char): Place {
    match p
    case Stopped => Stopped
    case Place(d, Outside) =>
      if c == '\"' then Place(d, InString)
      else if c == '[' || c == '{' then Place(d + 1, Outside)
      else if c == ']' || c == '}' then if d == 0 then Stopped else Place(d - 1, Outside)
      else if c == ',' && d == 0 then Stopped
      else p
    case Place(d, InString) =>
      if c == '\"' then Place(d, Outside) else if c == '\\' then Place(d, AfterBackslash) else p
    case Place(d, AfterBackslash) => Place(d, InString)
  }

  function Scan(p: Place, s: string): Place
    decreases s
  {
    if s == "" then p else Scan(Advance(p, s[0]), s[1..])
  }

  lemma {:induction false} ScanAppend(p: Place, a: string, b: string)
    ensures Scan(p, a + b) == Scan(Scan(p, a), b)
    decreases a
  {
    if a == "" {
      assert a + b == b;
    } else {
      assert (a + b)[1..] == a[1..] + b;
      ScanAppend(Advance(p, a[0]), a[1..], b);
    }
  }

  lemma {:induction false} ScanStopped(s: string)
    ensures Scan(Stopped, s) == Stopped
  {
    if s != "" { ScanStopped(s[1..]); }
  }

  /** A text that leaves the reader, at any depth, where it found it. */
  ghost predicate Closed(s: string) {
    s != "" && forall d: nat :: Scan(Place(d, Outside), s) == Place(d, Outside)
  }

  predicate Delimiter(c: char) { c == ',' || c == ']' || c == '}' }

  /** The end of a closed text is fixed by what follows it. */
  lemma SplitUnique(a: string, r: string, b: string, q: string)
    requires Closed(a) && Closed(b) && a + r == b + q
    requires (r == "" || Delimiter(r[0])) && (q == "" || Delimiter(q[0]))
    ensures a == b && r == q
  {
    if |a| < |b| {
      NoEarlyEnd(a, r, b, q);
    } else if |b| < |a| {
      NoEarlyEnd(b, q, a, r);
    } else {
      assert a == (a + r)[..|a|] == b;
      assert r == (a + r)[|a|..] == q;
    }
  }

  lemma NoEarlyEnd(a: string, r: string, b: string, q: string)
    requires Closed(a) && Closed(b) && a + r == b + q
    requires r == "" || Delimiter(r[0])
    ensures |a| >= |b|
  {
    if |a| < |b| {
      assert r != "";
      var tail := b[|a|..];
      assert a == (a + r)[..|a|] == b[..|a|];
      assert b == a + tail;
      assert r[0] == (a + r)[|a|] == tail[0];
      ScanAppend(TOP, a, tail);
      assert Scan(TOP, a) == TOP;
      assert Advance(TOP, tail[0]) == Stopped;
      ScanStopped(tail[1..]);
      assert false;
    }
  }

  /** A comma-separated list of closed texts determines the list. */
  lemma {:induction false} JoinUnique(a: seq<string>, b: seq<string>)
    requires forall i :: 0 <= i < |a| ==> Closed(a[i])
    requires forall i :: 0 <= i < |b| ==> Closed(b[i])
    requires JoinTexts(a) == JoinTexts(b)
    ensures a == b
  {
    if a == [] || b == [] {
      JoinEmpty(a);
      JoinEmpty(b);
    } else {
      var r := if |a| == 1 then "" else "," + JoinTexts(a[1..]);
      var q := if |b| == 1 then "" else "," + JoinTexts(b[1..]);
      assert JoinTexts(a) == a[0] + r && JoinTexts(b) == b[0] + q;
      SplitUnique(a[0], r, b[0], q);
      if |a| > 1 {
        assert JoinTexts(a[1..]) == r[1..] == q[1..] == JoinTexts(b[1..]);
        JoinUnique(a[1..], b[1..]);
        assert a == [a[0]] + a[1..] && b == [b[0]] + b[1..];
      } else {
        assert a == [a[0]] && b == [b[0]];
      }
    }
  }

  lemma JoinEmpty(a: seq<string>)
    requires forall i :: 0 <= i < |a| ==> Closed(a[i])
    ensures JoinTexts(a) == "" <==> a == []
  {
    if a != [] { assert a[0] != ""; }
  }

  // ------------------------------------------------------ printed texts are closed

  lemma ScanOne(p: Place, c: char)
    ensures Scan(p, [c]) == Advance(p, c)
  {
    assert [c][1..] == "";
  }

  lemma ScanCons(p: Place, c: char, s: string)
    ensures Scan(p, [c] + s) == Scan(Advance(p, c), s)
  {
    assert ([c] + s)[1..] == s;
  }

  /** One harmless character, or a backslash, a character and harmless ones. */
  lemma EscapeShape(u: Unit)
    ensures var e := Escape(u);
            || (|e| == 1 && e[0] != '\"' && e[0] != '\\')
            || (|e| >= 2 && e[0] == '\\' && forall i :: 2 <= i < |e| ==> e[i] != '\"' && e[i] != '\\')
  {
    hide Hex;
    if u < 8 || (u == 11 || 14 <= u < 32) || u > 126 {
      HexPlain(u / 4096);
      HexPlain(u / 256 % 16);
      HexPlain(u / 16 % 16);
      HexPlain(u % 16);
    }
  }

  lemma HexPlain(d: int)
    requires 0 <= d < 16
    ensures Hex(d) != '\"' && Hex(d) != '\\'
  {
  }

  lemma ScanEscape(d: nat, u: Unit)
    ensures Scan(Place(d, InString), Escape(u)) == Place(d, InString)
  {
    EscapeShape(u);
    hide Escape;
    var e := Escape(u);
    if |e| == 1 {
      ScanOne(Place(d, InString), e[0]);
      assert e == [e[0]];
    } else {
      assert e == ['\\'] + ([e[1]] + e[2..]);
      ScanCons(Place(d, InString), '\\', [e[1]] + e[2..]);
      ScanCons(Place(d, AfterBackslash), e[1], e[2..]);
      ScanHex(d, e[2..]);
    }
  }

  lemma {:induction false} ScanHex(d: nat, h: string)
    requires forall i :: 0 <= i < |h| ==> h[i] != '\"' && h[i] != '\\'
    ensures Scan(Place(d, InString), h) == Place(d, InString)
  {
    if h != "" { ScanHex(d, h[1..]); }
  }

  lemma {:induction false} ScanEscapeAll(d: nat, us: seq<Unit>)
    ensures Scan(Place(d, InString), EscapeAll(us)) == Place(d, InString)
  {
    if us != [] {
      ScanEscape(d, us[0]);
      ScanEscapeAll(d, us[1..]);
      ScanAppend(Place(d, InString), Escape(us[0]), EscapeAll(us[1..]));
    }
  }

  lemma StrClosed(s: Text)
    ensures Closed(PrintStr(s))
  {
    var body := EscapeAll(Utf16(s));
    forall d: nat ensures Scan(Place(d, Outside), PrintStr(s)) == Place(d, Outside) {
      assert PrintStr(s) == ['\"'] + (body + ['\"']);
      ScanCons(Place(d, Outside), '\"', body + ['\"']);
      ScanEscapeAll(d, Utf16(s));
      ScanAppend(Place(d, InString), body, ['\"']);
      ScanOne(Place(d, InString), '\"');
    }
  }

  lemma {:induction false} PlainScan(p: Place, s: string)
    requires p.Place? && p.mode == Outside && forall i :: 0 <= i < |s| ==> NumberChar(s[i]) || s[i] in "trueflsn"
    ensures Scan(p, s) == p
  {
    if s != "" { PlainScan(p, s[1..]); }
  }

  lemma {:induction false} NatChars(n: nat)
    ensures PrintNat(n) != "" && forall i :: 0 <= i < |PrintNat(n)| ==> PrintNat(n)[i] in "0123456789"
  {
    if n >= 10 { NatChars(n / 10); }
  }

  lemma IntChars(n: int)
    ensures PrintInt(n) != "" && forall i :: 0 <= i < |PrintInt(n)| ==> PrintInt(n)[i] in "-0123456789"
  {
    NatChars(if n < 0 then -n else n);
  }

  lemma PlainClosed(s: string)
    requires s != "" && forall i :: 0 <= i < |s| ==> NumberChar(s[i]) || s[i] in "trueflsn"
    ensures Closed(s)
  {
    forall d: nat ensures Scan(Place(d, Outside), s) == Place(d, Outside) { PlainScan(Place(d, Outside), s); }
  }

  /** Inside brackets a comma-separated list of closed texts is passed over. */
  lemma {:induction false} JoinScan(d: nat, ts: seq<string>)
    requires forall i :: 0 <= i < |ts| ==> Closed(ts[i])
    ensures Scan(Place(d + 1, Outside), JoinTexts(ts)) == Place(d + 1, Outside)
  {
    var p := Place(d + 1, Outside);
    if |ts| > 1 {
      JoinScan(d, ts[1..]);
      ScanAppend(p, ts[0], "," + JoinTexts(ts[1..]));
      assert ts[0] + ("," + JoinTexts(ts[1..])) == ts[0] + "," + JoinTexts(ts[1..]);
      assert ("," + JoinTexts(ts[1..]))[1..] == JoinTexts(ts[1..]);
    }
  }

  lemma BracketScan(d: nat, open: char, inner: string, close: char)
    requires (open == '[' && close == ']') || (open == '{' && close == '}')
    requires Scan(Place(d + 1, Outside), inner) == Place(d + 1, Outside)
    ensures Scan(Place(d, Outside), [open] + inner + [close]) == Place(d, Outside)
  {
    assert [open] + inner + [close] == [open] + (inner + [close]);
    ScanCons(Place(d, Outside), open, inner + [close]);
    ScanAppend(Place(d + 1, Outside), inner, [close]);
    ScanOne(Place(d + 1, Outside), close);
  }

  lemma BracketClosed(open: char, ts: seq<string>, close: char)
    requires (open == '[' && close == ']') || (open == '{' && close == '}')
    requires forall i :: 0 <= i < |ts| ==> Closed(ts[i])
    ensures Closed([open] + JoinTexts(ts) + [close])
  {
    forall d: nat ensures Scan(Place(d, Outside), [open] + JoinTexts(ts) + [close]) == Place(d, Outside) {
      JoinScan(d, ts);
      BracketScan(d, open, JoinTexts(ts), close);
    }
  }

  lemma MemberClosed(m: Member)
    requires Closed(m.text)
    ensures Closed(MemberText(m))
  {
    StrClosed(m.key);
    var rest := [':'] + m.text;
    assert MemberText(m) == PrintStr(m.key) + rest;
    hide MemberText, PrintStr;
    forall d: nat ensures Scan(Place(d, Outside), MemberText(m)) == Place(d, Outside) {
      ScanAppend(Place(d, Outside), PrintStr(m.key), rest);
      ScanCons(Place(d, Outside), ':', m.text);
    }
  }

  lemma {:induction false} MemberTextsAt(ms: seq<Member>)
    ensures |MemberTexts(ms)| == |ms|
    ensures forall i :: 0 <= i < |ms| ==> MemberTexts(ms)[i] == MemberText(ms[i])
  {
    if ms != [] { MemberTextsAt(ms[1..]); }
  }

  lemma {:induction false} InsertElements(ms: seq<Member>, m: Member)
    ensures forall x :: x in InsertMember(ms, m) <==> x in ms || x == m
    ensures |InsertMember(ms, m)| == |ms| + 1
  {
    if ms != [] && !Less(m.key, ms[0].key) {
      InsertElements(ms[1..], m);
      assert ms == [ms[0]] + ms[1..];
    }
  }

  lemma {:induction false} SortElements(ms: seq<Member>)
    ensures forall x :: x in SortMembers(ms) <==> x in ms
    ensures |SortMembers(ms)| == |ms|
  {
    if ms != [] {
      SortElements(ms[1..]);
      InsertElements(SortMembers(ms[1..]), ms[0]);
      assert ms == [ms[0]] + ms[1..];
    }
  }

  lemma {:induction false} PrintClosed(v: Json)
    requires Decoded(v)
    ensures Closed(Print(v))
  {
    match v
    case Null => PlainClosed("null");
    case Bool(b) => PlainClosed(Print(v));
    case Int(n) => IntChars(n); PlainClosed(Print(v));
    case Float(r) => PlainClosed(r);
    case Str(s) => StrClosed(s);
    case Arr(items) =>
      forall i | 0 <= i < |items| ensures Closed(PrintItems(items)[i]) { PrintClosed(items[i]); }
      BracketClosed('[', PrintItems(items), ']');
    case Obj(fields) =>
      var ts := MemberTexts(SortMembers(PrintFields(fields)));
      FieldTextsClosed(fields, ts);
      BracketClosed('{', ts, '}');
  }

  lemma {:induction false} FieldTextsClosed(fields: seq<Field>, ts: seq<string>)
    requires forall i :: 0 <= i < |fields| ==> Decoded(fields[i].value)
    requires ts == MemberTexts(SortMembers(PrintFields(fields)))
    ensures forall i :: 0 <= i < |ts| ==> Closed(ts[i])
  {
    var ms := PrintFields(fields);
    var sorted := SortMembers(ms);
    SortElements(ms);
    MemberTextsAt(sorted);
    forall i | 0 <= i < |sorted| ensures Closed(MemberText(sorted[i])) {
      assert sorted[i] in ms;
      var k :| 0 <= k < |ms| && ms[k] == sorted[i];
      PrintClosed(fields[k].value);
      MemberClosed(sorted[i]);
    }
  }
}

/** Which printed JSON texts can be continued to another printed text. */
module PrefixFree {
  import opened Json
  import opened CanonicalJson

  /** No other printed text begins with the text of `v`. */
  ghost predicate Uncontinued(v: Json) {
    forall w: Json, r: string :: Decoded(w) && Print(w) == Print(v) + r ==> r == ""
  }

  /** A reader one level deeper goes the same way, as long as it does not stop. */
  lemma {:induction false} ScanDeeper(d: nat, m: Mode, s: string)
    requires Scan(Place(d, m), s).Place?
    ensures var p := Scan(Place(d, m), s); Scan(Place(d + 1, m), s) == Place(p.depth + 1, p.mode)
    decreases s
  {
    if s != "" {
      var p := Advance(Place(d, m), s[0]);
      if p.Stopped? { ScanStopped(s[1..]); }
      ScanDeeper(p.depth, p.mode, s[1..]);
    }
  }

  /** No part of a closed text stops the reader. */
  lemma PartNotStopped(s: string, j: nat)
    requires Closed(s) && j <= |s|
    ensures Scan(TOP, s[..j]).Place?
  {
    assert s == s[..j] + s[j..];
    ScanAppend(TOP, s[..j], s[j..]);
    ScanStopped(s[j..]);
  }

  /** Inside brackets, no part of a list of closed texts leaves the brackets. */
  lemma {:induction false} JoinStaysInside(ts: seq<string>, j: nat)
    requires (forall i :: 0 <= i < |ts| ==> Closed(ts[i])) && j <= |JoinTexts(ts)|
    ensures var p := Scan(Place(1, Outside), JoinTexts(ts)[..j]); p.Place? && p.depth >= 1
    decreases ts
  {
    if ts != [] {
      var all := JoinTexts(ts);
      if j <= |ts[0]| {
        assert all[..j] == ts[0][..j];
        PartNotStopped(ts[0], j);
        ScanDeeper(0, Outside, ts[0][..j]);
      } else {
        var rest := JoinTexts(ts[1..]);
        assert all == ts[0] + ("," + rest);
        assert all[..j] == ts[0] + ([','] + rest[..j - |ts[0]| - 1]);
        ScanAppend(Place(1, Outside), ts[0], [','] + rest[..j - |ts[0]| - 1]);
        ScanCons(Place(1, Outside), ',', rest[..j - |ts[0]| - 1]);
        JoinStaysInside(ts[1..], j - |ts[0]| - 1);
      }
    }
  }

  /** A reader of the beginning of a bracketed text is inside its brackets. */
  lemma CutIsInside(open: char, ts: seq<string>, j: nat)
    requires (open == '[' || open == '{') && (forall i :: 0 <= i < |ts| ==> Closed(ts[i])) && j <= |JoinTexts(ts)|
    ensures Scan(TOP, [open] + JoinTexts(ts)[..j]) != TOP
  {
    JoinStaysInside(ts, j);
    OpenGoesDown(open);
    hide Scan, JoinTexts, Advance, Closed;
    ScanCons(TOP, open, JoinTexts(ts)[..j]);
  }

  lemma ClosedAtTop(a: string)
    requires Closed(a)
    ensures a != "" && Scan(TOP, a) == TOP
  {
  }

  /** A closed text is no proper prefix of a bracketed one. */
  lemma BracketUncut(a: string, open: char, ts: seq<string>, close: char, r: string)
    requires Closed(a) && (open == '[' || open == '{')
    requires forall i :: 0 <= i < |ts| ==> Closed(ts[i])
    requires a + r == [open] + JoinTexts(ts) + [close]
    ensures r == ""
  {
    ClosedAtTop(a);
    hide Scan, JoinTexts, Advance, Closed;
    if r != "" {
      CutBracket(a, open, JoinTexts(ts), close, r);
      CutIsInside(open, ts, |a| - 1);
      assert false;
    }
  }

  lemma OpenGoesDown(open: char)
    requires open == '[' || open == '{'
    ensures Advance(TOP, open) == Place(1, Outside)
  {
  }

  lemma CutBracket(a: string, open: char, mid: string, close: char, r: string)
    requires a != "" && r != "" && a + r == [open] + mid + [close]
    ensures |a| - 1 <= |mid| && a == [open] + mid[..|a| - 1]
  {
    var b := [open] + mid + [close];
    assert |a| + |r| == |mid| + 2;
    assert a == (a + r)[..|a|];
    assert b[..|a|] == [open] + mid[..|a| - 1];
  }

  lemma BracketedUncontinued(v: Json)
    requires Decoded(v) && (v.Arr? || v.Obj?)
    ensures Uncontinued(v)
  {
    forall w: Json, r: string | Decoded(w) && Print(w) == Print(v) + r ensures r == "" {
      PrintClosed(v);
      FirstChar(v);
      FirstChar(w);
      assert Print(w)[0] == Print(v)[0];
      if w.Arr? {
        forall i | 0 <= i < |w.items| ensures Closed(PrintItems(w.items)[i]) { PrintClosed(w.items[i]); }
        BracketUncut(Print(v), '[', PrintItems(w.items), ']', r);
      } else {
        var ts := MemberTexts(SortMembers(PrintFields(w.fields)));
        FieldTextsClosed(w.fields, ts);
        BracketUncut(Print(v), '{', ts, '}', r);
      }
    }
  }

  lemma ScalarUncontinued(v: Json)
    requires Decoded(v) && (v.Null? || v.Bool? || v.Str?)
    ensures Uncontinued(v)
  {
    forall w: Json, r: string | Decoded(w) && Print(w) == Print(v) + r ensures r == "" {
      FirstChar(v);
      FirstChar(w);
      assert Print(w)[0] == Print(v)[0];
      if v.Str? {
        assert PrintStr(w.s) + "" == PrintStr(w.s);
        StrSplit(v.s, r, w.s, "");
      } else {
        assert |Print(w)| == |Print(v)|;
      }
    }
  }

  /** An integer can be continued: by a zero, or, when it is 0, by a fraction. */
  lemma IntContinued(n: int)
    ensures !Uncontinued(Int(n))
  {
    if n == 0 {
      HalfText();
      assert Print(Float("0.5")) == Print(Int(0)) + ".5";
    } else {
      TenTimes(n);
      hide PrintInt;
      assert Decoded(Int(10 * n)) && Print(Int(10 * n)) == Print(Int(n)) + "0";
    }
  }

  lemma HalfText()
    ensures Decoded(Float("0.5")) && PrintInt(0) + ".5" == "0.5"
  {
    assert "0.5"[1] == '.';
  }

  lemma TenTimes(n: int)
    requires n != 0
    ensures PrintInt(10 * n) == PrintInt(n) + "0"
  {
    var m: nat := if n < 0 then -n else n;
    assert PrintNat(10 * m) == PrintNat(m) + "0";
  }

  /** A finite number's text can be continued by a digit. */
  lemma FloatContinued(r: string)
    requires FiniteText(r)
    ensures !Uncontinued(Float(r))
  {
    var t := r + "0";
    var i :| 0 <= i < |r| && r[i] !in "-0123456789";
    assert t[i] == r[i] && t[0] == r[0] && t[|t| - 1] == '0';
    assert FiniteText(t);
    assert Decoded(Float(t)) && Print(Float(t)) == Print(Float(r)) + "0";
  }

  lemma NotFiniteUncontinued(s: string)
    requires s in NOT_FINITE
    ensures Uncontinued(Float(s))
  {
    forall w: Json, r: string | Decoded(w) && Print(w) == Print(Float(s)) + r ensures r == "" {
      NotFiniteStart(w, s, r);
    }
  }

  /** Only such a text begins with one. */
  lemma NotFiniteStart(w: Json, s: string, r: string)
    requires s in NOT_FINITE && Decoded(w) && Print(w) == s + r
    ensures r == ""
  {
    var at := NotFiniteLetter(s);
    FirstChar(w);
    var t := Print(w);
    assert t[0] == s[0] && t[at] == s[at];
    assert s[0] in "-NI";
    if w.Int? { IntChars(w.n); }
    assert w.Float? && t == w.repr;
    hide Print;
    if t in NOT_FINITE { Lexemes(t, s, r); }
  }

  lemma Lexemes(t: string, s: string, r: string)
    requires t in NOT_FINITE && s in NOT_FINITE && t == s + r
    ensures r == ""
  {
    assert |r| == |t| - |s|;
    assert t[0] == s[0];
  }

  /** The value is a number: an integer or a finite float. */
  ghost predicate IsNumber(v: Json) { v.Int? || (v.Float? && FiniteText(v.repr)) }

  /** The printer is prefix-free exactly outside the numbers: the text of any
      other value, the signed object's among them, begins no other text. */
  lemma PrefixFreeExactly(v: Json)
    requires Decoded(v)
    ensures Uncontinued(v) <==> !IsNumber(v)
  {
    match v
    case Int(n) => IntContinued(n);
    case Float(r) => if FiniteText(r) { FloatContinued(r); } else { NotFiniteUncontinued(r); }
    case Arr(_) => BracketedUncontinued(v);
    case Obj(_) => BracketedUncontinued(v);
    case Null => ScalarUncontinued(v);
    case Bool(_) => ScalarUncontinued(v);
    case Str(_) => ScalarUncontinued(v);
  }
}

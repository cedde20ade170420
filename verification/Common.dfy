/** Small definitions shared by all the modules. */
module Common {

  datatype Option<+T> = None | Some(value: T)

  /** A Python `str`: a sequence of code points, lone surrogates included. */
  type CodePoint = c: int | 0 <= c < 0x11_0000
  type Text = seq<CodePoint>

  function T(s: string): Text {
    seq(|s|, i requires 0 <= i < |s| => s[i] as int)
  }

  /** The powers that both services space their retries by. */
  function Power5(i: nat): nat { if i == 0 then 1 else 5 * Power5(i - 1) }

  lemma MapSize<K, V>(m: map<K, V>)
    ensures |m| == |m.Keys|
  {
  }

  /** No element occurs at two positions. */
  ghost predicate NoDup<T>(s: seq<T>) {
    forall i, j :: 0 <= i < j < |s| ==> s[i] != s[j]
  }

  /** Python's `list.remove`, for a list that may lack the element. */
  function RemoveFirst<T(==)>(s: seq<T>, x: T): (r: seq<T>)
    ensures x !in s ==> r == s
  {
    if s == [] then []
    else if s[0] == x then s[1..]
    else [s[0]] + RemoveFirst(s[1..], x)
  }

  lemma {:induction false} RemoveFirstCut<T>(s: seq<T>, x: T, i: nat)
    requires i < |s| && s[i] == x && x !in s[..i]
    ensures RemoveFirst(s, x) == s[..i] + s[i + 1..]
  {
    if i == 0 {
      assert s[..0] + s[1..] == s[1..];
    } else {
      assert s[0] == s[..i][0];
      assert s[1..][..i - 1] == s[..i][1..];
      RemoveFirstCut(s[1..], x, i - 1);
      assert [s[0]] + (s[1..][..i - 1] + s[1..][i..]) == s[..i] + s[i + 1..];
    }
  }

  lemma {:induction false} RemoveFirstNoDup<T>(s: seq<T>, x: T)
    requires NoDup(s) && x in s
    ensures NoDup(RemoveFirst(s, x))
    ensures |RemoveFirst(s, x)| == |s| - 1
    ensures forall y :: y in RemoveFirst(s, x) <==> y in s && y != x
  {
    var i :| 0 <= i < |s| && s[i] == x;
    RemoveFirstCut(s, x, i);
    forall y ensures y in s[..i] + s[i + 1..] <==> y in s && y != x {
      if y in s && y != x {
        var j :| 0 <= j < |s| && s[j] == y;
        if j < i { assert s[..i][j] == y; } else { assert s[i + 1..][j - i - 1] == y; }
      }
    }
  }

  /** Two sequences with the same elements, each the same number of times. */
  ghost predicate Permutation<T>(a: seq<T>, b: seq<T>) {
    multiset(a) == multiset(b)
  }

  lemma {:induction false} NoDupCounts<T>(s: seq<T>)
    ensures NoDup(s) <==> forall x :: multiset(s)[x] <= 1
  {
    if s != [] {
      var rest := s[1..];
      NoDupCounts(rest);
      assert s == [s[0]] + rest;
      assert multiset(s) == multiset{s[0]} + multiset(rest);
      if NoDup(s) {
        assert s[0] !in rest;
        forall x ensures multiset(s)[x] <= 1 { assert multiset(rest)[x] <= 1; }
      }
      if forall x :: multiset(s)[x] <= 1 {
        forall x ensures multiset(rest)[x] <= 1 { assert multiset(s)[x] <= 1; }
        assert multiset(s)[s[0]] <= 1;
        assert s[0] !in rest;
        forall i, j | 0 <= i < j < |s| ensures s[i] != s[j] {
          if i > 0 { assert rest[i - 1] != rest[j - 1]; } else { assert s[j] == rest[j - 1]; }
        }
      }
    }
  }

  lemma PermutationNoDup<T>(a: seq<T>, b: seq<T>)
    requires Permutation(a, b) && NoDup(a)
    ensures NoDup(b)
    ensures forall x :: x in a <==> x in b
  {
    NoDupCounts(a);
    NoDupCounts(b);
    forall x ensures x in a <==> x in b {
      assert x in a <==> x in multiset(a);
      assert x in b <==> x in multiset(b);
    }
  }
}

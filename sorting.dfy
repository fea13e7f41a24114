/**
 * The result of `Array.prototype.sort()` on an array of strings: the
 * ascending permutation in code-unit order. Because that order is total and
 * antisymmetric, the sorted permutation is unique, so the engine's choice of
 * algorithm cannot change it.
 */
module Sorting {
  import opened JsText

  predicate Ascending(s: seq<JsString>)
  {
    forall i, j | 0 <= i < j < |s| :: LessOrEqual(s[i], s[j])
  }

  lemma AscendingCons(x: JsString, s: seq<JsString>)
    requires Ascending(s)
    requires forall y | y in s :: LessOrEqual(x, y)
    ensures Ascending([x] + s)
  {
    var r := [x] + s;
    forall i, j | 0 <= i < j < |r| ensures LessOrEqual(r[i], r[j]) {
      if i == 0 {
        assert r[j] == s[j - 1];
      }
    }
  }

  function Insert(x: JsString, s: seq<JsString>): (r: seq<JsString>)
    requires Ascending(s)
    ensures Ascending(r)
    ensures multiset(r) == multiset(s) + multiset{x}
  {
    if s == [] then [x]
    else if LessOrEqual(x, s[0]) then
      InsertHeadBound(x, s);
      AscendingCons(x, s);
      [x] + s
    else
      LessOrEqualTotal(x, s[0]);
      var t := Insert(x, s[1..]);
      assert s == [s[0]] + s[1..];
      TailBound(s, t, x);
      AscendingCons(s[0], t);
      [s[0]] + t
  }

  lemma InsertHeadBound(x: JsString, s: seq<JsString>)
    requires Ascending(s) && s != [] && LessOrEqual(x, s[0])
    ensures forall y | y in s :: LessOrEqual(x, y)
  {
    forall y | y in s ensures LessOrEqual(x, y) {
      var j :| 0 <= j < |s| && s[j] == y;
      if j > 0 {
        LessOrEqualTransitive(x, s[0], s[j]);
      }
    }
  }

  lemma TailBound(s: seq<JsString>, t: seq<JsString>, x: JsString)
    requires Ascending(s) && s != [] && LessOrEqual(s[0], x)
    requires multiset(t) == multiset(s[1..]) + multiset{x}
    ensures forall y | y in t :: LessOrEqual(s[0], y)
  {
    forall y | y in t ensures LessOrEqual(s[0], y) {
      assert y in multiset(t);
      if y != x {
        assert y in s[1..];
        var j :| 0 <= j < |s[1..]| && s[1..][j] == y;
        assert s[j + 1] == y;
      }
    }
  }

  /** The sorted permutation, built by insertion. */
  function Sort(s: seq<JsString>): (r: seq<JsString>)
    ensures Ascending(r)
    ensures multiset(r) == multiset(s)
  {
    if s == [] then []
    else
      assert s == [s[0]] + s[1..];
      Insert(s[0], Sort(s[1..]))
  }

  lemma LeastOfAscending(a: seq<JsString>, y: JsString)
    requires Ascending(a) && y in a
    ensures LessOrEqual(a[0], y)
  {
    var j :| 0 <= j < |a| && a[j] == y;
    if j == 0 {
      LessOrEqualTotal(y, y);
    }
  }

  /** Removing the first element of a sequence removes one occurrence of it. */
  lemma MultisetTail<T>(s: seq<T>)
    requires s != []
    ensures s[0] in multiset(s)
    ensures multiset(s[1..]) == multiset(s) - multiset{s[0]}
  {
    assert s == [s[0]] + s[1..];
  }

  lemma SameHeadSameTail<T>(a: seq<T>, b: seq<T>)
    requires a != [] && b != [] && a[0] == b[0] && a[1..] == b[1..]
    ensures a == b
  {
    assert a == [a[0]] + a[1..];
    assert b == [b[0]] + b[1..];
  }

  lemma AscendingTail(s: seq<JsString>)
    requires Ascending(s) && s != []
    ensures Ascending(s[1..])
  {
    forall i, j | 0 <= i < j < |s[1..]| ensures LessOrEqual(s[1..][i], s[1..][j]) {
      assert s[1..][i] == s[i + 1] && s[1..][j] == s[j + 1];
    }
  }

  /** Two ascending permutations of the same strings are the same sequence. */
  lemma {:induction false} AscendingPermutationsEqual(a: seq<JsString>, b: seq<JsString>)
    requires Ascending(a) && Ascending(b)
    requires multiset(a) == multiset(b)
    ensures a == b
    decreases |a|
  {
    assert |a| == |multiset(a)| == |multiset(b)| == |b|;
    if a != [] {
      MultisetTail(a);
      MultisetTail(b);
      LeastOfAscending(a, b[0]);
      LeastOfAscending(b, a[0]);
      LessOrEqualAntisymmetric(a[0], b[0]);
      AscendingTail(a);
      AscendingTail(b);
      AscendingPermutationsEqual(a[1..], b[1..]);
      SameHeadSameTail(a, b);
    }
  }

  /** Sorting sees only which strings there are, not the order they came in. */
  lemma SortOfPermutation(a: seq<JsString>, b: seq<JsString>)
    requires multiset(a) == multiset(b)
    ensures Sort(a) == Sort(b)
  {
    AscendingPermutationsEqual(Sort(a), Sort(b));
  }
}

/**
 * Python's ordering of `str` values (code point by code point, a proper
 * prefix first), which `sorted(...)` uses for the label lists, and what it
 * means for a list to be the sorted form of a set.
 */
module Strings {

  /** `a < b` on Python strings, comparing from position `i` on. */
  predicate LexLessFrom(a: string, b: string, i: nat)
    decreases |a| - i
  {
    i < |b| && (i >= |a| || a[i] < b[i] || (a[i] == b[i] && LexLessFrom(a, b, i + 1)))
  }

  /** `a < b` on Python strings. */
  predicate LexLess(a: string, b: string) {
    LexLessFrom(a, b, 0)
  }

  lemma {:induction false} LexLessFromIrreflexive(a: string, i: nat)
    ensures !LexLessFrom(a, a, i)
    decreases |a| - i
  {
    if i < |a| {
      LexLessFromIrreflexive(a, i + 1);
    }
  }

  lemma LexLessIrreflexive(a: string)
    ensures !LexLess(a, a)
  {
    LexLessFromIrreflexive(a, 0);
  }

  lemma {:induction false} LexLessFromTransitive(a: string, b: string, c: string, i: nat)
    requires LexLessFrom(a, b, i) && LexLessFrom(b, c, i)
    ensures LexLessFrom(a, c, i)
    decreases |a| - i
  {
    if i < |a| && a[i] == b[i] && b[i] == c[i] {
      LexLessFromTransitive(a, b, c, i + 1);
    }
  }

  lemma LexLessTransitive(a: string, b: string, c: string)
    requires LexLess(a, b) && LexLess(b, c)
    ensures LexLess(a, c)
  {
    LexLessFromTransitive(a, b, c, 0);
  }

  lemma LexLessAsymmetric(a: string, b: string)
    requires LexLess(a, b)
    ensures !LexLess(b, a)
  {
    if LexLess(b, a) {
      LexLessTransitive(a, b, a);
      LexLessIrreflexive(a);
    }
  }

  function Elements(xs: seq<string>): (r: set<string>)
    ensures forall x :: x in r <==> x in xs
  {
    set x | x in xs
  }

  lemma ElementsAppend(xs: seq<string>, ys: seq<string>)
    ensures Elements(xs + ys) == Elements(xs) + Elements(ys)
  {
  }

  lemma ElementsEmpty(xs: seq<string>)
    ensures Elements(xs) == {} <==> xs == []
  {
    if xs != [] {
      assert xs[0] in Elements(xs);
    }
  }

  /** No element occurs twice. */
  predicate Distinct(xs: seq<string>) {
    forall i, j :: 0 <= i < j < |xs| ==> xs[i] != xs[j]
  }

  /** A list without repeats has as many elements as its set. */
  lemma {:induction false} DistinctElements(xs: seq<string>)
    requires Distinct(xs)
    ensures |Elements(xs)| == |xs|
  {
    if xs != [] {
      var init := xs[..|xs| - 1];
      assert xs == init + [xs[|xs| - 1]];
      assert Distinct(init);
      DistinctElements(init);
      assert Elements(xs) == Elements(init) + {xs[|xs| - 1]};
    }
  }

  /** Each element is smaller than the next: the list is sorted without repeats. */
  predicate StrictlySorted(xs: seq<string>) {
    forall i :: 0 <= i < |xs| - 1 ==> LexLess(xs[i], xs[i + 1])
  }

  /** `xs == sorted(s)` for a set `s`. */
  predicate IsSortedOf(xs: seq<string>, s: set<string>) {
    StrictlySorted(xs) && Elements(xs) == s
  }

  lemma {:induction false} SortedPairwise(xs: seq<string>, i: nat, j: nat)
    requires StrictlySorted(xs) && i < j < |xs|
    ensures LexLess(xs[i], xs[j])
    decreases j - i
  {
    if i + 1 < j {
      SortedPairwise(xs, i + 1, j);
      LexLessTransitive(xs[i], xs[i + 1], xs[j]);
    }
  }

  lemma SortedAppend(xs: seq<string>, ys: seq<string>)
    requires StrictlySorted(xs) && StrictlySorted(ys)
    requires xs == [] || ys == [] || LexLess(xs[|xs| - 1], ys[0])
    ensures StrictlySorted(xs + ys)
  {
    var zs := xs + ys;
    forall i | 0 <= i < |zs| - 1
      ensures LexLess(zs[i], zs[i + 1])
    {
      if i + 1 < |xs| {
        assert zs[i] == xs[i] && zs[i + 1] == xs[i + 1];
      } else if i >= |xs| {
        assert zs[i] == ys[i - |xs|] && zs[i + 1] == ys[i + 1 - |xs|];
      }
    }
  }

  /** A strictly sorted list has no repeats, so its length is the size of its set. */
  lemma {:induction false} SortedDistinct(xs: seq<string>)
    requires StrictlySorted(xs)
    ensures |Elements(xs)| == |xs|
  {
    if xs != [] {
      var rest := xs[1..];
      assert StrictlySorted(rest) by {
        forall i | 0 <= i < |rest| - 1
          ensures LexLess(rest[i], rest[i + 1])
        {
          assert rest[i] == xs[i + 1] && rest[i + 1] == xs[i + 2];
        }
      }
      SortedDistinct(rest);
      if xs[0] in rest {
        var k :| 0 <= k < |rest| && rest[k] == xs[0];
        SortedPairwise(xs, 0, k + 1);
        LexLessIrreflexive(xs[0]);
        assert false;
      }
      assert Elements(xs) == {xs[0]} + Elements(rest);
    }
  }

  /** A strictly sorted list whose elements are exactly a set is that set sorted, and as long as it. */
  lemma SortedOfSet(xs: seq<string>, s: set<string>)
    requires StrictlySorted(xs) && Elements(xs) <= s && s <= Elements(xs)
    ensures IsSortedOf(xs, s) && |xs| == |s|
  {
    SortedDistinct(xs);
  }

  /** The sorted form of a set is unique: `xs == sorted(s)` pins xs down. */
  lemma {:induction false} SortedUnique(xs: seq<string>, ys: seq<string>)
    requires StrictlySorted(xs) && StrictlySorted(ys) && Elements(xs) == Elements(ys)
    ensures xs == ys
    decreases |xs|
  {
    ElementsEmpty(xs);
    ElementsEmpty(ys);
    if xs != [] && ys != [] {
      assert xs[0] == ys[0] by {
        if xs[0] != ys[0] {
          assert xs[0] in Elements(ys) && ys[0] in Elements(xs);
          var a :| 0 <= a < |ys| && ys[a] == xs[0];
          var b :| 0 <= b < |xs| && xs[b] == ys[0];
          assert a > 0 && b > 0;
          SortedPairwise(ys, 0, a);
          SortedPairwise(xs, 0, b);
          LexLessAsymmetric(xs[0], ys[0]);
          assert false;
        }
      }
      var xr, yr := xs[1..], ys[1..];
      assert StrictlySorted(xr) by {
        forall i | 0 <= i < |xr| - 1
          ensures LexLess(xr[i], xr[i + 1])
        {
          assert xr[i] == xs[i + 1] && xr[i + 1] == xs[i + 2];
        }
      }
      assert StrictlySorted(yr) by {
        forall i | 0 <= i < |yr| - 1
          ensures LexLess(yr[i], yr[i + 1])
        {
          assert yr[i] == ys[i + 1] && yr[i + 1] == ys[i + 2];
        }
      }
      forall x | x in xr
        ensures x in yr
      {
        var k :| 0 <= k < |xr| && xr[k] == x;
        SortedPairwise(xs, 0, k + 1);
        LexLessIrreflexive(x);
        assert x in Elements(xs);
        var m :| 0 <= m < |ys| && ys[m] == x;
        assert m != 0;
        assert x == yr[m - 1];
      }
      forall y | y in yr
        ensures y in xr
      {
        var k :| 0 <= k < |yr| && yr[k] == y;
        SortedPairwise(ys, 0, k + 1);
        LexLessIrreflexive(y);
        assert y in Elements(ys);
        var m :| 0 <= m < |xs| && xs[m] == y;
        assert m != 0;
        assert y == xr[m - 1];
      }
      assert Elements(xr) == Elements(yr);
      SortedUnique(xr, yr);
      assert xs == [xs[0]] + xr && ys == [ys[0]] + yr;
    }
  }

  /** A strictly sorted list has no repeats. */
  lemma SortedPairwiseDistinct(xs: seq<string>)
    requires StrictlySorted(xs)
    ensures Distinct(xs)
  {
    forall i, j | 0 <= i < j < |xs|
      ensures xs[i] != xs[j]
    {
      SortedPairwise(xs, i, j);
      LexLessIrreflexive(xs[i]);
    }
  }

  lemma DistinctAppendOne(xs: seq<string>, x: string)
    requires Distinct(xs) && x !in xs
    ensures Distinct(xs + [x])
  {
    var ys := xs + [x];
    forall i, j | 0 <= i < j < |ys|
      ensures ys[i] != ys[j]
    {
      assert ys[i] == xs[i];
      if j < |xs| {
        assert ys[j] == xs[j];
      }
    }
  }

  lemma AppendOneMinus(xs: seq<string>, x: string)
    requires x !in xs
    ensures Elements(xs + [x]) - Elements(xs) == {x}
  {
    ElementsAppend(xs, [x]);
  }
}

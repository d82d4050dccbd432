/**
 * Python dicts built from a sequence of (key, value) pairs, as a dict display
 * `{k1: v1, k2: v2, ...}` or a comprehension `{f(r): g(r) for r in rows}`
 * builds them: pairs are inserted in order, so a repeated key keeps the value
 * of its last pair.
 */
module Dicts {

  /** The keys the pairs mention, as a set. */
  function KeySet<K(==), V>(entries: seq<(K, V)>): set<K> {
    set i | 0 <= i < |entries| :: entries[i].0
  }

  /** No key is listed twice. */
  predicate DistinctKeys<K(==), V>(entries: seq<(K, V)>) {
    forall i, j :: 0 <= i < j < |entries| ==> entries[i].0 != entries[j].0
  }

  /** The value the last pair with key `k` gives it. */
  predicate IsLastFor<K(==), V>(entries: seq<(K, V)>, i: int) {
    0 <= i < |entries| && forall j :: i < j < |entries| ==> entries[j].0 != entries[i].0
  }

  /** The dict the pairs build. */
  function DictOf<K(==), V>(entries: seq<(K, V)>): (m: map<K, V>)
    ensures m.Keys == KeySet(entries)
    ensures forall k :: k in m ==> exists i :: IsLastFor(entries, i) && entries[i] == (k, m[k])
  {
    if entries == [] then map[]
    else
      var init, last := entries[..|entries| - 1], entries[|entries| - 1];
      var m := DictOf(init)[last.0 := last.1];
      assert entries == init + [last];
      assert forall k :: k in m ==> exists i :: IsLastFor(entries, i) && entries[i] == (k, m[k]) by {
        forall k | k in m
          ensures exists i :: IsLastFor(entries, i) && entries[i] == (k, m[k])
        {
          if k == last.0 {
            assert IsLastFor(entries, |entries| - 1);
          } else {
            var i :| IsLastFor(init, i) && init[i] == (k, DictOf(init)[k]);
            assert IsLastFor(entries, i);
          }
        }
      }
      m
  }

  /** The last pair for a key decides its value: the dict's "last one wins". */
  lemma {:induction false} DictOfLastWins<K, V>(entries: seq<(K, V)>, i: int)
    requires IsLastFor(entries, i)
    ensures DictOf(entries)[entries[i].0] == entries[i].1
  {
    var k := entries[i].0;
    assert k in DictOf(entries).Keys;
    var j :| IsLastFor(entries, j) && entries[j] == (k, DictOf(entries)[k]);
    assert 0 <= j < |entries| && entries[j].0 == k;
    assert j == i;
  }

  /** Without repeated keys every pair is found again in the dict, and nothing else is. */
  lemma DictOfDistinct<K, V>(entries: seq<(K, V)>)
    requires DistinctKeys(entries)
    ensures forall i :: 0 <= i < |entries| ==> DictOf(entries)[entries[i].0] == entries[i].1
    ensures DictOf(entries).Values == set e | e in entries :: e.1
  {
    var m := DictOf(entries);
    forall i | 0 <= i < |entries|
      ensures m[entries[i].0] == entries[i].1
    {
      DictOfLastWins(entries, i);
    }
    forall v | v in set e | e in entries :: e.1
      ensures v in m.Values
    {
      var e :| e in entries && e.1 == v;
      var i :| 0 <= i < |entries| && entries[i] == e;
      assert m[e.0] == v;
    }
  }

  /** Without repeated keys there are as many keys as pairs. */
  lemma {:induction false} DistinctKeysCount<K, V>(entries: seq<(K, V)>)
    requires DistinctKeys(entries)
    ensures |KeySet(entries)| == |entries|
  {
    if entries != [] {
      var init, last := entries[..|entries| - 1], entries[|entries| - 1];
      assert entries == init + [last];
      assert DistinctKeys(init);
      DistinctKeysCount(init);
      assert KeySet(entries) == KeySet(init) + {last.0};
      assert last.0 !in KeySet(init);
    }
  }

  /** Every value of a merged dict is a value of one of its parts. */
  lemma MergeValuesWithin<K, V>(a: map<K, V>, b: map<K, V>, s: set<V>)
    requires a.Values <= s && b.Values <= s
    ensures (a + b).Values <= s
  {
    forall v | v in (a + b).Values
      ensures v in s
    {
      var k :| k in a + b && (a + b)[k] == v;
      if k in b {
        assert v in b.Values;
      } else {
        assert v in a.Values;
      }
    }
  }
}

/**
 * The label engine of `bigearthnet_common/base.py`: converting old
 * (43-class) labels to new (19-class) labels, and encoding a label list as a
 * multi-hot vector over the 19 or the 43 classes.
 */
module Labels {
  import opened Wrappers
  import opened Strings
  import opened Constants

  /** `_old2new_label`: KeyError for an unknown label, `None` for a removed one. */
  function Old2NewLabel(l: string): (r: Result<Option<string>>)
    ensures r.Ok? <==> l in OLD2NEW_LABELS
    ensures r.Err? ==> r.error == KeyError
    ensures r.Ok? && r.value.Some? ==> r.value.value in NEW_LABELS
  {
    Old2NewOntoNewLabels();
    if l in OLD2NEW_LABELS then Ok(OLD2NEW_LABELS[l]) else Err(KeyError)
  }

  /** Every label is a key of the conversion `m`. */
  predicate AllKnown(m: map<string, Option<string>>, ls: seq<string>) {
    forall l :: l in ls ==> l in m
  }

  /** Every label is one the conversion `m` removes. */
  predicate AllRemoved(m: map<string, Option<string>>, ls: seq<string>)
    requires AllKnown(m, ls)
  {
    forall l :: l in ls ==> m[l].None?
  }

  /** The new labels of the kept old labels, in input order, repeats included. */
  function Converted(m: map<string, Option<string>>, ls: seq<string>): (r: seq<string>)
    requires AllKnown(m, ls)
    ensures |r| <= |ls|
  {
    if ls == [] then []
    else
      var rest := Converted(m, ls[1..]);
      match m[ls[0]]
      case None => rest
      case Some(n) => [n] + rest
  }

  /** Conversion works label by label: it distributes over concatenation. */
  lemma {:induction false} ConvertedAppend(m: map<string, Option<string>>, a: seq<string>, b: seq<string>)
    requires AllKnown(m, a) && AllKnown(m, b)
    ensures AllKnown(m, a + b) && Converted(m, a + b) == Converted(m, a) + Converted(m, b)
  {
    assert forall l :: l in a + b ==> l in a || l in b;
    if a != [] {
      assert (a + b)[0] == a[0] && (a + b)[1..] == a[1..] + b;
      ConvertedAppend(m, a[1..], b);
    } else {
      assert a + b == b;
    }
  }

  /** A single label converts to its image, or to nothing when it is removed. */
  lemma ConvertedSingle(m: map<string, Option<string>>, l: string)
    requires l in m
    ensures Converted(m, [l]) == (if m[l].Some? then [m[l].value] else [])
  {
    assert [l][1..] == [];
  }

  /** A new label is in the result exactly when some input label converts to it. */
  lemma {:induction false} ConvertedMembers(m: map<string, Option<string>>, ls: seq<string>, x: string)
    requires AllKnown(m, ls)
    ensures x in Converted(m, ls) <==> exists l :: l in ls && m[l] == Some(x)
  {
    if ls != [] {
      ConvertedMembers(m, ls[1..], x);
      if x in Converted(m, ls[1..]) {
        var l :| l in ls[1..] && m[l] == Some(x);
        assert l in ls;
      }
      if exists l :: l in ls && m[l] == Some(x) {
        var l :| l in ls && m[l] == Some(x);
        if l != ls[0] {
          var k :| 0 <= k < |ls| && ls[k] == l;
          assert ls[1..][k - 1] == l;
        }
      }
    }
  }

  /** Nothing is kept exactly when every label is removed. */
  lemma {:induction false} ConvertedEmpty(m: map<string, Option<string>>, ls: seq<string>)
    requires AllKnown(m, ls)
    ensures Converted(m, ls) == [] <==> AllRemoved(m, ls)
  {
    if ls != [] {
      ConvertedEmpty(m, ls[1..]);
      if AllRemoved(m, ls[1..]) && m[ls[0]].None? {
        forall l | l in ls ensures m[l].None? {
          if l != ls[0] {
            var k :| 0 <= k < |ls| && ls[k] == l;
            assert ls[1..][k - 1] == l;
          }
        }
      }
    }
  }

  /** Every converted label is one of `NEW_LABELS`. */
  lemma ConvertedInNewLabels(ls: seq<string>)
    requires AllKnown(OLD2NEW_LABELS, ls)
    ensures forall x :: x in Converted(OLD2NEW_LABELS, ls) ==> x in NEW_LABELS
  {
    Old2NewOntoNewLabels();
    forall x | x in Converted(OLD2NEW_LABELS, ls) ensures x in NEW_LABELS {
      ConvertedMembers(OLD2NEW_LABELS, ls, x);
    }
  }

  /**
   * `old2new_labels`: KeyError on the first unknown label; otherwise the
   * converted list, except that a non-empty input whose labels are all
   * removed gives `None` (with a warning).  An empty input gives `[]`.
   */
  function Old2NewLabels(ls: seq<string>): (r: Result<Option<seq<string>>>)
    ensures r.Err? <==> !AllKnown(OLD2NEW_LABELS, ls)
    ensures r.Err? ==> r.error == KeyError
    ensures r == Ok(None) <==> ls != [] && AllKnown(OLD2NEW_LABELS, ls) && AllRemoved(OLD2NEW_LABELS, ls)
    ensures ls == [] ==> r == Ok(Some([]))
    ensures r.Ok? && r.value.Some? ==> AllKnown(OLD2NEW_LABELS, ls) && r.value.value == Converted(OLD2NEW_LABELS, ls)
  {
    if !AllKnown(OLD2NEW_LABELS, ls) then Err(KeyError)
    else
      var newLabels := Converted(OLD2NEW_LABELS, ls);
      ConvertedEmpty(OLD2NEW_LABELS, ls);
      if |ls| > 0 && |newLabels| == 0 then Ok(None) else Ok(Some(newLabels))
  }

  // ---------------------------------------------------------------------
  // Multi-hot encoding.

  /** The multi-hot vector of `labels` over the class list `ordered`. */
  function MultiHotOf(labels: seq<string>, ordered: seq<string>): (v: seq<real>)
    ensures |v| == |ordered|
    ensures forall i :: 0 <= i < |ordered| ==> v[i] == 0.0 || v[i] == 1.0
  {
    seq(|ordered|, i requires 0 <= i < |ordered| => if ordered[i] in labels then 1.0 else 0.0)
  }

  /** The classes a vector marks with 1. */
  function Marked(v: seq<real>, ordered: seq<string>): set<string>
    requires |v| == |ordered|
  {
    set i | 0 <= i < |ordered| && v[i] == 1.0 :: ordered[i]
  }

  /** The vector marks exactly the input labels: decoding gives back the label set. */
  lemma MultiHotRoundTrip(labels: seq<string>, ordered: seq<string>)
    requires forall l :: l in labels ==> l in ordered
    ensures Marked(MultiHotOf(labels, ordered), ordered) == Elements(labels)
  {
    var v := MultiHotOf(labels, ordered);
    forall l | l in labels ensures l in Marked(v, ordered) {
      var i :| 0 <= i < |ordered| && ordered[i] == l;
      assert v[i] == 1.0;
    }
  }

  /** Order and repeats in the input do not matter. */
  lemma MultiHotOfSet(a: seq<string>, b: seq<string>, ordered: seq<string>)
    requires Elements(a) == Elements(b)
    ensures MultiHotOf(a, ordered) == MultiHotOf(b, ordered)
  {
    assert forall x :: x in a <==> x in Elements(a);
  }

  /**
   * The loop shared by `ben_19_labels_to_multi_hot` and
   * `ben_43_labels_to_multi_hot`: look every label's position up in the
   * class list (KeyError for an unknown label, before anything is
   * written), then set those positions of a zero vector to 1.
   */
  method EncodeMultiHot(labels: seq<string>, ordered: seq<string>) returns (r: Result<seq<real>>)
    requires Distinct(ordered)
    ensures r.Err? <==> exists l :: l in labels && l !in ordered
    ensures r.Err? ==> r.error == KeyError
    ensures r.Ok? ==> r.value == MultiHotOf(labels, ordered)
  {
    var toIdx := map i | 0 <= i < |ordered| :: ordered[i] := i;
    var idxs: seq<nat> := [];
    var k := 0;
    while k < |labels|
      invariant 0 <= k <= |labels| && |idxs| == k
      invariant forall j :: 0 <= j < k ==> idxs[j] < |ordered| && ordered[idxs[j]] == labels[j]
    {
      if labels[k] !in toIdx {
        assert labels[k] !in ordered;
        return Err(KeyError);
      }
      idxs := idxs + [toIdx[labels[k]]];
      k := k + 1;
    }
    var hot := new real[|ordered|](_ => 0.0);
    var j := 0;
    while j < |idxs|
      invariant 0 <= j <= |idxs|
      invariant forall i :: 0 <= i < hot.Length ==> hot[i] == if ordered[i] in labels[..j] then 1.0 else 0.0
    {
      assert labels[..j + 1] == labels[..j] + [labels[j]];
      hot[idxs[j]] := 1.0;
      j := j + 1;
    }
    assert labels[..j] == labels;
    r := Ok(hot[..]);
  }

  /** `ordered` lists the classes of `classes` once each, in some order. */
  predicate IsOrderingOf(ordered: seq<string>, classes: seq<string>) {
    Distinct(ordered) && Elements(ordered) == Elements(classes)
  }

  lemma OrderingLength(ordered: seq<string>, classes: seq<string>)
    requires IsOrderingOf(ordered, classes) && Distinct(classes)
    ensures |ordered| == |classes|
  {
    DistinctElements(ordered);
    DistinctElements(classes);
  }

  lemma NewLabelsDistinct()
    ensures Distinct(NEW_LABELS) && |NEW_LABELS| == 19
  {
    NewLabelsSorted();
    SortedPairwiseDistinct(NEW_LABELS);
  }

  lemma OldLabelsDistinct()
    ensures Distinct(OLD_LABELS) && |OLD_LABELS| == 43
  {
    OldLabelsSorted();
    SortedPairwiseDistinct(OLD_LABELS);
  }

  /**
   * `ben_19_labels_to_multi_hot`: over `NEW_LABELS` when `lexSorted`, over
   * the paper's class order otherwise (`originalOrder`, an ordering of the
   * same 19 classes).
   */
  method Ben19LabelsToMultiHot(labels: seq<string>, lexSorted: bool, originalOrder: seq<string>)
    returns (r: Result<seq<real>>)
    requires IsOrderingOf(originalOrder, NEW_LABELS)
    ensures r.Err? <==> exists l :: l in labels && l !in NEW_LABELS
    ensures r.Err? ==> r.error == KeyError
    ensures r.Ok? ==> |r.value| == 19
    ensures r.Ok? ==> r.value == MultiHotOf(labels, if lexSorted then NEW_LABELS else originalOrder)
  {
    NewLabelsDistinct();
    OrderingLength(originalOrder, NEW_LABELS);
    assert forall l :: l in originalOrder <==> l in NEW_LABELS by {
      assert forall l :: l in originalOrder <==> l in Elements(originalOrder);
    }
    r := EncodeMultiHot(labels, if lexSorted then NEW_LABELS else originalOrder);
  }

  /**
   * `ben_43_labels_to_multi_hot`: over `OLD_LABELS` when `lexSorted`, over
   * the paper's class order otherwise (`originalOrder`, an ordering of the
   * same 43 classes).
   */
  method Ben43LabelsToMultiHot(labels: seq<string>, lexSorted: bool, originalOrder: seq<string>)
    returns (r: Result<seq<real>>)
    requires IsOrderingOf(originalOrder, OLD_LABELS)
    ensures r.Err? <==> exists l :: l in labels && l !in OLD_LABELS
    ensures r.Err? ==> r.error == KeyError
    ensures r.Ok? ==> |r.value| == 43
    ensures r.Ok? ==> r.value == MultiHotOf(labels, if lexSorted then OLD_LABELS else originalOrder)
  {
    OldLabelsDistinct();
    OrderingLength(originalOrder, OLD_LABELS);
    assert forall l :: l in originalOrder <==> l in OLD_LABELS by {
      assert forall l :: l in originalOrder <==> l in Elements(originalOrder);
    }
    r := EncodeMultiHot(labels, if lexSorted then OLD_LABELS else originalOrder);
  }

  // ---------------------------------------------------------------------
  // The cases of tests/test_base.py.

  lemma Old2NewUrbanFabric()
    ensures Old2NewLabels(["Continuous urban fabric", "Discontinuous urban fabric"])
      == Ok(Some(["Urban fabric", "Urban fabric"]))
  {
    Old2NewLookup1("Continuous urban fabric");
    Old2NewLookup1("Discontinuous urban fabric");
    UrbanFabricParts();
    ConvertedTwo(OLD2NEW_LABELS, "Continuous urban fabric", "Discontinuous urban fabric");
  }

  lemma UrbanFabricParts()
    ensures OLD2NEW_1["Continuous urban fabric"] == Some("Urban fabric")
    ensures OLD2NEW_1["Discontinuous urban fabric"] == Some("Urban fabric")
  {
  }

  /** Two kept labels convert to their two images, in order. */
  lemma ConvertedTwo(m: map<string, Option<string>>, a: string, b: string)
    requires a in m && b in m && m[a].Some? && m[b].Some?
    ensures AllKnown(m, [a, b]) && Converted(m, [a, b]) == [m[a].value, m[b].value]
  {
    assert [a, b][1..] == [b] && [b][1..] == [];
  }

  lemma Old2NewOnlyRemoved()
    ensures Old2NewLabels(["Burnt areas"]) == Ok(None)
  {
    Old2NewLookup5("Burnt areas");
  }

  lemma Old2NewUnknown()
    ensures Old2NewLabels(["Illegal input label"]) == Err(KeyError)
  {
    IllegalNotIn123();
    IllegalNotIn45();
  }

  lemma IllegalNotIn123()
    ensures "Illegal input label" !in OLD2NEW_1 + OLD2NEW_2 + OLD2NEW_3
  {
  }

  lemma IllegalNotIn45()
    ensures "Illegal input label" !in OLD2NEW_4 + OLD2NEW_5
  {
  }

  /** The first two lexicographic classes are the two labels given; no other class is marked. */
  lemma MultiHot19Sorted()
    ensures var v := MultiHotOf(["Agro-forestry areas", "Arable land"], NEW_LABELS);
      v[0] == 1.0 && v[1] == 1.0 && forall i :: 2 <= i < 19 ==> v[i] == 0.0
  {
    NewLabelsDistinct();
    var v := MultiHotOf(["Agro-forestry areas", "Arable land"], NEW_LABELS);
    assert NEW_LABELS[0] == "Agro-forestry areas" && NEW_LABELS[1] == "Arable land";
    forall i | 2 <= i < 19 ensures v[i] == 0.0 {
      assert NEW_LABELS[i] != NEW_LABELS[0] && NEW_LABELS[i] != NEW_LABELS[1];
    }
  }

  /** `Airport` is not a 19-class label (the old label is `Airports`, which BigEarthNet-19 removes). */
  lemma AirportNotNewLabel()
    ensures "Airport" !in NEW_LABELS
  {
    assert "Airport" !in NEW_LABELS_1;
    assert "Airport" !in NEW_LABELS_2;
  }

  /** `Arable land` is a 19-class label, not one of the 43 old ones. */
  lemma ArableLandNotOldLabel()
    ensures "Arable land" in NEW_LABELS && "Arable land" !in OLD_LABELS
  {
    assert "Arable land" !in OLD_LABELS_1 && "Arable land" !in OLD_LABELS_2;
    assert "Arable land" !in OLD_LABELS_3 && "Arable land" !in OLD_LABELS_4;
  }
}

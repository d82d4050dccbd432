/**
 * The fixed tables of `bigearthnet_common/constants.py`: the 43 -> 19 label
 * conversion, the sorted label lists derived from it, the three CORINE Land
 * Cover levels, the channel groups, the country list and the dataset sizes.
 *
 * Dict displays become map displays (split into a few parts joined with
 * `+`, whose keys are disjoint); tuples and sorted lists become sequences.
 * The longest labels are spelled as concatenations of shorter literals.
 */
module Constants {
  import opened Wrappers
  import opened Strings
  import opened Dicts

  // Labels too long to be written as one literal.
  const LAND_PRINCIPALLY_AGRICULTURE: string :=
    "Land principally occupied " + "by agriculture, with significant " + "areas of natural vegetation"
  const ANNUAL_WITH_PERMANENT: string := "Annual crops associated " + "with permanent crops"
  const ROAD_AND_RAIL: string := "Road and rail networks " + "and associated land"
  const MOORS_AND_SCLEROPHYLLOUS: string := "Moors, heathland and " + "sclerophyllous vegetation"
  const GRASSLAND_AND_SPARSE: string := "Natural grassland and " + "sparsely vegetated areas"
  const GLACIERS: string := "Glaciers and perpetual snow"

  // ---------------------------------------------------------------------
  // The old (43 class) to new (19 class) label conversion
  // ---------------------------------------------------------------------

  const OLD2NEW_1: map<string, Option<string>> := map[
    "Continuous urban fabric" := Some("Urban fabric"),
    "Discontinuous urban fabric" := Some("Urban fabric"),
    "Industrial or commercial units" := Some("Industrial or commercial units"),
    "Non-irrigated arable land" := Some("Arable land"),
    "Permanently irrigated land" := Some("Arable land"),
    "Rice fields" := Some("Arable land"),
    "Vineyards" := Some("Permanent crops"),
    "Fruit trees and berry plantations" := Some("Permanent crops"),
    "Olive groves" := Some("Permanent crops"),
    ANNUAL_WITH_PERMANENT := Some("Permanent crops"),
    "Pastures" := Some("Pastures")
  ]
  const OLD2NEW_2: map<string, Option<string>> := map[
    "Complex cultivation patterns" := Some("Complex cultivation patterns"),
    LAND_PRINCIPALLY_AGRICULTURE := Some(LAND_PRINCIPALLY_AGRICULTURE),
    "Agro-forestry areas" := Some("Agro-forestry areas"),
    "Broad-leaved forest" := Some("Broad-leaved forest"),
    "Coniferous forest" := Some("Coniferous forest"),
    "Mixed forest" := Some("Mixed forest")
  ]
  const OLD2NEW_3: map<string, Option<string>> := map[
    "Natural grassland" := Some(GRASSLAND_AND_SPARSE),
    "Sparsely vegetated areas" := Some(GRASSLAND_AND_SPARSE),
    "Moors and heathland" := Some(MOORS_AND_SCLEROPHYLLOUS),
    "Sclerophyllous vegetation" := Some(MOORS_AND_SCLEROPHYLLOUS),
    "Transitional woodland/shrub" := Some("Transitional woodland, shrub")
  ]
  const OLD2NEW_4: map<string, Option<string>> := map[
    "Beaches, dunes, sands" := Some("Beaches, dunes, sands"),
    "Inland marshes" := Some("Inland wetlands"),
    "Peatbogs" := Some("Inland wetlands"),
    "Salt marshes" := Some("Coastal wetlands"),
    "Salines" := Some("Coastal wetlands"),
    "Water courses" := Some("Inland waters"),
    "Water bodies" := Some("Inland waters"),
    "Coastal lagoons" := Some("Marine waters"),
    "Estuaries" := Some("Marine waters"),
    "Sea and ocean" := Some("Marine waters")
  ]
  /** The labels BigEarthNet-19 removes. */
  const OLD2NEW_5: map<string, Option<string>> := map[
    "Airports" := None,
    "Bare rock" := None,
    "Dump sites" := None,
    "Port areas" := None,
    ROAD_AND_RAIL := None,
    "Mineral extraction sites" := None,
    "Construction sites" := None,
    "Sport and leisure facilities" := None,
    "Burnt areas" := None,
    "Intertidal flats" := None,
    "Green urban areas" := None
  ]

  /** `OLD2NEW_LABELS_DICT`: `None` marks a label BigEarthNet-19 drops. */
  const OLD2NEW_LABELS: map<string, Option<string>> := OLD2NEW_1 + OLD2NEW_2 + OLD2NEW_3 + OLD2NEW_4 + OLD2NEW_5

  /** The labels a conversion map keeps, i.e. its non-`None` values. */
  function RetainedLabels(m: map<string, Option<string>>): (r: set<string>)
    ensures forall l :: l in r <==> exists k :: k in m && m[k] == Some(l)
  {
    set k | k in m && m[k].Some? :: m[k].value
  }

  const OLD_LABELS_1: seq<string> := [
    "Agro-forestry areas", "Airports", ANNUAL_WITH_PERMANENT, "Bare rock",
    "Beaches, dunes, sands", "Broad-leaved forest", "Burnt areas", "Coastal lagoons",
    "Complex cultivation patterns", "Coniferous forest", "Construction sites"]
  const OLD_LABELS_2: seq<string> := [
    "Continuous urban fabric", "Discontinuous urban fabric", "Dump sites", "Estuaries",
    "Fruit trees and berry plantations", "Green urban areas", "Industrial or commercial units",
    "Inland marshes", "Intertidal flats", LAND_PRINCIPALLY_AGRICULTURE, "Mineral extraction sites"]
  const OLD_LABELS_3: seq<string> := [
    "Mixed forest", "Moors and heathland", "Natural grassland", "Non-irrigated arable land",
    "Olive groves", "Pastures", "Peatbogs", "Permanently irrigated land", "Port areas",
    "Rice fields", ROAD_AND_RAIL]
  const OLD_LABELS_4: seq<string> := [
    "Salines", "Salt marshes", "Sclerophyllous vegetation", "Sea and ocean",
    "Sparsely vegetated areas", "Sport and leisure facilities", "Transitional woodland/shrub",
    "Vineyards", "Water bodies", "Water courses"]

  /** `OLD_LABELS`, i.e. `sorted(OLD2NEW_LABELS_DICT.keys())` (see `OldLabelsSorted`). */
  const OLD_LABELS: seq<string> :=
    OLD_LABELS_1 + OLD_LABELS_2 + OLD_LABELS_3 + OLD_LABELS_4

  const NEW_LABELS_1: seq<string> := [
    "Agro-forestry areas", "Arable land", "Beaches, dunes, sands", "Broad-leaved forest",
    "Coastal wetlands", "Complex cultivation patterns", "Coniferous forest",
    "Industrial or commercial units", "Inland waters"]
  const NEW_LABELS_2: seq<string> := [
    "Inland wetlands", LAND_PRINCIPALLY_AGRICULTURE, "Marine waters", "Mixed forest",
    MOORS_AND_SCLEROPHYLLOUS, GRASSLAND_AND_SPARSE, "Pastures", "Permanent crops",
    "Transitional woodland, shrub", "Urban fabric"]

  /** `NEW_LABELS`, i.e. the sorted non-`None` values of the conversion (see `NewLabelsSorted`). */
  const NEW_LABELS: seq<string> := NEW_LABELS_1 + NEW_LABELS_2

  lemma OldLabelsChunk1Sorted()
    ensures StrictlySorted(OLD_LABELS_1)
  {
    assert LexLess(OLD_LABELS_1[0], OLD_LABELS_1[1]) && LexLess(OLD_LABELS_1[1], OLD_LABELS_1[2]) &&
      LexLess(OLD_LABELS_1[2], OLD_LABELS_1[3]) && LexLess(OLD_LABELS_1[3], OLD_LABELS_1[4]) &&
      LexLess(OLD_LABELS_1[4], OLD_LABELS_1[5]) && LexLess(OLD_LABELS_1[5], OLD_LABELS_1[6]) &&
      LexLess(OLD_LABELS_1[6], OLD_LABELS_1[7]) && LexLess(OLD_LABELS_1[7], OLD_LABELS_1[8]) &&
      LexLess(OLD_LABELS_1[8], OLD_LABELS_1[9]) && LexLess(OLD_LABELS_1[9], OLD_LABELS_1[10]);
  }

  lemma OldLabelsChunk2Sorted()
    ensures StrictlySorted(OLD_LABELS_2)
  {
    assert LexLess(OLD_LABELS_2[0], OLD_LABELS_2[1]) && LexLess(OLD_LABELS_2[1], OLD_LABELS_2[2]) &&
      LexLess(OLD_LABELS_2[2], OLD_LABELS_2[3]) && LexLess(OLD_LABELS_2[3], OLD_LABELS_2[4]) &&
      LexLess(OLD_LABELS_2[4], OLD_LABELS_2[5]) && LexLess(OLD_LABELS_2[5], OLD_LABELS_2[6]) &&
      LexLess(OLD_LABELS_2[6], OLD_LABELS_2[7]) && LexLess(OLD_LABELS_2[7], OLD_LABELS_2[8]) &&
      LexLess(OLD_LABELS_2[8], OLD_LABELS_2[9]) && LexLess(OLD_LABELS_2[9], OLD_LABELS_2[10]);
  }

  lemma OldLabelsChunk3Sorted()
    ensures StrictlySorted(OLD_LABELS_3)
  {
    assert LexLess(OLD_LABELS_3[0], OLD_LABELS_3[1]) && LexLess(OLD_LABELS_3[1], OLD_LABELS_3[2]) &&
      LexLess(OLD_LABELS_3[2], OLD_LABELS_3[3]) && LexLess(OLD_LABELS_3[3], OLD_LABELS_3[4]) &&
      LexLess(OLD_LABELS_3[4], OLD_LABELS_3[5]) && LexLess(OLD_LABELS_3[5], OLD_LABELS_3[6]) &&
      LexLess(OLD_LABELS_3[6], OLD_LABELS_3[7]) && LexLess(OLD_LABELS_3[7], OLD_LABELS_3[8]) &&
      LexLess(OLD_LABELS_3[8], OLD_LABELS_3[9]) && LexLess(OLD_LABELS_3[9], OLD_LABELS_3[10]);
  }

  lemma OldLabelsChunk4Sorted()
    ensures StrictlySorted(OLD_LABELS_4)
  {
    assert LexLess(OLD_LABELS_4[0], OLD_LABELS_4[1]) && LexLess(OLD_LABELS_4[1], OLD_LABELS_4[2]) &&
      LexLess(OLD_LABELS_4[2], OLD_LABELS_4[3]) && LexLess(OLD_LABELS_4[3], OLD_LABELS_4[4]) &&
      LexLess(OLD_LABELS_4[4], OLD_LABELS_4[5]) && LexLess(OLD_LABELS_4[5], OLD_LABELS_4[6]) &&
      LexLess(OLD_LABELS_4[6], OLD_LABELS_4[7]) && LexLess(OLD_LABELS_4[7], OLD_LABELS_4[8]) &&
      LexLess(OLD_LABELS_4[8], OLD_LABELS_4[9]);
  }

  lemma NewLabelsChunksSorted()
    ensures StrictlySorted(NEW_LABELS_1) && StrictlySorted(NEW_LABELS_2)
    ensures LexLess(NEW_LABELS_1[8], NEW_LABELS_2[0])
  {
    NewLabelsChunk1Sorted();
    NewLabelsChunk2Sorted();
  }

  lemma NewLabelsChunk1Sorted()
    ensures StrictlySorted(NEW_LABELS_1)
  {
    assert LexLess(NEW_LABELS_1[0], NEW_LABELS_1[1]) && LexLess(NEW_LABELS_1[1], NEW_LABELS_1[2]) &&
      LexLess(NEW_LABELS_1[2], NEW_LABELS_1[3]) && LexLess(NEW_LABELS_1[3], NEW_LABELS_1[4]) &&
      LexLess(NEW_LABELS_1[4], NEW_LABELS_1[5]) && LexLess(NEW_LABELS_1[5], NEW_LABELS_1[6]) &&
      LexLess(NEW_LABELS_1[6], NEW_LABELS_1[7]) && LexLess(NEW_LABELS_1[7], NEW_LABELS_1[8]);
  }

  lemma NewLabelsChunk2Sorted()
    ensures StrictlySorted(NEW_LABELS_2)
  {
    assert LexLess(NEW_LABELS_2[0], NEW_LABELS_2[1]) && LexLess(NEW_LABELS_2[1], NEW_LABELS_2[2]) &&
      LexLess(NEW_LABELS_2[2], NEW_LABELS_2[3]) && LexLess(NEW_LABELS_2[3], NEW_LABELS_2[4]) &&
      LexLess(NEW_LABELS_2[4], NEW_LABELS_2[5]) && LexLess(NEW_LABELS_2[5], NEW_LABELS_2[6]) &&
      LexLess(NEW_LABELS_2[6], NEW_LABELS_2[7]) && LexLess(NEW_LABELS_2[7], NEW_LABELS_2[8]) &&
      LexLess(NEW_LABELS_2[8], NEW_LABELS_2[9]);
  }

  lemma OldLabelsBoundaries()
    ensures LexLess(OLD_LABELS_1[10], OLD_LABELS_2[0]) && LexLess(OLD_LABELS_2[10], OLD_LABELS_3[0])
    ensures LexLess(OLD_LABELS_3[10], OLD_LABELS_4[0])
  {
  }

  lemma OldLabelsAreKeys()
    ensures Elements(OLD_LABELS) == OLD2NEW_LABELS.Keys
  {
    KeysInLabels1();
    KeysInLabels2();
    KeysInLabels3();
    KeysInLabels4();
    KeysInLabels5();
    LabelsInKeys1();
    LabelsInKeys2();
    LabelsInKeys3();
    LabelsInKeys4();
    ElementsAppend(OLD_LABELS_1, OLD_LABELS_2);
    ElementsAppend(OLD_LABELS_1 + OLD_LABELS_2, OLD_LABELS_3);
    ElementsAppend(OLD_LABELS_1 + OLD_LABELS_2 + OLD_LABELS_3, OLD_LABELS_4);
  }

  lemma KeysInLabels1()
    ensures OLD2NEW_1.Keys <= Elements(OLD_LABELS)
  {
  }

  lemma KeysInLabels2()
    ensures OLD2NEW_2.Keys <= Elements(OLD_LABELS)
  {
  }

  lemma KeysInLabels3()
    ensures OLD2NEW_3.Keys <= Elements(OLD_LABELS)
  {
  }

  lemma KeysInLabels4()
    ensures OLD2NEW_4.Keys <= Elements(OLD_LABELS)
  {
  }

  lemma KeysInLabels5()
    ensures OLD2NEW_5.Keys <= Elements(OLD_LABELS)
  {
  }

  lemma LabelsInKeys1()
    ensures Elements(OLD_LABELS_1) <= OLD2NEW_LABELS.Keys
  {
  }

  lemma LabelsInKeys2()
    ensures Elements(OLD_LABELS_2) <= OLD2NEW_LABELS.Keys
  {
  }

  lemma LabelsInKeys3()
    ensures Elements(OLD_LABELS_3) <= OLD2NEW_LABELS.Keys
  {
  }

  lemma LabelsInKeys4()
    ensures Elements(OLD_LABELS_4) <= OLD2NEW_LABELS.Keys
  {
  }

  lemma OldLabelsStrictlySorted()
    ensures StrictlySorted(OLD_LABELS)
  {
    OldLabelsChunk1Sorted();
    OldLabelsChunk2Sorted();
    OldLabelsChunk3Sorted();
    OldLabelsChunk4Sorted();
    OldLabelsBoundaries();
    SortedAppend(OLD_LABELS_1, OLD_LABELS_2);
    SortedAppend(OLD_LABELS_1 + OLD_LABELS_2, OLD_LABELS_3);
    SortedAppend(OLD_LABELS_1 + OLD_LABELS_2 + OLD_LABELS_3, OLD_LABELS_4);
  }

  /** `OLD_LABELS` is the sorted key list of the conversion, and there are 43 old labels. */
  lemma OldLabelsSorted()
    ensures IsSortedOf(OLD_LABELS, OLD2NEW_LABELS.Keys)
    ensures |OLD_LABELS| == |OLD2NEW_LABELS| == 43
  {
    OldLabelsStrictlySorted();
    OldLabelsAreKeys();
    SortedDistinct(OLD_LABELS);
  }

  /** The parts of the conversion display share no key. */
  lemma Old2NewPartsDisjoint()
    ensures OLD2NEW_1.Keys !! OLD2NEW_2.Keys
    ensures OLD2NEW_1.Keys !! OLD2NEW_3.Keys
    ensures OLD2NEW_1.Keys !! OLD2NEW_4.Keys
    ensures OLD2NEW_1.Keys !! OLD2NEW_5.Keys
    ensures OLD2NEW_2.Keys !! OLD2NEW_3.Keys
    ensures OLD2NEW_2.Keys !! OLD2NEW_4.Keys
    ensures OLD2NEW_2.Keys !! OLD2NEW_5.Keys
    ensures OLD2NEW_3.Keys !! OLD2NEW_4.Keys
    ensures OLD2NEW_3.Keys !! OLD2NEW_5.Keys
    ensures OLD2NEW_4.Keys !! OLD2NEW_5.Keys
  {
    Old2NewPartsDisjoint12();
    Old2NewPartsDisjoint13();
    Old2NewPartsDisjoint14();
    Old2NewPartsDisjoint15();
    Old2NewPartsDisjoint23();
    Old2NewPartsDisjoint24();
    Old2NewPartsDisjoint25();
    Old2NewPartsDisjoint34();
    Old2NewPartsDisjoint35();
    Old2NewPartsDisjoint45();
  }

  lemma Old2NewPartsDisjoint12()
    ensures OLD2NEW_1.Keys !! OLD2NEW_2.Keys
  {
  }

  lemma Old2NewPartsDisjoint13()
    ensures OLD2NEW_1.Keys !! OLD2NEW_3.Keys
  {
  }

  lemma Old2NewPartsDisjoint14()
    ensures OLD2NEW_1.Keys !! OLD2NEW_4.Keys
  {
  }

  lemma Old2NewPartsDisjoint15()
    ensures OLD2NEW_1.Keys !! OLD2NEW_5.Keys
  {
  }

  lemma Old2NewPartsDisjoint23()
    ensures OLD2NEW_2.Keys !! OLD2NEW_3.Keys
  {
  }

  lemma Old2NewPartsDisjoint24()
    ensures OLD2NEW_2.Keys !! OLD2NEW_4.Keys
  {
  }

  lemma Old2NewPartsDisjoint25()
    ensures OLD2NEW_2.Keys !! OLD2NEW_5.Keys
  {
  }

  lemma Old2NewPartsDisjoint34()
    ensures OLD2NEW_3.Keys !! OLD2NEW_4.Keys
  {
  }

  lemma Old2NewPartsDisjoint35()
    ensures OLD2NEW_3.Keys !! OLD2NEW_5.Keys
  {
  }

  lemma Old2NewPartsDisjoint45()
    ensures OLD2NEW_4.Keys !! OLD2NEW_5.Keys
  {
  }

  /** Looking a label up in the whole conversion is looking it up in the part that lists it. */
  lemma Old2NewLookup1(k: string)
    requires k in OLD2NEW_1
    ensures k in OLD2NEW_LABELS && OLD2NEW_LABELS[k] == OLD2NEW_1[k]
  {
    Old2NewPartsDisjoint();
  }

  lemma Old2NewLookup5(k: string)
    requires k in OLD2NEW_5
    ensures k in OLD2NEW_LABELS && OLD2NEW_LABELS[k] == OLD2NEW_5[k]
  {
    Old2NewPartsDisjoint();
  }

  /** A conversion whose every value is `None` or a label of `s` keeps only labels of `s`. */
  lemma RetainedWithin(m: map<string, Option<string>>, s: set<string>)
    requires forall k :: k in m ==> m[k].None? || m[k].value in s
    ensures RetainedLabels(m) <= s
  {
  }

  /** With no key shared, a merged conversion keeps exactly what its two parts keep. */
  lemma RetainedMerge(a: map<string, Option<string>>, b: map<string, Option<string>>)
    requires a.Keys !! b.Keys
    ensures RetainedLabels(a + b) == RetainedLabels(a) + RetainedLabels(b)
  {
    forall l | l in RetainedLabels(a + b)
      ensures l in RetainedLabels(a) + RetainedLabels(b)
    {
      var k :| k in a + b && (a + b)[k] == Some(l);
      if k in b {
        assert b[k] == Some(l);
      } else {
        assert a[k] == Some(l);
      }
    }
    forall l | l in RetainedLabels(a) + RetainedLabels(b)
      ensures l in RetainedLabels(a + b)
    {
      if l in RetainedLabels(b) {
        var k :| k in b && b[k] == Some(l);
        assert (a + b)[k] == Some(l);
      } else {
        var k :| k in a && a[k] == Some(l);
        assert (a + b)[k] == Some(l);
      }
    }
  }

  /** What the whole conversion keeps is what its five parts keep. */
  lemma RetainedByParts()
    ensures RetainedLabels(OLD2NEW_LABELS) ==
      RetainedLabels(OLD2NEW_1) + RetainedLabels(OLD2NEW_2) + RetainedLabels(OLD2NEW_3) +
      RetainedLabels(OLD2NEW_4) + RetainedLabels(OLD2NEW_5)
  {
    Old2NewPartsDisjoint();
    RetainedMerge(OLD2NEW_1, OLD2NEW_2);
    RetainedMerge(OLD2NEW_1 + OLD2NEW_2, OLD2NEW_3);
    RetainedMerge(OLD2NEW_1 + OLD2NEW_2 + OLD2NEW_3, OLD2NEW_4);
    RetainedMerge(OLD2NEW_1 + OLD2NEW_2 + OLD2NEW_3 + OLD2NEW_4, OLD2NEW_5);
  }

  lemma RetainedPart1()
    ensures RetainedLabels(OLD2NEW_1) == {"Urban fabric", "Industrial or commercial units", "Arable land", "Permanent crops", "Pastures"}
  {
    var kept := {"Urban fabric", "Industrial or commercial units", "Arable land", "Permanent crops", "Pastures"};
    assert forall k :: k in OLD2NEW_1 ==> OLD2NEW_1[k].Some? && OLD2NEW_1[k].value in kept;
    RetainedWithin(OLD2NEW_1, kept);
    Old2NewWitnesses1();
  }

  lemma Old2NewWitnesses1()
    ensures OLD2NEW_1["Discontinuous urban fabric"] == Some("Urban fabric") &&
      OLD2NEW_1["Industrial or commercial units"] == Some("Industrial or commercial units") &&
      OLD2NEW_1["Rice fields"] == Some("Arable land") &&
      OLD2NEW_1["Olive groves"] == Some("Permanent crops") &&
      OLD2NEW_1["Pastures"] == Some("Pastures")
  {
  }

  lemma RetainedPart2()
    ensures RetainedLabels(OLD2NEW_2) == {"Complex cultivation patterns", LAND_PRINCIPALLY_AGRICULTURE, "Agro-forestry areas",
      "Broad-leaved forest", "Coniferous forest", "Mixed forest"}
  {
    var kept := {"Complex cultivation patterns", LAND_PRINCIPALLY_AGRICULTURE, "Agro-forestry areas",
      "Broad-leaved forest", "Coniferous forest", "Mixed forest"};
    assert forall k :: k in OLD2NEW_2 ==> OLD2NEW_2[k].Some? && OLD2NEW_2[k].value in kept;
    RetainedWithin(OLD2NEW_2, kept);
    Old2NewWitnesses2();
  }

  lemma Old2NewWitnesses2()
    ensures OLD2NEW_2["Complex cultivation patterns"] == Some("Complex cultivation patterns") &&
      OLD2NEW_2[LAND_PRINCIPALLY_AGRICULTURE] == Some(LAND_PRINCIPALLY_AGRICULTURE) &&
      OLD2NEW_2["Agro-forestry areas"] == Some("Agro-forestry areas") &&
      OLD2NEW_2["Broad-leaved forest"] == Some("Broad-leaved forest") &&
      OLD2NEW_2["Coniferous forest"] == Some("Coniferous forest") &&
      OLD2NEW_2["Mixed forest"] == Some("Mixed forest")
  {
  }

  lemma RetainedPart3()
    ensures RetainedLabels(OLD2NEW_3) == {GRASSLAND_AND_SPARSE, MOORS_AND_SCLEROPHYLLOUS, "Transitional woodland, shrub"}
  {
    var kept := {GRASSLAND_AND_SPARSE, MOORS_AND_SCLEROPHYLLOUS, "Transitional woodland, shrub"};
    assert forall k :: k in OLD2NEW_3 ==> OLD2NEW_3[k].Some? && OLD2NEW_3[k].value in kept;
    RetainedWithin(OLD2NEW_3, kept);
    Old2NewWitnesses3();
  }

  lemma Old2NewWitnesses3()
    ensures OLD2NEW_3["Sparsely vegetated areas"] == Some(GRASSLAND_AND_SPARSE) &&
      OLD2NEW_3["Sclerophyllous vegetation"] == Some(MOORS_AND_SCLEROPHYLLOUS) &&
      OLD2NEW_3["Transitional woodland/shrub"] == Some("Transitional woodland, shrub")
  {
  }

  lemma RetainedPart4()
    ensures RetainedLabels(OLD2NEW_4) == {"Beaches, dunes, sands", "Inland wetlands", "Coastal wetlands", "Inland waters", "Marine waters"}
  {
    var kept := {"Beaches, dunes, sands", "Inland wetlands", "Coastal wetlands", "Inland waters", "Marine waters"};
    assert forall k :: k in OLD2NEW_4 ==> OLD2NEW_4[k].Some? && OLD2NEW_4[k].value in kept;
    RetainedWithin(OLD2NEW_4, kept);
    Old2NewWitnesses4();
  }

  lemma Old2NewWitnesses4()
    ensures OLD2NEW_4["Beaches, dunes, sands"] == Some("Beaches, dunes, sands") &&
      OLD2NEW_4["Peatbogs"] == Some("Inland wetlands") &&
      OLD2NEW_4["Salines"] == Some("Coastal wetlands") &&
      OLD2NEW_4["Water bodies"] == Some("Inland waters") &&
      OLD2NEW_4["Sea and ocean"] == Some("Marine waters")
  {
  }

  lemma RetainedPart5()
    ensures RetainedLabels(OLD2NEW_5) == {}
  {
    RetainedWithin(OLD2NEW_5, {});
  }

  /** Every label the conversion keeps is one of `NEW_LABELS`. */
  lemma RetainedInNewLabels()
    ensures RetainedLabels(OLD2NEW_LABELS) <= Elements(NEW_LABELS)
  {
    RetainedByParts();
    RetainedPart1();
    RetainedPart2();
    RetainedPart3();
    RetainedPart4();
    RetainedPart5();
    assert RetainedLabels(OLD2NEW_1) <= Elements(NEW_LABELS);
    assert RetainedLabels(OLD2NEW_2) <= Elements(NEW_LABELS);
    assert RetainedLabels(OLD2NEW_3) <= Elements(NEW_LABELS);
    assert RetainedLabels(OLD2NEW_4) <= Elements(NEW_LABELS);
  }

  /** Every new label is the image of some old label. */
  lemma NewLabelsHavePreimages()
    ensures Elements(NEW_LABELS) <= RetainedLabels(OLD2NEW_LABELS)
  {
    NewLabelsKept1();
    NewLabelsKept2();
    ElementsAppend(NEW_LABELS_1, NEW_LABELS_2);
  }

  lemma NewLabelsKept1()
    ensures Elements(NEW_LABELS_1) <= RetainedLabels(OLD2NEW_LABELS)
  {
    RetainedByParts();
    RetainedPart1();
    RetainedPart2();
    RetainedPart4();
    assert Elements(NEW_LABELS_1) <= RetainedLabels(OLD2NEW_1) + RetainedLabels(OLD2NEW_2) + RetainedLabels(OLD2NEW_4);
  }

  lemma NewLabelsKept2()
    ensures Elements(NEW_LABELS_2) <= RetainedLabels(OLD2NEW_LABELS)
  {
    RetainedByParts();
    RetainedPart1();
    RetainedPart2();
    RetainedPart3();
    RetainedPart4();
    assert Elements(NEW_LABELS_2) <=
      RetainedLabels(OLD2NEW_1) + RetainedLabels(OLD2NEW_2) + RetainedLabels(OLD2NEW_3) + RetainedLabels(OLD2NEW_4);
  }

  /**
   * `NEW_LABELS` is the sorted list of the labels the conversion keeps, and
   * there are 19 of them.
   */
  lemma NewLabelsSorted()
    ensures IsSortedOf(NEW_LABELS, RetainedLabels(OLD2NEW_LABELS))
    ensures |NEW_LABELS| == |RetainedLabels(OLD2NEW_LABELS)| == 19
  {
    NewLabelsChunksSorted();
    SortedAppend(NEW_LABELS_1, NEW_LABELS_2);
    RetainedInNewLabels();
    NewLabelsHavePreimages();
    SortedOfSet(NEW_LABELS, RetainedLabels(OLD2NEW_LABELS));
  }

  /**
   * Every old label is either dropped or converted to one of `NEW_LABELS`,
   * and every one of `NEW_LABELS` is what some old label converts to.
   */
  lemma Old2NewOntoNewLabels()
    ensures forall k :: k in OLD2NEW_LABELS ==>
      OLD2NEW_LABELS[k].None? || OLD2NEW_LABELS[k].value in NEW_LABELS
    ensures forall l :: l in NEW_LABELS ==> exists k :: k in OLD2NEW_LABELS && OLD2NEW_LABELS[k] == Some(l)
  {
    NewLabelsSorted();
    forall k | k in OLD2NEW_LABELS && OLD2NEW_LABELS[k].Some?
      ensures OLD2NEW_LABELS[k].value in NEW_LABELS
    {
      assert OLD2NEW_LABELS[k].value in RetainedLabels(OLD2NEW_LABELS);
    }
    forall l | l in NEW_LABELS
      ensures exists k :: k in OLD2NEW_LABELS && OLD2NEW_LABELS[k] == Some(l)
    {
      assert l in RetainedLabels(OLD2NEW_LABELS);
    }
  }

  // ---------------------------------------------------------------------
  // The CORINE Land Cover hierarchy
  // ---------------------------------------------------------------------

  const CLC_LV3_TO_LV2_1: map<string, string> := map[
    "Agro-forestry areas" := "Heterogeneous agricultural areas",
    "Airports" := "Industrial, comercial and transport units",
    ANNUAL_WITH_PERMANENT := "Heterogeneous agricultural areas",
    "Bare rock" := "Open spaces with little or no vegetation",
    "Beaches, dunes, sands" := "Open spaces with little or no vegetation",
    "Broad-leaved forest" := "Forest",
    "Burnt areas" := "Open spaces with little or no vegetation",
    "Coastal lagoons" := "Marine waters",
    "Complex cultivation patterns" := "Heterogeneous agricultural areas",
    "Coniferous forest" := "Forest",
    "Construction sites" := "Mine, dump and construction sites"
  ]
  const CLC_LV3_TO_LV2_2: map<string, string> := map[
    "Continuous urban fabric" := "Urban fabric",
    "Discontinuous urban fabric" := "Urban fabric",
    "Dump sites" := "Mine, dump and construction sites",
    "Estuaries" := "Marine waters",
    "Fruit trees and berry plantations" := "Permanent crops",
    "Green urban areas" := "Artificial, non-agricultural vegetated areas",
    "Industrial or commercial units" := "Industrial, comercial and transport units",
    "Inland marshes" := "Inland wetlands",
    "Intertidal flats" := "Coastal wetlands",
    LAND_PRINCIPALLY_AGRICULTURE := "Heterogeneous agricultural areas",
    "Mineral extraction sites" := "Mine, dump and construction sites"
  ]
  const CLC_LV3_TO_LV2_3: map<string, string> := map[
    "Mixed forest" := "Forest",
    "Moors and heathland" := "Shrub and/or herbaceous vegetation associations",
    "Natural grassland" := "Shrub and/or herbaceous vegetation associations",
    "Non-irrigated arable land" := "Arable land",
    "Olive groves" := "Permanent crops",
    "Pastures" := "Pastures",
    "Peatbogs" := "Inland wetlands",
    "Permanently irrigated land" := "Arable land",
    "Port areas" := "Industrial, comercial and transport units",
    "Rice fields" := "Arable land",
    ROAD_AND_RAIL := "Industrial, comercial and transport units"
  ]
  const CLC_LV3_TO_LV2_4: map<string, string> := map[
    "Salines" := "Coastal wetlands",
    "Salt marshes" := "Coastal wetlands",
    "Sclerophyllous vegetation" := "Shrub and/or herbaceous vegetation associations",
    "Sea and ocean" := "Marine waters",
    "Sparsely vegetated areas" := "Open spaces with little or no vegetation",
    "Sport and leisure facilities" := "Artificial, non-agricultural vegetated areas",
    "Transitional woodland/shrub" := "Shrub and/or herbaceous vegetation associations",
    "Vineyards" := "Permanent crops",
    "Water bodies" := "Inland waters",
    "Water courses" := "Inland waters",
    GLACIERS := "Open spaces with little or no vegetation"
  ]

  /** `CLC_LV3_TO_LV2`: each level-3 class and the level-2 class it belongs to. */
  const CLC_LV3_TO_LV2: map<string, string> :=
    CLC_LV3_TO_LV2_1 + CLC_LV3_TO_LV2_2 + CLC_LV3_TO_LV2_3 + CLC_LV3_TO_LV2_4

  /** `CLC_LV2_TO_LV1`: each level-2 class and the level-1 class it belongs to. */
  const CLC_LV2_TO_LV1: map<string, string> := map[
    "Urban fabric" := "Artificial Surfaces",
    "Industrial, comercial and transport units" := "Artificial Surfaces",
    "Mine, dump and construction sites" := "Artificial Surfaces",
    "Artificial, non-agricultural vegetated areas" := "Artificial Surfaces",
    "Arable land" := "Agricultural areas",
    "Permanent crops" := "Agricultural areas",
    "Pastures" := "Agricultural areas",
    "Heterogeneous agricultural areas" := "Agricultural areas",
    "Forest" := "Forest and seminatural areas",
    "Shrub and/or herbaceous vegetation associations" := "Forest and seminatural areas",
    "Open spaces with little or no vegetation" := "Forest and seminatural areas",
    "Inland wetlands" := "Wetlands",
    "Coastal wetlands" := "Wetlands",
    "Inland waters" := "Water bodies",
    "Marine waters" := "Water bodies"
  ]

  /** `CLC_LV2_LABELS`: the keys of `CLC_LV2_TO_LV1` in display order. */
  const CLC_LV2_LABELS: seq<string> := [
    "Urban fabric",
    "Industrial, comercial and transport units",
    "Mine, dump and construction sites",
    "Artificial, non-agricultural vegetated areas",
    "Arable land",
    "Permanent crops",
    "Pastures",
    "Heterogeneous agricultural areas",
    "Forest",
    "Shrub and/or herbaceous vegetation associations",
    "Open spaces with little or no vegetation",
    "Inland wetlands",
    "Coastal wetlands",
    "Inland waters",
    "Marine waters"
  ]

  /** `CLC_LV3_LABELS`: the keys of `CLC_LV3_TO_LV2` in display order, i.e. the 43
   *  BigEarthNet labels alphabetically and then the glaciers class. */
  const CLC_LV3_LABELS: seq<string> := OLD_LABELS + [GLACIERS]

  /** `CLC_LV1_LABELS` is `tuple(set(...))`, whose order Python leaves open: a set here. */
  const CLC_LV1_LABELS: set<string> := CLC_LV2_TO_LV1.Values

  const CLC_LV3_COUNT: nat := 44
  const CLC_LV2_COUNT: nat := 15
  const CLC_LV1_COUNT: nat := 5

  lemma ClcLv3KeysInLabels1()
    ensures CLC_LV3_TO_LV2_1.Keys <= Elements(CLC_LV3_LABELS)
  {
  }

  lemma ClcLv3LabelsInKeys1()
    ensures Elements(OLD_LABELS_1) <= CLC_LV3_TO_LV2.Keys
  {
  }

  lemma ClcLv3ValuesInLv21()
    ensures CLC_LV3_TO_LV2_1.Values <= CLC_LV2_TO_LV1.Keys
  {
  }

  lemma ClcLv3KeysInLabels2()
    ensures CLC_LV3_TO_LV2_2.Keys <= Elements(CLC_LV3_LABELS)
  {
  }

  lemma ClcLv3LabelsInKeys2()
    ensures Elements(OLD_LABELS_2) <= CLC_LV3_TO_LV2.Keys
  {
  }

  lemma ClcLv3ValuesInLv22()
    ensures CLC_LV3_TO_LV2_2.Values <= CLC_LV2_TO_LV1.Keys
  {
  }

  lemma ClcLv3KeysInLabels3()
    ensures CLC_LV3_TO_LV2_3.Keys <= Elements(CLC_LV3_LABELS)
  {
  }

  lemma ClcLv3LabelsInKeys3()
    ensures Elements(OLD_LABELS_3) <= CLC_LV3_TO_LV2.Keys
  {
  }

  lemma ClcLv3ValuesInLv23()
    ensures CLC_LV3_TO_LV2_3.Values <= CLC_LV2_TO_LV1.Keys
  {
  }

  lemma ClcLv3KeysInLabels4()
    ensures CLC_LV3_TO_LV2_4.Keys <= Elements(CLC_LV3_LABELS)
  {
  }

  lemma ClcLv3LabelsInKeys4()
    ensures Elements(OLD_LABELS_4) <= CLC_LV3_TO_LV2.Keys
  {
  }

  lemma ClcLv3ValuesInLv24()
    ensures CLC_LV3_TO_LV2_4.Values <= CLC_LV2_TO_LV1.Keys
  {
  }

  /** The glaciers class is the one CORINE level-3 class BigEarthNet does not use. */
  lemma GlaciersNotOld()
    ensures GLACIERS !in OLD_LABELS
  {
    GlaciersNotOld1();
    GlaciersNotOld2();
    GlaciersNotOld3();
    GlaciersNotOld4();
  }

  lemma GlaciersNotOld1()
    ensures GLACIERS !in OLD_LABELS_1
  {
  }

  lemma GlaciersNotOld2()
    ensures GLACIERS !in OLD_LABELS_2
  {
  }

  lemma GlaciersNotOld3()
    ensures GLACIERS !in OLD_LABELS_3
  {
  }

  lemma GlaciersNotOld4()
    ensures GLACIERS !in OLD_LABELS_4
  {
  }

  lemma ClcLv3KeysAreLabels()
    ensures Elements(CLC_LV3_LABELS) == CLC_LV3_TO_LV2.Keys
  {
    ClcLv3KeysInLabels1();
    ClcLv3LabelsInKeys1();
    ClcLv3KeysInLabels2();
    ClcLv3LabelsInKeys2();
    ClcLv3KeysInLabels3();
    ClcLv3LabelsInKeys3();
    ClcLv3KeysInLabels4();
    ClcLv3LabelsInKeys4();
    ElementsAppend(OLD_LABELS_1, OLD_LABELS_2);
    ElementsAppend(OLD_LABELS_1 + OLD_LABELS_2, OLD_LABELS_3);
    ElementsAppend(OLD_LABELS_1 + OLD_LABELS_2 + OLD_LABELS_3, OLD_LABELS_4);
    ElementsAppend(OLD_LABELS, [GLACIERS]);
    assert GLACIERS in CLC_LV3_TO_LV2_4;
  }

  lemma ClcLv3LabelsDistinct()
    ensures Distinct(CLC_LV3_LABELS)
  {
    OldLabelsStrictlySorted();
    GlaciersNotOld();
    SortedPairwiseDistinct(OLD_LABELS);
    DistinctAppendOne(OLD_LABELS, GLACIERS);
  }

  /**
   * `CLC_LV3_LABELS` lists the keys of `CLC_LV3_TO_LV2` without repeats: there
   * are 44 level-3 classes, and they are the 43 old labels plus the glaciers class.
   */
  lemma ClcLv3Labels()
    ensures Elements(CLC_LV3_LABELS) == CLC_LV3_TO_LV2.Keys
    ensures Distinct(CLC_LV3_LABELS)
    ensures |CLC_LV3_LABELS| == |CLC_LV3_TO_LV2| == CLC_LV3_COUNT
    ensures Elements(CLC_LV3_LABELS) - Elements(OLD_LABELS) == {GLACIERS}
  {
    ClcLv3KeysAreLabels();
    ClcLv3LabelsDistinct();
    DistinctElements(CLC_LV3_LABELS);
    GlaciersNotOld();
    AppendOneMinus(OLD_LABELS, GLACIERS);
  }

  /** Every level-2 class named by `CLC_LV3_TO_LV2` is a key of `CLC_LV2_TO_LV1`. */
  lemma ClcLv3ValuesAreLv2Keys()
    ensures CLC_LV3_TO_LV2.Values <= CLC_LV2_TO_LV1.Keys
  {
    ClcLv3ValuesInLv21();
    ClcLv3ValuesInLv22();
    ClcLv3ValuesInLv23();
    ClcLv3ValuesInLv24();
    MergeValuesWithin(CLC_LV3_TO_LV2_1, CLC_LV3_TO_LV2_2, CLC_LV2_TO_LV1.Keys);
    MergeValuesWithin(CLC_LV3_TO_LV2_1 + CLC_LV3_TO_LV2_2, CLC_LV3_TO_LV2_3, CLC_LV2_TO_LV1.Keys);
    MergeValuesWithin(CLC_LV3_TO_LV2_1 + CLC_LV3_TO_LV2_2 + CLC_LV3_TO_LV2_3, CLC_LV3_TO_LV2_4, CLC_LV2_TO_LV1.Keys);
  }

  /**
   * `CLC_LV3_TO_LV1`: the composition of the two maps.  Python's comprehension
   * would raise KeyError on a level-2 class missing from `CLC_LV2_TO_LV1`; the
   * guard here drops such a class instead, and `ClcLv3ToLv1Total` shows that
   * none is missing, so both agree.
   */
  const CLC_LV3_TO_LV1: map<string, string> :=
    map k | k in CLC_LV3_TO_LV2 && CLC_LV3_TO_LV2[k] in CLC_LV2_TO_LV1 :: CLC_LV2_TO_LV1[CLC_LV3_TO_LV2[k]]

  /** The composition is defined on every level-3 class. */
  lemma ClcLv3ToLv1Total()
    ensures CLC_LV3_TO_LV1.Keys == CLC_LV3_TO_LV2.Keys
    ensures forall k :: k in CLC_LV3_TO_LV2 ==> CLC_LV3_TO_LV1[k] == CLC_LV2_TO_LV1[CLC_LV3_TO_LV2[k]]
  {
    ClcLv3ValuesAreLv2Keys();
    forall k | k in CLC_LV3_TO_LV2
      ensures CLC_LV3_TO_LV2[k] in CLC_LV2_TO_LV1
    {
      assert CLC_LV3_TO_LV2[k] in CLC_LV3_TO_LV2.Values;
    }
  }

  /** `CLC_LV2_LABELS` lists the 15 keys of `CLC_LV2_TO_LV1` without repeats. */
  lemma ClcLv2Labels()
    ensures Elements(CLC_LV2_LABELS) == CLC_LV2_TO_LV1.Keys
    ensures Distinct(CLC_LV2_LABELS)
    ensures |CLC_LV2_LABELS| == |CLC_LV2_TO_LV1| == CLC_LV2_COUNT
  {
    ClcLv2KeysAreLabels();
    ClcLv2LabelsDistinct();
    DistinctElements(CLC_LV2_LABELS);
  }

  lemma ClcLv2KeysAreLabels()
    ensures Elements(CLC_LV2_LABELS) == CLC_LV2_TO_LV1.Keys
  {
  }

  lemma ClcLv2LabelsDistinct()
    ensures Distinct(CLC_LV2_LABELS)
  {
  }

  const CLC_LV1_CLASSES: set<string> := {
    "Artificial Surfaces", "Agricultural areas", "Forest and seminatural areas", "Wetlands",
    "Water bodies"}

  lemma ClcLv1ValuesIn()
    ensures CLC_LV2_TO_LV1.Values <= CLC_LV1_CLASSES
  {
  }

  lemma ClcLv1ValuesOnto()
    ensures CLC_LV1_CLASSES <= CLC_LV2_TO_LV1.Values
  {
    assert CLC_LV2_TO_LV1["Urban fabric"] == "Artificial Surfaces";
    assert CLC_LV2_TO_LV1["Arable land"] == "Agricultural areas";
    assert CLC_LV2_TO_LV1["Forest"] == "Forest and seminatural areas";
    assert CLC_LV2_TO_LV1["Inland wetlands"] == "Wetlands";
    assert CLC_LV2_TO_LV1["Inland waters"] == "Water bodies";
  }

  /** There are five level-1 classes. */
  lemma ClcLv1Labels()
    ensures CLC_LV1_LABELS == CLC_LV1_CLASSES
    ensures |CLC_LV1_LABELS| == CLC_LV1_COUNT
  {
    ClcLv1ValuesIn();
    ClcLv1ValuesOnto();
  }

  /**
   * Every level-1 class is reached from some level-3 class, so the values of
   * the composed map are exactly `CLC_LV1_LABELS`.
   */
  lemma ClcLv1FromLv3()
    ensures CLC_LV3_TO_LV1.Values == CLC_LV1_LABELS
  {
    ClcLv1Labels();
    ClcLv1FromLv3Within();
    ClcLv1FromLv3Onto();
  }

  lemma ClcLv1FromLv3Within()
    ensures CLC_LV3_TO_LV1.Values <= CLC_LV2_TO_LV1.Values
  {
    ClcLv3ToLv1Total();
    ClcLv3ValuesAreLv2Keys();
    forall v | v in CLC_LV3_TO_LV1.Values
      ensures v in CLC_LV2_TO_LV1.Values
    {
      var k :| k in CLC_LV3_TO_LV1 && CLC_LV3_TO_LV1[k] == v;
      assert CLC_LV3_TO_LV2[k] in CLC_LV3_TO_LV2.Values;
    }
  }

  lemma ClcLv1FromLv3Onto()
    ensures CLC_LV1_CLASSES <= CLC_LV3_TO_LV1.Values
  {
    ClcLv1Reached1();
    ClcLv1Reached2();
    ClcLv1Reached3();
    ClcLv1Reached4();
    ClcLv1Reached5();
  }

  /** A level-3 class of the last display part, looked up in the composed map. */
  lemma ClcLv1Reached(k: string, lv2: string, lv1: string)
    requires k in CLC_LV3_TO_LV2_4 && CLC_LV3_TO_LV2_4[k] == lv2
    requires lv2 in CLC_LV2_TO_LV1 && CLC_LV2_TO_LV1[lv2] == lv1
    ensures lv1 in CLC_LV3_TO_LV1.Values
  {
    ClcLv3ToLv1Total();
    assert CLC_LV3_TO_LV1[k] == lv1;
  }

  lemma ClcLv1Reached1()
    ensures "Wetlands" in CLC_LV3_TO_LV1.Values
  {
    ClcLv1Path1();
    ClcLv1Reached("Salines", "Coastal wetlands", "Wetlands");
  }

  lemma ClcLv1Path1()
    ensures "Salines" in CLC_LV3_TO_LV2_4 && CLC_LV3_TO_LV2_4["Salines"] == "Coastal wetlands"
    ensures "Coastal wetlands" in CLC_LV2_TO_LV1 && CLC_LV2_TO_LV1["Coastal wetlands"] == "Wetlands"
  {
  }

  lemma ClcLv1Reached2()
    ensures "Water bodies" in CLC_LV3_TO_LV1.Values
  {
    ClcLv1Path2();
    ClcLv1Reached("Sea and ocean", "Marine waters", "Water bodies");
  }

  lemma ClcLv1Path2()
    ensures "Sea and ocean" in CLC_LV3_TO_LV2_4 && CLC_LV3_TO_LV2_4["Sea and ocean"] == "Marine waters"
    ensures "Marine waters" in CLC_LV2_TO_LV1 && CLC_LV2_TO_LV1["Marine waters"] == "Water bodies"
  {
  }

  lemma ClcLv1Reached3()
    ensures "Forest and seminatural areas" in CLC_LV3_TO_LV1.Values
  {
    ClcLv1Path3();
    ClcLv1Reached("Sclerophyllous vegetation", "Shrub and/or herbaceous vegetation associations", "Forest and seminatural areas");
  }

  lemma ClcLv1Path3()
    ensures "Sclerophyllous vegetation" in CLC_LV3_TO_LV2_4 && CLC_LV3_TO_LV2_4["Sclerophyllous vegetation"] == "Shrub and/or herbaceous vegetation associations"
    ensures "Shrub and/or herbaceous vegetation associations" in CLC_LV2_TO_LV1 && CLC_LV2_TO_LV1["Shrub and/or herbaceous vegetation associations"] == "Forest and seminatural areas"
  {
  }

  lemma ClcLv1Reached4()
    ensures "Artificial Surfaces" in CLC_LV3_TO_LV1.Values
  {
    ClcLv1Path4();
    ClcLv1Reached("Sport and leisure facilities", "Artificial, non-agricultural vegetated areas", "Artificial Surfaces");
  }

  lemma ClcLv1Path4()
    ensures "Sport and leisure facilities" in CLC_LV3_TO_LV2_4 && CLC_LV3_TO_LV2_4["Sport and leisure facilities"] == "Artificial, non-agricultural vegetated areas"
    ensures "Artificial, non-agricultural vegetated areas" in CLC_LV2_TO_LV1 && CLC_LV2_TO_LV1["Artificial, non-agricultural vegetated areas"] == "Artificial Surfaces"
  {
  }

  lemma ClcLv1Reached5()
    ensures "Agricultural areas" in CLC_LV3_TO_LV1.Values
  {
    ClcLv1Path5();
    ClcLv1Reached("Vineyards", "Permanent crops", "Agricultural areas");
  }

  lemma ClcLv1Path5()
    ensures "Vineyards" in CLC_LV3_TO_LV2_4 && CLC_LV3_TO_LV2_4["Vineyards"] == "Permanent crops"
    ensures "Permanent crops" in CLC_LV2_TO_LV1 && CLC_LV2_TO_LV1["Permanent crops"] == "Agricultural areas"
  {
  }

  /** The level-2 classes named by level 3 add nothing to the 15 keys of `CLC_LV2_TO_LV1`. */
  lemma ClcLv2Union()
    ensures |CLC_LV3_TO_LV2.Values + CLC_LV2_TO_LV1.Keys| == CLC_LV2_COUNT
  {
    ClcLv3ValuesAreLv2Keys();
    ClcLv2Labels();
    assert CLC_LV3_TO_LV2.Values + CLC_LV2_TO_LV1.Keys == CLC_LV2_TO_LV1.Keys;
  }

  // ---------------------------------------------------------------------
  // Channels, countries, JSON keys and dataset sizes
  // ---------------------------------------------------------------------

  const BEN_CHANNELS: seq<string> :=
    ["B01", "B02", "B03", "B04", "B05", "B06", "B07", "B08", "B8A", "B09", "B11", "B12"]
  const BEN_10M_CHANNELS: seq<string> := ["B02", "B03", "B04", "B08"]
  const BEN_20M_CHANNELS: seq<string> := ["B05", "B06", "B07", "B8A", "B11", "B12"]
  /**
   * `natsorted(BEN_10m_CHANNELS + BEN_20m_CHANNELS)`, written out in natural
   * order (`B8A` before `B11`).  Natural sorting is not part of this model:
   * `ChannelGroups` proves the members of the list, not its order.
   */
  const BEN_10M_20M_CHANNELS: seq<string> :=
    ["B02", "B03", "B04", "B05", "B06", "B07", "B08", "B8A", "B11", "B12"]
  const BEN_60M_CHANNELS: seq<string> := ["B01", "B09"]
  /** Red, green, blue, in that order. */
  const BEN_RGB_CHANNELS: seq<string> := ["B04", "B03", "B02"]
  const BEN_PATCH_SIZE_M: nat := 1200

  /**
   * The 10 m, 20 m and 60 m groups split the twelve channels: together they
   * cover them and no channel is in two groups.  The RGB channels are 10 m
   * channels, and the combined 10 m + 20 m list holds exactly those two groups.
   */
  lemma ChannelGroups()
    ensures Distinct(BEN_CHANNELS) && |BEN_CHANNELS| == 12
    ensures Elements(BEN_CHANNELS) ==
      Elements(BEN_10M_CHANNELS) + Elements(BEN_20M_CHANNELS) + Elements(BEN_60M_CHANNELS)
    ensures Elements(BEN_10M_CHANNELS) !! Elements(BEN_20M_CHANNELS)
    ensures Elements(BEN_10M_CHANNELS) !! Elements(BEN_60M_CHANNELS)
    ensures Elements(BEN_20M_CHANNELS) !! Elements(BEN_60M_CHANNELS)
    ensures Elements(BEN_10M_20M_CHANNELS) == Elements(BEN_10M_CHANNELS) + Elements(BEN_20M_CHANNELS)
    ensures Distinct(BEN_10M_20M_CHANNELS)
    ensures Elements(BEN_RGB_CHANNELS) <= Elements(BEN_10M_CHANNELS)
  {
  }

  const COUNTRIES: seq<string> := [
    "Austria", "Belgium", "Finland", "Ireland", "Kosovo", "Lithuania", "Luxembourg",
    "Portugal", "Serbia", "Switzerland"]
  /** ISO 3166 alpha-2 codes, position by position; Kosovo has `XK`, having no alpha-3 code. */
  const COUNTRIES_ISO_A2: seq<string> := ["AT", "BE", "FI", "IE", "XK", "LT", "LU", "PT", "RS", "CH"]

  /** Ten distinct countries, each with its own two-letter code. */
  lemma Countries()
    ensures |COUNTRIES| == |COUNTRIES_ISO_A2| == 10
    ensures Distinct(COUNTRIES) && Distinct(COUNTRIES_ISO_A2)
  {
  }

  const BEN_S1_V1_0_JSON_KEYS: set<string> := {
    "acquisition_time", "coordinates", "labels", "projection", "scene_source",
    "corresponding_s2_patch"}
  /** Sentinel-2 metadata says `acquisition_date` where Sentinel-1 says `acquisition_time`. */
  const BEN_S2_V1_0_JSON_KEYS: set<string> := {
    "acquisition_date", "coordinates", "labels", "projection", "tile_source"}

  const BEN_COMPLETE_SIZE: nat := 590326
  const BEN_SNOWY_PATCHES_COUNT: nat := 61707
  const BEN_CLOUDY_OR_SHADOWY_PATCHES_COUNT: nat := 9280
  /** Counted before snowy and cloudy patches are removed. */
  const BEN_NO_19_CLASS_TARGET_COUNT: nat := 57
  const BEN_RECOMMENDED_SIZE: nat := 519284
}

/**
 * The subset builder of `bigearthnet_common/sets.py`: the recommended
 * patches, the country, season and split filters with their per-sensor
 * dispatch, `build_set`, and the split checks of `build_csv_sets`.
 *
 * Every function re-derives its maps through the loaders, as the source
 * does, so it fails where the source fails: ValueError when the table lacks
 * a column, KeyError for a name outside a map, TypeError where the source
 * applies `&` to a list.
 */
module Sets {
  import opened Wrappers
  import opened Resources
  import opened Grammar
  import opened Enums
  import opened Correspondence
  import Constants

  /** The key column of the name table for a sensor (`use_s2_patch_names`). */
  function NameColumn(src: SentinelSource): string {
    if src == S1 then S1_NAME else S2_NAME
  }

  /** The names of a sensor's patches in the table. */
  function SensorNames(md: Metadata, src: SentinelSource): set<string>
    requires NameColumn(src) in md.names.header
  {
    ColumnValues(md.names, NameColumn(src))
  }

  /**
   * `get_all_s2_patches` / `get_all_s1_patches`: the keys of the sensor's
   * name map, so both name columns must exist.
   */
  function AllPatches(md: Metadata, src: SentinelSource): (r: Result<set<string>>)
    ensures r.Ok? <==> HasColumns(md, S1_NAME, S2_NAME)
    ensures r.Err? ==> r.error == ValueError
    ensures r.Ok? ==> r.value == SensorNames(md, src)
  {
    match (if src == S1 then S1ToS2Mapping(md) else S2ToS1Mapping(md))
    case Err(e) => Err(e)
    case Ok(m) => Ok(m.Keys)
  }

  /** The map keys and the loaded name column are the same set. */
  lemma AllPatchesAgree(md: Metadata)
    requires HasColumns(md, S1_NAME, S2_NAME)
    ensures AllPatches(md, S2) == AllS2PatchNames(md)
    ensures AllPatches(md, S1) == AllS1PatchNames(md)
  {
  }

  /**
   * A set of Sentinel-2 names as the sensor sees it: the set itself for
   * Sentinel-2, its image under `s2_to_s1_patch_name` for Sentinel-1
   * (`get_s1_patches_with_seasonal_snow` and the other `get_s1_*` sets).
   */
  function SensorPatches(md: Metadata, src: SentinelSource, s2s: set<string>): (r: Result<set<string>>)
    ensures src == S2 ==> r == Ok(s2s)
    ensures src == S1 ==> r == S1Image(md, s2s)
  {
    if src == S2 then Ok(s2s) else S1Image(md, s2s)
  }

  /** `is_snowy_patch(p) or is_cloudy_shadowy_patch(p)`, the second only asked when the first fails. */
  function Unrecommended(md: Metadata, p: string): (r: Result<bool>)
    ensures r.Ok? ==> (r.value <==> Flagged(md, md.snowy, p) || Flagged(md, md.cloudy, p))
    ensures r.Err? <==> IsSnowy(md, p).Err? || (IsSnowy(md, p) == Ok(false) && IsCloudy(md, p).Err?)
    ensures r.Err? && HasColumns(md, S1_NAME, S2_NAME) ==> r.error == KeyError
  {
    match IsSnowy(md, p)
    case Err(e) =>
      assert exists s :: s in md.snowy && S2ToS1(md, s) == Err(e);
      Err(e)
    case Ok(snowy) =>
      if snowy then Ok(true)
      else
        var cloudy := IsCloudy(md, p);
        assert cloudy.Err? ==> exists s :: s in md.cloudy && S2ToS1(md, s) == Err(cloudy.error);
        cloudy
  }

  /**
   * `get_recommended_s2_patches` / `get_recommended_s1_patches`: the
   * sensor's patches that are neither snowy nor cloudy nor in the sensor's
   * no-19-class-target set.
   */
  function Recommended(md: Metadata, src: SentinelSource): (r: Result<set<string>>)
    ensures r.Err? <==> (!HasColumns(md, S1_NAME, S2_NAME) || SensorPatches(md, src, md.noTarget).Err?
                         || exists p :: p in SensorNames(md, src) && Unrecommended(md, p).Err?)
    ensures r.Err? ==> r.error == (if HasColumns(md, S1_NAME, S2_NAME) then KeyError else ValueError)
    ensures r.Ok? ==> r.value <= SensorNames(md, src)
    ensures r.Ok? ==> forall p :: p in r.value <==>
      p in SensorNames(md, src) && !Flagged(md, md.snowy, p) && !Flagged(md, md.cloudy, p)
      && p !in SensorPatches(md, src, md.noTarget).value
  {
    match AllPatches(md, src)
    case Err(e) => Err(e)
    case Ok(all) =>
      match SensorPatches(md, src, md.noTarget)
      case Err(e) =>
        assert exists s :: s in md.noTarget && S2ToS1(md, s) == Err(e);
        Err(e)
      case Ok(noTarget) =>
        if exists p :: p in all && Unrecommended(md, p).Err? then Err(KeyError)
        else Ok(set p | p in all && Unrecommended(md, p) == Ok(false) && p !in noTarget)
  }

  /** On consistent files neither base set raises. */
  lemma ValidBaseSets(md: Metadata, src: SentinelSource)
    requires Valid(md)
    ensures AllPatches(md, src).Ok? && Recommended(md, src).Ok?
  {
    ValidS1Image(md, md.noTarget);
    forall p | p in SensorNames(md, src)
      ensures Unrecommended(md, p).Ok?
    {
      ValidNeverRaises(md, p);
    }
  }

  /**
   * On a consistent, paired table a sensor's own name is flagged by a set
   * of Sentinel-2 names exactly when it is in the sensor's view of that set:
   * a Sentinel-1 name is never a Sentinel-2 name and the reverse.
   */
  lemma SensorFlag(md: Metadata, src: SentinelSource, s2s: set<string>, p: string)
    requires Valid(md) && Paired(md) && s2s <= ColumnValues(md.names, S2_NAME)
    requires p in SensorNames(md, src)
    ensures SensorPatches(md, src, s2s).Ok?
    ensures Flagged(md, s2s, p) <==> p in SensorPatches(md, src, s2s).value
  {
    ValidS1Image(md, s2s);
    var rows := md.names.rows;
    var i :| 0 <= i < |rows| && rows[i][NameColumn(src)] == p;
    if src == S2 {
      assert IsS2Patch(p);
      if exists s :: s in s2s && S2ToS1(md, s) == Ok(p) {
        var s :| s in s2s && S2ToS1(md, s) == Ok(p);
        var j :| 0 <= j < |rows| && rows[j][S2_NAME] == s && rows[j][S1_NAME] == p;
        assert IsS1Patch(p);
        GrammarsDisjoint(p);
        assert false;
      }
    } else {
      assert IsS1Patch(p);
      if p in s2s {
        var j :| 0 <= j < |rows| && rows[j][S2_NAME] == p;
        assert IsS2Patch(p);
        GrammarsDisjoint(p);
        assert false;
      }
    }
  }

  /**
   * On a consistent, paired table the recommended set is the sensor's
   * patches minus the sensor's snowy, cloudy and no-19-class-target sets.
   */
  lemma RecommendedIsAllMinusExclusions(md: Metadata, src: SentinelSource)
    requires Valid(md) && Paired(md)
    ensures AllPatches(md, src).Ok? && Recommended(md, src).Ok?
    ensures SensorPatches(md, src, md.snowy).Ok? && SensorPatches(md, src, md.cloudy).Ok?
    ensures SensorPatches(md, src, md.noTarget).Ok?
    ensures Recommended(md, src).value == AllPatches(md, src).value
      - SensorPatches(md, src, md.snowy).value - SensorPatches(md, src, md.cloudy).value
      - SensorPatches(md, src, md.noTarget).value
  {
    ValidBaseSets(md, src);
    ValidS1Image(md, md.snowy);
    ValidS1Image(md, md.cloudy);
    ValidS1Image(md, md.noTarget);
    forall p | p in SensorNames(md, src)
      ensures Flagged(md, md.snowy, p) <==> p in SensorPatches(md, src, md.snowy).value
      ensures Flagged(md, md.cloudy, p) <==> p in SensorPatches(md, src, md.cloudy).value
    {
      SensorFlag(md, src, md.snowy, p);
      SensorFlag(md, src, md.cloudy, p);
    }
  }

  /**
   * The packaged counts: with 590326 patches, 61707 snowy, 9280 cloudy or
   * shadowy and 57 without a 19-class target, no patch both snowy and
   * cloudy, and one snowy and one cloudy patch without a target, the
   * recommended set has 519284 patches.
   */
  lemma RecommendedSize(all: set<string>, snowy: set<string>, cloudy: set<string>, noTarget: set<string>)
    requires snowy <= all && cloudy <= all && noTarget <= all
    requires |all| == Constants.BEN_COMPLETE_SIZE
    requires |snowy| == Constants.BEN_SNOWY_PATCHES_COUNT
    requires |cloudy| == Constants.BEN_CLOUDY_OR_SHADOWY_PATCHES_COUNT
    requires |noTarget| == Constants.BEN_NO_19_CLASS_TARGET_COUNT
    requires snowy * cloudy == {} && |snowy * noTarget| == 1 && |cloudy * noTarget| == 1
    ensures |all - snowy - cloudy - noTarget| == Constants.BEN_RECOMMENDED_SIZE
  {
    var excluded := snowy + cloudy + noTarget;
    assert all - snowy - cloudy - noTarget == all - excluded;
    assert |snowy + cloudy| == |snowy| + |cloudy|;
    assert (snowy + cloudy) * noTarget == snowy * noTarget + cloudy * noTarget;
    assert (snowy * noTarget) * (cloudy * noTarget) == {} by {
      assert (snowy * noTarget) * (cloudy * noTarget) <= snowy * cloudy;
    }
    assert |(snowy + cloudy) * noTarget| == 2;
    assert |excluded| == |snowy| + |cloudy| + |noTarget| - 2;
    assert excluded <= all;
    assert |all - excluded| == |all| - |excluded|;
  }

  // ---------------------------------------------------------------------
  // Filters.

  /**
   * The `patches: Sequence` argument as pydantic passes it on: a list stays
   * a list and a set stays a set.
   */
  datatype Patches = PatchList(items: seq<string>) | PatchSet(names: set<string>)
  {
    function Members(): set<string> {
      match this
      case PatchList(items) => set p | p in items
      case PatchSet(names) => names
    }
  }

  /**
   * `get_patches_to_country_mapping` / `get_patches_to_season_mapping`:
   * the map from the sensor's names to a column of the table.
   */
  function ColumnMapping(md: Metadata, src: SentinelSource, column: string): Result<map<string, string>> {
    LoadDict(Some(md.names), NameColumn(src), column)
  }

  /** `mapping[p]` for one of those maps. */
  function PatchValue(md: Metadata, src: SentinelSource, column: string, p: string): Result<string> {
    Lookup(ColumnMapping(md, src, column), p)
  }

  /** On a paired table the sensor's map gives a patch the entry the sensor-agnostic lookup gives it. */
  lemma PatchValueAgrees(md: Metadata, src: SentinelSource, column: string, p: string)
    requires Paired(md) && column in md.names.header && p in SensorNames(md, src)
    ensures PatchValue(md, src, column, p) == ColumnFor(md, p, column)
  {
    var rows := md.names.rows;
    var i :| 0 <= i < |rows| && rows[i][NameColumn(src)] == p;
    ColumnForAgrees(md, i, column);
    LoadDictDistinct(md.names, NameColumn(src), column);
    var m := LoadDict(Some(md.names), NameColumn(src), column);
    assert m.Ok? && m.value[p] == rows[i][column];
    assert PatchValue(md, src, column, p) == Lookup(m, p);
  }

  /** `{p for p in patches if mapping[p] == value}`, with the map loaded first. */
  function FilterByColumn(md: Metadata, src: SentinelSource, patches: set<string>, column: string, value: string): (r: Result<set<string>>)
    ensures r.Ok? <==> HasColumns(md, NameColumn(src), column) && patches <= SensorNames(md, src)
    ensures r.Err? ==> r.error == (if HasColumns(md, NameColumn(src), column) then KeyError else ValueError)
    ensures r.Ok? ==> r.value <= patches
    ensures r.Ok? ==> forall p :: p in r.value <==> p in patches && PatchValue(md, src, column, p) == Ok(value)
  {
    match ColumnMapping(md, src, column)
    case Err(e) => Err(e)
    case Ok(m) =>
      if patches <= m.Keys then Ok(set p | p in patches && m[p] == value) else Err(KeyError)
  }

  /**
   * `filter_patches_by_country` and the per-sensor filters it dispatches
   * to: the input patches whose country is `country`.  The check that the
   * country is one of `COUNTRIES` never fails, since the argument is a
   * member of the enumeration.
   */
  function FilterPatchesByCountry(md: Metadata, src: SentinelSource, patches: Patches, country: Country): (r: Result<set<string>>)
    ensures r.Ok? <==> HasColumns(md, NameColumn(src), COUNTRY) && patches.Members() <= SensorNames(md, src)
    ensures r.Err? ==> r.error == (if HasColumns(md, NameColumn(src), COUNTRY) then KeyError else ValueError)
    ensures r.Ok? ==> forall p :: p in r.value <==>
      p in patches.Members() && PatchValue(md, src, COUNTRY, p) == Ok(country.Name())
  {
    if country.Name() !in Constants.COUNTRIES then Err(ValueError)
    else FilterByColumn(md, src, patches.Members(), COUNTRY, country.Name())
  }

  /**
   * `filter_patches_by_season` and the per-sensor filters it dispatches
   * to: the input patches whose season is `season`.
   */
  function FilterPatchesBySeason(md: Metadata, src: SentinelSource, patches: Patches, season: Season): (r: Result<set<string>>)
    ensures r.Ok? <==> HasColumns(md, NameColumn(src), SEASON) && patches.Members() <= SensorNames(md, src)
    ensures r.Err? ==> r.error == (if HasColumns(md, NameColumn(src), SEASON) then KeyError else ValueError)
    ensures r.Ok? ==> forall p :: p in r.value <==>
      p in patches.Members() && PatchValue(md, src, SEASON, p) == Ok(season.Name())
  {
    FilterByColumn(md, src, patches.Members(), SEASON, season.Name())
  }

  /** Filters on different values of one column select disjoint sets. */
  lemma FilterByColumnDisjoint(md: Metadata, src: SentinelSource, patches: set<string>, column: string, a: string, b: string)
    requires a != b
    requires FilterByColumn(md, src, patches, column, a).Ok?
    ensures FilterByColumn(md, src, patches, column, b).Ok?
    ensures FilterByColumn(md, src, patches, column, a).value * FilterByColumn(md, src, patches, column, b).value == {}
  {
    var ra, rb := FilterByColumn(md, src, patches, column, a).value, FilterByColumn(md, src, patches, column, b).value;
    forall p | p in ra ensures p !in rb {
      assert PatchValue(md, src, column, p) == Ok(a);
    }
  }

  /** Different seasons select disjoint sets, and together they never add a patch. */
  lemma SeasonFiltersDisjoint(md: Metadata, src: SentinelSource, patches: Patches, a: Season, b: Season)
    requires a != b
    requires FilterPatchesBySeason(md, src, patches, a).Ok?
    ensures FilterPatchesBySeason(md, src, patches, b).Ok?
    ensures FilterPatchesBySeason(md, src, patches, a).value * FilterPatchesBySeason(md, src, patches, b).value == {}
  {
    var ra, rb := FilterPatchesBySeason(md, src, patches, a).value, FilterPatchesBySeason(md, src, patches, b).value;
    forall p | p in ra ensures p !in rb {
      assert PatchValue(md, src, SEASON, p) == Ok(a.Name());
      assert a.Name() != b.Name();
    }
  }

  /** Different countries select disjoint sets. */
  lemma CountryFiltersDisjoint(md: Metadata, src: SentinelSource, patches: Patches, a: Country, b: Country)
    requires a != b
    requires FilterPatchesByCountry(md, src, patches, a).Ok?
    ensures FilterPatchesByCountry(md, src, patches, b).Ok?
    ensures FilterPatchesByCountry(md, src, patches, a).value * FilterPatchesByCountry(md, src, patches, b).value == {}
  {
    CountryNameInjective(a, b);
    FilterByColumnDisjoint(md, src, patches.Members(), COUNTRY, a.Name(), b.Name());
  }

  /** The Sentinel-2 names of an original split, as packaged. */
  function SplitFile(md: Metadata, split: Split): set<string> {
    match split
    case Train => md.train
    case Validation => md.validation
    case Test => md.test
  }

  /**
   * `filter_patches_by_split` and the per-sensor filters it dispatches to.
   * The Sentinel-2 filter converts its input with `set(patches)`; the
   * Sentinel-1 filter builds its split set first and then applies `&` to the
   * input as given, which fails on a list.
   */
  function FilterPatchesBySplit(md: Metadata, src: SentinelSource, patches: Patches, split: Split): (r: Result<set<string>>)
    ensures r.Err? <==> src == S1 && (Unpaired(md, SplitFile(md, split)) || patches.PatchList?)
    ensures src == S1 && !Unpaired(md, SplitFile(md, split)) && patches.PatchList? ==> r == Err(TypeError)
    ensures r.Ok? ==> SensorPatches(md, src, SplitFile(md, split)).Ok?
    ensures r.Ok? ==> forall p :: p in r.value <==>
      p in patches.Members() && p in SensorPatches(md, src, SplitFile(md, split)).value
  {
    if src == S1 then
      match S1Image(md, SplitFile(md, split))
      case Err(e) => Err(e)
      case Ok(splitPatches) =>
        match patches
        case PatchList(_) => Err(TypeError)
        case PatchSet(names) => Ok(names * splitPatches)
    else Ok(patches.Members() * SplitFile(md, split))
  }

  /** The three original split files share no name. */
  predicate DisjointSplits(md: Metadata) {
    md.train * md.validation == {} && md.train * md.test == {} && md.validation * md.test == {}
  }

  /**
   * On a consistent, paired table with disjoint split files, a sensor's
   * patch survives the split filter exactly when the split lookup of
   * `base.py` names that split.
   */
  lemma SplitFilterAgreesWithOriginalSplit(md: Metadata, src: SentinelSource, split: Split, p: string)
    requires Valid(md) && Paired(md) && DisjointSplits(md)
    requires p in SensorNames(md, src)
    ensures FilterPatchesBySplit(md, src, PatchSet(SensorNames(md, src)), split).Ok?
    ensures OriginalSplit(md, p).Ok?
    ensures p in FilterPatchesBySplit(md, src, PatchSet(SensorNames(md, src)), split).value
      <==> OriginalSplit(md, p) == Ok(Some(split))
  {
    ValidNeverRaises(md, p);
    ValidS1Image(md, SplitFile(md, split));
    SensorFlag(md, src, md.train, p);
    SensorFlag(md, src, md.validation, p);
    SensorFlag(md, src, md.test, p);
    FlaggedDisjoint(md, md.train, md.validation, p);
    FlaggedDisjoint(md, md.train, md.test, p);
    FlaggedDisjoint(md, md.validation, md.test, p);
  }

  /** Disjoint sets of Sentinel-2 names never flag the same patch, on a paired table. */
  lemma FlaggedDisjoint(md: Metadata, a: set<string>, b: set<string>, p: string)
    requires Paired(md) && a * b == {}
    requires a <= ColumnValues(md.names, S2_NAME) && b <= ColumnValues(md.names, S2_NAME)
    ensures !(Flagged(md, a, p) && Flagged(md, b, p))
  {
    if p in ColumnValues(md.names, S2_NAME) {
      FlaggedS2Name(md, a, p);
      FlaggedS2Name(md, b, p);
      assert p !in a * b;
    } else if Flagged(md, a, p) {
      var s :| s in a && S2ToS1(md, s) == Ok(p);
      forall t | t in b
        ensures S2ToS1(md, t) != Ok(p)
      {
        PartnerUnique(md, s, t, p);
        assert t !in a * b;
      }
    }
  }

  /** Two names with the same Sentinel-1 partner are the same name. */
  lemma PartnerUnique(md: Metadata, s: string, t: string, p: string)
    requires DistinctNames(md)
    ensures S2ToS1(md, s) == Ok(p) && S2ToS1(md, t) == Ok(p) ==> s == t
  {
    RoundTrip(md, s);
    RoundTrip(md, t);
  }

  /** A Sentinel-2 name of the table is flagged by a set of Sentinel-2 names exactly when it is in it. */
  lemma FlaggedS2Name(md: Metadata, s2s: set<string>, p: string)
    requires Paired(md) && p in ColumnValues(md.names, S2_NAME)
    ensures Flagged(md, s2s, p) <==> p in s2s
  {
    forall s ensures S2ToS1(md, s) != Ok(p) {
      S1NameIsNotS2Name(md, s, p);
    }
  }

  /** The Sentinel-1 partner of a name is not itself a Sentinel-2 name of the table. */
  lemma S1NameIsNotS2Name(md: Metadata, s: string, p: string)
    requires Paired(md)
    ensures S2ToS1(md, s) == Ok(p) ==> p !in ColumnValues(md.names, S2_NAME)
  {
    var rows := md.names.rows;
    if S2ToS1(md, s) == Ok(p) && p in ColumnValues(md.names, S2_NAME) {
      var i :| 0 <= i < |rows| && rows[i][S2_NAME] == s && rows[i][S1_NAME] == p;
      var j :| 0 <= j < |rows| && rows[j][S2_NAME] == p;
      assert IsS1Patch(p) && IsS2Patch(p);
      GrammarsDisjoint(p);
      assert false;
    }
  }

  // ---------------------------------------------------------------------
  // build_set.

  /**
   * `{p for v in values for p in filter(patches, v)}`: the union of one
   * filter per value, each loading the same map.
   */
  function FilterUnion(md: Metadata, src: SentinelSource, patches: set<string>, column: string, values: seq<string>): (r: Result<set<string>>)
    ensures r.Ok? <==> values == [] || (HasColumns(md, NameColumn(src), column) && patches <= SensorNames(md, src))
    ensures r.Err? ==> r.error == (if HasColumns(md, NameColumn(src), column) then KeyError else ValueError)
    ensures r.Ok? ==> forall p :: p in r.value <==>
      p in patches && PatchValue(md, src, column, p).Ok? && PatchValue(md, src, column, p).value in values
    decreases |values|
  {
    if values == [] then Ok({})
    else
      match FilterByColumn(md, src, patches, column, values[0])
      case Err(e) => Err(e)
      case Ok(first) =>
        match FilterUnion(md, src, patches, column, values[1..])
        case Err(e) => Err(e)
        case Ok(rest) =>
          UnionOfFilters(md, src, patches, column, values, first, rest);
          Ok(first + rest)
  }

  /** The filter for the first value joined with the union for the others is the union for all values. */
  lemma UnionOfFilters(md: Metadata, src: SentinelSource, patches: set<string>, column: string, values: seq<string>,
                       first: set<string>, rest: set<string>)
    requires values != [] && FilterByColumn(md, src, patches, column, values[0]) == Ok(first)
    requires forall p :: p in rest <==>
      p in patches && PatchValue(md, src, column, p).Ok? && PatchValue(md, src, column, p).value in values[1..]
    ensures forall p :: p in first + rest <==>
      p in patches && PatchValue(md, src, column, p).Ok? && PatchValue(md, src, column, p).value in values
  {
    assert forall v :: v in values <==> v == values[0] || v in values[1..] by {
      assert values == [values[0]] + values[1..];
    }
  }

  /** The names of a list of enumeration members, in order. */
  function Names<T>(xs: seq<T>, name: T -> string): (names: seq<string>)
    ensures |names| == |xs| && forall i :: 0 <= i < |xs| ==> names[i] == name(xs[i])
  {
    seq(|xs|, i requires 0 <= i < |xs| => name(xs[i]))
  }

  const NameOfSeason: Season -> string := (s: Season) => s.Name()
  const NameOfCountry: Country -> string := (c: Country) => c.Name()

  /** The patch's entry in `column` is the name of one of `names`. */
  predicate EntryAmong(md: Metadata, src: SentinelSource, column: string, p: string, names: seq<string>) {
    PatchValue(md, src, column, p).Ok? && PatchValue(md, src, column, p).value in names
  }

  /** The base of `build_set`: the recommended patches, or all of them. */
  function BaseSet(md: Metadata, src: SentinelSource, removeUnrecommended: bool): Result<set<string>> {
    if removeUnrecommended then Recommended(md, src) else AllPatches(md, src)
  }

  /**
   * `build_set`: the base set, then the union of the season filters when
   * seasons are given, then the union of the country filters when countries
   * are given; an empty list leaves its axis unfiltered.
   */
  function BuildSet(md: Metadata, src: SentinelSource, seasons: seq<Season>, countries: seq<Country>,
                    removeUnrecommended: bool): (r: Result<set<string>>)
    ensures BaseSet(md, src, removeUnrecommended).Err? ==> r == BaseSet(md, src, removeUnrecommended)
    ensures r.Ok? ==> BaseSet(md, src, removeUnrecommended).Ok?
    ensures r.Ok? ==> forall p :: p in r.value <==>
      p in BaseSet(md, src, removeUnrecommended).value
      && (seasons == [] || EntryAmong(md, src, SEASON, p, Names(seasons, NameOfSeason)))
      && (countries == [] || EntryAmong(md, src, COUNTRY, p, Names(countries, NameOfCountry)))
  {
    match BaseSet(md, src, removeUnrecommended)
    case Err(e) => Err(e)
    case Ok(base) =>
      var afterSeasons := if |seasons| > 0 then FilterUnion(md, src, base, SEASON, Names(seasons, NameOfSeason)) else Ok(base);
      match afterSeasons
      case Err(e) => Err(e)
      case Ok(patches) =>
        if |countries| > 0 then FilterUnion(md, src, patches, COUNTRY, Names(countries, NameOfCountry)) else Ok(patches)
  }

  /** On consistent files `build_set` never raises. */
  lemma ValidBuildSet(md: Metadata, src: SentinelSource, seasons: seq<Season>, countries: seq<Country>,
                      removeUnrecommended: bool)
    requires Valid(md)
    ensures BuildSet(md, src, seasons, countries, removeUnrecommended).Ok?
  {
    ValidBaseSets(md, src);
  }

  /** Removing the unrecommended patches only ever removes patches. */
  lemma BuildSetRecommendedSubset(md: Metadata, src: SentinelSource, seasons: seq<Season>, countries: seq<Country>)
    requires Valid(md)
    ensures BuildSet(md, src, seasons, countries, true).Ok? && BuildSet(md, src, seasons, countries, false).Ok?
    ensures BuildSet(md, src, seasons, countries, true).value <= BuildSet(md, src, seasons, countries, false).value
  {
    ValidBuildSet(md, src, seasons, countries, true);
    ValidBuildSet(md, src, seasons, countries, false);
  }

  /** Once a season is given, adding more seasons never shrinks the result. */
  lemma BuildSetMoreSeasons(md: Metadata, src: SentinelSource, seasons: seq<Season>, more: seq<Season>,
                            countries: seq<Country>, removeUnrecommended: bool)
    requires Valid(md) && seasons != []
    ensures BuildSet(md, src, seasons, countries, removeUnrecommended).Ok?
    ensures BuildSet(md, src, seasons + more, countries, removeUnrecommended).Ok?
    ensures BuildSet(md, src, seasons, countries, removeUnrecommended).value
         <= BuildSet(md, src, seasons + more, countries, removeUnrecommended).value
  {
    ValidBuildSet(md, src, seasons, countries, removeUnrecommended);
    ValidBuildSet(md, src, seasons + more, countries, removeUnrecommended);
    assert forall i :: 0 <= i < |seasons| ==> Names(seasons + more, NameOfSeason)[i] == Names(seasons, NameOfSeason)[i];
  }

  /** Once a country is given, adding more countries never shrinks the result. */
  lemma BuildSetMoreCountries(md: Metadata, src: SentinelSource, seasons: seq<Season>, countries: seq<Country>,
                              more: seq<Country>, removeUnrecommended: bool)
    requires Valid(md) && countries != []
    ensures BuildSet(md, src, seasons, countries, removeUnrecommended).Ok?
    ensures BuildSet(md, src, seasons, countries + more, removeUnrecommended).Ok?
    ensures BuildSet(md, src, seasons, countries, removeUnrecommended).value
         <= BuildSet(md, src, seasons, countries + more, removeUnrecommended).value
  {
    ValidBuildSet(md, src, seasons, countries, removeUnrecommended);
    ValidBuildSet(md, src, seasons, countries + more, removeUnrecommended);
    var few, all := Names(countries, NameOfCountry), Names(countries + more, NameOfCountry);
    assert forall x :: x in few ==> x in all by {
      forall x | x in few ensures x in all {
        var i :| 0 <= i < |few| && few[i] == x;
        assert all[i] == x;
      }
    }
    forall p | p in BuildSet(md, src, seasons, countries, removeUnrecommended).value
      ensures p in BuildSet(md, src, seasons, countries + more, removeUnrecommended).value
    {
      assert EntryAmong(md, src, COUNTRY, p, few);
    }
  }

  // ---------------------------------------------------------------------
  // build_csv_sets.

  /** What `build_csv_sets` writes: one file per split, or one file with every patch. */
  datatype CsvSets = SplitSets(train: set<string>, validation: set<string>, test: set<string>) | AllInOne(patches: set<string>)

  /**
   * The checks of `build_csv_sets` as written: every bucket is non-empty,
   * and no patch lies in all three buckets at once.
   */
  function CheckSplitsAsWritten(train: set<string>, validation: set<string>, test: set<string>): (r: Result<CsvSets>)
    ensures r.Ok? <==> train != {} && validation != {} && test != {} && train * validation * test == {}
    ensures r.Err? ==> r.error == RuntimeError
    ensures r.Ok? ==> r.value == SplitSets(train, validation, test)
  {
    if |train| == 0 || |validation| == 0 || |test| == 0 then Err(RuntimeError)
    else if train * validation * test != {} then Err(RuntimeError)
    else Ok(SplitSets(train, validation, test))
  }

  /** The overlap check as its message means it: no patch lies in two buckets. */
  function CheckSplits(train: set<string>, validation: set<string>, test: set<string>): (r: Result<CsvSets>)
    ensures r.Ok? <==> (train != {} && validation != {} && test != {}
                        && train * validation == {} && train * test == {} && validation * test == {})
    ensures r.Err? ==> r.error == RuntimeError
    ensures r.Ok? ==> r.value == SplitSets(train, validation, test)
  {
    if |train| == 0 || |validation| == 0 || |test| == 0 then Err(RuntimeError)
    else if train * validation != {} || train * test != {} || validation * test != {} then Err(RuntimeError)
    else Ok(SplitSets(train, validation, test))
  }

  /** A patch in the train and the validation bucket but not in the test bucket passes the check as written. */
  lemma TripleIntersectionMissesOverlap()
    ensures CheckSplitsAsWritten({"a"}, {"a"}, {"b"}).Ok?
    ensures CheckSplits({"a"}, {"a"}, {"b"}).Err?
  {
    assert "a" in {"a"} * {"a"};
    assert {"a"} * {"a"} * {"b"} == {};
  }

  /** Whatever the pairwise check accepts, the check as written accepts too. */
  lemma CheckSplitsStronger(train: set<string>, validation: set<string>, test: set<string>)
    requires CheckSplits(train, validation, test).Ok?
    ensures CheckSplitsAsWritten(train, validation, test) == CheckSplits(train, validation, test)
  {
    assert train * validation * test <= train * validation;
  }

  /** `p` is in the sensor's view of an original split. */
  predicate InSplit(md: Metadata, src: SentinelSource, split: Split, p: string) {
    SensorPatches(md, src, SplitFile(md, split)).Ok? && p in SensorPatches(md, src, SplitFile(md, split)).value
  }

  /**
   * The three split filters `build_csv_sets` applies, in source order: the
   * first filter's error, or the train, validation and test buckets.
   */
  function SplitBuckets(md: Metadata, src: SentinelSource, patches: set<string>): (r: Result<CsvSets>)
    ensures var train := FilterPatchesBySplit(md, src, PatchSet(patches), Train);
      var validation := FilterPatchesBySplit(md, src, PatchSet(patches), Validation);
      var test := FilterPatchesBySplit(md, src, PatchSet(patches), Test);
      (train.Err? ==> r == Err(train.error))
      && (train.Ok? && validation.Err? ==> r == Err(validation.error))
      && (train.Ok? && validation.Ok? && test.Err? ==> r == Err(test.error))
    ensures r.Ok? <==> !(src == S1 && (Unpaired(md, md.train) || Unpaired(md, md.validation) || Unpaired(md, md.test)))
    ensures r.Ok? ==> r.value.SplitSets?
    ensures r.Ok? ==> forall p :: p in r.value.train <==> p in patches && InSplit(md, src, Train, p)
    ensures r.Ok? ==> forall p :: p in r.value.validation <==> p in patches && InSplit(md, src, Validation, p)
    ensures r.Ok? ==> forall p :: p in r.value.test <==> p in patches && InSplit(md, src, Test, p)
  {
    var train := FilterPatchesBySplit(md, src, PatchSet(patches), Train);
    var validation := FilterPatchesBySplit(md, src, PatchSet(patches), Validation);
    var test := FilterPatchesBySplit(md, src, PatchSet(patches), Test);
    if train.Err? then Err(train.error)
    else if validation.Err? then Err(validation.error)
    else if test.Err? then Err(test.error)
    else Ok(SplitSets(train.value, validation.value, test.value))
  }

  /**
   * `build_csv_sets` without the file writing: `build_set`, then, for
   * separate splits, the three split filters and the checks as written.
   */
  function BuildCsvSets(md: Metadata, src: SentinelSource, seasons: seq<Season>, countries: seq<Country>,
                        removeUnrecommended: bool, writeSeparateSplits: bool): (r: Result<CsvSets>)
    ensures var base := BuildSet(md, src, seasons, countries, removeUnrecommended);
      base.Err? ==> r == Err(base.error)
    ensures var base := BuildSet(md, src, seasons, countries, removeUnrecommended);
      base.Ok? && !writeSeparateSplits ==> r == Ok(AllInOne(base.value))
    ensures var base := BuildSet(md, src, seasons, countries, removeUnrecommended);
      base.Ok? && writeSeparateSplits && SplitBuckets(md, src, base.value).Err? ==>
        r == SplitBuckets(md, src, base.value)
    ensures var base := BuildSet(md, src, seasons, countries, removeUnrecommended);
      r.Ok? && writeSeparateSplits ==> base.Ok? && r == SplitBuckets(md, src, base.value)
    ensures r.Ok? && writeSeparateSplits ==>
      r.value.SplitSets? && r.value.train != {} && r.value.validation != {} && r.value.test != {}
      && r.value.train * r.value.validation * r.value.test == {}
    ensures var base := BuildSet(md, src, seasons, countries, removeUnrecommended);
      r.Err? && base.Ok? && SplitBuckets(md, src, base.value).Ok? ==> r.error == RuntimeError
  {
    match BuildSet(md, src, seasons, countries, removeUnrecommended)
    case Err(e) => Err(e)
    case Ok(patches) =>
      if !writeSeparateSplits then Ok(AllInOne(patches))
      else
        match SplitBuckets(md, src, patches)
        case Err(e) => Err(e)
        case Ok(buckets) => CheckSplitsAsWritten(buckets.train, buckets.validation, buckets.test)
  }

  /**
   * Buckets cut from `patches` by three sets `a`, `b` and `c` pass the
   * check as written exactly when each of them meets `patches` and no patch
   * is in all three.
   */
  lemma CutBucketsPassIff(patches: set<string>, a: set<string>, b: set<string>, c: set<string>,
                          train: set<string>, validation: set<string>, test: set<string>)
    requires train == patches * a && validation == patches * b && test == patches * c
    ensures CheckSplitsAsWritten(train, validation, test).Ok? <==>
      patches * a != {} && patches * b != {} && patches * c != {} && patches * a * b * c == {}
  {
    assert train * validation * test == patches * a * b * c;
  }

  /** The view of a split the buckets are cut with: the sensor's view, or nothing where it cannot be built. */
  function SplitView(md: Metadata, src: SentinelSource, split: Split): (v: set<string>)
    ensures forall p :: p in v <==> InSplit(md, src, split, p)
  {
    var view := SensorPatches(md, src, SplitFile(md, split));
    if view.Ok? then view.value else {}
  }

  /**
   * When every split filter succeeds, the check as written accepts the
   * buckets exactly when each split holds a patch and no patch lies in all
   * three splits.
   */
  lemma BucketsPassIff(md: Metadata, src: SentinelSource, patches: set<string>)
    requires SplitBuckets(md, src, patches).Ok?
    ensures var b := SplitBuckets(md, src, patches).value;
      var tr, va, te := SplitView(md, src, Train), SplitView(md, src, Validation), SplitView(md, src, Test);
      CheckSplitsAsWritten(b.train, b.validation, b.test).Ok? <==>
        patches * tr != {} && patches * va != {} && patches * te != {} && patches * tr * va * te == {}
  {
    var b := SplitBuckets(md, src, patches).value;
    var tr, va, te := SplitView(md, src, Train), SplitView(md, src, Validation), SplitView(md, src, Test);
    assert b.train == patches * tr;
    assert b.validation == patches * va;
    assert b.test == patches * te;
    CutBucketsPassIff(patches, tr, va, te, b.train, b.validation, b.test);
  }

  /**
   * When every split filter succeeds, `build_csv_sets` as written succeeds
   * exactly when each split holds a patch of `build_set`'s result and no
   * patch of it lies in all three splits.
   */
  lemma BuildCsvSetsSucceedsIff(md: Metadata, src: SentinelSource, seasons: seq<Season>, countries: seq<Country>,
                                removeUnrecommended: bool)
    requires BuildSet(md, src, seasons, countries, removeUnrecommended).Ok?
    requires !(src == S1 && (Unpaired(md, md.train) || Unpaired(md, md.validation) || Unpaired(md, md.test)))
    ensures var patches := BuildSet(md, src, seasons, countries, removeUnrecommended).value;
      var tr, va, te := SplitView(md, src, Train), SplitView(md, src, Validation), SplitView(md, src, Test);
      BuildCsvSets(md, src, seasons, countries, removeUnrecommended, true).Ok? <==>
        patches * tr != {} && patches * va != {} && patches * te != {} && patches * tr * va * te == {}
  {
    BucketsPassIff(md, src, BuildSet(md, src, seasons, countries, removeUnrecommended).value);
  }

  /**
   * `build_csv_sets` with the overlap check its message describes: the
   * same steps, but no patch may lie in two buckets.  It fails whenever the
   * program as written fails, and where it succeeds the two agree.
   */
  function BuildCsvSetsCorrected(md: Metadata, src: SentinelSource, seasons: seq<Season>, countries: seq<Country>,
                                 removeUnrecommended: bool, writeSeparateSplits: bool): (r: Result<CsvSets>)
    ensures BuildCsvSets(md, src, seasons, countries, removeUnrecommended, writeSeparateSplits).Err? ==>
      r == BuildCsvSets(md, src, seasons, countries, removeUnrecommended, writeSeparateSplits)
    ensures r.Ok? ==> r == BuildCsvSets(md, src, seasons, countries, removeUnrecommended, writeSeparateSplits)
    ensures r.Ok? && writeSeparateSplits ==>
      r.value.SplitSets? && r.value.train * r.value.validation == {}
      && r.value.train * r.value.test == {} && r.value.validation * r.value.test == {}
  {
    match BuildSet(md, src, seasons, countries, removeUnrecommended)
    case Err(e) => Err(e)
    case Ok(patches) =>
      if !writeSeparateSplits then Ok(AllInOne(patches))
      else
        match SplitBuckets(md, src, patches)
        case Err(e) => Err(e)
        case Ok(b) =>
          if CheckSplits(b.train, b.validation, b.test).Ok? then
            CheckSplitsStronger(b.train, b.validation, b.test);
            CheckSplits(b.train, b.validation, b.test)
          else
            assert b.train * b.validation * b.test <= b.train * b.validation;
            CheckSplits(b.train, b.validation, b.test)
  }

  /** With disjoint split files, no name of the sensor is in the views of two different splits. */
  lemma ViewsDisjointAt(md: Metadata, src: SentinelSource, x: Split, y: Split, p: string)
    requires Valid(md) && Paired(md) && DisjointSplits(md) && x != y
    requires p in SensorNames(md, src)
    ensures !(p in SplitView(md, src, x) && p in SplitView(md, src, y))
  {
    var fx, fy := SplitFile(md, x), SplitFile(md, y);
    assert fx * fy == {} by {
      match x
      case Train => {}
      case Validation => {}
      case Test => {}
    }
    SensorFlag(md, src, fx, p);
    SensorFlag(md, src, fy, p);
    FlaggedDisjoint(md, fx, fy, p);
  }

  /**
   * On consistent, paired files whose split files share no name, the
   * buckets of a set of the sensor's names never overlap.
   */
  lemma BucketsDisjoint(md: Metadata, src: SentinelSource, patches: set<string>)
    requires Valid(md) && Paired(md) && DisjointSplits(md)
    requires patches <= SensorNames(md, src)
    ensures SplitBuckets(md, src, patches).Ok?
    ensures var b := SplitBuckets(md, src, patches).value;
      b.train * b.validation == {} && b.train * b.test == {} && b.validation * b.test == {}
  {
    ValidS1Image(md, md.train);
    ValidS1Image(md, md.validation);
    ValidS1Image(md, md.test);
    var b := SplitBuckets(md, src, patches).value;
    var tr, va, te := SplitView(md, src, Train), SplitView(md, src, Validation), SplitView(md, src, Test);
    assert b.train == patches * tr && b.validation == patches * va && b.test == patches * te;
    forall p | p in patches
      ensures !(p in tr && p in va) && !(p in tr && p in te) && !(p in va && p in te)
    {
      ViewsDisjointAt(md, src, Train, Validation, p);
      ViewsDisjointAt(md, src, Train, Test, p);
      ViewsDisjointAt(md, src, Validation, Test, p);
    }
  }

  /**
   * On consistent, paired files whose split files share no name, the
   * buckets cannot overlap, so the check as written and the corrected one
   * give the same result.
   */
  lemma BuildCsvSetsAgree(md: Metadata, src: SentinelSource, seasons: seq<Season>, countries: seq<Country>,
                          removeUnrecommended: bool, writeSeparateSplits: bool)
    requires Valid(md) && Paired(md) && DisjointSplits(md)
    ensures BuildCsvSetsCorrected(md, src, seasons, countries, removeUnrecommended, writeSeparateSplits)
         == BuildCsvSets(md, src, seasons, countries, removeUnrecommended, writeSeparateSplits)
  {
    ValidBuildSet(md, src, seasons, countries, removeUnrecommended);
    var patches := BuildSet(md, src, seasons, countries, removeUnrecommended).value;
    BuildSetWithinSensor(md, src, seasons, countries, removeUnrecommended);
    BucketsDisjoint(md, src, patches);
  }

  /** `build_set` only returns names of the sensor. */
  lemma BuildSetWithinSensor(md: Metadata, src: SentinelSource, seasons: seq<Season>, countries: seq<Country>,
                             removeUnrecommended: bool)
    requires BuildSet(md, src, seasons, countries, removeUnrecommended).Ok?
    ensures BuildSet(md, src, seasons, countries, removeUnrecommended).value <= SensorNames(md, src)
  {
  }
}

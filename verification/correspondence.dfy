/**
 * The patch lookups of `bigearthnet_common/base.py`: the Sentinel-1 <->
 * Sentinel-2 name maps, the sensor-agnostic membership tests (seasonal snow,
 * cloud or shadow, no 19-class target), the original split, the country and
 * season of a patch, and the set arithmetic of the archive-directory check.
 *
 * The packaged files are a parameter.  One table with the columns
 * `s1_name`, `s2_name`, `country` and `season` backs the name, country and
 * season maps; the other files list Sentinel-2 names only, and their
 * Sentinel-1 counterparts are computed through the S2 -> S1 map.  Every
 * function re-derives what it needs through the loaders, so it fails
 * exactly where the source would: ValueError for a missing column, KeyError
 * for a name outside a map.
 */
module Correspondence {
  import opened Wrappers
  import opened Resources
  import opened Grammar
  import opened Enums

  const S1_NAME: string := "s1_name"
  const S2_NAME: string := "s2_name"
  const COUNTRY: string := "country"
  const SEASON: string := "season"

  /**
   * The packaged metadata: the name/country/season table, and the sets the
   * single-column files load to (Sentinel-2 names).
   */
  datatype Metadata = Metadata(
    names: Table,
    snowy: set<string>,
    cloudy: set<string>,
    noTarget: set<string>,
    train: set<string>,
    validation: set<string>,
    test: set<string>)

  /** `d[k]` on a dict that may have failed to load. */
  function Lookup(d: Result<map<string, string>>, k: string): (r: Result<string>)
    ensures d.Err? ==> r == Err(d.error)
    ensures d.Ok? ==> (r.Ok? <==> k in d.value)
    ensures d.Ok? && r.Ok? ==> r.value == d.value[k]
    ensures d.Ok? && r.Err? ==> r.error == KeyError
  {
    match d
    case Err(e) => Err(e)
    case Ok(m) => if k in m then Ok(m[k]) else Err(KeyError)
  }

  /** The table has both columns. */
  predicate HasColumns(md: Metadata, a: string, b: string) {
    a in md.names.header && b in md.names.header
  }

  function S1ToS2Mapping(md: Metadata): Result<map<string, string>> {
    LoadDict(Some(md.names), S1_NAME, S2_NAME)
  }

  function S2ToS1Mapping(md: Metadata): Result<map<string, string>> {
    LoadDict(Some(md.names), S2_NAME, S1_NAME)
  }

  /** `get_all_s2_patch_names`: every name of the `s2_name` column. */
  function AllS2PatchNames(md: Metadata): (r: Result<set<string>>)
    ensures r.Ok? <==> S2_NAME in md.names.header
    ensures r.Ok? ==> r.value == ColumnValues(md.names, S2_NAME)
  {
    LoadSet(Some(md.names), S2_NAME)
  }

  /** `get_all_s1_patch_names`: every name of the `s1_name` column. */
  function AllS1PatchNames(md: Metadata): (r: Result<set<string>>)
    ensures r.Ok? <==> S1_NAME in md.names.header
    ensures r.Ok? ==> r.value == ColumnValues(md.names, S1_NAME)
  {
    LoadSet(Some(md.names), S1_NAME)
  }

  /** `s1_to_s2_patch_name`: the Sentinel-2 name a row pairs with `p`. */
  function S1ToS2(md: Metadata, p: string): (r: Result<string>)
    ensures r.Ok? <==> HasColumns(md, S1_NAME, S2_NAME) && p in ColumnValues(md.names, S1_NAME)
    ensures r.Err? ==> r.error == (if HasColumns(md, S1_NAME, S2_NAME) then KeyError else ValueError)
    ensures r.Ok? ==> HasColumns(md, S1_NAME, S2_NAME) && RowGives(md.names, S1_NAME, S2_NAME, p, r.value)
  {
    Lookup(S1ToS2Mapping(md), p)
  }

  /** `s2_to_s1_patch_name`: the Sentinel-1 name a row pairs with `p`. */
  function S2ToS1(md: Metadata, p: string): (r: Result<string>)
    ensures r.Ok? <==> HasColumns(md, S1_NAME, S2_NAME) && p in ColumnValues(md.names, S2_NAME)
    ensures r.Err? ==> r.error == (if HasColumns(md, S1_NAME, S2_NAME) then KeyError else ValueError)
    ensures r.Ok? ==> HasColumns(md, S1_NAME, S2_NAME) && RowGives(md.names, S2_NAME, S1_NAME, p, r.value)
  {
    Lookup(S2ToS1Mapping(md), p)
  }

  /** No name occurs in two rows of the table. */
  predicate DistinctNames(md: Metadata) {
    var h, rows := md.names.header, md.names.rows;
    S1_NAME in h && S2_NAME in h
    && (forall i, j :: 0 <= i < j < |rows| ==> rows[i][S1_NAME] != rows[j][S1_NAME])
    && (forall i, j :: 0 <= i < j < |rows| ==> rows[i][S2_NAME] != rows[j][S2_NAME])
  }

  /** Every name of the table follows its sensor's grammar. */
  predicate NamesFollowGrammar(md: Metadata)
    requires S1_NAME in md.names.header && S2_NAME in md.names.header
  {
    forall i :: 0 <= i < |md.names.rows| ==>
      IsS1Patch(md.names.rows[i][S1_NAME]) && IsS2Patch(md.names.rows[i][S2_NAME])
  }

  /**
   * What the packaged table is meant to satisfy: each row pairs a
   * Sentinel-1 name with a Sentinel-2 name, no name occurs in two rows, and
   * every name follows its sensor's grammar.
   */
  predicate Paired(md: Metadata) {
    DistinctNames(md) && NamesFollowGrammar(md)
  }

  /** On paired rows each row is found again in both maps. */
  lemma PairedRow(md: Metadata, i: int)
    requires DistinctNames(md) && 0 <= i < |md.names.rows|
    ensures S1ToS2(md, md.names.rows[i][S1_NAME]) == Ok(md.names.rows[i][S2_NAME])
    ensures S2ToS1(md, md.names.rows[i][S2_NAME]) == Ok(md.names.rows[i][S1_NAME])
  {
    var row := md.names.rows[i];
    LoadDictDistinct(md.names, S1_NAME, S2_NAME);
    var m12 := LoadDict(Some(md.names), S1_NAME, S2_NAME);
    assert m12.Ok? && m12.value[row[S1_NAME]] == row[S2_NAME];
    assert S1ToS2(md, row[S1_NAME]) == Lookup(m12, row[S1_NAME]);
    LoadDictDistinct(md.names, S2_NAME, S1_NAME);
    var m21 := LoadDict(Some(md.names), S2_NAME, S1_NAME);
    assert m21.Ok? && m21.value[row[S2_NAME]] == row[S1_NAME];
    assert S2ToS1(md, row[S2_NAME]) == Lookup(m21, row[S2_NAME]);
  }

  /** Converting a name to the other sensor and back gives the name again. */
  lemma RoundTrip(md: Metadata, p: string)
    requires DistinctNames(md)
    ensures S1ToS2(md, p).Ok? ==> S2ToS1(md, S1ToS2(md, p).value) == Ok(p)
    ensures S2ToS1(md, p).Ok? ==> S1ToS2(md, S2ToS1(md, p).value) == Ok(p)
  {
    var rows := md.names.rows;
    if S1ToS2(md, p).Ok? {
      var i :| 0 <= i < |rows| && rows[i][S1_NAME] == p && rows[i][S2_NAME] == S1ToS2(md, p).value;
      PairedRow(md, i);
    }
    if S2ToS1(md, p).Ok? {
      var i :| 0 <= i < |rows| && rows[i][S2_NAME] == p && rows[i][S1_NAME] == S2ToS1(md, p).value;
      PairedRow(md, i);
    }
  }

  /** Both maps have one entry per row, and the keys of one are the values of the other. */
  lemma MappingsMirror(md: Metadata)
    requires DistinctNames(md)
    ensures S1ToS2Mapping(md).Ok? && S2ToS1Mapping(md).Ok?
    ensures |S1ToS2Mapping(md).value| == |S2ToS1Mapping(md).value| == |md.names.rows|
    ensures S1ToS2Mapping(md).value.Keys == S2ToS1Mapping(md).value.Values
    ensures S2ToS1Mapping(md).value.Keys == S1ToS2Mapping(md).value.Values
  {
    var t := md.names;
    assert S1ToS2Mapping(md) == LoadDict(Some(t), S1_NAME, S2_NAME);
    assert S2ToS1Mapping(md) == LoadDict(Some(t), S2_NAME, S1_NAME);
    LoadDictDistinct(t, S1_NAME, S2_NAME);
    LoadDictDistinct(t, S2_NAME, S1_NAME);
    LoadDictMirror(t, S1_NAME, S2_NAME);
    LoadDictMirror(t, S2_NAME, S1_NAME);
  }

  // ---------------------------------------------------------------------
  // Sensor-agnostic membership.

  /** `p` is one of the Sentinel-2 names in `s2s`, or the Sentinel-1 partner of one. */
  predicate Flagged(md: Metadata, s2s: set<string>, p: string) {
    p in s2s || exists s :: s in s2s && S2ToS1(md, s) == Ok(p)
  }

  /**
   * `{s2_to_s1_patch_name(s) for s in s2s}`: the Sentinel-1 partners of a
   * set of Sentinel-2 names.  The first name without a partner raises; an
   * empty set never consults the map.
   */
  function S1Image(md: Metadata, s2s: set<string>): (r: Result<set<string>>)
    ensures r.Err? <==> exists s :: s in s2s && S2ToS1(md, s).Err?
    ensures r.Err? ==> exists s :: s in s2s && S2ToS1(md, s) == Err(r.error)
    ensures r.Ok? ==> forall x :: x in r.value <==> exists s :: s in s2s && S2ToS1(md, s) == Ok(x)
  {
    if s2s == {} then Ok({})
    else
      match S2ToS1Mapping(md)
      case Err(e) =>
        var s :| s in s2s;
        assert S2ToS1(md, s) == Err(e);
        Err(e)
      case Ok(m) =>
        if s2s <= m.Keys then
          var img := set s | s in s2s :: m[s];
          assert forall x :: x in img <==> exists s :: s in s2s && S2ToS1(md, s) == Ok(x) by {
            forall x | x in img ensures exists s :: s in s2s && S2ToS1(md, s) == Ok(x) {
              var s :| s in s2s && m[s] == x;
              assert S2ToS1(md, s) == Ok(x);
            }
          }
          Ok(img)
        else
          var s :| s in s2s && s !in m.Keys;
          assert S2ToS1(md, s) == Err(KeyError);
          Err(KeyError)
  }

  /**
   * `p in s2s or p in {s2_to_s1_patch_name(s) for s in s2s}`: the Sentinel-1
   * set is only built when the Sentinel-2 test fails.
   */
  function FlaggedEither(md: Metadata, s2s: set<string>, p: string): (r: Result<bool>)
    ensures r.Ok? ==> (r.value <==> Flagged(md, s2s, p))
    ensures p in s2s ==> r == Ok(true)
    ensures r.Err? <==> p !in s2s && exists s :: s in s2s && S2ToS1(md, s).Err?
  {
    if p in s2s then Ok(true)
    else
      match S1Image(md, s2s)
      case Err(e) => Err(e)
      case Ok(s1s) => Ok(p in s1s)
  }

  /** `is_snowy_patch`: works for Sentinel-1 and Sentinel-2 names. */
  function IsSnowy(md: Metadata, p: string): (r: Result<bool>)
    ensures r.Ok? ==> (r.value <==> Flagged(md, md.snowy, p))
  {
    FlaggedEither(md, md.snowy, p)
  }

  /** `is_cloudy_shadowy_patch`: works for Sentinel-1 and Sentinel-2 names. */
  function IsCloudy(md: Metadata, p: string): (r: Result<bool>)
    ensures r.Ok? ==> (r.value <==> Flagged(md, md.cloudy, p))
  {
    FlaggedEither(md, md.cloudy, p)
  }

  /**
   * `has_19_class_target`: the negation of membership in the Sentinel-1 or
   * the Sentinel-2 no-target set.  The Sentinel-1 set is built first, so a
   * broken map raises whatever `p` is.
   */
  function Has19ClassTarget(md: Metadata, p: string): (r: Result<bool>)
    ensures r.Err? <==> exists s :: s in md.noTarget && S2ToS1(md, s).Err?
    ensures r.Ok? ==> (r.value <==> !Flagged(md, md.noTarget, p))
  {
    match S1Image(md, md.noTarget)
    case Err(e) => Err(e)
    case Ok(s1s) => Ok(!(p in s1s || p in md.noTarget))
  }

  /** Some name of the set has no partner in the S2 -> S1 map. */
  predicate Unpaired(md: Metadata, s2s: set<string>) {
    exists s :: s in s2s && S2ToS1(md, s).Err?
  }

  /**
   * `get_original_split_from_patch_name`: train, then validation, then
   * test, each tested on the union of its Sentinel-1 and Sentinel-2 sets;
   * `None` (with a warning) when no split has the name.
   */
  function OriginalSplit(md: Metadata, p: string): (r: Result<Option<Split>>)
    ensures r.Err? <==> Unpaired(md, md.train) || Unpaired(md, md.validation) || Unpaired(md, md.test)
    ensures r.Ok? ==> (r.value == Some(Train) <==> Flagged(md, md.train, p))
    ensures r.Ok? ==> (r.value == Some(Validation) <==>
      !Flagged(md, md.train, p) && Flagged(md, md.validation, p))
    ensures r.Ok? ==> (r.value == Some(Test) <==>
      !Flagged(md, md.train, p) && !Flagged(md, md.validation, p) && Flagged(md, md.test, p))
    ensures r.Ok? ==> (r.value == None <==>
      !Flagged(md, md.train, p) && !Flagged(md, md.validation, p) && !Flagged(md, md.test, p))
  {
    var s1Train, s1Validation, s1Test := S1Image(md, md.train), S1Image(md, md.validation), S1Image(md, md.test);
    if s1Train.Err? then Err(s1Train.error)
    else if s1Validation.Err? then Err(s1Validation.error)
    else if s1Test.Err? then Err(s1Test.error)
    else if p in s1Train.value || p in md.train then Ok(Some(Train))
    else if p in s1Validation.value || p in md.validation then Ok(Some(Validation))
    else if p in s1Test.value || p in md.test then Ok(Some(Test))
    else Ok(None)
  }

  // ---------------------------------------------------------------------
  // Country and season.

  /**
   * `get_country_from_patch_name` / `get_season_from_patch_name`: a name
   * that follows the Sentinel-2 grammar is looked up in the map keyed by
   * `s2_name`; any other name, without checking the Sentinel-1 grammar, in
   * the map keyed by `s1_name`.
   */
  function ColumnFor(md: Metadata, p: string, column: string): (r: Result<string>)
    ensures var key := if IsS2Patch(p) then S2_NAME else S1_NAME;
      (r.Ok? <==> HasColumns(md, key, column) && p in ColumnValues(md.names, key))
      && (r.Ok? ==> HasColumns(md, key, column) && RowGives(md.names, key, column, p, r.value))
      && (r.Err? ==> r.error == (if HasColumns(md, key, column) then KeyError else ValueError))
  {
    if IsS2Patch(p) then Lookup(LoadDict(Some(md.names), S2_NAME, column), p)
    else Lookup(LoadDict(Some(md.names), S1_NAME, column), p)
  }

  function CountryOf(md: Metadata, p: string): (r: Result<string>)
    ensures r == ColumnFor(md, p, COUNTRY)
  {
    ColumnFor(md, p, COUNTRY)
  }

  function SeasonOf(md: Metadata, p: string): (r: Result<string>)
    ensures r == ColumnFor(md, p, SEASON)
  {
    ColumnFor(md, p, SEASON)
  }

  /** On paired rows both names of a row give that row's entry. */
  lemma ColumnForAgrees(md: Metadata, i: int, column: string)
    requires Paired(md) && column in md.names.header && 0 <= i < |md.names.rows|
    ensures ColumnFor(md, md.names.rows[i][S1_NAME], column) == Ok(md.names.rows[i][column])
    ensures ColumnFor(md, md.names.rows[i][S2_NAME], column) == Ok(md.names.rows[i][column])
  {
    var rows := md.names.rows;
    GrammarsDisjoint(rows[i][S1_NAME]);
    assert !IsS2Patch(rows[i][S1_NAME]);
    LoadDictDistinct(md.names, S1_NAME, column);
    LoadDictDistinct(md.names, S2_NAME, column);
  }

  // ---------------------------------------------------------------------
  // Consistency of the packaged files.

  /**
   * The packaged files agree with each other: the table has its four
   * columns and every name listed in a single-column file is a Sentinel-2
   * name of the table.  Then no lookup above raises.
   */
  predicate Valid(md: Metadata) {
    var h := md.names.header;
    S1_NAME in h && S2_NAME in h && COUNTRY in h && SEASON in h
    && var s2s := ColumnValues(md.names, S2_NAME);
    md.snowy <= s2s && md.cloudy <= s2s && md.noTarget <= s2s
    && md.train <= s2s && md.validation <= s2s && md.test <= s2s
  }

  lemma ValidS1Image(md: Metadata, s2s: set<string>)
    requires Valid(md) && s2s <= ColumnValues(md.names, S2_NAME)
    ensures S1Image(md, s2s).Ok?
  {
  }

  /** On consistent files the membership tests and the split lookup never raise. */
  lemma ValidNeverRaises(md: Metadata, p: string)
    requires Valid(md)
    ensures IsSnowy(md, p).Ok? && IsCloudy(md, p).Ok?
    ensures Has19ClassTarget(md, p).Ok? && OriginalSplit(md, p).Ok?
  {
    ValidS1Image(md, md.snowy);
    ValidS1Image(md, md.cloudy);
    ValidS1Image(md, md.noTarget);
    ValidS1Image(md, md.train);
    ValidS1Image(md, md.validation);
    ValidS1Image(md, md.test);
  }

  /** On consistent files a name of the table has a country and a season. */
  lemma ValidColumnFor(md: Metadata, p: string, column: string)
    requires Valid(md) && (column == COUNTRY || column == SEASON)
    requires if IsS2Patch(p) then p in ColumnValues(md.names, S2_NAME) else p in ColumnValues(md.names, S1_NAME)
    ensures ColumnFor(md, p, column).Ok?
  {
  }

  // ---------------------------------------------------------------------
  // The archive-directory check.

  /**
   * The set arithmetic of `_validate_ben_root_directory`: `entries` are the
   * names found in the directory and `complete` tells whether a patch
   * directory holds all its files.  The result lists the expected patch
   * directories that are missing, and the present ones that are incomplete.
   */
  function ValidateRootDirectory(md: Metadata, entries: set<string>, isSentinel2: bool,
                                 complete: string -> bool): (r: Result<set<string>>)
    ensures var key := if isSentinel2 then S2_NAME else S1_NAME;
      (r.Ok? <==> key in md.names.header)
      && (r.Ok? ==> key in md.names.header && forall f :: f in r.value <==>
            f in ColumnValues(md.names, key) && (f !in entries || !complete(f)))
  {
    var patchNames := if isSentinel2 then AllS2PatchNames(md) else AllS1PatchNames(md);
    match patchNames
    case Err(e) => Err(e)
    case Ok(expected) =>
      var missing := expected - entries;
      var present := expected * entries;
      var incomplete := set f | f in present && !complete(f);
      Ok(missing + incomplete)
  }

  /** The check reports nothing exactly when every expected patch is present and complete. */
  lemma ValidateRootDirectoryEmpty(md: Metadata, entries: set<string>, isSentinel2: bool,
                                   complete: string -> bool)
    requires ValidateRootDirectory(md, entries, isSentinel2, complete).Ok?
    ensures var key := if isSentinel2 then S2_NAME else S1_NAME;
      key in md.names.header
      && (ValidateRootDirectory(md, entries, isSentinel2, complete).value == {} <==>
          forall f :: f in ColumnValues(md.names, key) ==> f in entries && complete(f))
      && ValidateRootDirectory(md, entries, isSentinel2, complete).value <= ColumnValues(md.names, key)
  {
    var key := if isSentinel2 then S2_NAME else S1_NAME;
    var r := ValidateRootDirectory(md, entries, isSentinel2, complete).value;
    if r == {} {
      forall f | f in ColumnValues(md.names, key) ensures f in entries && complete(f) {
        assert f !in r;
      }
    }
  }
}

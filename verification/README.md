# BigEarthNet metadata query layer, in Dafny

This project models the metadata query layer of `bigearthnet_common`, the
helper library of the BigEarthNet remote-sensing archive. Each of the
archive's 590,326 image patches has a Sentinel-1 name and a Sentinel-2 name.
The layer answers questions about a patch from packaged tables: its partner
name, its country and season, whether it is snowy, cloudy or without a
19-class target, and which original split it belongs to. It converts the 43
original CORINE labels to the 19-class nomenclature and encodes labels as
multi-hot vectors. On top of that it builds the recommended and filtered
patch sets, and cleans a metadata frame.

The modules follow the source files:

| module | models |
|---|---|
| `Constants` (`constants.dfy`) | `constants.py`: the 43 → 19 label conversion, the sorted label lists, the three CORINE levels, channel groups, countries, JSON keys and dataset sizes |
| `Grammar` (`grammar.dfy`) | `BEN_S2_RE` and `BEN_S1_RE` as token patterns. The regular-expression meaning is a ghost predicate; a hand-written greedy recogniser is proved to decide exactly it |
| `Resources` (`resources.dfy`) | the column-checked CSV loaders of `base.py`, over an already decompressed table |
| `Correspondence` (`correspondence.dfy`) | the S1 ↔ S2 name maps, sensor-agnostic membership, the original split, country/season dispatch and the archive-directory check of `base.py` |
| `Labels` (`labels.dfy`) | `old2new_labels` and the two multi-hot encoders of `base.py` |
| `Json` (`json.dfy`) | `_read_json`, `read_S1_json` and `read_S2_json` over an already parsed document |
| `Sets` (`sets.py` → `sets.dfy`) | the recommended sets, the country/season/split filters, `build_set` and the checks of `build_csv_sets` |
| `Gdf` (`gdf.dfy`) | the `Season` arithmetic, `filter_season` and the patch-name derivation of `gdf_builder.py`. Also `add_full_ben_metadata` and `remove_bad_ben_gdf_entries`, as methods of a `GeoFrame` class that updates its columns, rows and index in place |
| `Enums` (`enums.dfy`) | the `Season`, `Split`, `SentinelSource` and `Country` enumerations |
| `Wrappers`, `Strings`, `Dicts` | `Result`/`Option`, the exception kinds, Python string order and dict construction |

The packaged tables are parameters, not data: a `Metadata` value holds the
name/country/season table and the single-column Sentinel-2 name sets
(snowy, cloudy, no 19-class target, train, validation, test). Two
predicates state what the real files are meant to satisfy:

- `Valid`: the table has its four columns, and every listed name is a
  Sentinel-2 name of the table.
- `Paired`: no name occurs in two rows, and every name follows its sensor's
  grammar.

Lemmas that need these facts take them as hypotheses; the lookups themselves
model every error path (ValueError for a missing column, KeyError for a
missing name) with `Result`.

Where the documentation and the code differ, the model follows the code:

- `build_set` promises naturally sorted output, but returns a set; `Sets.BuildSet` returns a set.
- `remove_bad_ben_gdf_entries` says it creates `new_labels` only when the
  column is absent, but it always recomputes the column from `labels`;
  `Gdf.GeoFrame.RemoveBadBenGdfEntries` always recomputes it.
- `_month_to_season`'s argument check rejects months outside 1 .. 12 before
  any arithmetic: `Gdf.MonthToSeason` returns a validation error there.

## Model

| member | source | states |
|---|---|---|
| Constants.RetainedLabels | bigearthnet_common/constants.py:110 | a label is kept exactly when some old label converts to it |
| Constants.OldLabelsAreKeys | bigearthnet_common/constants.py:109 | `OLD_LABELS` lists exactly the keys of the conversion |
| Constants.OldLabelsSorted | bigearthnet_common/constants.py:109 | `OLD_LABELS` is the sorted key list of the conversion, and there are 43 keys |
| Constants.RetainedByParts | bigearthnet_common/constants.py:63-107 | what the whole conversion keeps is what its five display parts keep |
| Constants.RetainedMerge | bigearthnet_common/constants.py:63-107 | a merged conversion over disjoint keys keeps exactly what its parts keep |
| Constants.RetainedInNewLabels | bigearthnet_common/constants.py:110 | every label the conversion keeps is in `NEW_LABELS` |
| Constants.NewLabelsHavePreimages | bigearthnet_common/constants.py:110 | every member of `NEW_LABELS` is the image of some old label |
| Constants.NewLabelsSorted | bigearthnet_common/constants.py:110 | `NEW_LABELS` is the sorted list of the kept labels, and there are 19 of them |
| Constants.Old2NewOntoNewLabels | bigearthnet_common/constants.py:63-110 | each old label is dropped or converted into `NEW_LABELS`, and every new label has a preimage |
| Constants.ClcLv3Labels | bigearthnet_common/constants.py:187-192 | `CLC_LV3_LABELS` lists the 44 level-3 keys once each; minus the old labels, it leaves exactly the glaciers class |
| Constants.GlaciersNotOld | bigearthnet_common/constants.py:164 | the glaciers class is not one of the 43 BigEarthNet labels |
| Constants.ClcLv3ValuesAreLv2Keys | bigearthnet_common/constants.py:120-183 | every level-2 class named at level 3 is a key of the level-2 map |
| Constants.ClcLv3ToLv1Total | bigearthnet_common/constants.py:185 | the composed level-3 → level-1 map is defined on every level-3 class and equals the composition |
| Constants.ClcLv2Labels | bigearthnet_common/constants.py:188-193 | `CLC_LV2_LABELS` lists the 15 level-2 keys once each |
| Constants.ClcLv1Labels | bigearthnet_common/constants.py:189-194 | there are five distinct level-1 classes |
| Constants.ClcLv1FromLv3 | bigearthnet_common/constants.py:185-189 | the values of the composed map are exactly `CLC_LV1_LABELS` |
| Constants.ClcLv2Union | tests/test_constants.py:20-22 | the level-2 classes named at level 3 add nothing to the 15 level-2 keys |
| Constants.ChannelGroups | bigearthnet_common/constants.py:255-298 | the 10 m, 20 m and 60 m groups partition the 12 channels; the 10 m + 20 m list holds exactly the first two; RGB channels are 10 m channels |
| Constants.Countries | bigearthnet_common/constants.py:324-349 | ten distinct countries and ten distinct codes |
| Grammar.RecognisesIffMatches | bigearthnet_common/constants.py:368-423 | on a greedy-safe pattern the recogniser accepts exactly the full matches of the expression |
| Grammar.PatternsGreedySafe | bigearthnet_common/constants.py:368-423 | both patch-name patterns are greedy-safe |
| Grammar.IsPatchIffFullMatch | bigearthnet_common/base.py:325-334 | `is_s2_patch` / `is_s1_patch` hold exactly on full matches of the expressions, with `\d` and `\w` read as ASCII |
| Grammar.PatchPrefixes | bigearthnet_common/constants.py:370-395 | a Sentinel-2 name starts `S2A` or `S2B`, a Sentinel-1 name `S1A` or `S1B` |
| Grammar.GrammarsDisjoint | bigearthnet_common/constants.py:368-423 | no name matches both grammars |
| Grammar.PatchEndsInDigit | bigearthnet_common/constants.py:382-420 | every patch name ends in a digit of its vertical id |
| Grammar.S2Assembled | bigearthnet_common/constants.py:368-387 | a string made of pieces matching head, date, time and ids is a Sentinel-2 name |
| Grammar.S1Assembled | bigearthnet_common/constants.py:393-423 | the same for the six pieces of a Sentinel-1 name |
| Grammar.S2Accepts | tests/test_constants.py:67-75 | the two Sentinel-2 names of the tests are accepted, one with a one-digit hour |
| Grammar.S2Rejects | tests/test_constants.py:76-80 | an `S2C` mission and a missing vertical id are rejected |
| Grammar.S1Accepts | tests/test_constants.py:83-95 | the three Sentinel-1 names of the tests are accepted |
| Grammar.S1Rejects | tests/test_constants.py:96-104 | a missing vertical id and an `S2A` prefix are rejected |
| Dicts.DictOf | bigearthnet_common/base.py:201 | the dict built from pairs has exactly their keys, each with the value of its last pair |
| Dicts.DictOfLastWins | bigearthnet_common/base.py:201 | on a repeated key the last pair wins |
| Resources.LoadDict | bigearthnet_common/base.py:174-201 | ValueError exactly when the resource or either column is missing; otherwise the keys are the key-column values and each value comes from a row with that key |
| Resources.LoadDictLastRowWins | bigearthnet_common/base.py:201 | on a repeated key the dict keeps the last row's value |
| Resources.LoadDictDistinct | bigearthnet_common/base.py:201 | without repeated keys every row is found in the dict, and there are as many entries as rows |
| Resources.LoadDictMirror | bigearthnet_common/base.py:240-254 | with distinct values too, the keys of the forward dict are the values of the reverse one |
| Resources.LoadSet | bigearthnet_common/base.py:205-227 | ValueError exactly when the resource or the column is missing; otherwise exactly the column's values |
| Resources.LoadSetIsDictKeys | bigearthnet_common/base.py:206-227 | the set loader gives the keys of the dict loader on the same key column |
| Resources.LoadColumn | bigearthnet_common/base.py:377-393 | ValueError for a missing resource; otherwise the set of lines |
| Correspondence.Lookup | bigearthnet_common/base.py:289 | `d[k]`: KeyError exactly when the key is absent, load errors passed on |
| Correspondence.AllS2PatchNames | bigearthnet_common/base.py:230-232 | every `s2_name` of the table, ValueError without that column |
| Correspondence.AllS1PatchNames | bigearthnet_common/base.py:235-237 | every `s1_name` of the table, ValueError without that column |
| Correspondence.S1ToS2 | bigearthnet_common/base.py:277-289 | succeeds exactly on a Sentinel-1 name of the table and gives a name some row pairs with it; KeyError otherwise |
| Correspondence.S2ToS1 | bigearthnet_common/base.py:292-304 | the same in the other direction |
| Correspondence.PairedRow | bigearthnet_common/base.py:240-254 | with distinct names each row is found again in both maps |
| Correspondence.RoundTrip | tests/test_base.py:116-126 | with distinct names, converting a name and back gives the name |
| Correspondence.MappingsMirror | tests/test_base.py:116-126 | both maps have one entry per row; the keys of each are the values of the other |
| Correspondence.S1Image | bigearthnet_common/base.py:408-419 | the Sentinel-1 partners of a set of Sentinel-2 names; fails exactly when one has no partner |
| Correspondence.FlaggedEither | bigearthnet_common/base.py:430-433 | true exactly when the name is in the set or is a partner of a member; never fails on a member |
| Correspondence.IsSnowy | bigearthnet_common/base.py:422-433 | true exactly when the name or its Sentinel-2 partner is listed as snowy |
| Correspondence.IsCloudy | bigearthnet_common/base.py:436-447 | the same for the cloud and shadow list |
| Correspondence.Has19ClassTarget | bigearthnet_common/base.py:487-498 | the negation of membership in the no-target set or its Sentinel-1 image; fails exactly when that image cannot be built |
| Correspondence.OriginalSplit | bigearthnet_common/base.py:555-584 | train, else validation, else test, each on Sentinel-1 and Sentinel-2 names, else `None` |
| Correspondence.ColumnFor | bigearthnet_common/base.py:337-374 | the S2-keyed map for a name of the Sentinel-2 grammar, the S1-keyed map for any other; KeyError for a missing name |
| Correspondence.CountryOf | bigearthnet_common/base.py:337-345 | the country lookup is that dispatch on the `country` column |
| Correspondence.SeasonOf | bigearthnet_common/base.py:366-374 | the season lookup is that dispatch on the `season` column |
| Correspondence.ColumnForAgrees | tests/test_base.py:160-200 | on a paired table both names of a row give that row's country and season |
| Correspondence.ValidS1Image | bigearthnet_common/base.py:409-419 | the Sentinel-1 image of a set of table names never fails |
| Correspondence.ValidNeverRaises | bigearthnet_common/base.py:422-584 | on consistent files the membership tests and the split lookup never raise |
| Correspondence.ValidColumnFor | bigearthnet_common/base.py:337-374 | on consistent files a name of the table has a country and a season |
| Correspondence.ValidateRootDirectory | bigearthnet_common/base.py:731-754 | reports exactly the expected patches that are missing or incomplete |
| Correspondence.ValidateRootDirectoryEmpty | bigearthnet_common/base.py:746-754 | the report is empty exactly when every expected patch is present and complete |
| Labels.Old2NewLabel | bigearthnet_common/base.py:587-597 | KeyError exactly for an unknown label; a kept label converts into `NEW_LABELS` |
| Labels.ConvertedAppend | bigearthnet_common/base.py:610-612 | conversion works label by label: it distributes over concatenation |
| Labels.ConvertedSingle | bigearthnet_common/base.py:610-612 | one label converts to its image, or to nothing when removed |
| Labels.ConvertedMembers | bigearthnet_common/base.py:610-612 | a new label is in the result exactly when some input label converts to it |
| Labels.ConvertedEmpty | bigearthnet_common/base.py:610-613 | the result is empty exactly when every input label is removed |
| Labels.ConvertedInNewLabels | bigearthnet_common/base.py:610-612 | every converted label is one of `NEW_LABELS` |
| Labels.Old2NewLabels | bigearthnet_common/base.py:600-619 | KeyError on an unknown label; `None` exactly for a non-empty all-removed input; `[]` for empty input; otherwise the converted list in input order |
| Labels.MultiHotOf | bigearthnet_common/base.py:646-649 | a vector as long as the class list, every entry 0 or 1 |
| Labels.MultiHotRoundTrip | bigearthnet_common/base.py:646-649 | the vector marks exactly the input labels |
| Labels.MultiHotOfSet | bigearthnet_common/base.py:646-649 | order and repeats in the input do not change the vector |
| Labels.EncodeMultiHot | bigearthnet_common/base.py:645-649 | KeyError exactly when some label is not a class; otherwise the multi-hot vector of the labels |
| Labels.OrderingLength | tests/test_constants.py:107-114 | an ordering of a class list is as long as it |
| Labels.NewLabelsDistinct | bigearthnet_common/constants.py:110 | `NEW_LABELS` has 19 distinct entries |
| Labels.OldLabelsDistinct | bigearthnet_common/constants.py:109 | `OLD_LABELS` has 43 distinct entries |
| Labels.Ben19LabelsToMultiHot | bigearthnet_common/base.py:622-649 | KeyError exactly for a label outside `NEW_LABELS`; otherwise a 19-entry multi-hot vector over the chosen order |
| Labels.Ben43LabelsToMultiHot | bigearthnet_common/base.py:652-679 | the same over the 43 old labels |
| Labels.Old2NewUrbanFabric | tests/test_base.py:322-329 | the two urban-fabric labels convert to `Urban fabric` twice |
| Labels.ConvertedTwo | bigearthnet_common/base.py:610-612 | two kept labels convert to their two images, in order |
| Labels.Old2NewOnlyRemoved | tests/test_base.py:331-333 | `Burnt areas` alone gives `None` |
| Labels.Old2NewUnknown | tests/test_base.py:336-338 | an unknown label raises KeyError |
| Labels.MultiHot19Sorted | tests/test_base.py:355-359 | in lexicographic order, the first two classes are marked and no other |
| Labels.AirportNotNewLabel | tests/test_base.py:368-370 | `Airport` is not a 19-class label, so the 19-class encoder rejects it |
| Labels.ArableLandNotOldLabel | tests/test_base.py:399-401 | `Arable land` is a 19-class label but not an old one, so the 43-class encoder rejects it |
| Json.ReadJson | bigearthnet_common/base.py:84-116 | ValueError for text that is not JSON or a missing expected key, AttributeError for a document that is not an object; with `read_only_expected`, exactly the expected keys with their original values |
| Json.MoveKey | bigearthnet_common/base.py:133 | the entry moves to the new key and nothing else changes |
| Json.ReadS1Json | bigearthnet_common/base.py:119-134 | exactly the Sentinel-1 keys, every entry but `coordinates` unchanged, and within `coordinates` `lly` moved to `lry` |
| Json.ReadS2Json | bigearthnet_common/base.py:137-145 | succeeds exactly when every Sentinel-2 key is present; exactly those keys, values unchanged |
| Json.ReadS1JsonObjectCoordinates | bigearthnet_common/base.py:130-134 | with object coordinates the rename never fails |
| Json.ReadersDisagree | tests/test_base.py:89-91 | a document without `acquisition_time` fails the Sentinel-1 reader with ValueError |
| Enums.SeasonFromIdx | bigearthnet_common/gdf_builder.py:251-253 | Python list indexing: -4 .. 3 accepted, IndexError otherwise, 0 .. 3 in declaration order |
| Enums.SeasonFromNegativeIdx | bigearthnet_common/gdf_builder.py:253 | a negative index names the season four places later |
| Enums.SeasonFromIdxBijective | bigearthnet_common/gdf_builder.py:246-253 | each season sits at exactly one index of 0 .. 3 |
| Enums.Country.Name | bigearthnet_common/constants.py:324-335 | every country's name is in `COUNTRIES` |
| Enums.CountryNames | bigearthnet_common/constants.py:324-335 | every name in `COUNTRIES` belongs to exactly one country |
| Enums.CountryNameInjective | bigearthnet_common/constants.py:324-335 | different countries have different names |
| Sets.AllPatches | bigearthnet_common/sets.py:14-25 | the sensor's names, ValueError without both name columns |
| Sets.AllPatchesAgree | tests/test_base.py:104-114 | the map keys are the loaded name column |
| Sets.SensorPatches | bigearthnet_common/base.py:396-419 | a Sentinel-2 name set as each sensor sees it |
| Sets.Unrecommended | bigearthnet_common/sets.py:35-36 | true exactly when the patch is snowy or cloudy |
| Sets.Recommended | bigearthnet_common/sets.py:28-51 | the sensor's patches that are neither snowy, cloudy nor in its no-target set |
| Sets.ValidBaseSets | bigearthnet_common/sets.py:14-51 | on consistent files neither base set raises |
| Sets.SensorFlag | bigearthnet_common/base.py:422-447 | a sensor's own name is flagged exactly when it is in the sensor's view of the set |
| Sets.RecommendedIsAllMinusExclusions | bigearthnet_common/sets.py:28-51 | recommended = all − snowy − cloudy − no-target, per sensor |
| Sets.RecommendedSize | tests/test_constants.py:50-64 | with the packaged counts and overlaps, 590326 − 61707 − 9280 − 57 + 2 = 519284 recommended patches |
| Sets.PatchValueAgrees | bigearthnet_common/sets.py:63-66 | the sensor's map agrees with the sensor-agnostic lookup |
| Sets.FilterByColumn | bigearthnet_common/sets.py:63-66 | exactly the input patches whose entry equals the value; KeyError for an unmapped patch |
| Sets.FilterPatchesByCountry | bigearthnet_common/sets.py:54-98 | the input patches whose country is the argument, for either sensor |
| Sets.FilterPatchesBySeason | bigearthnet_common/sets.py:101-135 | the input patches whose season is the argument, a subset of the input |
| Sets.FilterByColumnDisjoint | bigearthnet_common/sets.py:66 | filters on different values select disjoint sets |
| Sets.SeasonFiltersDisjoint | bigearthnet_common/sets.py:101-118 | different seasons select disjoint sets |
| Sets.CountryFiltersDisjoint | bigearthnet_common/sets.py:54-81 | different countries select disjoint sets |
| Sets.FilterPatchesBySplit | bigearthnet_common/sets.py:138-174 | Sentinel-2: the input intersected with the split; Sentinel-1: the same on a set input, TypeError on a list |
| Sets.SplitFilterAgreesWithOriginalSplit | bigearthnet_common/sets.py:138-157 | with disjoint split files, a patch survives a split filter exactly when the split lookup names that split |
| Sets.FlaggedDisjoint | bigearthnet_common/base.py:555-584 | disjoint Sentinel-2 sets never flag the same patch |
| Sets.FilterUnion | bigearthnet_common/sets.py:198-209 | a patch is in the union exactly when its entry is one of the values |
| Sets.UnionOfFilters | bigearthnet_common/sets.py:198-209 | the first value's filter joined with the rest's union is the union for all values |
| Sets.Names | bigearthnet_common/sets.py:198-209 | the names of the given seasons or countries, in order |
| Sets.BuildSet | bigearthnet_common/sets.py:177-210 | p is in the result exactly when it is in the base set, its season is listed (or none is), and its country is listed (or none is) |
| Sets.ValidBuildSet | bigearthnet_common/sets.py:177-210 | on consistent files `build_set` never raises |
| Sets.BuildSetRecommendedSubset | bigearthnet_common/sets.py:191-196 | removing unrecommended patches only removes patches |
| Sets.BuildSetMoreSeasons | bigearthnet_common/sets.py:198-203 | adding seasons to a non-empty list never shrinks the result |
| Sets.BuildSetMoreCountries | bigearthnet_common/sets.py:204-209 | adding countries to a non-empty list never shrinks the result |
| Sets.CheckSplitsAsWritten | bigearthnet_common/sets.py:250-255 | RuntimeError exactly when a bucket is empty or a patch lies in all three buckets |
| Sets.CheckSplits | bigearthnet_common/sets.py:250-255 | RuntimeError exactly when a bucket is empty or two buckets share a patch |
| Sets.TripleIntersectionMissesOverlap | bigearthnet_common/sets.py:252-255 | a patch in train and validation only passes the check as written but not the pairwise one |
| Sets.CheckSplitsStronger | bigearthnet_common/sets.py:252 | whatever the pairwise check accepts, the check as written accepts too |
| Sets.SplitBuckets | bigearthnet_common/sets.py:240-249 | the first failing split filter's error (only a Sentinel-1 split file with an unpaired name fails), or three buckets, each exactly the patches of the input in that split |
| Sets.BuildCsvSets | bigearthnet_common/sets.py:213-262 | as written: `build_set`'s error; its whole result without separate splits; otherwise the first split filter's error, or the three buckets, each exactly `build_set`'s patches in that split, all non-empty and with no patch in all three, RuntimeError where the checks fail |
| Sets.BucketsPassIff | bigearthnet_common/sets.py:250-255 | the checks as written accept the buckets exactly when each split meets the patches and no patch lies in all three splits |
| Sets.BuildCsvSetsSucceedsIff | bigearthnet_common/sets.py:239-255 | once the split filters succeed, `build_csv_sets` succeeds exactly when every split holds a patch of `build_set`'s result and none lies in all three |
| Sets.BuildCsvSetsCorrected | bigearthnet_common/sets.py:213-262 | with the pairwise check: fails wherever the program as written fails, agrees with it where it succeeds, and its buckets are pairwise disjoint |
| Sets.ViewsDisjointAt | bigearthnet_common/sets.py:138-174 | with disjoint split files no name of the sensor is in the views of two splits |
| Sets.BucketsDisjoint | bigearthnet_common/sets.py:240-249 | on consistent, paired files with disjoint split files the buckets never overlap |
| Sets.BuildCsvSetsAgree | bigearthnet_common/sets.py:250-255 | on such files the check as written and the pairwise one give the same result |
| Gdf.MonthToSeason | bigearthnet_common/gdf_builder.py:259-261 | months 1 .. 12 only; Dec–Feb Winter, Mar–May Spring, Jun–Aug Summer, Sep–Nov Fall |
| Gdf.MonthIndexInRange | bigearthnet_common/gdf_builder.py:261 | `month % 12 // 3` lies in 0 .. 3, so `from_idx` never fails |
| Gdf.ThreeMonthsPerSeason | bigearthnet_common/gdf_builder.py:264-272 | each season gets exactly three months |
| Gdf.RStrip | bigearthnet_common/gdf_builder.py:72 | a prefix of the input that does not end in a stripped character, after which only stripped characters follow |
| Gdf.StemOfDigitName | bigearthnet_common/gdf_builder.py:72 | for a name ending in a digit, stripping removes exactly `_labels_metadata` |
| Gdf.PatchNameFromMetadataFile | bigearthnet_common/gdf_builder.py:72 | every patch name is recovered from its metadata file stem |
| Gdf.StripIsNotSuffixRemoval | bigearthnet_common/gdf_builder.py:72 | a stem made of stripped characters loses everything, not just the suffix |
| Gdf.Select | bigearthnet_common/gdf_builder.py:279 | `df[mask]`: the rows where the mask holds, in order, with their index labels |
| Gdf.SelectKeepsExactly | bigearthnet_common/gdf_builder.py:328 | a row is kept exactly when the mask holds for it |
| Gdf.ResetIndex | bigearthnet_common/gdf_builder.py:350 | same rows, labelled 0 .. n − 1 |
| Gdf.Chars | bigearthnet_common/base.py:610-611 | iterating a string gives its characters, one one-character string each, in order |
| Gdf.NameOf | bigearthnet_common/gdf_builder.py:315-318 | `row["name"]` as the membership tests take it: a string, or a season or split enumeration member, validates to its string value; any other cell gives ValidationError; KeyError without the column |
| Gdf.LabelsOf | bigearthnet_common/base.py:610-611 | `labels` as `old2new_labels` iterates it: a list (old or new labels) element by element, a string, season or split character by character; TypeError for anything else; KeyError without the column |
| Gdf.NewLabelsCellIsAList | bigearthnet_common/gdf_builder.py:346 | a `labels` cell holding a list of new labels is iterated exactly like one holding old labels |
| Gdf.DerivedCell | bigearthnet_common/gdf_builder.py:315-320 | each derived cell is the snow flag, cloud flag, new labels, split or season of the row, or the error its lookup raises |
| Gdf.EmptyTextLabels | bigearthnet_common/gdf_builder.py:346 | an empty string in `labels` gives an empty list of new labels, not a missing value |
| Gdf.Collect | bigearthnet_common/gdf_builder.py:315-318 | all outcomes succeed, or the first error wins |
| Gdf.DeriveColumn | bigearthnet_common/gdf_builder.py:315-318 | `series.apply`: one cell per row, or the first row's error |
| Gdf.DerivedCellReadsInput | bigearthnet_common/gdf_builder.py:315-320 | a derived cell depends only on its input column |
| Gdf.FilterSeason | bigearthnet_common/gdf_builder.py:276-279 | KeyError without the date column; otherwise the rows whose month maps to the season, in order |
| Gdf.RemoveSnowCloudPatches | bigearthnet_common/gdf_builder.py:325-328 | the rows that are neither snowy nor cloudy, in order with their labels; the first lookup error otherwise |
| Gdf.RemovedRowsAreClean | bigearthnet_common/gdf_builder.py:325-328 | every kept row is clean |
| Gdf.WithColumn | bigearthnet_common/gdf_builder.py:315 | `df[c] = cells` sets exactly cell i in row i |
| Gdf.CountryCells | bigearthnet_common/gdf_builder.py:319 | the country column holds the country given for each row |
| Gdf.MetadataSteps | bigearthnet_common/gdf_builder.py:315-320 | the six assignments, in order, each computed from the original rows |
| Gdf.RunAddsColumns | bigearthnet_common/gdf_builder.py:315-320 | after a run without error every assigned column exists and no row is lost |
| Gdf.RunAssigns | bigearthnet_common/gdf_builder.py:315-320 | a column assigned once holds exactly its computed cells |
| Gdf.RunKeeps | bigearthnet_common/gdf_builder.py:315-320 | a column no step assigns is left as it was |
| Gdf.RunSucceedsIff | bigearthnet_common/gdf_builder.py:315-320 | a run succeeds exactly when every step computed a cell for every row |
| Gdf.AssignedAreNotInputs | bigearthnet_common/gdf_builder.py:315-320 | no assigned column is one the computations read |
| Gdf.WithColumnSameInputs | bigearthnet_common/gdf_builder.py:315-320 | assigning a non-input column keeps the inputs |
| Gdf.DeriveSameInputs | bigearthnet_common/gdf_builder.py:315-320 | so each column computed mid-run equals the one computed from the original rows |
| Gdf.MetadataColumnsDistinct | bigearthnet_common/gdf_builder.py:315-320 | the six assigned column names differ |
| Gdf.MetadataSucceedsIff | bigearthnet_common/gdf_builder.py:315-320 | the assignments succeed exactly when every row's flags, new labels, split and season can be computed |
| Gdf.MetadataStepSucceeds | bigearthnet_common/gdf_builder.py:315-320 | one assignment succeeds exactly when its cell can be computed for every row; the country one always can |
| Gdf.MetadataColumnCells | bigearthnet_common/gdf_builder.py:315-320 | after success each row keeps its inputs and holds its computed cell in each new column |
| Gdf.Assign | bigearthnet_common/gdf_builder.py:346 | column assignment on a frame value; index unchanged |
| Gdf.DropMask | bigearthnet_common/gdf_builder.py:348 | keeps exactly the rows whose index label is not dropped |
| Gdf.DropRemovesMissing | bigearthnet_common/gdf_builder.py:347-348 | after the drop no row lacks 19-class labels, whatever the index |
| Gdf.DropUniqueIndex | bigearthnet_common/gdf_builder.py:347-348 | with distinct index labels exactly the rows without new labels are dropped |
| Gdf.DropSharedLabel | bigearthnet_common/gdf_builder.py:348 | a repeated index label drops a labelled row together with an unlabelled one |
| Gdf.CleanAndReindex | bigearthnet_common/gdf_builder.py:349-350 | the snow/cloud filter's rows, each clean and numbered by position |
| Gdf.CleanRowsFromFrame | bigearthnet_common/gdf_builder.py:328 | every row the filter keeps comes from its input |
| Gdf.NewLabelsColumnCells | bigearthnet_common/gdf_builder.py:346 | after the assignment every row holds a (possibly missing) list of new labels |
| Gdf.CleanedRowsHaveNewLabels | bigearthnet_common/gdf_builder.py:346-351 | after drop, filter and renumbering every row has new labels, is clean and is numbered by position |
| Gdf.GeoFrame.constructor | bigearthnet_common/gdf_builder.py:291 | a frame holding the given columns, rows and index |
| Gdf.GeoFrame.SetColumn | bigearthnet_common/gdf_builder.py:315 | `df[c] = cells` in place: the column is added last if new, cell i goes to row i, index unchanged |
| Gdf.GeoFrame.AssignMetadataColumn | bigearthnet_common/gdf_builder.py:315-320 | one in-place assignment is one step of the run over the original rows |
| Gdf.GeoFrame.AddFullBenMetadata | bigearthnet_common/gdf_builder.py:291-321 | ValueError and no change without `acquisition_date`, `name` and `labels`; otherwise the frame the six assignments give, index unchanged |
| Gdf.GeoFrame.Drop | bigearthnet_common/gdf_builder.py:348 | KeyError and no change for a label not in the index; otherwise exactly the other rows remain |
| Gdf.GeoFrame.RemoveBadBenGdfEntries | bigearthnet_common/gdf_builder.py:331-351 | recomputes `new_labels` and drops the missing rows in place, then returns the renumbered clean rows, each with 19-class labels |

## Left out

- Decompression, `importlib.resources`, CSV parsing and `functools.lru_cache`: a resource is a given table or list of lines, and caching is transparent.
- File system walks, the completeness checks of patch directories and JSON file reading: the directory check takes the entries found and a completeness predicate as parameters; a JSON reader takes the parsed document, or `None` for text that is not JSON.
- `parse_datetime` and `pd.to_datetime`: a date cell holds its month already.
- The nearest-country geospatial join of `add_full_ben_metadata`: the country of each row is a parameter.
- Geometry, reprojection, CRS, parquet I/O, downloads and the worker pool of `gdf_builder.py`; the frame's `geometry` column is an ordinary column.
- pydantic argument coercion: arguments arrive with their declared types (enumerations as datatypes); `_month_to_season`'s range check is modelled.
- Printing, rich tables, CLIs and the warnings of `old2new_labels` and `get_original_split_from_patch_name` (the `None` result is modelled).
- `_write_csv` and natural sorting in `build_csv_sets`: the result is the sets that would be written.
- Dict key order: loaders and readers return maps, so the order of `keys()` is not modelled.
- Float band statistics and `MAX_VALUES_BY_DTYPE_STR`.
- `NEW_LABELS_ORIGINAL_ORDER` and `OLD_LABELS_ORIGINAL_ORDER` are not part of this model: the encoders take them as parameters required to list the same classes once each.
- `CLC_LV3_TO_CLC_CODE` is not part of this model.
- Grammar.IsPatchIffFullMatch: `\d` is read as the ASCII digits and `\w` as ASCII letters, digits and `_`. The expressions are compiled without `re.ASCII`, so Python also accepts other Unicode decimal digits and word characters: a name whose date is written in, say, Arabic-Indic digits fully matches `BEN_S2_RE`, but the model rejects it.
- Constants.ChannelGroups: the members of `BEN_10m_20m_CHANNELS` are proved, but not that the list is in natural order.
- Json.ReadS1Json: the rename is stated on values; the in-place update of the caller's dict is not modelled.
- Sets.FilterPatchesByCountry: the `country not in COUNTRIES` ValueError cannot occur, since the argument is a `Country`.
- Correspondence.Valid and Correspondence.Paired are hypotheses about the packaged files, which the model cannot read.
- Gdf.NameOf: pydantic also turns a number or a boolean into its text (a `True` cell becomes "True"); the model gives ValidationError for a flag cell, as for a date, list or missing value in `name`.
- Gdf.GeoFrame.AddFullBenMetadata: the six assignments run as one loop over their position rather than six statements.

## Findings

| source | as written | input that shows it | evidently intended | confidence | as-written member | corrected member |
|---|---|---|---|---|---|---|
| bigearthnet_common/sets.py:252-255 | the overlap check tests `train & validation & test`, so only a patch in all three buckets raises | train = {a}, validation = {a}, test = {b} passes, although `a` lies in two buckets | no patch in two buckets, as the message "overlap between the train/validation/test patches" says | not executed | Sets.CheckSplitsAsWritten | Sets.CheckSplits |

`Sets.BuildCsvSets` follows the program as written. `Sets.BuildCsvSetsCorrected` applies the pairwise check instead. `Sets.BuildCsvSetsAgree` shows the two give the same result when the split files share no name.

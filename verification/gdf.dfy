/**
 * The tabular pieces of `bigearthnet_common/gdf_builder.py`: the month to
 * season rule, the patch name taken from a metadata file name, the season
 * filter, the snow/cloud filter, and the two functions that change a frame
 * in place, `add_full_ben_metadata` and `remove_bad_ben_gdf_entries`.
 *
 * A frame is a list of column names, a list of rows (each row maps a column
 * name to its cell) and the index labels of the rows.  Pure operations take
 * and return frame values; the in-place ones are methods of `GeoFrame`.
 * Geometry, coordinate systems and the country join are outside the model.
 */
module Gdf {
  import opened Wrappers
  import opened Enums
  import opened Correspondence
  import opened Labels
  import Grammar

  // ---------------------------------------------------------------------
  // Months and seasons.

  /**
   * `_month_to_season`: `Season.from_idx(month % 12 // 3)` for a month the
   * argument check accepts (1 .. 12); the meteorological seasons of the
   * northern hemisphere.
   */
  function MonthToSeason(month: int): (r: Result<Season>)
    ensures r.Ok? <==> 1 <= month <= 12
    ensures r.Err? ==> r.error == ValidationError
    ensures r == Ok(Winter) <==> month == 12 || month == 1 || month == 2
    ensures r == Ok(Spring) <==> 3 <= month <= 5
    ensures r == Ok(Summer) <==> 6 <= month <= 8
    ensures r == Ok(Fall) <==> 9 <= month <= 11
  {
    if month < 1 || month > 12 then Err(ValidationError)
    else SeasonFromIdx(month % 12 / 3)
  }

  /** Every accepted month gives an index `from_idx` accepts, so the conversion never fails. */
  lemma MonthIndexInRange(month: int)
    requires 1 <= month <= 12
    ensures 0 <= month % 12 / 3 < 4
    ensures SeasonFromIdx(month % 12 / 3).Ok?
  {
  }

  /** Each season gets exactly three months. */
  lemma ThreeMonthsPerSeason(s: Season)
    ensures |set m | 1 <= m <= 12 && MonthToSeason(m) == Ok(s)| == 3
  {
    var months := set m | 1 <= m <= 12 && MonthToSeason(m) == Ok(s);
    match s
    case Winter => assert months == {12, 1, 2};
    case Spring => assert months == {3, 4, 5};
    case Summer => assert months == {6, 7, 8};
    case Fall => assert months == {9, 10, 11};
  }

  // ---------------------------------------------------------------------
  // The patch name of a metadata file.

  const LABELS_METADATA: string := "_labels_metadata"

  /** The characters `str.rstrip` is given: a set, not a suffix. */
  const STRIPPED: set<char> := set c | c in LABELS_METADATA

  /** `s.rstrip(chars)`: the longest prefix that does not end in one of `chars`, once the rest is all `chars`. */
  function RStrip(s: string, chars: set<char>): (r: string)
    ensures r <= s
    ensures r == [] || r[|r| - 1] !in chars
    ensures forall i :: |r| <= i < |s| ==> s[i] in chars
    decreases |s|
  {
    if s != [] && s[|s| - 1] in chars then RStrip(s[..|s| - 1], chars) else s
  }

  /** `json_path.stem.rstrip("_labels_metadata")`. */
  function PatchNameFromStem(stem: string): string {
    RStrip(stem, STRIPPED)
  }

  /** For a name that ends in a digit, stripping the characters removes exactly the suffix. */
  lemma StemOfDigitName(name: string)
    requires name != [] && Grammar.IsDigit(name[|name| - 1])
    ensures PatchNameFromStem(name + LABELS_METADATA) == name
  {
    var s := name + LABELS_METADATA;
    var r := PatchNameFromStem(s);
    assert name[|name| - 1] !in STRIPPED;
    assert s[|name| - 1] == name[|name| - 1];
    assert |r| >= |name|;
    assert r == s[..|r|];
  }

  /** Every Sentinel-1 or Sentinel-2 patch name survives the round trip through its metadata file name. */
  lemma PatchNameFromMetadataFile(name: string)
    requires Grammar.IsS2Patch(name) || Grammar.IsS1Patch(name)
    ensures PatchNameFromStem(name + LABELS_METADATA) == name
  {
    Grammar.PatchEndsInDigit(name);
    StemOfDigitName(name);
  }

  /** A stem made only of the stripped characters loses everything, not just the suffix. */
  lemma StripIsNotSuffixRemoval()
    ensures PatchNameFromStem("metadata" + LABELS_METADATA) == ""
  {
    var s := "metadata" + LABELS_METADATA;
    assert forall i :: 0 <= i < |s| ==> s[i] in STRIPPED;
  }

  // ---------------------------------------------------------------------
  // Frames.

  /** The only part of a parsed acquisition date the model keeps. */
  type Month = m: int | 1 <= m <= 12 witness 1

  /** The kinds of cells the BigEarthNet frames hold. */
  datatype Cell =
    | Text(s: string)
    | LabelList(labels: seq<string>)
    | NewLabels(value: Option<seq<string>>)  // `None` is pandas' missing value
    | Date(month: Month)
    | Flag(b: bool)
    | SplitName(split: Option<Split>)
    | SeasonName(season: Season)

  type Row = map<string, Cell>

  datatype FrameValue = FrameValue(columns: seq<string>, rows: seq<Row>, index: seq<int>)

  /** One index label per row, and every row has a cell in every column. */
  predicate Shaped(f: FrameValue) {
    |f.index| == |f.rows|
    && forall i, c :: 0 <= i < |f.rows| && c in f.columns ==> c in f.rows[i]
  }

  type Frame = f: FrameValue | Shaped(f) witness FrameValue([], [], [])

  /** The positions where `keep` holds, in increasing order. */
  function Kept(keep: seq<bool>): (ps: seq<int>)
    ensures forall j :: 0 <= j < |ps| ==> 0 <= ps[j] < |keep| && keep[ps[j]]
    ensures forall i :: 0 <= i < |keep| && keep[i] ==> i in ps
    ensures forall j, k :: 0 <= j < k < |ps| ==> ps[j] < ps[k]
    decreases |keep|
  {
    if keep == [] then []
    else
      var n := |keep| - 1;
      var init := Kept(keep[..n]);
      assert forall i :: 0 <= i < n && keep[i] ==> i in init by {
        forall i | 0 <= i < n && keep[i] ensures i in init {
          assert keep[..n][i] == keep[i];
        }
      }
      init + (if keep[n] then [n] else [])
  }

  /** A mask that holds nowhere keeps nothing. */
  lemma {:induction false} KeptNone(keep: seq<bool>)
    requires forall p :: 0 <= p < |keep| ==> !keep[p]
    ensures Kept(keep) == []
    decreases |keep|
  {
    if keep != [] {
      KeptNone(keep[..|keep| - 1]);
    }
  }

  /** The elements at the kept positions, front to back. */
  function SelectSeq<T>(xs: seq<T>, keep: seq<bool>): seq<T>
    requires |xs| == |keep|
    decreases |xs|
  {
    if xs == [] then []
    else
      var n := |xs| - 1;
      SelectSeq(xs[..n], keep[..n]) + (if keep[n] then [xs[n]] else [])
  }

  lemma {:induction false} SelectSeqAtKept<T>(xs: seq<T>, keep: seq<bool>)
    requires |xs| == |keep|
    ensures |SelectSeq(xs, keep)| == |Kept(keep)|
    ensures forall j :: 0 <= j < |Kept(keep)| ==> SelectSeq(xs, keep)[j] == xs[Kept(keep)[j]]
    decreases |xs|
  {
    if xs != [] {
      var n := |xs| - 1;
      SelectSeqAtKept(xs[..n], keep[..n]);
    }
  }

  /**
   * A boolean mask applied to a frame, `df[mask]`: the rows where the mask
   * holds, in their order and with their index labels.
   */
  function Select(f: Frame, keep: seq<bool>): (g: Frame)
    requires |keep| == |f.rows|
    ensures g.columns == f.columns
    ensures |g.rows| == |g.index| == |Kept(keep)|
    ensures forall j :: 0 <= j < |Kept(keep)| ==>
      g.rows[j] == f.rows[Kept(keep)[j]] && g.index[j] == f.index[Kept(keep)[j]]
  {
    SelectSeqAtKept(f.rows, keep);
    SelectSeqAtKept(f.index, keep);
    FrameValue(f.columns, SelectSeq(f.rows, keep), SelectSeq(f.index, keep))
  }

  /** A row is kept exactly when the mask holds for it. */
  lemma SelectKeepsExactly(f: Frame, keep: seq<bool>, i: int)
    requires |keep| == |f.rows| && 0 <= i < |f.rows|
    ensures keep[i] <==> exists j :: 0 <= j < |Select(f, keep).rows| && Kept(keep)[j] == i
  {
    var g := Select(f, keep);
    assert |g.rows| == |Kept(keep)|;
    if keep[i] {
      assert i in Kept(keep);
      var j :| 0 <= j < |Kept(keep)| && Kept(keep)[j] == i;
      assert 0 <= j < |g.rows| && Kept(keep)[j] == i;
    } else {
      assert forall j :: 0 <= j < |g.rows| ==> keep[Kept(keep)[j]];
    }
  }

  /** `reset_index(drop=True)`: the rows are labelled 0 .. n - 1. */
  function ResetIndex(f: Frame): (g: Frame)
    ensures g.columns == f.columns && g.rows == f.rows
    ensures |g.index| == |g.rows| && forall i :: 0 <= i < |g.rows| ==> g.index[i] == i
  {
    FrameValue(f.columns, f.rows, seq(|f.rows|, i requires 0 <= i < |f.rows| => i))
  }

  // ---------------------------------------------------------------------
  // Cells read from a row.

  /**
   * The Python string a cell holds, if it holds one: plain text, or a
   * season or split, whose enumerations subclass `str` with the name as
   * value.
   */
  function TextOf(c: Cell): Option<string> {
    match c
    case Text(s) => Some(s)
    case SeasonName(season) => Some(season.Name())
    case SplitName(Some(split)) => Some(split.Name())
    case _ => None
  }

  /** The Python list of strings a cell holds, if it holds one: old or new labels. */
  function ListOf(c: Cell): Option<seq<string>> {
    match c
    case LabelList(ls) => Some(ls)
    case NewLabels(Some(ls)) => Some(ls)
    case _ => None
  }

  /** A string iterated in Python: its characters, each a one-character string. */
  function Chars(s: string): (r: seq<string>)
    ensures |r| == |s| && forall i :: 0 <= i < |s| ==> r[i] == [s[i]]
  {
    seq(|s|, i requires 0 <= i < |s| => [s[i]])
  }

  /**
   * `row["name"]` as a patch name: the membership tests are validated to
   * take a string, and a `str` enumeration validates to its value.
   */
  function NameOf(row: Row): (r: Result<string>)
    ensures "name" !in row ==> r == Err(KeyError)
    ensures "name" in row ==> (r.Ok? <==> TextOf(row["name"]).Some?)
    ensures "name" in row && r.Ok? ==> r.value == TextOf(row["name"]).value
    ensures "name" in row && r.Err? ==> r.error == ValidationError
  {
    if "name" !in row then Err(KeyError)
    else match TextOf(row["name"])
      case Some(s) => Ok(s)
      case None => Err(ValidationError)
  }

  /**
   * `row["labels"]` as `old2new_labels` iterates it: a list element by
   * element, a string (plain, season or split) character by character;
   * a flag, a date, `None` or a missing value is not iterable.
   */
  function LabelsOf(row: Row): (r: Result<seq<string>>)
    ensures "labels" !in row ==> r == Err(KeyError)
    ensures "labels" in row ==> (r.Ok? <==> ListOf(row["labels"]).Some? || TextOf(row["labels"]).Some?)
    ensures "labels" in row && r.Err? ==> r.error == TypeError
    ensures "labels" in row && ListOf(row["labels"]).Some? ==> r == Ok(ListOf(row["labels"]).value)
    ensures "labels" in row && TextOf(row["labels"]).Some? ==>
      var t := TextOf(row["labels"]).value;
      r.Ok? && |r.value| == |t| && forall i :: 0 <= i < |t| ==> r.value[i] == [t[i]]
  {
    if "labels" !in row then Err(KeyError)
    else match ListOf(row["labels"])
      case Some(ls) => Ok(ls)
      case None =>
        match TextOf(row["labels"])
        case Some(t) => Ok(Chars(t))
        case None => Err(TypeError)
  }

  /** A list of new labels in the `labels` column is iterated like a list of old ones. */
  lemma NewLabelsCellIsAList(ls: seq<string>)
    ensures LabelsOf(map["labels" := NewLabels(Some(ls))]) == LabelsOf(map["labels" := LabelList(ls)]) == Ok(ls)
  {
  }

  /** The month of `row[column]` once `pd.to_datetime` has parsed it. */
  function MonthOf(row: Row, column: string): Result<Month> {
    if column !in row then Err(KeyError)
    else match row[column]
      case Date(m) => Ok(m)
      case _ => Err(ValueError)
  }

  /** The season of a row, read from its date column. */
  function RowSeason(row: Row, dateColumn: string): Result<Season> {
    match MonthOf(row, dateColumn)
    case Err(e) => Err(e)
    case Ok(m) => MonthToSeason(m)
  }

  /** The columns `add_full_ben_metadata` derives from the others, row by row. */
  datatype Derived = Snow | CloudOrShadow | NewLabelsOf | OriginalSplitOf | SeasonOf(dateColumn: string)

  /**
   * The cell one row gets: whether its patch is snowy, whether it is cloudy
   * or shadowy, its 19-class labels, its original split, or its season; or
   * the error reading the row or looking the patch up raises.
   */
  function DerivedCell(md: Metadata, d: Derived, row: Row): (r: Result<Cell>)
    ensures d.Snow? && r.Ok? ==> NameOf(row).Ok? && r.value == Flag(Flagged(md, md.snowy, NameOf(row).value))
    ensures d.CloudOrShadow? && r.Ok? ==> NameOf(row).Ok? && r.value == Flag(Flagged(md, md.cloudy, NameOf(row).value))
    ensures d.NewLabelsOf? && r.Ok? ==>
      LabelsOf(row).Ok? && Old2NewLabels(LabelsOf(row).value).Ok?
      && r.value == NewLabels(Old2NewLabels(LabelsOf(row).value).value)
    ensures d.OriginalSplitOf? && r.Ok? ==>
      NameOf(row).Ok? && OriginalSplit(md, NameOf(row).value).Ok?
      && r.value == SplitName(OriginalSplit(md, NameOf(row).value).value)
    ensures d.SeasonOf? && r.Ok? ==>
      RowSeason(row, d.dateColumn).Ok? && r.value == SeasonName(RowSeason(row, d.dateColumn).value)
    ensures (d.Snow? || d.CloudOrShadow? || d.OriginalSplitOf?) && NameOf(row).Err? ==> r == Err(NameOf(row).error)
    ensures d.NewLabelsOf? && LabelsOf(row).Err? ==> r == Err(LabelsOf(row).error)
  {
    match d
    case Snow =>
      (match NameOf(row)
       case Err(e) => Err(e)
       case Ok(n) => match IsSnowy(md, n) case Err(e) => Err(e) case Ok(b) => Ok(Flag(b)))
    case CloudOrShadow =>
      (match NameOf(row)
       case Err(e) => Err(e)
       case Ok(n) => match IsCloudy(md, n) case Err(e) => Err(e) case Ok(b) => Ok(Flag(b)))
    case NewLabelsOf =>
      (match LabelsOf(row)
       case Err(e) => Err(e)
       case Ok(ls) => match Old2NewLabels(ls) case Err(e) => Err(e) case Ok(v) => Ok(NewLabels(v)))
    case OriginalSplitOf =>
      (match NameOf(row)
       case Err(e) => Err(e)
       case Ok(n) => match OriginalSplit(md, n) case Err(e) => Err(e) case Ok(s) => Ok(SplitName(s)))
    case SeasonOf(column) =>
      (match RowSeason(row, column) case Err(e) => Err(e) case Ok(s) => Ok(SeasonName(s)))
  }

  /**
   * An empty string in `labels` is an empty iterable: `old2new_labels`
   * gives an empty list, not a missing value, so the row keeps its place.
   */
  lemma EmptyTextLabels(md: Metadata, row: Row)
    requires "labels" in row && row["labels"] == Text("")
    ensures DerivedCell(md, NewLabelsOf, row) == Ok(NewLabels(Some([])))
  {
    assert LabelsOf(row) == Ok([]);
  }

  /** The one column a derived cell is computed from. */
  function InputOf(d: Derived): string {
    match d
    case Snow => "name"
    case CloudOrShadow => "name"
    case OriginalSplitOf => "name"
    case NewLabelsOf => "labels"
    case SeasonOf(column) => column
  }

  /** The outcomes of a row-wise computation, collected front to back: the first error wins. */
  function Collect<T>(rs: seq<Result<T>>): (r: Result<seq<T>>)
    ensures r.Ok? <==> forall i :: 0 <= i < |rs| ==> rs[i].Ok?
    ensures r.Ok? ==> |r.value| == |rs| && forall i :: 0 <= i < |rs| ==> r.value[i] == rs[i].value
    ensures r.Err? ==> exists i :: (0 <= i < |rs| && rs[i] == Err(r.error)
      && forall j :: 0 <= j < i ==> rs[j].Ok?)
    decreases |rs|
  {
    if rs == [] then Ok([])
    else
      match rs[0]
      case Err(e) => Err(e)
      case Ok(x) =>
        match Collect(rs[1..])
        case Err(e) =>
          assert exists i :: (0 <= i < |rs| && rs[i] == Err(e) && forall j :: 0 <= j < i ==> rs[j].Ok?) by {
            var i :| 0 <= i < |rs[1..]| && rs[1..][i] == Err(e) && forall j :: 0 <= j < i ==> rs[1..][j].Ok?;
            assert forall j :: 0 <= j < i + 1 ==> rs[j].Ok? by {
              forall j | 0 <= j < i + 1 ensures rs[j].Ok? {
                if j > 0 {
                  assert rs[j] == rs[1..][j - 1];
                }
              }
            }
            assert rs[i + 1] == Err(e);
          }
          Err(e)
        case Ok(xs) =>
          assert forall i :: 1 <= i < |rs| ==> rs[i] == rs[1..][i - 1];
          Ok([x] + xs)
  }

  /**
   * `series.apply(f)`: `f` on every row, front to back; the first row that
   * raises decides the error.
   */
  function DeriveColumn(md: Metadata, d: Derived, rows: seq<Row>): (r: Result<seq<Cell>>)
    ensures r.Ok? <==> forall i :: 0 <= i < |rows| ==> DerivedCell(md, d, rows[i]).Ok?
    ensures r.Ok? ==> |r.value| == |rows| && forall i :: 0 <= i < |rows| ==> r.value[i] == DerivedCell(md, d, rows[i]).value
    ensures r.Err? ==> exists i :: (0 <= i < |rows| && DerivedCell(md, d, rows[i]) == Err(r.error)
      && forall j :: 0 <= j < i ==> DerivedCell(md, d, rows[j]).Ok?)
  {
    var outcomes := seq(|rows|, i requires 0 <= i < |rows| => DerivedCell(md, d, rows[i]));
    assert forall i :: 0 <= i < |rows| ==> outcomes[i] == DerivedCell(md, d, rows[i]);
    var r := Collect(outcomes);
    assert r.Err? ==> exists i :: (0 <= i < |rows| && DerivedCell(md, d, rows[i]) == Err(r.error)
      && forall j :: 0 <= j < i ==> DerivedCell(md, d, rows[j]).Ok?) by {
      if r.Err? {
        var i :| 0 <= i < |outcomes| && outcomes[i] == Err(r.error) && forall j :: 0 <= j < i ==> outcomes[j].Ok?;
        assert DerivedCell(md, d, rows[i]) == Err(r.error);
      }
    }
    r
  }

  /** Two rows that agree on the input column give the same outcome. */
  lemma DerivedCellReadsInput(md: Metadata, d: Derived, row: Row, row': Row)
    requires InputOf(d) in row <==> InputOf(d) in row'
    requires InputOf(d) in row ==> row[InputOf(d)] == row'[InputOf(d)]
    ensures DerivedCell(md, d, row) == DerivedCell(md, d, row')
  {
    match d
    case SeasonOf(column) =>
      assert MonthOf(row, column) == MonthOf(row', column);
    case NewLabelsOf =>
      assert LabelsOf(row) == LabelsOf(row');
    case _ =>
      assert NameOf(row) == NameOf(row');
  }

  // ---------------------------------------------------------------------
  // Pure frame filters.

  /** The rows of a frame whose date falls in `season`. */
  function SeasonMask(df: Frame, dateColumn: string, season: Season): (keep: seq<bool>)
    ensures |keep| == |df.rows|
  {
    seq(|df.rows|, i requires 0 <= i < |df.rows| => RowSeason(df.rows[i], dateColumn) == Ok(season))
  }

  /**
   * `filter_season`: the rows whose date's month maps to `season`, in
   * their order and with their index labels.  A missing date column raises
   * KeyError, a cell that is not a date ValueError.
   */
  function FilterSeason(df: Frame, dateColumn: string, season: Season): (r: Result<Frame>)
    ensures dateColumn !in df.columns ==> r == Err(KeyError)
    ensures r.Ok? <==> dateColumn in df.columns && forall i :: 0 <= i < |df.rows| ==> RowSeason(df.rows[i], dateColumn).Ok?
    ensures r.Err? && dateColumn in df.columns ==> r.error == ValueError
    ensures r.Ok? ==> r.value == Select(df, SeasonMask(df, dateColumn, season))
  {
    if dateColumn !in df.columns then Err(KeyError)
    else if exists i :: 0 <= i < |df.rows| && RowSeason(df.rows[i], dateColumn).Err? then Err(ValueError)
    else Ok(Select(df, SeasonMask(df, dateColumn, season)))
  }

  /** A row whose name is neither snowy nor cloudy or shadowy. */
  predicate Clean(md: Metadata, row: Row) {
    NameOf(row).Ok? && !Flagged(md, md.snowy, NameOf(row).value) && !Flagged(md, md.cloudy, NameOf(row).value)
  }

  function CleanMask(md: Metadata, df: Frame): (keep: seq<bool>)
    ensures |keep| == |df.rows|
  {
    seq(|df.rows|, i requires 0 <= i < |df.rows| => Clean(md, df.rows[i]))
  }

  /**
   * `_remove_snow_cloud_patches`: both membership columns are computed for
   * every row, then the rows that are neither snowy nor cloudy are kept, in
   * their order and with their index labels.
   */
  function RemoveSnowCloudPatches(md: Metadata, df: Frame): (r: Result<Frame>)
    ensures "name" !in df.columns ==> r == Err(KeyError)
    ensures r.Ok? <==> ("name" in df.columns
      && (forall i :: 0 <= i < |df.rows| ==> DerivedCell(md, Snow, df.rows[i]).Ok?)
      && (forall i :: 0 <= i < |df.rows| ==> DerivedCell(md, CloudOrShadow, df.rows[i]).Ok?))
    ensures r.Ok? ==> r.value == Select(df, CleanMask(md, df))
  {
    if "name" !in df.columns then Err(KeyError)
    else
      match DeriveColumn(md, Snow, df.rows)
      case Err(e) => Err(e)
      case Ok(snowy) =>
        match DeriveColumn(md, CloudOrShadow, df.rows)
        case Err(e) => Err(e)
        case Ok(cloudy) =>
          var keep := seq(|df.rows|, i requires 0 <= i < |df.rows| => !(snowy[i].b || cloudy[i].b));
          assert keep == CleanMask(md, df);
          Ok(Select(df, keep))
  }

  /** Every row the snow/cloud filter keeps is clean. */
  lemma RemovedRowsAreClean(md: Metadata, df: Frame)
    requires RemoveSnowCloudPatches(md, df).Ok?
    ensures forall j :: 0 <= j < |RemoveSnowCloudPatches(md, df).value.rows| ==>
      Clean(md, RemoveSnowCloudPatches(md, df).value.rows[j])
  {
  }

  // ---------------------------------------------------------------------
  // In-place frame updates.

  /** `df[c] = ...` on the column list: a new column goes last. */
  function AddColumn(columns: seq<string>, c: string): seq<string> {
    if c in columns then columns else columns + [c]
  }

  /** `df[c] = cells` on the rows. */
  function WithColumn(rows: seq<Row>, c: string, cells: seq<Cell>): (rs: seq<Row>)
    requires |cells| == |rows|
    ensures |rs| == |rows| && forall i :: 0 <= i < |rows| ==> rs[i] == rows[i][c := cells[i]]
  {
    seq(|rows|, i requires 0 <= i < |rows| => rows[i][c := cells[i]])
  }

  const REQUIRED_COLUMNS: set<string> := {"acquisition_date", "name", "labels"}

  /** The frame has every column `add_full_ben_metadata` reads. */
  predicate HasRequired(columns: seq<string>) {
    forall c :: c in REQUIRED_COLUMNS ==> c in columns
  }

  /** A column assignment: the column's name and the cells computed for it, or the error computing them raised. */
  type Step = (string, Result<seq<Cell>>)

  /** The `country` column the nearest-country join gives. */
  function CountryCells(countries: seq<string>): (cells: seq<Cell>)
    ensures |cells| == |countries| && forall i :: 0 <= i < |countries| ==> cells[i] == Text(countries[i])
  {
    seq(|countries|, i requires 0 <= i < |countries| => Text(countries[i]))
  }

  /** The columns `add_full_ben_metadata` assigns, in order. */
  function MetadataColumn(j: int): string {
    if j == 0 then "snow"
    else if j == 1 then "cloud_or_shadow"
    else if j == 2 then "new_labels"
    else if j == 3 then "original_split"
    else if j == 4 then "country"
    else "season"
  }

  /** How each of those columns is computed, except the country one. */
  function MetadataDerived(j: int): Derived {
    if j == 0 then Snow
    else if j == 1 then CloudOrShadow
    else if j == 2 then NewLabelsOf
    else if j == 3 then OriginalSplitOf
    else SeasonOf("acquisition_date")
  }

  /** The cells of the `j`-th column computed from `rows`, or the error the computation raises. */
  function MetadataCells(md: Metadata, rows: seq<Row>, countries: seq<string>, j: int): Result<seq<Cell>> {
    if j == 4 then Ok(CountryCells(countries)) else DeriveColumn(md, MetadataDerived(j), rows)
  }

  /** The column assignments of `add_full_ben_metadata`, in order, each computed from the rows it is given. */
  function MetadataSteps(md: Metadata, rows: seq<Row>, countries: seq<string>): (steps: seq<Step>)
    ensures |steps| == 6
    ensures forall j :: 0 <= j < 6 ==> steps[j] == (MetadataColumn(j), MetadataCells(md, rows, countries, j))
  {
    seq(6, j requires 0 <= j < 6 => (MetadataColumn(j), MetadataCells(md, rows, countries, j)))
  }

  /**
   * Assignments `df[c] = cells` from step `k` on: each adds or replaces a
   * column; the first whose computation raised, or whose cells do not match
   * the rows in number (pandas' ValueError), stops the run with the frame
   * as it is.  Gives the error, if any, and the final columns and rows.
   */
  function Run(steps: seq<Step>, k: nat, columns: seq<string>, rows: seq<Row>): (Option<Error>, seq<string>, seq<Row>)
    requires k <= |steps|
    decreases |steps| - k
  {
    if k == |steps| then (None, columns, rows)
    else match steps[k].1
      case Err(e) => (Some(e), columns, rows)
      case Ok(cells) =>
        if |cells| != |rows| then (Some(ValueError), columns, rows)
        else Run(steps, k + 1, AddColumn(columns, steps[k].0), WithColumn(rows, steps[k].0, cells))
  }

  /** Every column of every step is in the frame after a run without error, and nothing is dropped. */
  lemma {:induction false} RunAddsColumns(steps: seq<Step>, k: nat, columns: seq<string>, rows: seq<Row>)
    requires k <= |steps| && Run(steps, k, columns, rows).0.None?
    ensures forall c :: c in columns ==> c in Run(steps, k, columns, rows).1
    ensures forall j :: k <= j < |steps| ==> steps[j].0 in Run(steps, k, columns, rows).1
    ensures |Run(steps, k, columns, rows).2| == |rows|
    decreases |steps| - k
  {
    if k < |steps| {
      var cells := steps[k].1.value;
      RunAddsColumns(steps, k + 1, AddColumn(columns, steps[k].0), WithColumn(rows, steps[k].0, cells));
    }
  }

  /** After a run without error, a column assigned once holds exactly the cells its step computed. */
  lemma {:induction false} RunAssigns(steps: seq<Step>, k: nat, columns: seq<string>, rows: seq<Row>, j: int)
    requires k <= j < |steps| && Run(steps, k, columns, rows).0.None?
    requires forall l :: j < l < |steps| ==> steps[l].0 != steps[j].0
    ensures steps[j].1.Ok? && |steps[j].1.value| == |rows| == |Run(steps, k, columns, rows).2|
    ensures forall i :: 0 <= i < |rows| ==>
      steps[j].0 in Run(steps, k, columns, rows).2[i] && Run(steps, k, columns, rows).2[i][steps[j].0] == steps[j].1.value[i]
    decreases |steps| - k
  {
    var cells := steps[k].1.value;
    var rows' := WithColumn(rows, steps[k].0, cells);
    if k < j {
      RunAssigns(steps, k + 1, AddColumn(columns, steps[k].0), rows', j);
    } else {
      RunKeeps(steps, k + 1, AddColumn(columns, steps[k].0), rows', steps[j].0);
    }
  }

  /** A run leaves a column no remaining step assigns as it was. */
  lemma {:induction false} RunKeeps(steps: seq<Step>, k: nat, columns: seq<string>, rows: seq<Row>, c: string)
    requires k <= |steps| && forall l :: k <= l < |steps| ==> steps[l].0 != c
    ensures |Run(steps, k, columns, rows).2| == |rows|
    ensures forall i :: 0 <= i < |rows| ==> (c in Run(steps, k, columns, rows).2[i] <==> c in rows[i])
    ensures forall i :: 0 <= i < |rows| && c in rows[i] ==> Run(steps, k, columns, rows).2[i][c] == rows[i][c]
    decreases |steps| - k
  {
    if k < |steps| && steps[k].1.Ok? && |steps[k].1.value| == |rows| {
      RunKeeps(steps, k + 1, AddColumn(columns, steps[k].0), WithColumn(rows, steps[k].0, steps[k].1.value), c);
    }
  }

  /** The columns the derived columns are computed from; none of them is assigned. */
  const INPUTS: set<string> := {"name", "labels", "acquisition_date"}

  /** None of the columns `add_full_ben_metadata` assigns is an input column. */
  lemma AssignedAreNotInputs()
    ensures "snow" !in INPUTS && "cloud_or_shadow" !in INPUTS && "new_labels" !in INPUTS
    ensures "original_split" !in INPUTS && "country" !in INPUTS && "season" !in INPUTS
  {
  }

  /** Every row agrees with the original one on the input columns. */
  predicate SameInputs(rows: seq<Row>, original: seq<Row>) {
    |rows| == |original|
    && forall i, c :: 0 <= i < |rows| && c in INPUTS ==>
      (c in rows[i] <==> c in original[i]) && (c in rows[i] ==> rows[i][c] == original[i][c])
  }

  /** Assigning a column that is not an input keeps the inputs. */
  lemma WithColumnSameInputs(rows: seq<Row>, original: seq<Row>, c: string, cells: seq<Cell>)
    requires SameInputs(rows, original) && c !in INPUTS && |cells| == |rows|
    ensures SameInputs(WithColumn(rows, c, cells), original)
  {
  }

  /** So the derived columns computed from them are the original ones. */
  lemma DeriveSameInputs(md: Metadata, d: Derived, rows: seq<Row>, original: seq<Row>)
    requires SameInputs(rows, original) && InputOf(d) in INPUTS
    ensures DeriveColumn(md, d, rows) == DeriveColumn(md, d, original)
  {
    forall i | 0 <= i < |rows| ensures DerivedCell(md, d, rows[i]) == DerivedCell(md, d, original[i]) {
      DerivedCellReadsInput(md, d, rows[i], original[i]);
    }
    assert seq(|rows|, i requires 0 <= i < |rows| => DerivedCell(md, d, rows[i]))
      == seq(|original|, i requires 0 <= i < |original| => DerivedCell(md, d, original[i]));
  }

  /** After a run of the steps from `k` without error, every step computed cells of the right number; and conversely. */
  lemma {:induction false} RunSucceedsIff(steps: seq<Step>, k: nat, columns: seq<string>, rows: seq<Row>)
    requires k <= |steps|
    ensures Run(steps, k, columns, rows).0.None? <==>
      forall j :: k <= j < |steps| ==> steps[j].1.Ok? && |steps[j].1.value| == |rows|
    decreases |steps| - k
  {
    if k < |steps| && steps[k].1.Ok? && |steps[k].1.value| == |rows| {
      RunSucceedsIff(steps, k + 1, AddColumn(columns, steps[k].0), WithColumn(rows, steps[k].0, steps[k].1.value));
    }
  }

  /** The six assigned column names differ (their lengths already do). */
  lemma MetadataColumnsDistinct(j: int, l: int)
    requires 0 <= j < l < 6
    ensures MetadataColumn(j) != MetadataColumn(l)
  {
    assert |MetadataColumn(j)| != |MetadataColumn(l)|;
  }

  /**
   * `add_full_ben_metadata` succeeds exactly when every row has a name
   * whose flags and split can be looked up, labels `old2new_labels`
   * accepts, and an acquisition date.
   */
  lemma MetadataSucceedsIff(md: Metadata, columns: seq<string>, rows: seq<Row>, countries: seq<string>)
    requires |countries| == |rows|
    ensures Run(MetadataSteps(md, rows, countries), 0, columns, rows).0.None? <==>
      forall i :: 0 <= i < |rows| ==>
        DerivedCell(md, Snow, rows[i]).Ok? && DerivedCell(md, CloudOrShadow, rows[i]).Ok?
        && DerivedCell(md, NewLabelsOf, rows[i]).Ok? && DerivedCell(md, OriginalSplitOf, rows[i]).Ok?
        && DerivedCell(md, SeasonOf("acquisition_date"), rows[i]).Ok?
  {
    var steps := MetadataSteps(md, rows, countries);
    RunSucceedsIff(steps, 0, columns, rows);
    MetadataStepSucceeds(md, rows, countries, 0);
    MetadataStepSucceeds(md, rows, countries, 1);
    MetadataStepSucceeds(md, rows, countries, 2);
    MetadataStepSucceeds(md, rows, countries, 3);
    MetadataStepSucceeds(md, rows, countries, 4);
    MetadataStepSucceeds(md, rows, countries, 5);
  }

  /** One assignment succeeds exactly when its cell can be computed for every row; the country column always can. */
  lemma MetadataStepSucceeds(md: Metadata, rows: seq<Row>, countries: seq<string>, j: int)
    requires |countries| == |rows| && 0 <= j < 6
    ensures var step := MetadataSteps(md, rows, countries)[j];
      (step.1.Ok? && |step.1.value| == |rows|) <==>
      (j == 4 || forall i :: 0 <= i < |rows| ==> DerivedCell(md, MetadataDerived(j), rows[i]).Ok?)
  {
  }

  /**
   * After `add_full_ben_metadata` succeeds, every row keeps its cells in
   * the columns the computations read, and holds in each new column the
   * cell computed for it (`DerivedCell` says what each one means) or, in
   * `country`, the country it was given.
   */
  lemma MetadataColumnCells(md: Metadata, columns: seq<string>, rows: seq<Row>, countries: seq<string>, j: int)
    requires |countries| == |rows| && 0 <= j < 6
    requires Run(MetadataSteps(md, rows, countries), 0, columns, rows).0.None?
    ensures var rs := Run(MetadataSteps(md, rows, countries), 0, columns, rows).2;
      |rs| == |rows|
      && (forall i, c :: 0 <= i < |rows| && c in INPUTS && c in rows[i] ==> c in rs[i] && rs[i][c] == rows[i][c])
      && (j == 4 ==> forall i :: 0 <= i < |rows| ==> MetadataColumn(j) in rs[i] && rs[i][MetadataColumn(j)] == Text(countries[i]))
      && (j != 4 ==> forall i :: 0 <= i < |rows| ==>
            DerivedCell(md, MetadataDerived(j), rows[i]).Ok?
            && MetadataColumn(j) in rs[i] && rs[i][MetadataColumn(j)] == DerivedCell(md, MetadataDerived(j), rows[i]).value)
  {
    var steps := MetadataSteps(md, rows, countries);
    forall l | j < l < 6 ensures steps[l].0 != steps[j].0 {
      MetadataColumnsDistinct(j, l);
    }
    AssignedAreNotInputs();
    forall c | c in INPUTS {
      RunKeeps(steps, 0, columns, rows, c);
    }
    RunAssigns(steps, 0, columns, rows, j);
  }

  // ---------------------------------------------------------------------
  // Dropping the rows without 19-class labels.

  /** `df[c] = cells` on a frame value. */
  function Assign(f: Frame, c: string, cells: seq<Cell>): (g: Frame)
    requires |cells| == |f.rows|
    ensures g.columns == AddColumn(f.columns, c) && g.rows == WithColumn(f.rows, c, cells) && g.index == f.index
  {
    FrameValue(AddColumn(f.columns, c), WithColumn(f.rows, c, cells), f.index)
  }

  /** The index labels of the rows whose `new_labels` cell is missing. */
  function NaNLabels(f: Frame): set<int>
    requires "new_labels" in f.columns
  {
    set i | 0 <= i < |f.rows| && f.rows[i]["new_labels"] == NewLabels(None) :: f.index[i]
  }

  /** The rows whose index label is not among `labels`. */
  function DropMask(f: Frame, labels: set<int>): (keep: seq<bool>)
    ensures |keep| == |f.rows|
  {
    seq(|f.rows|, i requires 0 <= i < |f.rows| => f.index[i] !in labels)
  }

  /** A row that has 19-class labels. */
  predicate HasNewLabels(row: Row) {
    "new_labels" in row && row["new_labels"].NewLabels? && row["new_labels"].value.Some?
  }

  /** Dropping by the labels of the missing rows removes every row without 19-class labels, whatever the index. */
  lemma DropRemovesMissing(f: Frame)
    requires "new_labels" in f.columns
    requires forall i :: 0 <= i < |f.rows| ==> f.rows[i]["new_labels"].NewLabels?
    ensures forall j :: 0 <= j < |Select(f, DropMask(f, NaNLabels(f))).rows| ==>
      HasNewLabels(Select(f, DropMask(f, NaNLabels(f))).rows[j])
  {
    var keep := DropMask(f, NaNLabels(f));
    var ps := Kept(keep);
    forall j | 0 <= j < |ps| ensures HasNewLabels(f.rows[ps[j]]) {
      var i := ps[j];
      assert f.index[i] !in NaNLabels(f);
    }
  }

  /** With distinct index labels, exactly the rows without 19-class labels are dropped. */
  lemma DropUniqueIndex(f: Frame, i: int)
    requires "new_labels" in f.columns && 0 <= i < |f.rows|
    requires forall a, b :: 0 <= a < b < |f.index| ==> f.index[a] != f.index[b]
    ensures DropMask(f, NaNLabels(f))[i] <==> f.rows[i]["new_labels"] != NewLabels(None)
  {
    if f.index[i] in NaNLabels(f) {
      var a :| 0 <= a < |f.rows| && f.rows[a]["new_labels"] == NewLabels(None) && f.index[a] == f.index[i];
      assert a == i;
    }
  }

  /** A repeated index label drops a row with 19-class labels together with one without. */
  lemma DropSharedLabel()
    ensures var f: Frame := FrameValue(["new_labels"], [map["new_labels" := NewLabels(None)], map["new_labels" := NewLabels(Some(["Urban fabric"]))]], [7, 7]);
      Select(f, DropMask(f, NaNLabels(f))).rows == []
  {
    var f: Frame := FrameValue(["new_labels"], [map["new_labels" := NewLabels(None)], map["new_labels" := NewLabels(Some(["Urban fabric"]))]], [7, 7]);
    assert 7 in NaNLabels(f) by {
      assert f.rows[0]["new_labels"] == NewLabels(None);
    }
    var keep := DropMask(f, NaNLabels(f));
    assert forall p :: 0 <= p < |keep| ==> !keep[p];
    KeptNone(keep);
  }

  /** The snow/cloud filter and the renumbering that end `remove_bad_ben_gdf_entries`. */
  function CleanAndReindex(md: Metadata, f: Frame): (r: Result<Frame>)
    ensures r.Err? <==> RemoveSnowCloudPatches(md, f).Err?
    ensures r.Err? ==> r.error == RemoveSnowCloudPatches(md, f).error
    ensures r.Ok? ==> r.value.rows == RemoveSnowCloudPatches(md, f).value.rows
    ensures r.Ok? ==> forall j :: 0 <= j < |r.value.rows| ==> r.value.index[j] == j && Clean(md, r.value.rows[j])
  {
    match RemoveSnowCloudPatches(md, f)
    case Err(e) => Err(e)
    case Ok(g) =>
      RemovedRowsAreClean(md, f);
      Ok(ResetIndex(g))
  }

  /** Every row the filter keeps comes from the frame it is given. */
  lemma CleanRowsFromFrame(md: Metadata, f: Frame, j: int)
    requires RemoveSnowCloudPatches(md, f).Ok? && 0 <= j < |RemoveSnowCloudPatches(md, f).value.rows|
    ensures exists i :: 0 <= i < |f.rows| && RemoveSnowCloudPatches(md, f).value.rows[j] == f.rows[i]
  {
    var ps := Kept(CleanMask(md, f));
    assert RemoveSnowCloudPatches(md, f).value.rows[j] == f.rows[ps[j]];
  }

  /** Once `new_labels` is assigned from `labels`, every row holds a (possibly missing) list of new labels there. */
  lemma NewLabelsColumnCells(md: Metadata, rows: seq<Row>, cells: seq<Cell>)
    requires DeriveColumn(md, NewLabelsOf, rows) == Ok(cells)
    ensures |cells| == |rows|
    ensures forall i :: 0 <= i < |rows| ==> WithColumn(rows, "new_labels", cells)[i]["new_labels"].NewLabels?
  {
    forall i | 0 <= i < |rows|
      ensures WithColumn(rows, "new_labels", cells)[i]["new_labels"].NewLabels?
    {
      assert cells[i] == DerivedCell(md, NewLabelsOf, rows[i]).value;
    }
  }

  /** After the drop, the filter and the renumbering, every row has 19-class labels, is clean and is numbered by its position. */
  lemma CleanedRowsHaveNewLabels(md: Metadata, f: Frame)
    requires "new_labels" in f.columns
    requires forall i :: 0 <= i < |f.rows| ==> f.rows[i]["new_labels"].NewLabels?
    ensures var r := CleanAndReindex(md, Select(f, DropMask(f, NaNLabels(f))));
      r.Ok? ==> forall j :: 0 <= j < |r.value.rows| ==>
        HasNewLabels(r.value.rows[j]) && Clean(md, r.value.rows[j]) && r.value.index[j] == j
  {
    var g := Select(f, DropMask(f, NaNLabels(f)));
    DropRemovesMissing(f);
    var r := CleanAndReindex(md, g);
    if r.Ok? {
      forall j | 0 <= j < |r.value.rows|
        ensures HasNewLabels(r.value.rows[j])
      {
        CleanRowsFromFrame(md, g, j);
      }
    }
  }

  /** A BigEarthNet frame whose cells `pandas` and `geopandas` update in place. */
  class GeoFrame {
    var columns: seq<string>
    var rows: seq<Row>
    var index: seq<int>

    ghost predicate Valid()
      reads this
    {
      Shaped(FrameValue(columns, rows, index))
    }

    function Value(): Frame
      reads this
      requires Valid()
    {
      FrameValue(columns, rows, index)
    }

    constructor(f: Frame)
      ensures Valid() && Value() == f
    {
      columns, rows, index := f.columns, f.rows, f.index;
    }

    /** `df[c] = cells`. */
    method SetColumn(c: string, cells: seq<Cell>)
      requires Valid() && |cells| == |rows|
      modifies this
      ensures Valid()
      ensures columns == AddColumn(old(columns), c)
      ensures rows == WithColumn(old(rows), c, cells)
      ensures index == old(index)
    {
      columns := AddColumn(columns, c);
      rows := WithColumn(rows, c, cells);
    }

    /**
     * Assignment `j` of `add_full_ben_metadata`, `df[c] = ...`: the
     * column is computed from the current rows, which agree with the
     * original ones on every input column, and assigned only if no row
     * raised.
     */
    method AssignMetadataColumn(md: Metadata, countries: seq<string>, j: nat, ghost original: seq<Row>)
      returns (err: Option<Error>)
      requires Valid() && j < 6 && |countries| == |original| && SameInputs(rows, original)
      modifies this
      ensures Valid() && index == old(index) && SameInputs(rows, original)
      ensures err.Some? ==> (err, columns, rows) == Run(MetadataSteps(md, original, countries), j, old(columns), old(rows))
      ensures err.None? ==>
        Run(MetadataSteps(md, original, countries), j + 1, columns, rows)
        == Run(MetadataSteps(md, original, countries), j, old(columns), old(rows))
    {
      AssignedAreNotInputs();
      var c := MetadataColumn(j);
      var cells;
      if j == 4 {
        cells := Ok(CountryCells(countries));
      } else {
        DeriveSameInputs(md, MetadataDerived(j), rows, original);
        cells := DeriveColumn(md, MetadataDerived(j), rows);
      }
      if cells.Err? {
        return Some(cells.error);
      }
      WithColumnSameInputs(rows, original, c, cells.value);
      SetColumn(c, cells.value);
      return None;
    }

    /**
     * `add_full_ben_metadata`: after checking the required columns, adds
     * the snow, cloud, new-label, split, country and season columns one
     * after the other.  An assignment that raises leaves the earlier ones in
     * place.  `countries` is what the nearest-country join gives each row.
     */
    method AddFullBenMetadata(md: Metadata, countries: seq<string>) returns (err: Option<Error>)
      requires Valid() && |countries| == |rows|
      modifies this
      ensures Valid() && index == old(index)
      ensures !HasRequired(old(columns)) ==> err == Some(ValueError) && columns == old(columns) && rows == old(rows)
      ensures HasRequired(old(columns)) ==>
        (err, columns, rows) == Run(MetadataSteps(md, old(rows), countries), 0, old(columns), old(rows))
    {
      if !HasRequired(columns) {
        return Some(ValueError);
      }
      ghost var original := rows;
      ghost var steps := MetadataSteps(md, original, countries);
      ghost var run := Run(steps, 0, columns, rows);
      for j := 0 to 6
        invariant Valid() && index == old(index) && SameInputs(rows, original)
        invariant Run(steps, j, columns, rows) == run
      {
        err := AssignMetadataColumn(md, countries, j, original);
        if err.Some? {
          return;
        }
      }
      err := None;
    }

    /**
     * `df.drop(labels, inplace=True)`: removes every row whose index label
     * is among `labels`; a label that is not in the index raises KeyError
     * and changes nothing.
     */
    method Drop(labels: set<int>) returns (err: Option<Error>)
      requires Valid()
      modifies this
      ensures Valid()
      ensures (exists l :: l in labels && l !in old(index)) ==> err == Some(KeyError) && unchanged(this)
      ensures (forall l :: l in labels ==> l in old(index)) ==>
        err.None? && Value() == Select(old(Value()), DropMask(old(Value()), labels))
    {
      if exists l :: l in labels && l !in index {
        return Some(KeyError);
      }
      var f := Select(Value(), DropMask(Value(), labels));
      columns, rows, index := f.columns, f.rows, f.index;
      return None;
    }

    /**
     * `remove_bad_ben_gdf_entries`: the `new_labels` column is (re)computed
     * from `labels` in place, the rows whose new labels are missing are
     * dropped in place by their index labels, and the snow/cloud filter and
     * the renumbering give the returned frame.
     */
    method RemoveBadBenGdfEntries(md: Metadata) returns (r: Result<Frame>)
      requires Valid()
      modifies this
      ensures Valid()
      ensures "labels" !in old(columns) ==> r == Err(KeyError) && unchanged(this)
      ensures "labels" in old(columns) && DeriveColumn(md, NewLabelsOf, old(rows)).Err? ==>
        r == Err(DeriveColumn(md, NewLabelsOf, old(rows)).error) && unchanged(this)
      ensures "labels" in old(columns) && DeriveColumn(md, NewLabelsOf, old(rows)).Ok? ==>
        var labelled := Assign(old(Value()), "new_labels", DeriveColumn(md, NewLabelsOf, old(rows)).value);
        Value() == Select(labelled, DropMask(labelled, NaNLabels(labelled)))
        && r == CleanAndReindex(md, Value())
      ensures r.Ok? ==> forall j :: 0 <= j < |r.value.rows| ==>
        HasNewLabels(r.value.rows[j]) && Clean(md, r.value.rows[j]) && r.value.index[j] == j
    {
      if "labels" !in columns {
        return Err(KeyError);
      }
      var newLabels := DeriveColumn(md, NewLabelsOf, rows);
      if newLabels.Err? {
        return Err(newLabels.error);
      }
      NewLabelsColumnCells(md, rows, newLabels.value);
      SetColumn("new_labels", newLabels.value);
      ghost var labelled := Value();
      var nan := set i | 0 <= i < |rows| && rows[i]["new_labels"] == NewLabels(None) :: index[i];
      assert nan == NaNLabels(labelled);
      var err := Drop(nan);
      CleanedRowsHaveNewLabels(md, labelled);
      r := CleanAndReindex(md, Value());
    }
  }
}

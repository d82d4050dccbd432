/**
 * The packaged CSV resources once decompressed: a file with a header line
 * read through `csv.DictReader`, and a single-column file without a header.
 * A resource that was not packaged is `None`.
 */
module Resources {
  import opened Wrappers
  import opened Dicts

  /** Every row gives a value to every field of the header. */
  predicate Complete(header: seq<string>, rows: seq<map<string, string>>) {
    forall i, f :: 0 <= i < |rows| && f in header ==> f in rows[i]
  }

  datatype RawTable = RawTable(header: seq<string>, rows: seq<map<string, string>>)

  /** A CSV file with a header line, read row by row as dicts keyed by the field names. */
  type Table = t: RawTable | Complete(t.header, t.rows) witness RawTable([], [])

  /** The `(row[key], row[value])` pairs, in row order. */
  function ColumnPairs(t: Table, key: string, value: string): (ps: seq<(string, string)>)
    requires key in t.header && value in t.header
    ensures |ps| == |t.rows|
    ensures forall i :: 0 <= i < |t.rows| ==> ps[i] == (t.rows[i][key], t.rows[i][value])
  {
    seq(|t.rows|, i requires 0 <= i < |t.rows| => (t.rows[i][key], t.rows[i][value]))
  }

  /** The values of one column, as a set. */
  function ColumnValues(t: Table, c: string): set<string>
    requires c in t.header
  {
    set i | 0 <= i < |t.rows| :: t.rows[i][c]
  }

  /** Some row has `k` in the key column and `v` in the value column. */
  predicate RowGives(t: Table, key: string, value: string, k: string, v: string)
    requires key in t.header && value in t.header
  {
    exists i :: 0 <= i < |t.rows| && t.rows[i][key] == k && t.rows[i][value] == v
  }

  /**
   * `_conv_header_col_bz2_csv_resource_to_dict`: the dict from the key
   * column to the value column, after checking that the resource exists and
   * that its header names both columns.
   */
  function LoadDict(resource: Option<Table>, key: string, value: string): (r: Result<map<string, string>>)
    ensures r.Err? <==> resource.None? || key !in resource.value.header || value !in resource.value.header
    ensures r.Err? ==> r.error == ValueError
    ensures r.Ok? ==> r.value.Keys == ColumnValues(resource.value, key)
    ensures r.Ok? ==> forall k :: k in r.value ==> RowGives(resource.value, key, value, k, r.value[k])
  {
    if resource.None? then Err(ValueError)
    else if key !in resource.value.header then Err(ValueError)
    else if value !in resource.value.header then Err(ValueError)
    else
      var t := resource.value;
      var ps := ColumnPairs(t, key, value);
      var m := DictOf(ps);
      assert KeySet(ps) == ColumnValues(t, key) by {
        forall k | k in ColumnValues(t, key) ensures k in KeySet(ps) {
          var i :| 0 <= i < |t.rows| && t.rows[i][key] == k;
          assert ps[i].0 == k;
        }
      }
      assert forall k :: k in m ==> RowGives(t, key, value, k, m[k]) by {
        forall k | k in m
          ensures RowGives(t, key, value, k, m[k])
        {
          var i :| IsLastFor(ps, i) && ps[i] == (k, m[k]);
          assert t.rows[i][key] == k && t.rows[i][value] == m[k];
        }
      }
      Ok(m)
  }

  /** On a repeated key the dict keeps the value of the last row that has it. */
  lemma LoadDictLastRowWins(t: Table, key: string, value: string, i: int)
    requires key in t.header && value in t.header && 0 <= i < |t.rows|
    requires forall j :: i < j < |t.rows| ==> t.rows[j][key] != t.rows[i][key]
    ensures LoadDict(Some(t), key, value) == Ok(LoadDict(Some(t), key, value).value)
    ensures LoadDict(Some(t), key, value).value[t.rows[i][key]] == t.rows[i][value]
  {
    var ps := ColumnPairs(t, key, value);
    assert IsLastFor(ps, i);
    DictOfLastWins(ps, i);
  }

  /** Without a repeated key every row is found again in the dict, and there are as many keys as rows. */
  lemma LoadDictDistinct(t: Table, key: string, value: string)
    requires key in t.header && value in t.header
    requires forall i, j :: 0 <= i < j < |t.rows| ==> t.rows[i][key] != t.rows[j][key]
    ensures LoadDict(Some(t), key, value).Ok?
    ensures forall i :: 0 <= i < |t.rows| ==> LoadDict(Some(t), key, value).value[t.rows[i][key]] == t.rows[i][value]
    ensures |LoadDict(Some(t), key, value).value| == |t.rows|
  {
    var ps := ColumnPairs(t, key, value);
    assert DistinctKeys(ps);
    DictOfDistinct(ps);
    DistinctKeysCount(ps);
  }

  /** When the value column has no repeats either, the keys of one dict are the values of the reverse dict. */
  lemma LoadDictMirror(t: Table, key: string, value: string)
    requires key in t.header && value in t.header
    requires forall i, j :: 0 <= i < j < |t.rows| ==> t.rows[i][value] != t.rows[j][value]
    ensures LoadDict(Some(t), key, value).Ok? && LoadDict(Some(t), value, key).Ok?
    ensures LoadDict(Some(t), key, value).value.Keys == LoadDict(Some(t), value, key).value.Values
  {
    LoadDictDistinct(t, value, key);
    var fwd, bwd := LoadDict(Some(t), key, value).value, LoadDict(Some(t), value, key).value;
    forall k | k in fwd ensures k in bwd.Values {
      var i :| 0 <= i < |t.rows| && t.rows[i][key] == k;
      assert bwd[t.rows[i][value]] == k;
    }
    forall v | v in bwd.Values ensures v in fwd {
      var k :| k in bwd && bwd[k] == v;
      assert RowGives(t, value, key, k, v);
    }
  }

  /**
   * `_conv_header_col_bz2_csv_resource_to_set`: the values of the key
   * column, after the same checks as the dict loader.
   */
  function LoadSet(resource: Option<Table>, key: string): (r: Result<set<string>>)
    ensures r.Err? <==> resource.None? || key !in resource.value.header
    ensures r.Err? ==> r.error == ValueError
    ensures r.Ok? ==> forall k :: k in r.value <==>
      exists i :: 0 <= i < |resource.value.rows| && resource.value.rows[i][key] == k
  {
    if resource.None? then Err(ValueError)
    else if key !in resource.value.header then Err(ValueError)
    else Ok(ColumnValues(resource.value, key))
  }

  /** The set loader gives exactly the keys of any dict loaded with the same key column. */
  lemma LoadSetIsDictKeys(resource: Option<Table>, key: string, value: string)
    requires LoadDict(resource, key, value).Ok?
    ensures LoadSet(resource, key) == Ok(LoadDict(resource, key, value).value.Keys)
  {
  }

  /**
   * `_conv_single_col_csv_resource_to_set`: every line of a file without a
   * header holds one value; the result is the set of lines.
   */
  function LoadColumn(resource: Option<seq<string>>): (r: Result<set<string>>)
    ensures r.Err? <==> resource.None?
    ensures r.Err? ==> r.error == ValueError
    ensures r.Ok? ==> forall k :: k in r.value <==> k in resource.value
  {
    if resource.None? then Err(ValueError) else Ok(set k | k in resource.value)
  }
}

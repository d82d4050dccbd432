/**
 * The metadata readers of `bigearthnet_common/base.py`: `_read_json`, which
 * checks that a patch's JSON document has the expected keys, and
 * `read_S1_json` / `read_S2_json` built on it.  Reading and parsing the file
 * are outside the model: the reader receives the parsed document, or `None`
 * when the text is not valid JSON.
 */
module Json {
  import opened Wrappers
  import Constants

  /** A parsed JSON value; a number keeps its literal text. */
  datatype Value =
    | Null
    | Bool(b: bool)
    | Number(literal: string)
    | Str(s: string)
    | Array(items: seq<Value>)
    | Object(fields: map<string, Value>)

  /**
   * `_read_json`: ValueError when the text is not JSON or an expected key is
   * missing; with `readOnlyExpected` only the expected keys are kept, with
   * their original values.  A document that is not an object has no
   * `keys()` (AttributeError).
   */
  function ReadJson(doc: Option<Value>, expectedKeys: set<string>, readOnlyExpected: bool): (r: Result<map<string, Value>>)
    ensures r.Ok? <==> doc.Some? && doc.value.Object? && expectedKeys <= doc.value.fields.Keys
    ensures doc.None? ==> r == Err(ValueError)
    ensures doc.Some? && !doc.value.Object? ==> r == Err(AttributeError)
    ensures doc.Some? && doc.value.Object? && !(expectedKeys <= doc.value.fields.Keys) ==> r == Err(ValueError)
    ensures r.Ok? && readOnlyExpected ==> r.value.Keys == expectedKeys
    ensures r.Ok? && !readOnlyExpected ==> r.value == doc.value.fields
    ensures r.Ok? ==> forall k :: k in r.value ==> k in doc.value.fields && r.value[k] == doc.value.fields[k]
  {
    match doc
    case None => Err(ValueError)
    case Some(v) =>
      if !v.Object? then Err(AttributeError)
      else if !(expectedKeys <= v.fields.Keys) then Err(ValueError)
      else if readOnlyExpected then Ok(map k | k in v.fields && k in expectedKeys :: v.fields[k])
      else Ok(v.fields)
  }

  /** `s` contains `t` as a substring: Python's `t in s` on strings. */
  predicate Contains(s: string, t: string) {
    exists i :: 0 <= i <= |s| && t <= s[i..]
  }

  /** `d[to] = d.pop(from)`: the entry moves to the new key and nothing else changes. */
  function MoveKey(d: map<string, Value>, from: string, to: string): (r: map<string, Value>)
    requires from in d
    ensures r.Keys == d.Keys - {from} + {to}
    ensures r[to] == d[from]
    ensures forall k :: k in d && k != from && k != to ==> r[k] == d[k]
  {
    (d - {from})[to := d[from]]
  }

  /**
   * `read_S1_json`: the Sentinel-1 keys only, and within `coordinates` the
   * misnamed corner `lly` renamed to `lry`.  The rename runs Python's `in`
   * and `pop` on whatever `coordinates` holds: a string is searched for the
   * substring and has no `pop`, a list is searched for the element and
   * cannot pop a string, and other values do not support `in`.
   */
  function ReadS1Json(doc: Option<Value>): (r: Result<map<string, Value>>)
    ensures ReadJson(doc, Constants.BEN_S1_V1_0_JSON_KEYS, true).Err? ==>
      r == ReadJson(doc, Constants.BEN_S1_V1_0_JSON_KEYS, true)
    ensures r.Ok? ==> r.value.Keys == Constants.BEN_S1_V1_0_JSON_KEYS
    ensures r.Ok? ==> forall k :: k in r.value && k != "coordinates" ==> r.value[k] == doc.value.fields[k]
    ensures r.Ok? ==> var c := doc.value.fields["coordinates"];
      if c.Object? && "lly" in c.fields then r.value["coordinates"] == Object(MoveKey(c.fields, "lly", "lry"))
      else r.value["coordinates"] == c
  {
    match ReadJson(doc, Constants.BEN_S1_V1_0_JSON_KEYS, true)
    case Err(e) => Err(e)
    case Ok(data) =>
      assert "coordinates" in Constants.BEN_S1_V1_0_JSON_KEYS;
      match data["coordinates"]
      case Object(f) =>
        if "lly" in f then Ok(data["coordinates" := Object(MoveKey(f, "lly", "lry"))]) else Ok(data)
      case Str(s) => if Contains(s, "lly") then Err(AttributeError) else Ok(data)
      case Array(items) => if Str("lly") in items then Err(TypeError) else Ok(data)
      case _ => Err(TypeError)
  }

  /** `read_S2_json`: the Sentinel-2 keys only. */
  function ReadS2Json(doc: Option<Value>): (r: Result<map<string, Value>>)
    ensures r.Ok? <==> doc.Some? && doc.value.Object? && Constants.BEN_S2_V1_0_JSON_KEYS <= doc.value.fields.Keys
    ensures r.Ok? ==> r.value.Keys == Constants.BEN_S2_V1_0_JSON_KEYS
    ensures r.Ok? ==> forall k :: k in r.value ==> r.value[k] == doc.value.fields[k]
  {
    ReadJson(doc, Constants.BEN_S2_V1_0_JSON_KEYS, true)
  }

  /** When `coordinates` is an object the rename never fails, so the S1 reader fails only where the key check does. */
  lemma ReadS1JsonObjectCoordinates(doc: Option<Value>)
    requires ReadJson(doc, Constants.BEN_S1_V1_0_JSON_KEYS, true).Ok?
    requires doc.value.fields["coordinates"].Object?
    ensures ReadS1Json(doc).Ok?
  {
  }

  /**
   * The two readers reject each other's documents: a document with every
   * Sentinel-2 key but without the Sentinel-1 `acquisition_time` fails the
   * Sentinel-1 check with ValueError.
   */
  lemma ReadersDisagree(fields: map<string, Value>)
    requires "acquisition_time" !in fields
    ensures ReadS1Json(Some(Object(fields))) == Err(ValueError)
  {
    assert "acquisition_time" in Constants.BEN_S1_V1_0_JSON_KEYS;
  }
}

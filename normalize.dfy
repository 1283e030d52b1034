/** Response normalisation: row_from_current maps a provider payload to the
    fixed 15-column record the table stores. */
module Normalize {
  import opened Results
  import opened Json
  import opened Timestamps

  /** The table's columns, in order. */
  const CSV_HEADERS: seq<string> := [
    "ts_utc", "city", "lat", "lon",
    "temp_c", "feelslike_c", "condition_text",
    "humidity", "wind_kph", "wind_dir",
    "pressure_mb", "precip_mm", "cloud", "uv",
    "is_day"
  ]

  /** The positions of the columns the lemmas below single out: "ts_utc",
      "city" and "condition_text". */
  const TS_UTC_COLUMN := 0
  const CITY_COLUMN := 1
  const CONDITION_TEXT_COLUMN := 6

  /** The record row_from_current returns: column name to Python value. */
  type Row = map<string, Value>

  /** No column name is repeated. */
  lemma HeadersDistinct()
    ensures forall i, j :: 0 <= i < j < |CSV_HEADERS| ==> CSV_HEADERS[i] != CSV_HEADERS[j]
  {
  }

  /** dict(zip(CSV_HEADERS, values)): the dict literal of row_from_current,
      keyed by the column names in header order. */
  function AsRow(values: seq<Value>): (row: Row)
    requires |values| == |CSV_HEADERS|
    ensures forall i :: 0 <= i < |CSV_HEADERS| ==> CSV_HEADERS[i] in row && row[CSV_HEADERS[i]] == values[i]
    ensures forall k :: k in row ==> k in CSV_HEADERS
  {
    HeadersDistinct();
    map i | 0 <= i < |CSV_HEADERS| :: CSV_HEADERS[i] := values[i]
  }

  /** The value the dict literal of row_from_current gives column i: the
      timestamp, the city, then each payload column read under its own name
      with .get (None when absent), from the location part for lat and lon,
      from the condition part's "text" for condition_text, and from the
      current part for every other column. */
  function ColumnValue(i: nat, city: string, loc: map<string, Value>, cur: map<string, Value>,
                       cond: map<string, Value>, now: DateTime): Value
    requires i < |CSV_HEADERS|
  {
    if i == 0 then Str(IsoStamp(now))
    else if i == 1 then Str(city)
    else if i < 4 then Get(loc, CSV_HEADERS[i], Null)
    else if i == 6 then Get(cond, "text", Null)
    else Get(cur, CSV_HEADERS[i], Null)
  }

  /** The values of the dict literal, in column order. */
  function RowValues(city: string, loc: map<string, Value>, cur: map<string, Value>,
                     cond: map<string, Value>, now: DateTime): (values: seq<Value>)
    ensures |values| == |CSV_HEADERS|
    ensures forall i :: 0 <= i < |CSV_HEADERS| ==> values[i] == ColumnValue(i, city, loc, cur, cond, now)
  {
    seq(|CSV_HEADERS|, i requires 0 <= i < |CSV_HEADERS| => ColumnValue(i, city, loc, cur, cond, now))
  }

  /** A payload row_from_current accepts: a dict whose "location" and
      "current", where present, are dicts, and whose "current.condition", where
      present, is a dict or a false value. Absent parts are fine. */
  predicate Normalizable(data: Value) {
    && data.Dict?
    && ("location" in data.fields ==> data.fields["location"].Dict?)
    && ("current" in data.fields ==>
          && data.fields["current"].Dict?
          && ("condition" in data.fields["current"].fields ==>
                data.fields["current"].fields["condition"].Dict? ||
                !Truthy(data.fields["current"].fields["condition"])))
  }

  /** row_from_current(city, data), with the clock reading of line 81 passed
      in. The `.get` calls run in source order (data, current, location,
      condition), so the first non-dict among them names the AttributeError. */
  function RowFromCurrent(city: string, data: Value, now: DateTime): (r: Result<Row>)
    ensures r.Ok? <==> Normalizable(data)
    ensures r.Ok? ==> forall i :: 0 <= i < |CSV_HEADERS| ==> CSV_HEADERS[i] in r.value
    ensures r.Ok? ==> forall k :: k in r.value ==> k in CSV_HEADERS
    ensures r.Ok? ==> r.value[CSV_HEADERS[CITY_COLUMN]] == Str(city)
    ensures r.Ok? ==> r.value[CSV_HEADERS[TS_UTC_COLUMN]] == Str(IsoStamp(now))
  {
    if !data.Dict? then Err(NoGetMessage(data))
    else
      var loc := Get(data.fields, "location", EMPTY_DICT);
      var cur := Get(data.fields, "current", EMPTY_DICT);
      if !cur.Dict? then Err(NoGetMessage(cur))
      else
        var raw := Get(cur.fields, "condition", Null);
        var cond := if Truthy(raw) then raw else EMPTY_DICT;
        if !loc.Dict? then Err(NoGetMessage(loc))
        else if !cond.Dict? then Err(NoGetMessage(cond))
        else
          Ok(AsRow(RowValues(city, loc.fields, cur.fields, cond.fields, now)))
  }

  /** A two-key path reads the leaf of a part that is absent or a dict. */
  lemma LookupInPart(data: Value, part: string, key: string)
    requires data.Dict? && (part in data.fields ==> data.fields[part].Dict?)
    ensures Get(data.fields, part, EMPTY_DICT).Dict?
    ensures Lookup(data, [part, key]) == Get(Get(data.fields, part, EMPTY_DICT).fields, key, Null)
  {
    var path := [part, key];
    assert path[1..] == [key] && path[1..][1..] == [];
    if part in data.fields {
      var v := data.fields[part];
      assert Lookup(data, path) == Lookup(v, [key]);
      if key in v.fields {
        assert Lookup(v, [key]) == Lookup(v.fields[key], []);
      }
    }
  }

  /** current.condition.text reads as condition.get("text") once a false
      condition is replaced by {}. */
  lemma LookupConditionText(data: Value)
    requires Normalizable(data)
    ensures var cur := Get(data.fields, "current", EMPTY_DICT);
            var raw := Get(cur.fields, "condition", Null);
            var cond := if Truthy(raw) then raw else EMPTY_DICT;
            cond.Dict? && Lookup(data, ["current", "condition", "text"]) == Get(cond.fields, "text", Null)
  {
    var path := ["current", "condition", "text"];
    assert path[1..] == ["condition", "text"];
    assert path[1..][1..] == ["text"];
    assert path[1..][1..][1..] == [];
    if "current" in data.fields {
      var cur := data.fields["current"];
      assert Lookup(data, path) == Lookup(cur, path[1..]);
      if "condition" in cur.fields {
        var raw := cur.fields["condition"];
        assert Lookup(cur, path[1..]) == Lookup(raw, ["text"]);
        if raw.Dict? && "text" in raw.fields {
          assert Lookup(raw, ["text"]) == Lookup(raw.fields["text"], []);
        }
      }
    }
  }

  /** Where in the payload each payload column comes from: lat and lon from
      "location", condition_text from "current.condition.text", every other
      column from "current" under its own name. */
  function SourcePath(i: nat): seq<string>
    requires 2 <= i < |CSV_HEADERS|
  {
    if i < 4 then ["location", CSV_HEADERS[i]]
    else if i == 6 then ["current", "condition", "text"]
    else ["current", CSV_HEADERS[i]]
  }

  /** The parts row_from_current reads a normalisable payload through. */
  function Location(data: Value): map<string, Value>
    requires Normalizable(data)
  {
    Get(data.fields, "location", EMPTY_DICT).fields
  }

  function Current(data: Value): map<string, Value>
    requires Normalizable(data)
  {
    Get(data.fields, "current", EMPTY_DICT).fields
  }

  function Condition(data: Value): map<string, Value>
    requires Normalizable(data)
  {
    var raw := Get(Current(data), "condition", Null);
    (if Truthy(raw) then raw else EMPTY_DICT).fields
  }

  /** A normalisable payload gives the dict literal over its three parts. */
  lemma RowFromParts(city: string, data: Value, now: DateTime)
    requires Normalizable(data)
    ensures RowFromCurrent(city, data, now)
         == Ok(AsRow(RowValues(city, Location(data), Current(data), Condition(data), now)))
  {
  }

  /** Each payload column holds the payload's value at its source path, and
      None where a key or part on that path is absent. */
  lemma RowFromCurrentFields(city: string, data: Value, now: DateTime)
    requires Normalizable(data)
    ensures var row := RowFromCurrent(city, data, now).value;
      forall i :: 2 <= i < |CSV_HEADERS| ==> row[CSV_HEADERS[i]] == Lookup(data, SourcePath(i))
  {
    RowFromParts(city, data, now);
    LookupConditionText(data);
    var values := RowValues(city, Location(data), Current(data), Condition(data), now);
    var row := AsRow(values);
    forall i | 2 <= i < |CSV_HEADERS|
      ensures row[CSV_HEADERS[i]] == Lookup(data, SourcePath(i))
    {
      assert row[CSV_HEADERS[i]] == values[i];
      if i != 6 {
        LookupInPart(data, if i < 4 then "location" else "current", CSV_HEADERS[i]);
      }
    }
  }

  /** A payload without "location" still gives a row, with lat and lon None. */
  lemma AbsentLocationReadsNone(city: string, data: Value, now: DateTime)
    requires Normalizable(data) && "location" !in data.fields
    ensures RowFromCurrent(city, data, now).Ok?
    ensures forall i :: 2 <= i < 4 ==> RowFromCurrent(city, data, now).value[CSV_HEADERS[i]] == Null
  {
    RowFromCurrentFields(city, data, now);
  }

  /** A payload without "current" still gives a row, with every weather
      column (temp_c to is_day) None. */
  lemma AbsentCurrentReadsNone(city: string, data: Value, now: DateTime)
    requires Normalizable(data) && "current" !in data.fields
    ensures RowFromCurrent(city, data, now).Ok?
    ensures forall i :: 4 <= i < |CSV_HEADERS| ==> RowFromCurrent(city, data, now).value[CSV_HEADERS[i]] == Null
  {
    RowFromCurrentFields(city, data, now);
  }

  /** A false "current.condition" (None, {}, 0, "") reads as an empty dict:
      condition_text is None and the row does not fail. */
  lemma FalsyConditionReadsNone(city: string, data: Value, now: DateTime)
    requires data.Dict? && "current" in data.fields && data.fields["current"].Dict?
    requires "location" !in data.fields || data.fields["location"].Dict?
    requires !Truthy(Get(data.fields["current"].fields, "condition", Null))
    ensures RowFromCurrent(city, data, now).Ok?
    ensures RowFromCurrent(city, data, now).value[CSV_HEADERS[CONDITION_TEXT_COLUMN]] == Null
  {
    assert Normalizable(data);
    var loc := Get(data.fields, "location", EMPTY_DICT);
    var cur := data.fields["current"];
    var values := RowValues(city, loc.fields, cur.fields, map[], now);
    assert RowFromCurrent(city, data, now) == Ok(AsRow(values));
    assert values[6] == Null;
  }
}

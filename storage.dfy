/** The files the collector writes: the monthly CSV tables, appended to by
    write_csv_row, and the raw snapshots written by dump_raw_json. */
module Storage {
  import opened Results
  import opened Json
  import opened Timestamps
  import opened Naming
  import opened Normalize

  /** One CSV line, as the sequence of its field values (the byte-level
      quoting of the csv module is not modelled). */
  type Line = seq<Value>

  /** The line writer.writeheader() writes: the column names. */
  function HeaderLine(): (line: Line)
    ensures |line| == |CSV_HEADERS|
    ensures forall i :: 0 <= i < |CSV_HEADERS| ==> line[i] == Str(CSV_HEADERS[i])
  {
    seq(|CSV_HEADERS|, i requires 0 <= i < |CSV_HEADERS| => Str(CSV_HEADERS[i]))
  }

  const HEADER_SET: set<string> := set h | h in CSV_HEADERS

  /** The line writer.writerow(row) writes: the row's value for each column,
      in header order, and DictWriter's restval "" for a missing column. */
  function DataLine(row: Row): (line: Line)
    ensures |line| == |CSV_HEADERS|
    ensures forall i :: 0 <= i < |CSV_HEADERS| && CSV_HEADERS[i] in row ==> line[i] == row[CSV_HEADERS[i]]
  {
    seq(|CSV_HEADERS|, i requires 0 <= i < |CSV_HEADERS| => Get(row, CSV_HEADERS[i], Str("")))
  }

  /** writerow of the dict literal writes its values back in column order:
      a row built by AsRow loses nothing and gains nothing on its way into
      the table. */
  lemma DataLineRoundTrip(values: seq<Value>)
    requires |values| == |CSV_HEADERS|
    ensures DataLine(AsRow(values)) == values
  {
    var line := DataLine(AsRow(values));
    forall i | 0 <= i < |CSV_HEADERS|
      ensures line[i] == values[i]
    {
    }
  }

  /** writeheader writes the row that maps every column to its own name. */
  lemma HeaderIsNamesRow()
    ensures HeaderLine() == DataLine(AsRow(HeaderLine()))
  {
    DataLineRoundTrip(HeaderLine());
  }

  /** The start of str(e) of the ValueError DictWriter raises for a row with
      a key outside the header. */
  const EXTRA_FIELDS_MESSAGE := "dict contains fields not in fieldnames"

  /** Everything the collector has written: table path to its lines, and
      snapshot path to the payload saved there. */
  datatype Store = Store(tables: map<string, seq<Line>>, snapshots: map<string, Value>)

  /** The data lines a write leaves after the header decision: the row's
      line, unless writerow raised. */
  function Written(row: Row, err: Option<string>): seq<Line> {
    if err.None? then [DataLine(row)] else []
  }

  /** write_csv_row(row) with the clock reading of monthly_csv_path passed
      in: the header goes first only into a table that did not exist, then
      the row. A row with a key outside the header raises after the header
      has been written. */
  function WriteCsvRowSpec(tables: map<string, seq<Line>>, row: Row, now: DateTime)
    : (r: (map<string, seq<Line>>, Option<string>))
    ensures MonthlyCsvPath(now) in r.0
    ensures MonthlyCsvPath(now) in tables ==>
      r.0[MonthlyCsvPath(now)] == tables[MonthlyCsvPath(now)] + Written(row, r.1)
    ensures MonthlyCsvPath(now) !in tables ==>
      r.0[MonthlyCsvPath(now)] == [HeaderLine()] + Written(row, r.1)
    ensures r.0 - {MonthlyCsvPath(now)} == tables - {MonthlyCsvPath(now)}
    ensures r.1.None? <==> row.Keys <= HEADER_SET
  {
    var csvPath := MonthlyCsvPath(now);
    var withFile := if csvPath in tables then tables else tables[csvPath := [HeaderLine()]];
    if row.Keys <= HEADER_SET then (withFile[csvPath := withFile[csvPath] + [DataLine(row)]], None)
    else (withFile, Some(EXTRA_FIELDS_MESSAGE))
  }

  /** The table map after appending one line to the file at path, the header
      first if the file is new. */
  function AppendLine(tables: map<string, seq<Line>>, path: string, line: Line): map<string, seq<Line>> {
    tables[path := (if path in tables then tables[path] else [HeaderLine()]) + [line]]
  }

  /** A row whose keys are all columns is written in full: no error, and its
      line goes at the end of the month's table. */
  lemma WriteCsvRowAppends(tables: map<string, seq<Line>>, row: Row, now: DateTime)
    requires row.Keys <= HEADER_SET
    ensures WriteCsvRowSpec(tables, row, now) == (AppendLine(tables, MonthlyCsvPath(now), DataLine(row)), None)
  {
    var p := MonthlyCsvPath(now);
    var r := WriteCsvRowSpec(tables, row, now);
    var t := AppendLine(tables, p, DataLine(row));
    assert r.0.Keys == t.Keys;
    forall q | q in t
      ensures r.0[q] == t[q]
    {
      if q != p {
        assert q in r.0 - {p};
      }
    }
    assert r.0 == t;
    assert r.1 == None;
  }

  /** A table as write_csv_row leaves it: the header line once, at the top,
      followed by data lines of the header's width. */
  predicate WellFormedTable(lines: seq<Line>) {
    && |lines| >= 1
    && lines[0] == HeaderLine()
    && forall i :: 1 <= i < |lines| ==> lines[i] != HeaderLine() && |lines[i]| == |CSV_HEADERS|
  }

  predicate WellFormedTables(tables: map<string, seq<Line>>) {
    forall p :: p in tables ==> WellFormedTable(tables[p])
  }

  /** Appending a data line of the header's width keeps every table well
      formed. */
  lemma AppendLineKeepsWellFormed(tables: map<string, seq<Line>>, path: string, line: Line)
    requires WellFormedTables(tables)
    requires line != HeaderLine() && |line| == |CSV_HEADERS|
    ensures WellFormedTables(AppendLine(tables, path, line))
  {
  }

  /** Appending a row that is not itself the header line keeps every table
      well formed: the header is never written twice into one file. */
  lemma WriteCsvRowKeepsWellFormed(tables: map<string, seq<Line>>, row: Row, now: DateTime)
    requires WellFormedTables(tables)
    requires DataLine(row) != HeaderLine()
    ensures WellFormedTables(WriteCsvRowSpec(tables, row, now).0)
  {
    var p := MonthlyCsvPath(now);
    var t := WriteCsvRowSpec(tables, row, now).0;
    forall q | q in t
      ensures WellFormedTable(t[q])
    {
      if q != p {
        assert q in t - {p};
      }
    }
  }

  /** The line of a normalised row starts with its timestamp and its city. */
  lemma RowLineStartsWithStampAndCity(city: string, data: Value, now: DateTime)
    requires Normalizable(data)
    ensures DataLine(RowFromCurrent(city, data, now).value)[0] == Str(IsoStamp(now))
    ensures DataLine(RowFromCurrent(city, data, now).value)[1] == Str(city)
  {
  }

  /** The line of a normalised row is never the header line: its first field
      is a 20-character timestamp, not "ts_utc". */
  lemma RowLineIsNotHeader(city: string, data: Value, now: DateTime)
    requires Normalizable(data)
    ensures DataLine(RowFromCurrent(city, data, now).value) != HeaderLine()
  {
    RowLineStartsWithStampAndCity(city, data, now);
    assert |CSV_HEADERS[0]| == 6;
    assert HeaderLine()[0] == Str(CSV_HEADERS[0]);
  }

  /** The data directory as a mutable object: the methods below are the
      source's two writers. */
  class FileStore {
    var tables: map<string, seq<Line>>
    var snapshots: map<string, Value>

    function State(): Store
      reads this
    {
      Store(tables, snapshots)
    }

    constructor (initial: Store)
      ensures State() == initial
    {
      tables := initial.tables;
      snapshots := initial.snapshots;
    }

    /** write_csv_row: opens the month's table for appending, writes the
        header if the file did not exist, then the row. */
    method WriteCsvRow(row: Row, now: DateTime) returns (err: Option<string>)
      modifies this
      ensures (tables, err) == WriteCsvRowSpec(old(tables), row, now)
      ensures snapshots == old(snapshots)
    {
      var csvPath := MonthlyCsvPath(now);
      var fileExists := csvPath in tables;
      if !fileExists {
        tables := tables[csvPath := [HeaderLine()]];
      }
      if row.Keys <= HEADER_SET {
        tables := tables[csvPath := tables[csvPath] + [DataLine(row)]];
        err := None;
      } else {
        err := Some(EXTRA_FIELDS_MESSAGE);
      }
    }

    /** dump_raw_json: writes the payload to the snapshot named after the
        city and the second, replacing a snapshot of the same name. */
    method DumpRawJson(city: string, payload: Value, now: DateTime)
      modifies this
      ensures snapshots == old(snapshots)[SnapshotPath(city, now) := payload]
      ensures tables == old(tables)
    {
      var out := SnapshotPath(city, now);
      snapshots := snapshots[out := payload];
    }
  }
}

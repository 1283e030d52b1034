# weather_fetch.py in Dafny

A model of the collector script `weather_fetch.py`. For each of eight Indian
cities, in list order, it:

- fetches the provider's current conditions;
- saves the raw payload as a JSON snapshot named after the city and the UTC
  second;
- normalises the payload into a fixed 15-column row (`row_from_current`);
- appends that row to a CSV table named after the UTC year and month, writing
  the header first when the table is new (`write_csv_row`).

An exception in one city is recorded as a `(city, message)` failure, and the
loop goes on with the next city. A missing or empty `WEATHER_API_KEY` stops the
script before any city is processed.

The model is split into modules:

- `Json` (json.dfy): the decoded payload as a Python value, with the Python
  operations the script applies to it. These are truthiness, `dict.get`, the
  `in` operator, and the `AttributeError`/`TypeError` messages.
- `Timestamps` (timestamps.dfy): UTC clock readings and the two stamp
  patterns, each with a parser that reads the stamp back. The `%Y_%m` table
  pattern is built in naming.dfy and read back by `MonthlyCsvPathShape`.
- `Naming` (naming.dfy): the monthly table path and the snapshot path.
- `Normalize` (normalize.dfy): `CSV_HEADERS` and `row_from_current`, including
  its error paths.
- `Storage` (storage.dfy): the files as a value `Store`, and the class
  `FileStore` whose methods are `write_csv_row` and `dump_raw_json`.
- `Collector` (collector.dfy): the key check, one city's try block
  (`ProcessCity`) and main's loop (`Collect`). Each is proved against the
  functional reading `RunSpec`, and `RunSpec` is a fold of per-city `Outcome`s.

The HTTP fetch and the clock are inputs. Each city gets an `Attempt`:

- the fetch's result, which is either the decoded payload or the message of
  the exception the request raised;
- the three `datetime.now(timezone.utc)` readings that city's processing makes,
  in this order:
  1. the snapshot name (line 58);
  2. `ts_utc` (line 81), which is evaluated before `write_csv_row` runs;
  3. the table path (line 37).

Keeping the three readings apart lets the model state which file gets which
row. The row's timestamp and its table come from different readings, so a
row stamped in the last second of a month can land in the next month's table.

## Model

| member | source | states |
|---|---|---|
| Json.Contains | weather_fetch.py:114 | `"current" in data`: key membership for a dict, element membership for a list, substring for a str; a TypeError exactly for None, bool, int and float |
| Json.IsSubstringIff | weather_fetch.py:114 | the left-to-right substring scan succeeds exactly when the needle occurs at some offset |
| Timestamps.Pad | weather_fetch.py:58 | a strftime numeric field always has exactly its width in decimal digits |
| Timestamps.PadRoundTrip | weather_fetch.py:58 | a zero-padded field that fits its width reads back as the same number |
| Timestamps.PadInjective | weather_fetch.py:58 | two numbers that fit the width have the same padded field only when they are equal |
| Timestamps.IsoStamp | weather_fetch.py:81 | `ts_utc` is always 20 characters long |
| Timestamps.IsoStampRoundTrip | weather_fetch.py:81 | `ts_utc` parses back to the clock reading it was printed from |
| Timestamps.IsoStampInjective | weather_fetch.py:81 | two valid readings give the same `ts_utc` exactly when they are the same second |
| Timestamps.CompactStamp | weather_fetch.py:58 | the snapshot stamp is always 16 characters long |
| Timestamps.CompactStampRoundTrip | weather_fetch.py:58 | the snapshot stamp parses back to the clock reading it was printed from |
| Naming.MonthlyCsvPathShape | weather_fetch.py:35-38 | the table path is `data/weather_india_`, then four digits that read as the year, `_`, two digits that read as the month, then `.csv` |
| Naming.MonthlyCsvPathSameIff | weather_fetch.py:35-38 | two readings share a table exactly when their year and month agree |
| Naming.Sanitize | weather_fetch.py:59 | replacing spaces and lower-casing keeps the name's length |
| Naming.SanitizeAt | weather_fetch.py:59 | each character of the sanitised name is `_` for a space, and otherwise the lower-cased original |
| Naming.SanitizeClean | weather_fetch.py:59 | a sanitised name contains no space and no ASCII capital |
| Naming.SanitizeIdempotent | weather_fetch.py:59 | sanitising a sanitised name changes nothing |
| Naming.SnapshotPathInjective | weather_fetch.py:57-59 | two snapshot path strings are equal only if the sanitised city names are equal and the seconds are equal |
| Normalize.HeadersDistinct | weather_fetch.py:40-46 | no column name appears twice |
| Normalize.AsRow | weather_fetch.py:82-98 | the dict literal has exactly the 15 columns as keys, and each column holds the value at its position |
| Normalize.RowFromCurrent | weather_fetch.py:76-98 | it succeeds exactly on normalisable payloads; a row has exactly the 15 columns, with `city` set to the city and `ts_utc` set to the row's clock reading |
| Normalize.LookupInPart | weather_fetch.py:77-78 | `part.get(key)` after `data.get(part, {})` reads the payload's nested field, or None where it is absent |
| Normalize.LookupConditionText | weather_fetch.py:79 | after a false condition is replaced by `{}`, `cond.get("text")` reads `current.condition.text`, or None where it is absent |
| Normalize.RowFromCurrentFields | weather_fetch.py:85-97 | each payload column holds the payload's value at that column's source path (`location.*`, `current.condition.text` or `current.*`), and None where the path is absent |
| Normalize.AbsentLocationReadsNone | weather_fetch.py:85-86 | a payload without `location` still gives a row, with `lat` and `lon` set to None |
| Normalize.AbsentCurrentReadsNone | weather_fetch.py:87-97 | a payload without `current` still gives a row, with every weather column set to None |
| Normalize.FalsyConditionReadsNone | weather_fetch.py:79 | a false condition (None, `{}`, 0, `""`) does not raise, and gives `condition_text` None |
| Storage.DataLineRoundTrip | weather_fetch.py:55 | writerow of the dict literal writes its 15 values back in column order: no value lost, none added, none moved |
| Storage.HeaderIsNamesRow | weather_fetch.py:52-54 | writeheader writes the line writerow would write for the row mapping every column to its own name |
| Storage.WriteCsvRowSpec | weather_fetch.py:48-55 | only the month's table changes; the header goes first only into a new table; then the row's line, unless the row has a key outside the header, which is the only error |
| Storage.WriteCsvRowAppends | weather_fetch.py:48-55 | a row whose keys are all columns is appended in full, with no error |
| Storage.AppendLineKeepsWellFormed | weather_fetch.py:50-55 | appending a data line of the header's width keeps every table as one header followed by data lines |
| Storage.WriteCsvRowKeepsWellFormed | weather_fetch.py:48-55 | write_csv_row never writes a second header into a table |
| Storage.RowLineStartsWithStampAndCity | weather_fetch.py:81-84 | a normalised row's line starts with its `ts_utc` and its city |
| Storage.RowLineIsNotHeader | weather_fetch.py:81-84 | a normalised row's line is never the header line |
| Storage.FileStore.WriteCsvRow | weather_fetch.py:48-55 | the in-place writer leaves the tables and error of WriteCsvRowSpec; snapshots are untouched |
| Storage.FileStore.DumpRawJson | weather_fetch.py:57-60 | the payload is written under its snapshot path, replacing any file of that name; the tables are untouched |
| Collector.ApiKey | weather_fetch.py:28-30 | the script goes on exactly when the key is set and non-empty; otherwise it stops with the missing-key message |
| Collector.CityRowOrFailure | weather_fetch.py:103-128 | no city ends with both a row and a failure; a city ends with neither exactly when forecast mode got a payload without `current` |
| Collector.OutcomeSnapshot | weather_fetch.py:103-110 | a city's snapshot is written exactly when its fetch succeeded, even if normalisation then fails |
| Collector.CurrentCityOutcome | weather_fetch.py:106-122 | in current mode, a fetched normalisable payload is dumped and its row appended, with no failure |
| Collector.CurrentModeWithoutCurrent | weather_fetch.py:121-122 | in current mode, a payload without `current` still gives a row, with its weather columns None and no failure |
| Collector.ForecastWithoutCurrentSkips | weather_fetch.py:112-115 | in forecast mode, a dict without `current` is only dumped: no row and no failure |
| Collector.OutcomesConcat | weather_fetch.py:102 | the outcomes of two city lists joined are the two lists' outcomes joined |
| Collector.RunOutcomesConcat | weather_fetch.py:101-128 | the loop over two outcome sequences in a row is the loop over their concatenation |
| Collector.RunConcat | weather_fetch.py:100-128 | cities processed after others start from the files the earlier ones left, and the failures lists join: one city's exception never stops the rest |
| Collector.FailedIndices | weather_fetch.py:127-128 | the positions of failing outcomes, strictly increasing and complete |
| Collector.RunOutcomesFailures | weather_fetch.py:101-128 | the failures list holds exactly the outcomes' failures, in order, whatever the files held |
| Collector.RunOutcomesNoFailures | weather_fetch.py:101-128 | with no failing city, the failures list is empty |
| Collector.RunFailures | weather_fetch.py:100-128 | main's failures list holds `(city, str(e))` for every city whose try block raised, and only those, in list order |
| Collector.RunOutcomesSameMonth | weather_fetch.py:100-128 | within one month, the lines are appended in order to that month's table, after a header if the table is new, and every other table is unchanged |
| Collector.LinesAllAppended | weather_fetch.py:100-128 | when every outcome has a line, the appended lines are those lines, one per outcome, in order |
| Collector.CurrentRunAppendsEveryCity | weather_fetch.py:100-128 | a run in current mode within one month, where every fetch succeeds with a normalisable payload: no failures, and the table gains every city's row in order, each starting with its stamp and its city |
| Collector.RunOutcomesKeepsWellFormed | weather_fetch.py:48-55 | appending only data lines keeps every table as one header followed by data lines |
| Collector.RunKeepsWellFormed | weather_fetch.py:100-128 | a whole run never writes a second header into a table |
| Collector.RunOutcomesSnapshots | weather_fetch.py:109-110 | after the loop, every snapshot holds its payload unless a later city wrote the same path |
| Collector.RunOutcomesSnapshotsFrame | weather_fetch.py:109-110 | the loop changes no snapshot outside the paths it writes |
| Collector.SnapshotInitial | weather_fetch.py:59 | the character after `data/raw/` is the city's first letter, lower-cased |
| Collector.CityInitials | weather_fetch.py:12-15 | each of the eight cities starts with a letter that lower-cases to the matching initial, and none starts with a space |
| Collector.CitySnapshotsDistinct | weather_fetch.py:12-15 | two different cities of CITIES never share a snapshot path, whatever the clock says |
| Collector.CitiesSnapshotsKept | weather_fetch.py:100-110 | after a run over CITIES, every successfully fetched payload is in its own snapshot, and every snapshot path the run does not write is unchanged |
| Collector.WriteRow | weather_fetch.py:122 | `write_csv_row(row_from_current(...))` appends the row's line when the payload is normalisable; otherwise it fails with the AttributeError and changes no file |
| Collector.ProcessCity | weather_fetch.py:103-128 | one city's try block changes the files as its Outcome says, and ends with CityError's exception |
| Collector.Collect | weather_fetch.py:100-128 | main's loop leaves the files and the failures list of RunSpec |
| Collector.Script | weather_fetch.py:28-135 | the key check stops the script without touching a file; otherwise main runs over CITIES in current mode |

## Left out

- HTTP: `fetch_current`, `fetch_forecast`, the URL, the query parameters, `TIMEOUT`, `raise_for_status` and `r.json()` are not modelled. Their result enters as `Fetch`: a decoded payload, or the exception's message. `FORECAST_DAYS` and `BASE_URL` therefore do not appear.
- The clock: `datetime.now(timezone.utc)` is an input, `Clock`. Microseconds are dropped, because none of the three patterns prints them.
- Years below 1000: `%Y` is modelled as four zero-padded digits. What strftime prints for such years depends on the platform.
- `str.lower()` is modelled on ASCII letters only. The city names are ASCII.
- Naming.SnapshotPath: paths are joined as strings. That matches pathlib's `/` only for names without `/`, which holds for every name in CITIES. A name starting with `/` makes pathlib's path absolute, and `//` inside a name collapses to `/`; neither is modelled, so SnapshotPathInjective and the run lemmas speak of path strings, not of the files such names would reach.
- JSON serialisation of snapshots (`json.dumps(..., indent=2)`) is not modelled: a snapshot holds the decoded value itself.
- CSV quoting is not modelled: a table is a sequence of lines of values. DictWriter renders None as an empty field, and that rendering is not modelled either.
- The `ValueError` DictWriter raises for a key outside the header carries only its fixed message prefix. `row_from_current` never produces such a key.
- Storage.FileStore.DumpRawJson: the snapshot write is modelled as never raising. In the source, `write_text` encodes with the locale's encoding, so a payload string it cannot encode (a lone surrogate under UTF-8, or non-cp1252 text on Windows) raises `UnicodeEncodeError`. The file is then left empty, the city's row is skipped, and `(city, str(e))` is recorded. The model instead writes the snapshot and goes on to the row, so OutcomeSnapshot, CityRowOrFailure and the run lemmas built on them do not cover that path.
- `mkdir` at start-up and the file system's own errors (permissions, a full disk) are not modelled.
- `time.sleep(0.2)` is not modelled; it does not affect the files or the failures list.
- The final `print` of the failures list is not modelled; main's result is the list itself.
- The commented-out hourly forecast rows are not modelled.
- Exception messages follow recent CPython wording. Other Python versions word them differently.
- Provider numbers are Python int or float. NaN and infinities cannot come from standard JSON, so they are not modelled.
- The loop is proved for any `USE_FORECAST`; the script itself runs with `USE_FORECAST = False`.

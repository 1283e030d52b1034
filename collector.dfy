/** The driver: the module-level key check and main's loop over CITIES, each
    city processed inside its own try block. Fetching, the clock and the file
    system are inputs: each city's fetch outcome and clock readings are given,
    and the files are a FileStore. */
module Collector {
  import opened Results
  import opened Json
  import opened Timestamps
  import opened Naming
  import opened Normalize
  import opened Storage

  const CITIES: seq<string> := [
    "Chennai", "Mumbai", "Delhi", "Bengaluru",
    "Kolkata", "Hyderabad", "Pune", "Ahmedabad"
  ]

  /** False: the current-conditions endpoint is used. */
  const USE_FORECAST: bool := false

  const MISSING_KEY_MESSAGE := "Missing WEATHER_API_KEY env var. Set it as a GitHub Secret."

  /** What fetch_current or fetch_forecast gave for one city: the decoded
      payload, or str(e) of the exception the request raised. */
  datatype Fetch = Fetched(payload: Value) | FetchFailed(message: string)

  /** The datetime.now(timezone.utc) readings one city's processing makes:
      for the snapshot name, for ts_utc and for the table path. */
  datatype Clock = Clock(snapshot: DateTime, row: DateTime, table: DateTime)

  datatype Attempt = Attempt(fetch: Fetch, clock: Clock)

  /** An entry of main's failures list: (city, str(e)). */
  type Failure = (string, string)

  /** The startup check: a missing or empty WEATHER_API_KEY ends the program
      before any city is fetched. */
  function ApiKey(env: Option<string>): (r: Result<string>)
    ensures r.Ok? <==> env.Some? && env.value != ""
    ensures r.Ok? ==> r.value == env.value
    ensures r.Err? ==> r.error == MISSING_KEY_MESSAGE
  {
    if env.None? || env.value == "" then Err(MISSING_KEY_MESSAGE) else Ok(env.value)
  }

  /** Whether the city's payload reaches write_csv_row: always in current
      mode, and in forecast mode when "current" in data (or the error of that
      test). */
  function StoreGate(useForecast: bool, data: Value): Result<bool> {
    if useForecast then Contains(data, "current") else Ok(true)
  }

  /** The exception one city's try block ends in, described without the
      store: the fetch's own error, the TypeError of the forecast-mode test,
      or row_from_current's AttributeError. */
  function CityError(useForecast: bool, city: string, att: Attempt): Option<string> {
    match att.fetch
    case FetchFailed(msg) => Some(msg)
    case Fetched(data) =>
      var gate := StoreGate(useForecast, data);
      if gate.Err? then Some(gate.error)
      else if !gate.value || Normalizable(data) then None
      else Some(RowFromCurrent(city, data, att.clock.row).error)
  }

  /** The line one city appends to its month's table, if any. */
  function CityLine(useForecast: bool, city: string, att: Attempt): Option<Line> {
    match att.fetch
    case FetchFailed(_) => None
    case Fetched(data) =>
      if StoreGate(useForecast, data) == Ok(true) && Normalizable(data)
      then Some(DataLine(RowFromCurrent(city, data, att.clock.row).value))
      else None
  }

  /** Each city ends in exactly one of a stored row and a recorded failure,
      except in forecast mode for a payload without "current", which ends in
      neither. */
  lemma CityRowOrFailure(useForecast: bool, city: string, att: Attempt)
    ensures !(CityLine(useForecast, city, att).Some? && CityError(useForecast, city, att).Some?)
    ensures CityLine(useForecast, city, att).None? && CityError(useForecast, city, att).None?
        <==> useForecast && att.fetch.Fetched? && Contains(att.fetch.payload, "current") == Ok(false)
  {
  }

  /** Everything one city's try block leaves behind: the month's table its
      row goes to, the line it appends there (if any), the snapshot it writes
      (if its fetch succeeded) and its entry in the failures list. */
  datatype Outcome = Outcome(table: string, line: Option<Line>, snapshot: Option<(string, Value)>,
                             failure: Option<Failure>)

  /** The outcome of main's try block for one city, read off the city alone:
      the snapshot is written whenever the fetch succeeded, even if
      normalisation then fails; the line is CityLine; the failure is
      CityError. */
  function CityOutcome(useForecast: bool, city: string, att: Attempt): Outcome {
    var err := CityError(useForecast, city, att);
    Outcome(
      MonthlyCsvPath(att.clock.table),
      CityLine(useForecast, city, att),
      if att.fetch.Fetched? then Some((SnapshotPath(city, att.clock.snapshot), att.fetch.payload)) else None,
      if err.Some? then Some((city, err.value)) else None)
  }

  /** The files after an outcome: the line appended to its table (after the
      header if the table is new), the snapshot written. */
  function Apply(s: Store, o: Outcome): Store {
    Store(
      if o.line.Some? then AppendLine(s.tables, o.table, o.line.value) else s.tables,
      if o.snapshot.Some? then s.snapshots[o.snapshot.value.0 := o.snapshot.value.1] else s.snapshots)
  }

  function FailureList(o: Outcome): seq<Failure> {
    if o.failure.Some? then [o.failure.value] else []
  }

  /** main's loop over a sequence of outcomes: the files it leaves and the
      failures list it builds. */
  function RunOutcomes(s: Store, outs: seq<Outcome>): (Store, seq<Failure>)
    decreases |outs|
  {
    if outs == [] then (s, [])
    else
      var n := |outs| - 1;
      var before := RunOutcomes(s, outs[..n]);
      (Apply(before.0, outs[n]), before.1 + FailureList(outs[n]))
  }

  /** The outcomes of the cities, in list order. */
  function Outcomes(useForecast: bool, cities: seq<string>, attempts: seq<Attempt>): (outs: seq<Outcome>)
    requires |attempts| == |cities|
    ensures |outs| == |cities|
    ensures forall i :: 0 <= i < |cities| ==> outs[i] == CityOutcome(useForecast, cities[i], attempts[i])
  {
    seq(|cities|, i requires 0 <= i < |cities| => CityOutcome(useForecast, cities[i], attempts[i]))
  }

  /** main's loop over the cities: the files it leaves and the failures list
      it builds. */
  function RunSpec(useForecast: bool, s: Store, cities: seq<string>, attempts: seq<Attempt>): (Store, seq<Failure>)
    requires |attempts| == |cities|
  {
    RunOutcomes(s, Outcomes(useForecast, cities, attempts))
  }

  /** One more outcome extends the loop by one pass. */
  lemma RunOutcomesStep(s: Store, outs: seq<Outcome>, i: nat)
    requires i < |outs|
    ensures RunOutcomes(s, outs[..i + 1])
         == (Apply(RunOutcomes(s, outs[..i]).0, outs[i]), RunOutcomes(s, outs[..i]).1 + FailureList(outs[i]))
  {
    assert outs[..i + 1][..i] == outs[..i];
  }

  /** One more outcome at the end extends the loop by one pass. */
  lemma RunOutcomesSnoc(s: Store, outs: seq<Outcome>, o: Outcome)
    ensures RunOutcomes(s, outs + [o])
         == (Apply(RunOutcomes(s, outs).0, o), RunOutcomes(s, outs).1 + FailureList(o))
  {
    assert (outs + [o])[..|outs|] == outs;
  }

  lemma AppendAssoc<T>(a: seq<T>, b: seq<T>, c: seq<T>)
    ensures (a + b) + c == a + (b + c)
  {
  }

  /** Running o1 and then o2 in turn, as one pair of files and failures. */
  function RunInTurn(s: Store, o1: seq<Outcome>, o2: seq<Outcome>): (Store, seq<Failure>) {
    var first := RunOutcomes(s, o1);
    var second := RunOutcomes(first.0, o2);
    (second.0, first.1 + second.1)
  }

  /** The induction step of RunOutcomesConcat: one more outcome at the end
      of the second part. */
  lemma RunOutcomesConcatStep(s: Store, o1: seq<Outcome>, init: seq<Outcome>, last: Outcome)
    requires RunOutcomes(s, o1 + init) == RunInTurn(s, o1, init)
    ensures RunOutcomes(s, o1 + (init + [last])) == RunInTurn(s, o1, init + [last])
  {
    var first := RunOutcomes(s, o1);
    var prior := RunOutcomes(first.0, init);
    assert o1 + (init + [last]) == (o1 + init) + [last];
    RunOutcomesSnoc(s, o1 + init, last);
    RunOutcomesSnoc(first.0, init, last);
    AppendAssoc(first.1, prior.1, FailureList(last));
  }

  /** Running two sequences of outcomes one after the other is running their
      concatenation: the second starts from the files the first left, and
      the failures lists join. */
  lemma {:induction false} RunOutcomesConcat(s: Store, o1: seq<Outcome>, o2: seq<Outcome>)
    ensures var first := RunOutcomes(s, o1);
            var second := RunOutcomes(first.0, o2);
            RunOutcomes(s, o1 + o2) == (second.0, first.1 + second.1)
    decreases |o2|
  {
    if o2 == [] {
      assert o1 + o2 == o1;
      assert RunOutcomes(s, o1).1 + [] == RunOutcomes(s, o1).1;
    } else {
      var init, last := o2[..|o2| - 1], o2[|o2| - 1];
      assert o2 == init + [last];
      RunOutcomesConcat(s, o1, init);
      RunOutcomesConcatStep(s, o1, init, last);
    }
  }

  /** The cities' outcomes split where the city list does. */
  lemma OutcomesConcat(useForecast: bool, c1: seq<string>, a1: seq<Attempt>, c2: seq<string>, a2: seq<Attempt>)
    requires |a1| == |c1| && |a2| == |c2|
    ensures Outcomes(useForecast, c1 + c2, a1 + a2) == Outcomes(useForecast, c1, a1) + Outcomes(useForecast, c2, a2)
  {
    var whole := Outcomes(useForecast, c1 + c2, a1 + a2);
    var parts := Outcomes(useForecast, c1, a1) + Outcomes(useForecast, c2, a2);
    forall i | 0 <= i < |whole|
      ensures whole[i] == parts[i]
    {
      if i >= |c1| {
        assert (c1 + c2)[i] == c2[i - |c1|] && (a1 + a2)[i] == a2[i - |a1|];
      }
    }
  }

  /** A failure in the first cities never stops the rest: running two city
      lists one after the other is running their concatenation. */
  lemma RunConcat(useForecast: bool, s: Store, c1: seq<string>, a1: seq<Attempt>,
                  c2: seq<string>, a2: seq<Attempt>)
    requires |a1| == |c1| && |a2| == |c2|
    ensures var first := RunSpec(useForecast, s, c1, a1);
            var second := RunSpec(useForecast, first.0, c2, a2);
            RunSpec(useForecast, s, c1 + c2, a1 + a2) == (second.0, first.1 + second.1)
  {
    OutcomesConcat(useForecast, c1, a1, c2, a2);
    RunOutcomesConcat(s, Outcomes(useForecast, c1, a1), Outcomes(useForecast, c2, a2));
  }

  /** The positions of the outcomes that carry a failure, in order. */
  function FailedIndices(outs: seq<Outcome>): (idx: seq<nat>)
    ensures forall k :: 0 <= k < |idx| ==> idx[k] < |outs| && outs[idx[k]].failure.Some?
    ensures forall k, l :: 0 <= k < l < |idx| ==> idx[k] < idx[l]
    ensures forall i :: 0 <= i < |outs| && outs[i].failure.Some? ==> i in idx
    decreases |outs|
  {
    if outs == [] then []
    else
      var n := |outs| - 1;
      FailedIndices(outs[..n]) + (if outs[n].failure.Some? then [n] else [])
  }

  /** The failures list holds exactly the outcomes' failures, in order,
      whatever the files held. */
  lemma {:induction false} RunOutcomesFailures(s: Store, outs: seq<Outcome>)
    ensures var failures := RunOutcomes(s, outs).1;
            var idx := FailedIndices(outs);
            && |failures| == |idx|
            && forall k :: 0 <= k < |idx| ==> failures[k] == outs[idx[k]].failure.value
    decreases |outs|
  {
    if outs != [] {
      var n := |outs| - 1;
      RunOutcomesFailures(s, outs[..n]);
      var idx := FailedIndices(outs[..n]);
      forall k | 0 <= k < |idx|
        ensures outs[..n][idx[k]] == outs[idx[k]]
      {
      }
    }
  }

  /** Outcomes without failures leave an empty failures list. */
  lemma {:induction false} RunOutcomesNoFailures(s: Store, outs: seq<Outcome>)
    requires forall i :: 0 <= i < |outs| ==> outs[i].failure.None?
    ensures RunOutcomes(s, outs).1 == []
    decreases |outs|
  {
    if outs != [] {
      RunOutcomesNoFailures(s, outs[..|outs| - 1]);
    }
  }

  /** main's failures list holds one (city, message) per city whose try block
      failed, in list order, and names every such city: an exception in one
      city never stops the loop. */
  lemma RunFailures(useForecast: bool, s: Store, cities: seq<string>, attempts: seq<Attempt>)
    requires |attempts| == |cities|
    ensures var failures := RunSpec(useForecast, s, cities, attempts).1;
            var idx := FailedIndices(Outcomes(useForecast, cities, attempts));
            && |failures| == |idx|
            && (forall k :: 0 <= k < |idx| ==>
                  && idx[k] < |cities|
                  && CityError(useForecast, cities[idx[k]], attempts[idx[k]]).Some?
                  && failures[k] == (cities[idx[k]], CityError(useForecast, cities[idx[k]], attempts[idx[k]]).value))
            && (forall i :: 0 <= i < |cities| && CityError(useForecast, cities[i], attempts[i]).Some? ==> i in idx)
  {
    var outs := Outcomes(useForecast, cities, attempts);
    RunOutcomesFailures(s, outs);
    forall i | 0 <= i < |cities|
      ensures outs[i].failure.Some? <==> CityError(useForecast, cities[i], attempts[i]).Some?
      ensures outs[i].failure.Some? ==> outs[i].failure.value == (cities[i], CityError(useForecast, cities[i], attempts[i]).value)
    {
    }
  }

  /** The lines a sequence of outcomes appends, in order. */
  function Lines(outs: seq<Outcome>): seq<Line>
    decreases |outs|
  {
    if outs == [] then []
    else
      var n := |outs| - 1;
      Lines(outs[..n]) + (if outs[n].line.Some? then [outs[n].line.value] else [])
  }

  /** Outcomes within one month append their lines, in order, to that
      month's table, which gets the header first if it is new; no other
      table changes. */
  lemma {:induction false} RunOutcomesSameMonth(s: Store, outs: seq<Outcome>, path: string)
    requires forall i :: 0 <= i < |outs| ==> outs[i].table == path
    ensures var t := RunOutcomes(s, outs).0.tables;
            var lines := Lines(outs);
            && t - {path} == s.tables - {path}
            && (path in s.tables ==> path in t && t[path] == s.tables[path] + lines)
            && (path !in s.tables && lines != [] ==> path in t && t[path] == [HeaderLine()] + lines)
            && (path !in s.tables && lines == [] ==> path !in t)
    decreases |outs|
  {
    if outs != [] {
      var init, last := outs[..|outs| - 1], outs[|outs| - 1];
      assert outs == init + [last];
      RunOutcomesSameMonth(s, init, path);
      RunOutcomesSnoc(s, init, last);
      var before := RunOutcomes(s, init).0.tables;
      var t := RunOutcomes(s, outs).0.tables;
      var prior := Lines(init);
      if last.line.Some? {
        var line := last.line.value;
        assert Lines(outs) == prior + [line];
        assert t == AppendLine(before, path, line);
        assert t - {path} == before - {path};
        if path in s.tables {
          AppendAssoc(s.tables[path], prior, [line]);
        } else if prior != [] {
          AppendAssoc([HeaderLine()], prior, [line]);
        }
      } else {
        assert Lines(outs) == prior + [];
        assert prior + [] == prior;
      }
    }
  }

  /** When every outcome appends a line, the lines are the outcomes' lines,
      one each, in order. */
  lemma {:induction false} LinesAllAppended(outs: seq<Outcome>)
    requires forall i :: 0 <= i < |outs| ==> outs[i].line.Some?
    ensures |Lines(outs)| == |outs|
    ensures forall i :: 0 <= i < |outs| ==> Lines(outs)[i] == outs[i].line.value
    decreases |outs|
  {
    if outs != [] {
      var n := |outs| - 1;
      LinesAllAppended(outs[..n]);
      forall i | 0 <= i < n
        ensures Lines(outs)[i] == outs[i].line.value
      {
        assert outs[..n][i] == outs[i];
      }
    }
  }

  /** In current mode a fetched payload row_from_current accepts is stored:
      its snapshot written, its row appended, no failure. */
  lemma CurrentCityOutcome(city: string, att: Attempt)
    requires att.fetch.Fetched? && Normalizable(att.fetch.payload)
    ensures CityOutcome(false, city, att)
         == Outcome(MonthlyCsvPath(att.clock.table),
                    Some(DataLine(RowFromCurrent(city, att.fetch.payload, att.clock.row).value)),
                    Some((SnapshotPath(city, att.clock.snapshot), att.fetch.payload)),
                    None)
  {
  }

  /** In current mode a payload without "current" (and with a dict or no
      "location") still gives a row, its weather columns None, and no
      failure. */
  lemma CurrentModeWithoutCurrent(city: string, att: Attempt)
    requires att.fetch.Fetched? && att.fetch.payload.Dict?
    requires "current" !in att.fetch.payload.fields
    requires "location" !in att.fetch.payload.fields || att.fetch.payload.fields["location"].Dict?
    ensures CityOutcome(false, city, att).failure.None?
    ensures CityOutcome(false, city, att).line.Some?
    ensures forall i :: 4 <= i < |CSV_HEADERS| ==> CityOutcome(false, city, att).line.value[i] == Null
  {
    var data := att.fetch.payload;
    AbsentCurrentReadsNone(city, data, att.clock.row);
    CurrentCityOutcome(city, att);
  }

  /** In forecast mode a payload dict without "current" is only dumped: no
      row, no failure. */
  lemma ForecastWithoutCurrentSkips(city: string, att: Attempt)
    requires att.fetch.Fetched? && att.fetch.payload.Dict?
    requires "current" !in att.fetch.payload.fields
    ensures CityOutcome(true, city, att)
         == Outcome(MonthlyCsvPath(att.clock.table), None,
                    Some((SnapshotPath(city, att.clock.snapshot), att.fetch.payload)), None)
  {
  }

  /** A month's run in current mode in which every fetch succeeds with a
      payload row_from_current accepts: nothing fails, and the month's table
      gains every city's row, in list order, after the header if the table is
      new; no other table changes. */
  lemma CurrentRunAppendsEveryCity(s: Store, cities: seq<string>, attempts: seq<Attempt>, path: string)
    requires |attempts| == |cities| && cities != []
    requires forall i :: 0 <= i < |cities| ==>
      attempts[i].fetch.Fetched? && Normalizable(attempts[i].fetch.payload)
      && MonthlyCsvPath(attempts[i].clock.table) == path
    ensures var (after, failures) := RunSpec(false, s, cities, attempts);
            var lines := Lines(Outcomes(false, cities, attempts));
      && failures == []
      && after.tables - {path} == s.tables - {path}
      && path in after.tables
      && after.tables[path] == (if path in s.tables then s.tables[path] else [HeaderLine()]) + lines
      && |lines| == |cities|
      && forall i :: 0 <= i < |cities| ==>
           && lines[i] == DataLine(RowFromCurrent(cities[i], attempts[i].fetch.payload, attempts[i].clock.row).value)
           && lines[i][0] == Str(IsoStamp(attempts[i].clock.row))
           && lines[i][1] == Str(cities[i])
  {
    var outs := Outcomes(false, cities, attempts);
    forall i | 0 <= i < |cities|
      ensures outs[i].table == path && outs[i].line.Some? && outs[i].failure.None?
      ensures outs[i].line.value
              == DataLine(RowFromCurrent(cities[i], attempts[i].fetch.payload, attempts[i].clock.row).value)
    {
      CurrentCityOutcome(cities[i], attempts[i]);
    }
    RunOutcomesSameMonth(s, outs, path);
    RunOutcomesNoFailures(s, outs);
    LinesAllAppended(outs);
    var lines := Lines(outs);
    forall i | 0 <= i < |cities|
      ensures lines[i] == DataLine(RowFromCurrent(cities[i], attempts[i].fetch.payload, attempts[i].clock.row).value)
      ensures lines[i][0] == Str(IsoStamp(attempts[i].clock.row))
      ensures lines[i][1] == Str(cities[i])
    {
      RowLineStartsWithStampAndCity(cities[i], attempts[i].fetch.payload, attempts[i].clock.row);
    }
  }

  /** Every table stays well formed through a sequence of outcomes that
      append only data lines: one header at the top, then data lines. */
  lemma {:induction false} RunOutcomesKeepsWellFormed(s: Store, outs: seq<Outcome>)
    requires WellFormedTables(s.tables)
    requires forall i :: 0 <= i < |outs| && outs[i].line.Some? ==>
      outs[i].line.value != HeaderLine() && |outs[i].line.value| == |CSV_HEADERS|
    ensures WellFormedTables(RunOutcomes(s, outs).0.tables)
    decreases |outs|
  {
    if outs != [] {
      var n := |outs| - 1;
      RunOutcomesKeepsWellFormed(s, outs[..n]);
      if outs[n].line.Some? {
        AppendLineKeepsWellFormed(RunOutcomes(s, outs[..n]).0.tables, outs[n].table, outs[n].line.value);
      }
    }
  }

  /** A run never writes the header twice into one table. */
  lemma RunKeepsWellFormed(useForecast: bool, s: Store, cities: seq<string>, attempts: seq<Attempt>)
    requires |attempts| == |cities|
    requires WellFormedTables(s.tables)
    ensures WellFormedTables(RunSpec(useForecast, s, cities, attempts).0.tables)
  {
    var outs := Outcomes(useForecast, cities, attempts);
    forall i | 0 <= i < |outs| && outs[i].line.Some?
      ensures outs[i].line.value != HeaderLine() && |outs[i].line.value| == |CSV_HEADERS|
    {
      var att := attempts[i];
      RowLineIsNotHeader(cities[i], att.fetch.payload, att.clock.row);
    }
    RunOutcomesKeepsWellFormed(s, outs);
  }

  /** No later outcome writes the snapshot outcome i writes. */
  predicate LastToWrite(outs: seq<Outcome>, i: nat)
    requires i < |outs| && outs[i].snapshot.Some?
  {
    forall j :: i < j < |outs| && outs[j].snapshot.Some? ==> outs[j].snapshot.value.0 != outs[i].snapshot.value.0
  }

  /** The snapshot paths a sequence of outcomes writes. */
  function Targets(outs: seq<Outcome>): set<string> {
    set i | 0 <= i < |outs| && outs[i].snapshot.Some? :: outs[i].snapshot.value.0
  }

  /** After a run, each payload sits at its snapshot path unless a later
      outcome overwrote that path. */
  lemma {:induction false} RunOutcomesSnapshots(s: Store, outs: seq<Outcome>)
    ensures var snaps := RunOutcomes(s, outs).0.snapshots;
      forall i :: 0 <= i < |outs| && outs[i].snapshot.Some? && LastToWrite(outs, i) ==>
        outs[i].snapshot.value.0 in snaps && snaps[outs[i].snapshot.value.0] == outs[i].snapshot.value.1
    decreases |outs|
  {
    if outs != [] {
      var n := |outs| - 1;
      var prefix := outs[..n];
      RunOutcomesSnapshots(s, prefix);
      var snaps := RunOutcomes(s, outs).0.snapshots;
      forall i | 0 <= i < |outs| && outs[i].snapshot.Some? && LastToWrite(outs, i)
        ensures outs[i].snapshot.value.0 in snaps && snaps[outs[i].snapshot.value.0] == outs[i].snapshot.value.1
      {
        if i < n {
          assert prefix[i] == outs[i];
          assert LastToWrite(prefix, i) by {
            forall j | i < j < n && prefix[j].snapshot.Some?
              ensures prefix[j].snapshot.value.0 != prefix[i].snapshot.value.0
            {
              assert prefix[j] == outs[j];
            }
          }
        }
      }
    }
  }

  /** A run changes no snapshot outside the paths its outcomes write. */
  lemma {:induction false} RunOutcomesSnapshotsFrame(s: Store, outs: seq<Outcome>)
    ensures var snaps := RunOutcomes(s, outs).0.snapshots;
      forall q :: q !in Targets(outs) ==>
        (q in snaps <==> q in s.snapshots) && (q in snaps ==> snaps[q] == s.snapshots[q])
    decreases |outs|
  {
    if outs != [] {
      var n := |outs| - 1;
      var prefix := outs[..n];
      RunOutcomesSnapshotsFrame(s, prefix);
      var all, prior := Targets(outs), Targets(prefix);
      assert prior <= all by {
        forall q | q in prior
          ensures q in all
        {
          var i :| 0 <= i < n && prefix[i].snapshot.Some? && q == prefix[i].snapshot.value.0;
          assert prefix[i] == outs[i];
        }
      }
      if outs[n].snapshot.Some? {
        assert outs[n].snapshot.value.0 in all;
      }
    }
  }

  /** The character right after "data/raw/" in a snapshot path is the
      city's first character, lower-cased. */
  lemma SnapshotInitial(city: string, t: DateTime)
    requires |city| > 0 && city[0] != ' '
    ensures SnapshotPath(city, t)[9] == LowerChar(city[0])
  {
    SanitizeAt(city, 0);
  }

  /** The first letters of the snapshot names of CITIES, in order. */
  const INITIALS := "cmdbkhpa"

  lemma CityInitials()
    ensures forall k :: 0 <= k < |CITIES| ==>
      |CITIES[k]| > 0 && CITIES[k][0] != ' ' && LowerChar(CITIES[k][0]) == INITIALS[k]
  {
  }

  lemma InitialsDistinct()
    ensures forall k, l :: 0 <= k < l < |INITIALS| ==> INITIALS[k] != INITIALS[l]
  {
  }

  /** The eight cities start with eight different letters, so their
      snapshots never share a path, whatever the clock says. */
  lemma CitySnapshotsDistinct(i: nat, j: nat, t1: DateTime, t2: DateTime)
    requires i < |CITIES| && j < |CITIES| && i != j
    ensures SnapshotPath(CITIES[i], t1) != SnapshotPath(CITIES[j], t2)
  {
    CityInitials();
    InitialsDistinct();
    SnapshotInitial(CITIES[i], t1);
    SnapshotInitial(CITIES[j], t2);
    assert INITIALS[i] != INITIALS[j];
  }

  /** A city's outcome writes a snapshot exactly when its fetch succeeded. */
  lemma OutcomeSnapshot(useForecast: bool, city: string, att: Attempt)
    ensures var o := CityOutcome(useForecast, city, att);
      && (o.snapshot.Some? <==> att.fetch.Fetched?)
      && (o.snapshot.Some? ==> o.snapshot.value == (SnapshotPath(city, att.clock.snapshot), att.fetch.payload))
  {
  }

  /** A run over CITIES leaves every successfully fetched payload in its own
      snapshot, and touches no other snapshot. */
  lemma CitiesSnapshotsKept(useForecast: bool, s: Store, attempts: seq<Attempt>)
    requires |attempts| == |CITIES|
    ensures var snaps := RunSpec(useForecast, s, CITIES, attempts).0.snapshots;
      forall i :: 0 <= i < |CITIES| && attempts[i].fetch.Fetched? ==>
        SnapshotPath(CITIES[i], attempts[i].clock.snapshot) in snaps
        && snaps[SnapshotPath(CITIES[i], attempts[i].clock.snapshot)] == attempts[i].fetch.payload
    ensures var snaps := RunSpec(useForecast, s, CITIES, attempts).0.snapshots;
      forall q :: q !in Targets(Outcomes(useForecast, CITIES, attempts)) ==>
        (q in snaps <==> q in s.snapshots) && (q in snaps ==> snaps[q] == s.snapshots[q])
  {
    var outs := Outcomes(useForecast, CITIES, attempts);
    RunOutcomesSnapshots(s, outs);
    RunOutcomesSnapshotsFrame(s, outs);
    CitiesOutcomeSnapshots(useForecast, attempts);
  }

  /** Over CITIES, each fetched payload's snapshot is the last write to its
      path. */
  lemma CitiesOutcomeSnapshots(useForecast: bool, attempts: seq<Attempt>)
    requires |attempts| == |CITIES|
    ensures var outs := Outcomes(useForecast, CITIES, attempts);
      forall i :: 0 <= i < |CITIES| ==>
        && (outs[i].snapshot.Some? <==> attempts[i].fetch.Fetched?)
        && (outs[i].snapshot.Some? ==>
              && outs[i].snapshot.value == (SnapshotPath(CITIES[i], attempts[i].clock.snapshot), attempts[i].fetch.payload)
              && LastToWrite(outs, i))
  {
    var outs := Outcomes(useForecast, CITIES, attempts);
    forall i | 0 <= i < |CITIES|
      ensures outs[i].snapshot.Some? <==> attempts[i].fetch.Fetched?
      ensures outs[i].snapshot.Some? ==>
        outs[i].snapshot.value == (SnapshotPath(CITIES[i], attempts[i].clock.snapshot), attempts[i].fetch.payload)
    {
      OutcomeSnapshot(useForecast, CITIES[i], attempts[i]);
    }
    forall i | 0 <= i < |CITIES| && outs[i].snapshot.Some?
      ensures LastToWrite(outs, i)
    {
      forall j | i < j < |CITIES| && outs[j].snapshot.Some?
        ensures outs[j].snapshot.value.0 != outs[i].snapshot.value.0
      {
        CitySnapshotsDistinct(i, j, attempts[i].clock.snapshot, attempts[j].clock.snapshot);
      }
    }
  }

  /** write_csv_row(row_from_current(city, data)) on the file store: a
      payload row_from_current accepts is appended as one line; otherwise
      its AttributeError ends the call and no file changes. */
  method WriteRow(store: FileStore, city: string, data: Value, clock: Clock) returns (err: Option<string>)
    modifies store
    ensures Normalizable(data) ==>
      err.None? && store.tables == AppendLine(old(store.tables), MonthlyCsvPath(clock.table),
                                              DataLine(RowFromCurrent(city, data, clock.row).value))
    ensures !Normalizable(data) ==>
      err == Some(RowFromCurrent(city, data, clock.row).error) && store.tables == old(store.tables)
    ensures store.snapshots == old(store.snapshots)
  {
    var row := RowFromCurrent(city, data, clock.row);
    if row.Err? {
      err := Some(row.error);
    } else {
      WriteCsvRowAppends(store.tables, row.value, clock.table);
      err := store.WriteCsvRow(row.value, clock.table);
    }
  }

  /** The try block of main for one city: fetch, dump the snapshot, then
      write the row (in forecast mode only if "current" is in the payload).
      Any exception ends the block with its message. */
  method ProcessCity(store: FileStore, useForecast: bool, city: string, att: Attempt) returns (err: Option<string>)
    modifies store
    ensures store.State() == Apply(old(store.State()), CityOutcome(useForecast, city, att))
    ensures err == CityError(useForecast, city, att)
  {
    match att.fetch {
      case FetchFailed(msg) =>
        err := Some(msg);
      case Fetched(data) =>
        store.DumpRawJson(city, data, att.clock.snapshot);
        if useForecast {
          var hasCurrent := Contains(data, "current");
          if hasCurrent.Err? {
            err := Some(hasCurrent.error);
          } else if hasCurrent.value {
            err := WriteRow(store, city, data, att.clock);
          } else {
            err := None;
          }
        } else {
          err := WriteRow(store, city, data, att.clock);
        }
    }
  }

  /** main: every city in list order, a failure recorded and the loop going
      on to the next city. */
  method Collect(store: FileStore, useForecast: bool, cities: seq<string>, attempts: seq<Attempt>)
    returns (failures: seq<Failure>)
    requires |attempts| == |cities|
    modifies store
    ensures (store.State(), failures) == RunSpec(useForecast, old(store.State()), cities, attempts)
  {
    ghost var initial := store.State();
    ghost var outs := Outcomes(useForecast, cities, attempts);
    failures := [];
    for i := 0 to |cities|
      invariant (store.State(), failures) == RunOutcomes(initial, outs[..i])
    {
      var city := cities[i];
      RunOutcomesStep(initial, outs, i);
      var err := ProcessCity(store, useForecast, city, attempts[i]);
      if err.Some? {
        failures := failures + [(city, err.value)];
      }
      assert failures == RunOutcomes(initial, outs[..i]).1 + FailureList(outs[i]);
    }
    assert outs[..|cities|] == outs;
  }

  /** The whole script: the key check, then main over CITIES. */
  method Script(store: FileStore, env: Option<string>, attempts: seq<Attempt>) returns (outcome: Result<seq<Failure>>)
    requires |attempts| == |CITIES|
    modifies store
    ensures outcome.Err? <==> ApiKey(env).Err?
    ensures outcome.Err? ==> outcome.error == MISSING_KEY_MESSAGE && store.State() == old(store.State())
    ensures outcome.Ok? ==> (store.State(), outcome.value) == RunSpec(USE_FORECAST, old(store.State()), CITIES, attempts)
  {
    var key := ApiKey(env);
    if key.Err? {
      outcome := Err(key.error);
    } else {
      var failures := Collect(store, USE_FORECAST, CITIES, attempts);
      outcome := Ok(failures);
    }
  }
}

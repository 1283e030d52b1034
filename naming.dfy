/** File names: the month-partitioned table (monthly_csv_path) and the raw
    snapshot (the name built in dump_raw_json). */
module Naming {
  import opened Timestamps

  const DATA_DIR := "data"
  const RAW_JSON_DIR := "data/raw"

  /** DATA_DIR / f"weather_india_{now:%Y_%m}.csv" */
  function MonthlyCsvPath(now: DateTime): string {
    DATA_DIR + "/weather_india_" + Pad(now.year, 4) + "_" + Pad(now.month, 2) + ".csv"
  }

  /** The table path has a fixed shape: the prefix, four year digits, an
      underscore, two month digits and ".csv". */
  lemma MonthlyCsvPathShape(now: DateTime)
    requires Valid(now)
    ensures var p := MonthlyCsvPath(now);
      && |p| == 30
      && p[..19] == "data/weather_india_"
      && IsDigits(p[19..23]) && DigitsValue(p[19..23]) == now.year
      && p[23] == '_'
      && IsDigits(p[24..26]) && DigitsValue(p[24..26]) == now.month
      && p[26..] == ".csv"
  {
    var p := MonthlyCsvPath(now);
    assert p[19..23] == Pad(now.year, 4);
    assert p[24..26] == Pad(now.month, 2);
    PadRoundTrip(now.year, 4);
    PadRoundTrip(now.month, 2);
  }

  /** Two readings share a table exactly when they fall in the same UTC year
      and month: a new month starts a new file. */
  lemma MonthlyCsvPathSameIff(a: DateTime, b: DateTime)
    requires Valid(a) && Valid(b)
    ensures MonthlyCsvPath(a) == MonthlyCsvPath(b) <==> a.year == b.year && a.month == b.month
  {
    MonthlyCsvPathShape(a);
    MonthlyCsvPathShape(b);
  }

  /** str.lower() on the ASCII letters. */
  function LowerChar(c: char): char {
    if 'A' <= c <= 'Z' then (c as int - 'A' as int + 'a' as int) as char else c
  }

  /** city.replace(' ', '_').lower(), one character at a time. */
  function Sanitize(city: string): (r: string)
    ensures |r| == |city|
  {
    if city == [] then []
    else [LowerChar(if city[0] == ' ' then '_' else city[0])] + Sanitize(city[1..])
  }

  /** The sanitised name holds no space and no ASCII capital letter. */
  lemma {:induction false} SanitizeClean(city: string)
    ensures forall i :: 0 <= i < |Sanitize(city)| ==>
      Sanitize(city)[i] != ' ' && !('A' <= Sanitize(city)[i] <= 'Z')
  {
    if city != [] {
      SanitizeClean(city[1..]);
    }
  }

  /** Sanitising twice changes nothing more. */
  lemma {:induction false} SanitizeIdempotent(city: string)
    ensures Sanitize(Sanitize(city)) == Sanitize(city)
  {
    if city != [] {
      var r := Sanitize(city);
      SanitizeIdempotent(city[1..]);
      assert r[1..] == Sanitize(city[1..]);
      assert r[0] != ' ' && !('A' <= r[0] <= 'Z');
    }
  }

  /** The sanitised name keeps every other character where it was. */
  lemma {:induction false} SanitizeAt(city: string, i: nat)
    requires i < |city|
    ensures Sanitize(city)[i] == (if city[i] == ' ' then '_' else LowerChar(city[i]))
  {
    if i > 0 {
      SanitizeAt(city[1..], i - 1);
    }
  }

  /** RAW_JSON_DIR / f"{city.replace(' ', '_').lower()}_{ts}.json" */
  function SnapshotPath(city: string, now: DateTime): string {
    RAW_JSON_DIR + "/" + Sanitize(city) + "_" + CompactStamp(now) + ".json"
  }

  /** The second and fourth parts of a five-part concatenation sit at the
      offsets the parts' lengths give. */
  lemma ConcatParts(a: string, b: string, c: string, d: string, e: string)
    ensures var p := a + b + c + d + e;
      && |p| == |a| + |b| + |c| + |d| + |e|
      && p[|a|..|a| + |b|] == b
      && p[|a| + |b| + |c|..|a| + |b| + |c| + |d|] == d
  {
  }

  /** A snapshot path names one sanitised city and one second: two fetches
      overwrite each other's snapshot only if both agree. */
  lemma SnapshotPathInjective(c1: string, t1: DateTime, c2: string, t2: DateTime)
    requires Valid(t1) && Valid(t2)
    requires SnapshotPath(c1, t1) == SnapshotPath(c2, t2)
    ensures Sanitize(c1) == Sanitize(c2) && t1 == t2
  {
    var dir := RAW_JSON_DIR + "/";
    assert |dir| == 9 && |".json"| == 5;
    ConcatParts(dir, Sanitize(c1), "_", CompactStamp(t1), ".json");
    ConcatParts(dir, Sanitize(c2), "_", CompactStamp(t2), ".json");
    var n := |Sanitize(c1)|;
    assert |Sanitize(c2)| == n;
    CompactStampRoundTrip(t1);
    CompactStampRoundTrip(t2);
  }
}

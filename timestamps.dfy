/** UTC clock readings and the two stamp patterns the collector formats them
    with: "%Y-%m-%dT%H:%M:%SZ" for the row timestamp and "%Y%m%dT%H%M%SZ" for
    the snapshot name, each with its parser. The padded fields are also used
    by the monthly table's "%Y_%m", which the Naming module builds. */
module Timestamps {
  import opened Results

  /** One reading of datetime.now(timezone.utc), down to the second (the
      patterns above never print the microseconds). */
  datatype DateTime = DateTime(year: nat, month: nat, day: nat, hour: nat, minute: nat, second: nat)

  predicate IsLeapYear(y: nat) {
    y % 4 == 0 && (y % 100 != 0 || y % 400 == 0)
  }

  function DaysInMonth(y: nat, m: nat): nat {
    if m == 2 then (if IsLeapYear(y) then 29 else 28)
    else if m == 4 || m == 6 || m == 9 || m == 11 then 30
    else 31
  }

  /** The values a Python datetime can hold (MINYEAR 1 to MAXYEAR 9999). */
  predicate Valid(t: DateTime) {
    && 1 <= t.year <= 9999
    && 1 <= t.month <= 12
    && 1 <= t.day <= DaysInMonth(t.year, t.month)
    && t.hour < 24 && t.minute < 60 && t.second < 60
  }

  function Pow10(w: nat): nat {
    if w == 0 then 1 else 10 * Pow10(w - 1)
  }

  predicate IsDigits(s: string) {
    forall i :: 0 <= i < |s| ==> '0' <= s[i] <= '9'
  }

  function DigitChar(d: nat): char
    requires d < 10
  {
    ('0' as int + d) as char
  }

  /** The last `width` decimal digits of n, zero-padded on the left
      (strftime's %m, %d, %H, %M, %S with width 2 and %Y with width 4). */
  function Pad(n: nat, width: nat): (s: string)
    ensures |s| == width && IsDigits(s)
  {
    if width == 0 then "" else Pad(n / 10, width - 1) + [DigitChar(n % 10)]
  }

  /** Reads a string of decimal digits back as a number. */
  function DigitsValue(s: string): nat
    requires IsDigits(s)
  {
    if s == [] then 0 else 10 * DigitsValue(s[..|s| - 1]) + (s[|s| - 1] as int - '0' as int)
  }

  /** Padding loses nothing when the number fits the width. */
  lemma {:induction false} PadRoundTrip(n: nat, width: nat)
    requires n < Pow10(width)
    ensures DigitsValue(Pad(n, width)) == n
  {
    if width > 0 {
      PadRoundTrip(n / 10, width - 1);
      var s := Pad(n, width);
      assert s[..|s| - 1] == Pad(n / 10, width - 1);
    }
  }

  lemma PadInjective(a: nat, b: nat, width: nat)
    requires a < Pow10(width) && b < Pow10(width)
    requires Pad(a, width) == Pad(b, width)
    ensures a == b
  {
    PadRoundTrip(a, width);
    PadRoundTrip(b, width);
  }

  /** ts_utc: strftime("%Y-%m-%dT%H:%M:%SZ"). */
  function IsoStamp(t: DateTime): (s: string)
    ensures |s| == 20
  {
    Pad(t.year, 4) + "-" + Pad(t.month, 2) + "-" + Pad(t.day, 2) + "T" +
    Pad(t.hour, 2) + ":" + Pad(t.minute, 2) + ":" + Pad(t.second, 2) + "Z"
  }

  /** strftime("%Y%m%dT%H%M%SZ"), used in snapshot file names. */
  function CompactStamp(t: DateTime): (s: string)
    ensures |s| == 16
  {
    Pad(t.year, 4) + Pad(t.month, 2) + Pad(t.day, 2) + "T" +
    Pad(t.hour, 2) + Pad(t.minute, 2) + Pad(t.second, 2) + "Z"
  }

  /** The digits of s[lo..hi] as a number, or None if they are not all digits. */
  function NumberAt(s: string, lo: nat, hi: nat): Option<nat>
    requires lo <= hi <= |s|
  {
    if IsDigits(s[lo..hi]) then Some(DigitsValue(s[lo..hi])) else None
  }

  /** Reads back a "YYYY-MM-DDTHH:MM:SSZ" string. */
  function ParseIsoStamp(s: string): Option<DateTime> {
    if |s| != 20 || s[4] != '-' || s[7] != '-' || s[10] != 'T' || s[13] != ':' || s[16] != ':' || s[19] != 'Z'
    then None
    else
      var y, mo, d := NumberAt(s, 0, 4), NumberAt(s, 5, 7), NumberAt(s, 8, 10);
      var h, mi, se := NumberAt(s, 11, 13), NumberAt(s, 14, 16), NumberAt(s, 17, 19);
      if y.None? || mo.None? || d.None? || h.None? || mi.None? || se.None? then None
      else Some(DateTime(y.value, mo.value, d.value, h.value, mi.value, se.value))
  }

  /** Reads back a "YYYYMMDDTHHMMSSZ" string. */
  function ParseCompactStamp(s: string): Option<DateTime> {
    if |s| != 16 || s[8] != 'T' || s[15] != 'Z' then None
    else
      var y, mo, d := NumberAt(s, 0, 4), NumberAt(s, 4, 6), NumberAt(s, 6, 8);
      var h, mi, se := NumberAt(s, 9, 11), NumberAt(s, 11, 13), NumberAt(s, 13, 15);
      if y.None? || mo.None? || d.None? || h.None? || mi.None? || se.None? then None
      else Some(DateTime(y.value, mo.value, d.value, h.value, mi.value, se.value))
  }

  /** Where the fields of the "%Y-%m-%dT%H:%M:%SZ" layout sit. */
  lemma IsoLayout(y: string, mo: string, d: string, h: string, mi: string, se: string)
    requires |y| == 4 && |mo| == 2 && |d| == 2 && |h| == 2 && |mi| == 2 && |se| == 2
    ensures var s := y + "-" + mo + "-" + d + "T" + h + ":" + mi + ":" + se + "Z";
      && |s| == 20
      && s[4] == '-' && s[7] == '-' && s[10] == 'T' && s[13] == ':' && s[16] == ':' && s[19] == 'Z'
      && s[0..4] == y && s[5..7] == mo && s[8..10] == d
      && s[11..13] == h && s[14..16] == mi && s[17..19] == se
  {
    var s := y + "-" + mo + "-" + d + "T" + h + ":" + mi + ":" + se + "Z";
    assert s[0..4] == y;
    assert s[5..7] == mo;
    assert s[8..10] == d;
    assert s[11..13] == h;
    assert s[14..16] == mi;
    assert s[17..19] == se;
  }

  /** Where the fields of the "%Y%m%dT%H%M%SZ" layout sit. */
  lemma CompactLayout(y: string, mo: string, d: string, h: string, mi: string, se: string)
    requires |y| == 4 && |mo| == 2 && |d| == 2 && |h| == 2 && |mi| == 2 && |se| == 2
    ensures var s := y + mo + d + "T" + h + mi + se + "Z";
      && |s| == 16 && s[8] == 'T' && s[15] == 'Z'
      && s[0..4] == y && s[4..6] == mo && s[6..8] == d
      && s[9..11] == h && s[11..13] == mi && s[13..15] == se
  {
    var s := y + mo + d + "T" + h + mi + se + "Z";
    assert s[0..4] == y;
    assert s[4..6] == mo;
    assert s[6..8] == d;
    assert s[9..11] == h;
    assert s[11..13] == mi;
    assert s[13..15] == se;
  }

  /** A padded field inside a stamp reads back as its number. */
  lemma NumberAtPad(s: string, lo: nat, n: nat, width: nat)
    requires lo + width <= |s| && s[lo..lo + width] == Pad(n, width) && n < Pow10(width)
    ensures NumberAt(s, lo, lo + width) == Some(n)
  {
    PadRoundTrip(n, width);
  }

  /** The row timestamp determines the clock reading it was printed from. */
  lemma IsoStampRoundTrip(t: DateTime)
    requires Valid(t)
    ensures ParseIsoStamp(IsoStamp(t)) == Some(t)
  {
    var s := IsoStamp(t);
    IsoLayout(Pad(t.year, 4), Pad(t.month, 2), Pad(t.day, 2), Pad(t.hour, 2), Pad(t.minute, 2), Pad(t.second, 2));
    assert Pow10(4) == 10000 && Pow10(2) == 100;
    NumberAtPad(s, 0, t.year, 4);
    NumberAtPad(s, 5, t.month, 2);
    NumberAtPad(s, 8, t.day, 2);
    NumberAtPad(s, 11, t.hour, 2);
    NumberAtPad(s, 14, t.minute, 2);
    NumberAtPad(s, 17, t.second, 2);
  }

  /** The compact stamp determines the clock reading it was printed from. */
  lemma CompactStampRoundTrip(t: DateTime)
    requires Valid(t)
    ensures ParseCompactStamp(CompactStamp(t)) == Some(t)
  {
    var s := CompactStamp(t);
    CompactLayout(Pad(t.year, 4), Pad(t.month, 2), Pad(t.day, 2), Pad(t.hour, 2), Pad(t.minute, 2), Pad(t.second, 2));
    assert Pow10(4) == 10000 && Pow10(2) == 100;
    NumberAtPad(s, 0, t.year, 4);
    NumberAtPad(s, 4, t.month, 2);
    NumberAtPad(s, 6, t.day, 2);
    NumberAtPad(s, 9, t.hour, 2);
    NumberAtPad(s, 11, t.minute, 2);
    NumberAtPad(s, 13, t.second, 2);
  }

  /** Distinct seconds give distinct row timestamps. */
  lemma IsoStampInjective(a: DateTime, b: DateTime)
    requires Valid(a) && Valid(b)
    ensures IsoStamp(a) == IsoStamp(b) <==> a == b
  {
    IsoStampRoundTrip(a);
    IsoStampRoundTrip(b);
  }
}

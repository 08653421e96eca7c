/**
 * Timestamps: the subset of `datetime.fromisoformat` the model accepts,
 * the inverse formatting (`str(datetime)`), and Python's `<` on datetimes.
 *
 * The accepted subset is `YYYY-MM-DD`, optionally followed by one separator
 * character and `HH:MM`, an optional `:SS` and an optional offset `+HH:MM`
 * or `-HH:MM`. Inside the subset the result is the one
 * `datetime.fromisoformat` gives; outside it the model reports failure.
 */
module IsoDateTime {
  import opened Wrappers
  import opened Text

  /** A datetime without microseconds; `offset` is minutes east of UTC, `None` for a naive value. */
  datatype DateTime = DateTime(year: int, month: int, day: int, hour: int, minute: int, second: int, offset: Option<int>)

  predicate IsLeapYear(y: int) {
    y % 4 == 0 && (y % 100 != 0 || y % 400 == 0)
  }

  function DaysInMonth(y: int, m: int): (n: int)
    requires 1 <= m <= 12
    ensures 28 <= n <= 31
  {
    if m == 2 then (if IsLeapYear(y) then 29 else 28)
    else if m == 4 || m == 6 || m == 9 || m == 11 then 30
    else 31
  }

  /** The field ranges the `datetime` and `timezone` constructors enforce. */
  predicate ValidDate(y: int, m: int, d: int) {
    1 <= y <= 9999 && 1 <= m <= 12 && 1 <= d <= DaysInMonth(y, m)
  }

  predicate ValidTime(h: int, mi: int, sec: int) {
    0 <= h < 24 && 0 <= mi < 60 && 0 <= sec < 60
  }

  predicate Valid(dt: DateTime) {
    && ValidDate(dt.year, dt.month, dt.day)
    && ValidTime(dt.hour, dt.minute, dt.second)
    && (dt.offset.Some? ==> -1440 < dt.offset.value < 1440)
  }

  function DigitValue(c: char): int {
    c as int - '0' as int
  }

  predicate Digits2(s: string, k: nat) {
    k + 2 <= |s| && IsDigit(s[k]) && IsDigit(s[k + 1])
  }

  function Number2(s: string, k: nat): (n: int)
    requires Digits2(s, k)
    ensures 0 <= n < 100
  {
    10 * DigitValue(s[k]) + DigitValue(s[k + 1])
  }

  /** `YYYY-MM-DD` at the start of `s`. */
  predicate DateShape(s: string) {
    |s| >= 10 && Digits2(s, 0) && Digits2(s, 2) && s[4] == '-' && Digits2(s, 5) && s[7] == '-' && Digits2(s, 8)
  }

  /** An offset `+HH:MM` or `-HH:MM` that is all of `t`, in minutes; the `timezone` constructor needs it under a day. */
  function ParseOffset(t: string): (r: Option<int>)
    ensures r.Some? ==> -1440 < r.value < 1440
  {
    if |t| == 6 && (t[0] == '+' || t[0] == '-') && Digits2(t, 1) && t[3] == ':' && Digits2(t, 4) then
      var minutes := 60 * Number2(t, 1) + Number2(t, 4);
      if minutes >= 1440 then None
      else Some(if t[0] == '-' then -minutes else minutes)
    else None
  }

  /** `HH:MM[:SS][(+|-)HH:MM]`, the part after the separator. */
  function ParseTime(t: string): (r: Option<(int, int, int, Option<int>)>)
    ensures r.Some? ==> ValidTime(r.value.0, r.value.1, r.value.2)
    ensures r.Some? && r.value.3.Some? ==> -1440 < r.value.3.value < 1440
  {
    if |t| >= 5 && Digits2(t, 0) && t[2] == ':' && Digits2(t, 3) then
      var h, mi := Number2(t, 0), Number2(t, 3);
      var hasSeconds := |t| >= 8 && t[5] == ':' && Digits2(t, 6);
      var sec := if hasSeconds then Number2(t, 6) else 0;
      var rest := if hasSeconds then t[8..] else t[5..];
      var off := ParseOffset(rest);
      if !ValidTime(h, mi, sec) then None
      else if rest == [] then Some((h, mi, sec, None))
      else if off.Some? then Some((h, mi, sec, off))
      else None
    else None
  }

  /** `datetime.fromisoformat(s)` on the subset; `None` stands for the `ValueError`. */
  function ParseIso(s: string): (r: Option<DateTime>)
    ensures r.Some? ==> Valid(r.value)
    ensures r.Some? ==> DateShape(s)
  {
    if !DateShape(s) then None
    else
      var y := 100 * Number2(s, 0) + Number2(s, 2);
      var m := Number2(s, 5);
      var d := Number2(s, 8);
      if !ValidDate(y, m, d) then None
      else if |s| == 10 then Some(DateTime(y, m, d, 0, 0, 0, None))
      else
        match ParseTime(s[11..])
        case None => None
        case Some((h, mi, sec, off)) => Some(DateTime(y, m, d, h, mi, sec, off))
  }

  // ---------------------------------------------------------------------
  // str(datetime), the inverse of ParseIso on valid values

  function DigitChar(n: int): (c: char)
    requires 0 <= n < 10
    ensures IsDigit(c) && DigitValue(c) == n
  {
    ('0' as int + n) as char
  }

  function Pad2(n: int): (s: string)
    requires 0 <= n < 100
    ensures |s| == 2 && Digits2(s, 0) && Number2(s, 0) == n
  {
    [DigitChar(n / 10), DigitChar(n % 10)]
  }

  function Pad4(n: int): (s: string)
    requires 0 <= n < 10000
    ensures |s| == 4 && Digits2(s, 0) && Digits2(s, 2) && 100 * Number2(s, 0) + Number2(s, 2) == n
  {
    Pad2(n / 100) + Pad2(n % 100)
  }

  function FormatOffset(o: int): (s: string)
    requires -1440 < o < 1440
    ensures ParseOffset(s) == Some(o)
  {
    var a := if o < 0 then -o else o;
    var s := [if o < 0 then '-' else '+'] + Pad2(a / 60) + ":" + Pad2(a % 60);
    assert s[1..3] == Pad2(a / 60) && s[4..] == Pad2(a % 60);
    assert Number2(s, 1) == Number2(Pad2(a / 60), 0);
    assert Number2(s, 4) == Number2(Pad2(a % 60), 0);
    s
  }

  /** `str(dt)`: `YYYY-MM-DD HH:MM:SS`, then the offset for an aware value. */
  function FormatIso(dt: DateTime): string
    requires Valid(dt)
  {
    FormatDate(dt) + " " + FormatTime(dt)
  }

  function FormatDate(dt: DateTime): string
    requires Valid(dt)
  {
    Pad4(dt.year) + "-" + Pad2(dt.month) + "-" + Pad2(dt.day)
  }

  function FormatTime(dt: DateTime): string
    requires Valid(dt)
  {
    Pad2(dt.hour) + ":" + Pad2(dt.minute) + ":" + Pad2(dt.second)
    + (if dt.offset.Some? then FormatOffset(dt.offset.value) else "")
  }

  lemma DateRoundTrip(dt: DateTime)
    requires Valid(dt)
    ensures var d := FormatDate(dt);
      && |d| == 10 && DateShape(d)
      && 100 * Number2(d, 0) + Number2(d, 2) == dt.year && Number2(d, 5) == dt.month && Number2(d, 8) == dt.day
  {
    var d := FormatDate(dt);
    assert d[0..4] == Pad4(dt.year) && d[5..7] == Pad2(dt.month) && d[8..10] == Pad2(dt.day);
    assert Number2(d, 0) == Number2(Pad4(dt.year), 0);
    assert Number2(d, 2) == Number2(Pad4(dt.year), 2);
    assert Number2(d, 5) == Number2(Pad2(dt.month), 0);
    assert Number2(d, 8) == Number2(Pad2(dt.day), 0);
  }

  lemma TimeRoundTrip(dt: DateTime)
    requires Valid(dt)
    ensures ParseTime(FormatTime(dt)) == Some((dt.hour, dt.minute, dt.second, dt.offset))
  {
    var tail := if dt.offset.Some? then FormatOffset(dt.offset.value) else "";
    var t := FormatTime(dt);
    assert t[0..2] == Pad2(dt.hour) && t[3..5] == Pad2(dt.minute) && t[6..8] == Pad2(dt.second);
    assert Number2(t, 0) == Number2(Pad2(dt.hour), 0);
    assert Number2(t, 3) == Number2(Pad2(dt.minute), 0);
    assert Number2(t, 6) == Number2(Pad2(dt.second), 0);
    assert t[8..] == tail;
  }

  /** A date followed by a separator and a time: the date's digits and the time part are read back unchanged. */
  lemma JoinDateTime(d: string, t: string)
    requires |d| == 10 && DateShape(d)
    ensures var s := d + " " + t;
      && DateShape(s) && |s| > 10 && s[11..] == t
      && Number2(s, 0) == Number2(d, 0) && Number2(s, 2) == Number2(d, 2)
      && Number2(s, 5) == Number2(d, 5) && Number2(s, 8) == Number2(d, 8)
  {
    var s := d + " " + t;
    assert s[..10] == d && s[11..] == t;
  }

  /** Parsing what `str` prints gives the value back. */
  lemma ParseFormatRoundTrip(dt: DateTime)
    requires Valid(dt)
    ensures ParseIso(FormatIso(dt)) == Some(dt)
  {
    DateRoundTrip(dt);
    TimeRoundTrip(dt);
    JoinDateTime(FormatDate(dt), FormatTime(dt));
    ParseIsoOfParts(FormatIso(dt), dt);
  }

  /** `ParseIso` reads a date shape and a time part whose fields are those of `dt`. */
  lemma ParseIsoOfParts(s: string, dt: DateTime)
    requires Valid(dt) && DateShape(s) && |s| > 10
    requires 100 * Number2(s, 0) + Number2(s, 2) == dt.year && Number2(s, 5) == dt.month && Number2(s, 8) == dt.day
    requires ParseTime(s[11..]) == Some((dt.hour, dt.minute, dt.second, dt.offset))
    ensures ParseIso(s) == Some(dt)
  {
  }

  // ---------------------------------------------------------------------
  // Python's `<` on datetimes

  function DaysBeforeYear(y: int): int {
    365 * (y - 1) + (y - 1) / 4 - (y - 1) / 100 + (y - 1) / 400
  }

  function DaysBeforeMonth(y: int, m: int): int
    requires 1 <= m <= 12
    decreases m
  {
    if m == 1 then 0 else DaysBeforeMonth(y, m - 1) + DaysInMonth(y, m - 1)
  }

  /** Seconds since 0001-01-01 00:00 UTC for an aware value (naive values count as UTC). */
  function EpochSeconds(dt: DateTime): int
    requires Valid(dt)
  {
    var days := DaysBeforeYear(dt.year) + DaysBeforeMonth(dt.year, dt.month) + dt.day - 1;
    days * 86400 + dt.hour * 3600 + dt.minute * 60 + dt.second
    - (if dt.offset.Some? then dt.offset.value * 60 else 0)
  }

  /** Two datetimes Python can order: both naive or both aware (otherwise `<` raises `TypeError`). */
  predicate Comparable(a: DateTime, b: DateTime) {
    a.offset.None? == b.offset.None?
  }

  /** Field-by-field comparison, as Python orders naive datetimes. */
  predicate FieldsBefore(a: DateTime, b: DateTime) {
    if a.year != b.year then a.year < b.year
    else if a.month != b.month then a.month < b.month
    else if a.day != b.day then a.day < b.day
    else if a.hour != b.hour then a.hour < b.hour
    else if a.minute != b.minute then a.minute < b.minute
    else a.second < b.second
  }

  /** `a < b`: naive values by their fields, aware values by the instant they denote. */
  predicate Before(a: DateTime, b: DateTime)
    requires Valid(a) && Valid(b) && Comparable(a, b)
  {
    if a.offset.None? then FieldsBefore(a, b) else EpochSeconds(a) < EpochSeconds(b)
  }

  /** `<` is irreflexive and asymmetric, so "earlier than a bound" and "later than it" never both hold. */
  lemma BeforeAsymmetric(a: DateTime, b: DateTime)
    requires Valid(a) && Valid(b) && Comparable(a, b)
    ensures !(Before(a, b) && Before(b, a))
    ensures !Before(a, a)
  {
  }
}

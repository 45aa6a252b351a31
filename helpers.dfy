/**
 * Time arithmetic, the conflict test and the two slot generators of
 * `src/utils/helpers.ts`. Times of day are minutes since midnight; the
 * `HH:mm` text form is `FormatTime`/`ParseTime`.
 */
module Helpers {
  import opened Wrappers
  import opened Text
  import opened Seqs
  import opened Types
  import Constants

  const MINUTES_PER_DAY: int := 1440

  // ------------------------------------------------------------- arithmetic

  lemma MulAtLeast(k: int, d: int)
    requires k > 0 && d >= 1
    ensures k * d >= k
  {
  }

  /** Euclidean division is determined by quotient and remainder. */
  lemma DivModUnique(x: int, k: int, q: int, r: int)
    requires k > 0 && 0 <= r < k && x == k * q + r
    ensures x / k == q && x % k == r
  {
    var q', r' := x / k, x % k;
    var d := q - q';
    assert k * d == r' - r by {
      assert k * q - k * q' == k * (q - q');
    }
    if d >= 1 { MulAtLeast(k, d); }
    if d <= -1 { MulAtLeast(k, -d); }
  }

  /** Adding the modulus does not change the remainder. */
  lemma ModShift(x: int, k: int)
    requires k > 0
    ensures (x + k) % k == x % k
  {
    var q := x / k;
    assert x + k == k * (q + 1) + x % k by {
      assert k * (q + 1) == k * q + k;
    }
    DivModUnique(x + k, k, q + 1, x % k);
  }

  lemma HourMinute(hour: int, minute: int)
    requires 0 <= minute < 60
    ensures (hour * 60 + minute) / 60 == hour && (hour * 60 + minute) % 60 == minute
  {
    DivModUnique(hour * 60 + minute, 60, hour, minute);
  }

  // ------------------------------------------------------------ HH:mm text

  function TwoDigits(n: int): (r: string)
    requires 0 <= n < 100
    ensures |r| == 2 && IsDigit(r[0]) && IsDigit(r[1])
    ensures DigitValue(r[0]) * 10 + DigitValue(r[1]) == n
  {
    [DigitChar(n / 10), DigitChar(n % 10)]
  }

  /** `HH:mm`: the hour and the minute, each zero-padded to two digits. */
  function FormatTime(t: int): (r: string)
    requires 0 <= t < MINUTES_PER_DAY
    ensures |r| == 5 && r[2] == ':'
  {
    TwoDigits(t / 60) + ":" + TwoDigits(t % 60)
  }

  /** `const [h, m] = s.split(':').map(Number); h * 60 + m` on an `HH:mm` string. */
  function ParseTime(s: string): (r: Option<int>)
  {
    if |s| == 5 && s[2] == ':' && IsDigit(s[0]) && IsDigit(s[1]) && IsDigit(s[3]) && IsDigit(s[4]) then
      Some((DigitValue(s[0]) * 10 + DigitValue(s[1])) * 60 + DigitValue(s[3]) * 10 + DigitValue(s[4]))
    else
      None
  }

  /** Reading back a formatted time gives the time. */
  lemma TimeRoundTrip(t: int)
    requires 0 <= t < MINUTES_PER_DAY
    ensures ParseTime(FormatTime(t)) == Some(t)
  {
    var s := FormatTime(t);
    assert s[0..2] == TwoDigits(t / 60) && s[3..5] == TwoDigits(t % 60);
    assert DigitValue(s[0]) * 10 + DigitValue(s[1]) == t / 60;
    assert DigitValue(s[3]) * 10 + DigitValue(s[4]) == t % 60;
  }

  /** Formatting a well-formed `HH:mm` string's value gives the string back. */
  lemma FormatParsedTime(s: string)
    requires ParseTime(s).Some?
    requires DigitValue(s[0]) * 10 + DigitValue(s[1]) < 24 && DigitValue(s[3]) < 6
    ensures 0 <= ParseTime(s).value < MINUTES_PER_DAY
    ensures FormatTime(ParseTime(s).value) == s
  {
    var h := DigitValue(s[0]) * 10 + DigitValue(s[1]);
    var m := DigitValue(s[3]) * 10 + DigitValue(s[4]);
    var t := ParseTime(s).value;
    HourMinute(h, m);
    DivModUnique(h, 10, DigitValue(s[0]), DigitValue(s[1]));
    DivModUnique(m, 10, DigitValue(s[3]), DigitValue(s[4]));
    var f := FormatTime(t);
    assert f[0] == s[0] && f[1] == s[1] && f[3] == s[3] && f[4] == s[4];
  }

  lemma TwoDigitsOrder(x: int, y: int)
    requires 0 <= x < 100 && 0 <= y < 100
    ensures LexLess(TwoDigits(x), TwoDigits(y)) <==> x < y
    ensures TwoDigits(x) == TwoDigits(y) <==> x == y
  {
    var a, b := TwoDigits(x), TwoDigits(y);
    assert a[1..] == [a[1]] && b[1..] == [b[1]];
    assert LexLess(a[1..][1..], b[1..][1..]) == false;
  }

  /**
   * Comparing `HH:mm` strings as text orders them as times: this is why the
   * source may sort appointments with `startTime.localeCompare`.
   */
  lemma FormatTimeOrder(a: int, b: int)
    requires 0 <= a < MINUTES_PER_DAY && 0 <= b < MINUTES_PER_DAY
    ensures LexLess(FormatTime(a), FormatTime(b)) <==> a < b
  {
    var ha, ma, hb, mb := TwoDigits(a / 60), TwoDigits(a % 60), TwoDigits(b / 60), TwoDigits(b % 60);
    assert FormatTime(a) == ha + (":" + ma);
    assert FormatTime(b) == hb + (":" + mb);
    LexLessConcat(ha, ":" + ma, hb, ":" + mb);
    LexLessConcat(":", ma, ":", mb);
    TwoDigitsOrder(a / 60, b / 60);
    TwoDigitsOrder(a % 60, b % 60);
    assert !LexLess(":", ":");
  }

  // ---------------------------------------------------------- calculateEndTime

  /**
   * `calculateEndTime` on minutes: the time of day `durationMinutes` after
   * `startTime`, wrapping past midnight.
   */
  function CalculateEndTime(startTime: int, durationMinutes: int): int
  {
    (startTime + durationMinutes) % MINUTES_PER_DAY
  }

  /**
   * The end time is the start plus the duration, up to whole days; a zero
   * duration ends at the start, and a booking that stays within the day ends at
   * start plus duration exactly.
   */
  lemma EndTimeWraps(startTime: int, durationMinutes: int)
    ensures (startTime + durationMinutes - CalculateEndTime(startTime, durationMinutes)) % MINUTES_PER_DAY == 0
    ensures 0 <= startTime + durationMinutes < MINUTES_PER_DAY ==>
      CalculateEndTime(startTime, durationMinutes) == startTime + durationMinutes
  {
    var x := startTime + durationMinutes;
    var r := CalculateEndTime(startTime, durationMinutes);
    DivModUnique(x - r, MINUTES_PER_DAY, x / MINUTES_PER_DAY, 0);
    if 0 <= x < MINUTES_PER_DAY {
      DivModUnique(x, MINUTES_PER_DAY, 0, x);
    }
  }

  /** `calculateEndTime(startTime, durationMinutes)` on the `HH:mm` strings themselves. */
  function CalculateEndTimeText(startTime: string, durationMinutes: int): (r: string)
    requires ParseTime(startTime).Some?
    ensures ParseTime(r) == Some(CalculateEndTime(ParseTime(startTime).value, durationMinutes))
  {
    var e := CalculateEndTime(ParseTime(startTime).value, durationMinutes);
    TimeRoundTrip(e);
    FormatTime(e)
  }

  /** A zero duration ends where it starts. */
  lemma EndTimeOfZeroDuration(s: string)
    requires ParseTime(s).Some?
    requires DigitValue(s[0]) * 10 + DigitValue(s[1]) < 24 && DigitValue(s[3]) < 6
    ensures CalculateEndTimeText(s, 0) == s
  {
    FormatParsedTime(s);
    EndTimeWraps(ParseTime(s).value, 0);
  }

  // --------------------------------------------------------- checkTimeConflict

  /** Half-open intervals `[s1, e1)` and `[s2, e2)` share a minute. */
  predicate IntervalsOverlap(s1: int, e1: int, s2: int, e2: int) {
    s1 < e2 && e1 > s2
  }

  predicate Overlaps(newStart: int, newEnd: int, a: Appointment) {
    IntervalsOverlap(newStart, newEnd, a.startTime, a.endTime)
  }

  /** `checkTimeConflict`: `appointments.some(...)` over the overlap test. */
  function CheckTimeConflict(startTime: int, endTime: int, appointments: seq<Appointment>): bool
  {
    if appointments == [] then false
    else Overlaps(startTime, endTime, appointments[0]) || CheckTimeConflict(startTime, endTime, appointments[1..])
  }

  /** A conflict is reported exactly when some listed appointment overlaps the new interval. */
  lemma {:induction false} CheckTimeConflictSpec(startTime: int, endTime: int, appointments: seq<Appointment>)
    ensures CheckTimeConflict(startTime, endTime, appointments) <==>
      exists i :: 0 <= i < |appointments| && Overlaps(startTime, endTime, appointments[i])
    decreases |appointments|
  {
    if appointments != [] {
      CheckTimeConflictSpec(startTime, endTime, appointments[1..]);
      assert forall i :: 1 <= i < |appointments| ==> appointments[i] == appointments[1..][i - 1];
      if Overlaps(startTime, endTime, appointments[0]) {
        assert 0 < |appointments|;
      }
    }
  }

  /** Overlap does not depend on which interval is the new one. */
  lemma OverlapSymmetric(s1: int, e1: int, s2: int, e2: int)
    ensures IntervalsOverlap(s1, e1, s2, e2) <==> IntervalsOverlap(s2, e2, s1, e1)
  {
  }

  /** Back-to-back bookings are compatible; a shared minute is a conflict. */
  lemma ConflictExamples(a: Appointment)
    requires a.startTime == 600 && a.endTime == 660
    ensures !CheckTimeConflict(540, 600, [a])
    ensures CheckTimeConflict(630, 660, [a])
    ensures !CheckTimeConflict(660, 720, [a])
  {
  }

  /** The appointments of one date, in list order (`appointments.filter(a => a.date === date)`). */
  function OnDate(appointments: seq<Appointment>, date: Date): (r: seq<Appointment>)
    ensures forall a :: a in r <==> a in appointments && a.date == date
  {
    Filter(appointments, (a: Appointment) => a.date == date)
  }

  // ------------------------------------------------------------ formatDuration

  /** `formatDuration`: `N min` under an hour, else `Hh` or `Hh Mmin`. */
  function FormatDuration(minutes: int): (r: string)
    ensures r != []
  {
    if minutes < 60 then IntToString(minutes) + " min"
    else if minutes % 60 == 0 then NatToString(minutes / 60) + "h"
    else NatToString(minutes / 60) + "h " + NatToString(minutes % 60) + "min"
  }

  predicate HasSuffix(s: string, suffix: string) {
    |s| >= |suffix| && s[|s| - |suffix|..] == suffix
  }

  /** `N min`: minutes under an hour. */
  function ParseShortDuration(digits: string): Option<int> {
    match ParseInt(digits)
    case Some(m) => if m < 60 then Some(m) else None
    case None => None
  }

  /** `Hh`: a whole number of hours, at least one. */
  function ParseWholeHours(digits: string): Option<int> {
    match ParseNat(digits)
    case Some(h) => if h >= 1 then Some(h * 60) else None
    case None => None
  }

  /** `Hh Mmin` without its `min`: hours and a remainder of 1 to 59 minutes. */
  function ParseHoursAndMinutes(body: string): Option<int> {
    var k := FindIndex(body, (c: char) => c == 'h');
    if 0 <= k && k + 2 <= |body| && body[k + 1] == ' ' then
      match (ParseNat(body[..k]), ParseNat(body[k + 2..]))
      case (Some(h), Some(m)) => if h >= 1 && 1 <= m < 60 then Some(h * 60 + m) else None
      case _ => None
    else None
  }

  /** Reads back the three shapes `FormatDuration` writes. */
  function ParseDuration(s: string): Option<int> {
    if HasSuffix(s, " min") then ParseShortDuration(s[..|s| - 4])
    else if HasSuffix(s, "h") then ParseWholeHours(s[..|s| - 1])
    else if HasSuffix(s, "min") then ParseHoursAndMinutes(s[..|s| - 3])
    else None
  }

  lemma ShortDurationRoundTrip(minutes: int)
    requires minutes < 60
    ensures ParseDuration(FormatDuration(minutes)) == Some(minutes)
  {
    var s := FormatDuration(minutes);
    assert s == IntToString(minutes) + " min";
    assert HasSuffix(s, " min");
    assert s[..|s| - 4] == IntToString(minutes);
    IntToStringRoundTrip(minutes);
  }

  lemma WholeHoursRoundTrip(minutes: int)
    requires minutes >= 60 && minutes % 60 == 0
    ensures ParseDuration(FormatDuration(minutes)) == Some(minutes)
  {
    var hs := NatToString(minutes / 60);
    var s := FormatDuration(minutes);
    assert s == hs + "h";
    assert s[|s| - 1] == 'h';
    assert !HasSuffix(s, " min");
    assert HasSuffix(s, "h");
    assert s[..|s| - 1] == hs;
    NatToStringRoundTrip(minutes / 60);
    assert minutes / 60 * 60 == minutes;
    assert ParseWholeHours(hs) == Some(minutes);
  }

  lemma HoursAndMinutesBody(hs: string, ms: string, h: nat, m: nat)
    requires ParseNat(hs) == Some(h) && ParseNat(ms) == Some(m)
    ensures ParseHoursAndMinutes(hs + "h " + ms) == if h >= 1 && 1 <= m < 60 then Some(h * 60 + m) else None
  {
    var body := hs + "h " + ms;
    var k := FindIndex(body, (c: char) => c == 'h');
    assert body[|hs|] == 'h';
    assert forall j :: 0 <= j < |hs| ==> body[j] == hs[j];
    assert k == |hs|;
    assert body[..k] == hs;
    assert body[k + 2..] == ms;
  }

  /** A text of the `Hh Mmin` shape is read by `ParseHoursAndMinutes`. */
  lemma HoursAndMinutesShape(hs: string, ms: string)
    requires ms != [] && AllDigits(ms)
    ensures ParseDuration(hs + "h " + ms + "min") == ParseHoursAndMinutes(hs + "h " + ms)
  {
    var s := hs + "h " + ms + "min";
    assert s[|s| - 4] == ms[|ms| - 1];
    assert !HasSuffix(s, " min");
    assert s[|s| - 1] == 'n';
    assert !HasSuffix(s, "h");
    assert HasSuffix(s, "min");
    assert s[..|s| - 3] == hs + "h " + ms;
  }

  /** `Hh Mmin` for at least one hour and 1 to 59 minutes reads back as `h * 60 + m`. */
  lemma HoursAndMinutesText(h: nat, m: nat)
    requires h >= 1 && 1 <= m < 60
    ensures ParseDuration(NatToString(h) + "h " + NatToString(m) + "min") == Some(h * 60 + m)
  {
    var hs, ms := NatToString(h), NatToString(m);
    NatToStringRoundTrip(h);
    NatToStringRoundTrip(m);
    HoursAndMinutesBody(hs, ms, h, m);
    HoursAndMinutesShape(hs, ms);
  }

  lemma HoursAndMinutesRoundTrip(minutes: int)
    requires minutes >= 60 && minutes % 60 != 0
    ensures ParseDuration(FormatDuration(minutes)) == Some(minutes)
  {
    var h, m := minutes / 60, minutes % 60;
    assert h >= 1 && 1 <= m < 60 && h * 60 + m == minutes;
    var s := FormatDuration(minutes);
    assert s == NatToString(h) + "h " + NatToString(m) + "min";
    HoursAndMinutesText(h, m);
    assert ParseDuration(s) == Some(h * 60 + m);
  }

  /** Every duration `FormatDuration` writes reads back as the same number of minutes. */
  lemma DurationRoundTrip(minutes: int)
    ensures ParseDuration(FormatDuration(minutes)) == Some(minutes)
  {
    if minutes < 60 {
      ShortDurationRoundTrip(minutes);
    } else if minutes % 60 == 0 {
      WholeHoursRoundTrip(minutes);
    } else {
      HoursAndMinutesRoundTrip(minutes);
    }
  }
}

/** Interval and time-of-day helpers of the booking backend
    (backend/utils/timeUtils.js). Instants are integers counting
    milliseconds since the epoch, as `Date.prototype.getTime` returns. */
module TimeUtils {
  import opened Wrappers
  import opened JsStrings

  /** 1000 * 60 * 60 milliseconds. */
  const MsPerHour: int := 3600000

  type Weekday = d: int | 0 <= d <= 6
  type MinuteOfDay = m: int | 0 <= m < 1440

  /** How the server renders an instant. `weekday` is `getDay()` and
      `minuteOfDay` is `getHours() * 60 + getMinutes()`, both in the server's
      local time zone; `utcDay` numbers the calendar date of
      `toISOString()`, which is in UTC. They are left abstract because the
      model does not fix a time zone. */
  datatype Calendar = Calendar(
    weekday: int -> Weekday,
    minuteOfDay: int -> MinuteOfDay,
    utcDay: int -> int)

  /** `getDayOfWeek`: 0 = Sunday .. 6 = Saturday, local time. */
  function GetDayOfWeek(cal: Calendar, t: int): Weekday {
    cal.weekday(t)
  }

  // ---------------------------------------------------------------------
  // Overlap, duration, validity
  // ---------------------------------------------------------------------

  /** `checkTimeOverlap`: the half-open ranges [s1, e1) and [s2, e2) overlap. */
  predicate CheckTimeOverlap(s1: int, e1: int, s2: int, e2: int) {
    s1 < e2 && e1 > s2
  }

  /** The instant `t` lies in the half-open range [s, e). */
  predicate Covers(s: int, e: int, t: int) {
    s <= t < e
  }

  /** For non-empty ranges, the overlap test holds exactly when the two
      ranges share an instant. */
  lemma OverlapIffSharedInstant(s1: int, e1: int, s2: int, e2: int)
    requires s1 < e1 && s2 < e2
    ensures CheckTimeOverlap(s1, e1, s2, e2) <==> exists t :: Covers(s1, e1, t) && Covers(s2, e2, t)
  {
    if CheckTimeOverlap(s1, e1, s2, e2) {
      var t := if s1 < s2 then s2 else s1;
      assert Covers(s1, e1, t) && Covers(s2, e2, t);
    }
  }

  lemma OverlapSymmetric(s1: int, e1: int, s2: int, e2: int)
    ensures CheckTimeOverlap(s1, e1, s2, e2) == CheckTimeOverlap(s2, e2, s1, e1)
  {
  }

  /** Ranges that only touch, [a, b) and [b, c), never overlap. */
  lemma TouchingNeverOverlap(a: int, b: int, c: int)
    ensures !CheckTimeOverlap(a, b, b, c) && !CheckTimeOverlap(b, c, a, b)
  {
  }

  /** `calculateDurationInHours`: (end - start) milliseconds, in hours. */
  function CalculateDurationInHours(startTime: int, endTime: int): real {
    (endTime - startTime) as real / MsPerHour as real
  }

  /** `validateTimeRange`: the end is strictly after the start. */
  predicate ValidateTimeRange(startTime: int, endTime: int) {
    endTime > startTime
  }

  /** A range is valid exactly when its duration is positive. */
  lemma ValidIffPositiveDuration(startTime: int, endTime: int)
    ensures ValidateTimeRange(startTime, endTime) <==> CalculateDurationInHours(startTime, endTime) > 0.0
  {
  }

  /** Durations of consecutive ranges add up. */
  lemma DurationsAdd(a: int, b: int, c: int)
    ensures CalculateDurationInHours(a, b) + CalculateDurationInHours(b, c) == CalculateDurationInHours(a, c)
  {
  }

  // ---------------------------------------------------------------------
  // "HH:MM" strings
  // ---------------------------------------------------------------------

  /** `String(n).padStart(2, '0')` for 0 <= n < 100. */
  function Pad2(n: nat): (s: string)
    requires n < 100
    ensures |s| == 2 && AllDigits(s)
  {
    [DigitChar(n / 10), DigitChar(n % 10)]
  }

  /** The "HH:MM" rendering of a minute of the day. */
  function TimeString(m: MinuteOfDay): (s: string)
    ensures |s| == 5 && s[2] == ':'
    ensures AllDigits(s[..2]) && AllDigits(s[3..])
  {
    var s := Pad2(m / 60) + ":" + Pad2(m % 60);
    assert s[..2] == Pad2(m / 60) && s[3..] == Pad2(m % 60);
    s
  }

  /** `getTimeString`: the local "HH:MM" of an instant. The same string is
      what `toTimeString().slice(0, 5)` yields. */
  function GetTimeString(cal: Calendar, t: int): string {
    TimeString(cal.minuteOfDay(t))
  }

  /** Minutes since midnight of an "H:M" string as `isTimeInRange` reads it:
      split on ':', `Number` of the first two pieces, `hour * 60 + minute`.
      A missing or non-numeric piece makes the result NaN (`None`). */
  function Minutes(s: string): Option<int> {
    var parts := Split(s, ':');
    var hour := ToNumber(parts[0]);
    var minute := if |parts| >= 2 then ToNumber(parts[1]) else None;
    if hour.Some? && minute.Some? then Some(hour.value * 60 + minute.value) else None
  }

  /** `isTimeInRange`: start bound inclusive, end bound exclusive; any NaN
      makes both comparisons, and so the result, false. */
  predicate IsTimeInRange(timeString: string, rangeStart: string, rangeEnd: string) {
    var t := Minutes(timeString);
    var lo := Minutes(rangeStart);
    var hi := Minutes(rangeEnd);
    t.Some? && lo.Some? && hi.Some? && t.value >= lo.value && t.value < hi.value
  }

  lemma Pad2Value(n: nat)
    requires n < 100
    ensures ToNumber(Pad2(n)) == Some(n)
  {
    var s := Pad2(n);
    assert s[..1][..0] == [];
    assert s[..1] == [DigitChar(n / 10)];
    assert s[..|s| - 1] == s[..1];
    assert DigitsValue(s[..1]) == n / 10;
  }

  lemma SplitTimeString(m: MinuteOfDay)
    ensures Split(TimeString(m), ':') == [Pad2(m / 60), Pad2(m % 60)]
  {
    var s := TimeString(m);
    var h, mi := Pad2(m / 60), Pad2(m % 60);
    assert s[..2] == h && s[3..] == mi;
    assert IsDigit(s[0]) && IsDigit(s[1]) && IsDigit(s[3..][0]) && IsDigit(s[3..][1]);
    assert s[0] != ':' && s[1] != ':' && s[3] != ':' && s[4] != ':';
    assert [s[4]] + "" == s[4..];
    assert [s[3]] + s[4..] == s[3..];
    assert s[4..][1..] == [];
    assert Split(s[4..], ':') == [s[4..]];
    assert s[3..][1..] == s[4..];
    assert Split(s[3..], ':') == [s[3..]];
    assert s[2..][1..] == s[3..];
    assert Split(s[2..], ':') == ["", mi];
    assert s[1..][1..] == s[2..];
    assert s[1..][0] == s[1] && [s[1]] + "" == [s[1]];
    assert Split(s[1..], ':') == [[s[1]] + ""] + ["", mi][1..];
    assert Split(s[1..], ':') == [[s[1]], mi];
    assert Split(s, ':') == [[s[0]] + [s[1]]] + [[s[1]], mi][1..];
    assert [s[0]] + [s[1]] == h;
  }

  /** Splitting a rendered "HH:MM" on ':' as `isTimeInRange` does recovers the
      hour and minute it was made from. */
  lemma MinutesOfTimeString(m: MinuteOfDay)
    ensures Minutes(TimeString(m)) == Some(m)
  {
    SplitTimeString(m);
    Pad2Value(m / 60);
    Pad2Value(m % 60);
  }

  /** On rendered times, `isTimeInRange` is the half-open test on minutes. */
  lemma TimeInRangeOfTimeStrings(x: MinuteOfDay, a: MinuteOfDay, b: MinuteOfDay)
    ensures IsTimeInRange(TimeString(x), TimeString(a), TimeString(b)) <==> a <= x < b
  {
    MinutesOfTimeString(x);
    MinutesOfTimeString(a);
    MinutesOfTimeString(b);
  }

  lemma {:induction false} StrLtCommonPrefix(p: string, r1: string, r2: string)
    ensures StrLt(p + r1, p + r2) == StrLt(r1, r2)
    decreases |p|
  {
    if |p| == 0 {
      assert p + r1 == r1 && p + r2 == r2;
    } else {
      assert (p + r1)[0] == p[0] == (p + r2)[0];
      assert (p + r1)[1..] == p[1..] + r1;
      assert (p + r2)[1..] == p[1..] + r2;
      StrLtCommonPrefix(p[1..], r1, r2);
    }
  }

  lemma Pad2Order(x: nat, y: nat, r1: string, r2: string)
    requires x < 100 && y < 100 && x != y
    ensures StrLt(Pad2(x) + r1, Pad2(y) + r2) == (x < y)
  {
    var a, b := Pad2(x) + r1, Pad2(y) + r2;
    if x / 10 == y / 10 {
      assert a[1..][0] == DigitChar(x % 10) && b[1..][0] == DigitChar(y % 10);
      assert StrLt(a, b) == StrLt(a[1..], b[1..]);
    }
  }

  /** JavaScript string order on rendered times is the order of the minutes
      they stand for, so comparing "HH:MM" strings compares minutes. */
  lemma TimeStringOrder(a: MinuteOfDay, b: MinuteOfDay)
    ensures StrLt(TimeString(a), TimeString(b)) <==> a < b
  {
    var ha, ma, hb, mb := a / 60, a % 60, b / 60, b % 60;
    assert TimeString(a) == Pad2(ha) + (":" + Pad2(ma));
    assert TimeString(b) == Pad2(hb) + (":" + Pad2(mb));
    if ha != hb {
      Pad2Order(ha, hb, ":" + Pad2(ma), ":" + Pad2(mb));
    } else {
      StrLtCommonPrefix(Pad2(ha) + ":", Pad2(ma), Pad2(mb));
      assert TimeString(a) == (Pad2(ha) + ":") + Pad2(ma);
      assert TimeString(b) == (Pad2(ha) + ":") + Pad2(mb);
      if ma != mb {
        Pad2Order(ma, mb, "", "");
        assert Pad2(ma) + "" == Pad2(ma) && Pad2(mb) + "" == Pad2(mb);
      } else {
        StrLtStrict(TimeString(a), TimeString(a));
      }
    }
  }
}

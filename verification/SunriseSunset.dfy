/** Sunrise and sunset turned into a night schedule (sunrise_sunset_calc.cpp); the two UTC instants
    of the astronomical calculation are inputs. */
module SunriseSunset {
  import opened Decimal
  import opened Schedule

  const MINS_PER_DAY := 1440

  /** round(): to the nearest integer, halves away from zero. */
  function Round(x: real): int { if x >= 0.0 then (x + 0.5).Floor else -(-x + 0.5).Floor }

  function Trunc(x: real): int { if x >= 0.0 then x.Floor else -(-x).Floor }

  /** fmod(x, SECS_PER_DAY): the remainder has the sign of the dividend. */
  function FmodDay(x: real): real { x - Trunc(x / 86400.0) as real * 86400.0 }

  /** C++ remainder, with the sign of the dividend. */
  function Rem(a: int, b: int): int
    requires b > 0
  {
    if a >= 0 then a % b else -(-a % b)
  }

  function NormalizeRoundedMinutes(seconds: real): (r: int)
    ensures 0 <= r < MINS_PER_DAY
  {
    Rem(Rem(Round(seconds / 60.0), MINS_PER_DAY) + MINS_PER_DAY, MINS_PER_DAY)
  }

  /** A sunrise earlier on the clock than the sunset belongs to the next day. */
  function NextSunrise(sunrise: int, sunset: int): int {
    if sunrise < sunset then sunrise + MINS_PER_DAY else sunrise
  }

  predicate BetweenSunriseAndSunset(sunrise: int, sunset: int, minute: int) {
    if sunrise < sunset then sunrise <= minute < sunset else minute >= sunrise || minute < sunset
  }

  datatype SunCondition = NORMAL | POLAR_DAY | POLAR_NIGHT

  datatype SunriseSunsetInfo = SunriseSunsetInfo(
    sunrise: real, sunset: real, timezoneOffset: int, condition: SunCondition)
  {
    function ToLocalMinutes(utcSec: real): (r: int)
      ensures 0 <= r < MINS_PER_DAY
    {
      var localSec := utcSec - (timezoneOffset * 60) as real;
      NormalizeRoundedMinutes(FmodDay(FmodDay(localSec) + 86400.0))
    }

    predicate IsDaytime(currentMinutes: int) {
      match condition
      case POLAR_DAY => true
      case POLAR_NIGHT => false
      case NORMAL =>
        BetweenSunriseAndSunset(ToLocalMinutes(sunrise), ToLocalMinutes(sunset), currentMinutes)
    }

    function GetDayLength(): int {
      if condition != NORMAL then -1
      else Rem(ToLocalMinutes(sunset) - ToLocalMinutes(sunrise) + MINS_PER_DAY, MINS_PER_DAY)
    }

    function GetSunsetStr(): string {
      if condition != NORMAL then "" else ToString(ToLocalMinutes(sunset))
    }

    function GetSunriseStr(): string {
      if condition != NORMAL then ""
      else ToString(NextSunrise(ToLocalMinutes(sunrise), ToLocalMinutes(sunset)))
    }

    /** The pair ApplySunriseSunsetTimes parses back and stores; nothing in the polar cases. */
    function SchedulePair(): Option<(int, int)> {
      if GetSunsetStr() == "" || GetSunriseStr() == "" then None
      else
        match (LeadingInteger(GetSunsetStr()), LeadingInteger(GetSunriseStr()))
        case (Some(s), Some(r)) => Some((s, r))
        case _ => None
    }
  }

  // ---------- rounding ----------

  lemma FmodOfWhole(n: int)
    ensures FmodDay(n as real) == Rem(n, 86400) as real
  {
    var a := if n >= 0 then n else -n;
    var q, r := a / 86400, a % 86400;
    assert a as real / 86400.0 == q as real + r as real / 86400.0;
    assert 0.0 <= r as real / 86400.0 < 1.0;
    assert (a as real / 86400.0).Floor == q;
  }

  /** Half a minute either way; of two minutes equally near the later one. */
  predicate NearestMinute(seconds: real, k: int) { -30.0 <= seconds - (60 * k) as real < 30.0 }

  /** The minute r of some day is the one nearest to the instant. */
  ghost predicate NearestOfDay(seconds: real, r: int) {
    exists k :: NearestMinute(seconds, k) && k % MINS_PER_DAY == r
  }

  predicate NearestMinuteAwayFromZero(seconds: real, k: int) {
    if seconds >= 0.0 then NearestMinute(seconds, k) else NearestMinute(-seconds, -k)
  }

  /** Rounding takes the nearest integer, and of two equally near the one away from zero. */
  lemma RoundIsNearest(x: real)
    ensures x >= 0.0 ==> -0.5 <= x - Round(x) as real < 0.5
    ensures x < 0.0 ==> -0.5 < x - Round(x) as real <= 0.5
  {
  }

  /** The minute of the day is the one nearest to the instant, in whatever day that is; half a minute goes away
      from zero. */
  lemma NormalizedIsNearest(seconds: real)
    ensures exists k :: NearestMinuteAwayFromZero(seconds, k) && k % MINS_PER_DAY == NormalizeRoundedMinutes(seconds)
  {
    var k := Round(seconds / 60.0);
    RoundIsNearest(seconds / 60.0);
    RemTwiceIsModMinutes(k);
    assert seconds == seconds / 60.0 * 60.0;
    assert NearestMinuteAwayFromZero(seconds, k);
  }

  lemma FmodIsRemainder(x: real)
    ensures x >= 0.0 ==> 0.0 <= FmodDay(x) < 86400.0
    ensures x < 0.0 ==> -86400.0 < FmodDay(x) <= 0.0
  {
    var y := x / 86400.0;
    assert x == y * 86400.0;
  }

  /** For every instant, the local minute of the day is the one nearest to the local time. */
  lemma LocalMinuteIsNearest(info: SunriseSunsetInfo, utcSec: real)
    ensures NearestOfDay(utcSec - (info.timezoneOffset * 60) as real, info.ToLocalMinutes(utcSec))
  {
    var localSec := utcSec - (info.timezoneOffset * 60) as real;
    var first := FmodDay(localSec);
    var day := FmodDay(first + 86400.0);
    FmodIsRemainder(localSec);
    FmodIsRemainder(first + 86400.0);
    NormalizedIsNearest(day);
    var k :| NearestMinuteAwayFromZero(day, k) && k % MINS_PER_DAY == NormalizeRoundedMinutes(day);
    var days := Trunc(localSec / 86400.0) + Trunc((first + 86400.0) / 86400.0) - 1;
    assert localSec == day + days as real * 86400.0;
    var n := k + days * MINS_PER_DAY;
    assert n % MINS_PER_DAY == k % MINS_PER_DAY;
    assert (60 * n) as real == (60 * k) as real + days as real * 86400.0;
    assert NearestMinute(localSec, n);
    assert info.ToLocalMinutes(utcSec) == NormalizeRoundedMinutes(day);
    assert n % MINS_PER_DAY == info.ToLocalMinutes(utcSec);
  }

  lemma RemTwiceIsModDay(n: int)
    ensures Rem(Rem(n, 86400) + 86400, 86400) == n % 86400
  {
    if n < 0 {
      var q, r := -n / 86400, -n % 86400;
      assert n == 86400 * (-q - 1) + (86400 - r);
    }
  }

  lemma RemTwiceIsModMinutes(n: int)
    ensures Rem(Rem(n, 1440) + 1440, 1440) == n % 1440
  {
    if n < 0 {
      var q, r := -n / 1440, -n % 1440;
      assert n == 1440 * (-q - 1) + (1440 - r);
    }
  }

  lemma SecondsOfMinutes(local: int)
    ensures (local * 60) % 86400 == (local % 1440) * 60
  {
    assert local * 60 == 86400 * (local / 1440) + (local % 1440) * 60;
  }

  /** A whole UTC minute shifts by the zone offset and wraps at midnight, with no rounding error. */
  lemma WholeMinuteIsExact(info: SunriseSunsetInfo, utcMinute: int)
    ensures info.ToLocalMinutes((utcMinute * 60) as real) == (utcMinute - info.timezoneOffset) % MINS_PER_DAY
  {
    var local := utcMinute - info.timezoneOffset;
    var sec := local * 60;
    assert (utcMinute * 60) as real - (info.timezoneOffset * 60) as real == sec as real;
    FmodOfWhole(sec);
    FmodOfWhole(Rem(sec, 86400) + 86400);
    RemTwiceIsModDay(sec);
    SecondsOfMinutes(local);
    var minute := local % 1440;
    assert ((minute * 60) as real) / 60.0 == minute as real;
    assert NormalizeRoundedMinutes((minute * 60) as real) == minute by {
      assert Round(minute as real) == minute;
      RemTwiceIsModMinutes(minute);
    }
  }

  // ---------- the schedule ----------

  lemma PairIsPrintedAndParsed(info: SunriseSunsetInfo)
    ensures info.condition != NORMAL ==> info.SchedulePair() == None
    ensures info.condition == NORMAL ==>
              var s, r := info.ToLocalMinutes(info.sunset), info.ToLocalMinutes(info.sunrise);
              info.SchedulePair() == Some((s, NextSunrise(r, s)))
  {
    if info.condition == NORMAL {
      var s, r := info.ToLocalMinutes(info.sunset), info.ToLocalMinutes(info.sunrise);
      LeadingIntegerInvertsToString(s);
      LeadingIntegerInvertsToString(NextSunrise(r, s));
    }
  }

  /** The stored sunrise follows the stored sunset, on the next day where it is earlier on the clock, unless both
      fall on one minute. */
  lemma SunriseFollowsSunset(info: SunriseSunsetInfo)
    requires info.condition == NORMAL
    ensures
      var s, r := info.ToLocalMinutes(info.sunset), info.ToLocalMinutes(info.sunrise);
      && info.SchedulePair().Some?
      && info.SchedulePair().value == (s, if r < s then r + 24 * 60 else r)
      && (info.SchedulePair().value.0 == info.SchedulePair().value.1 <==> r == s)
      && (r == s ==> info.GetDayLength() == 0 && forall minute :: 0 <= minute < 24 * 60 ==> info.IsDaytime(minute))
  {
    PairIsPrintedAndParsed(info);
  }

  lemma NightComplementsDay(sunrise: int, sunset: int, minute: int)
    requires 0 <= sunrise < MINS_PER_DAY && 0 <= sunset < MINS_PER_DAY && 0 <= minute < MINS_PER_DAY
    ensures IsValidScheduleTime(sunset, NextSunrise(sunrise, sunset)) <==> sunrise != sunset
    ensures sunrise != sunset ==>
              (IsWithinTimeInterval(sunset, NextSunrise(sunrise, sunset), minute)
               <==> !BetweenSunriseAndSunset(sunrise, sunset, minute))
    ensures sunrise != sunset ==>
              NextSunrise(sunrise, sunset) - sunset + Rem(sunset - sunrise + MINS_PER_DAY, MINS_PER_DAY) == MINS_PER_DAY
  {
    ValidScheduleBounds(sunset, NextSunrise(sunrise, sunset));
  }

  /** The local minutes of the sun make a night that complements the day. */
  lemma LocalNightComplementsDay(info: SunriseSunsetInfo, s: int, r: int)
    requires info.condition == NORMAL
    requires s == info.ToLocalMinutes(info.sunset) && r == info.ToLocalMinutes(info.sunrise)
    ensures IsValidScheduleTime(s, NextSunrise(r, s)) <==> r != s
    ensures forall minute | 0 <= minute < MINS_PER_DAY && r != s ::
              IsWithinTimeInterval(s, NextSunrise(r, s), minute) <==> !info.IsDaytime(minute)
    ensures r != s ==> NextSunrise(r, s) - s + info.GetDayLength() == MINS_PER_DAY
  {
    forall minute | 0 <= minute < MINS_PER_DAY && r != s
      ensures IsWithinTimeInterval(s, NextSunrise(r, s), minute) <==> !info.IsDaytime(minute)
    {
      NightComplementsDay(r, s, minute);
    }
    NightComplementsDay(r, s, 0);
  }

  /** The stored pair is a valid schedule exactly when the two local minutes differ; then its dark
      interval is the complement of daytime, and night and day add up to 24 hours. */
  lemma NightScheduleComplementsDaytime(info: SunriseSunsetInfo)
    requires info.condition == NORMAL
    ensures info.SchedulePair().Some?
    ensures
      var (start, end) := info.SchedulePair().value;
      && 0 <= start && 0 <= end
      && (IsValidScheduleTime(start, end) <==> info.ToLocalMinutes(info.sunrise) != info.ToLocalMinutes(info.sunset))
      && (IsValidScheduleTime(start, end) ==>
            && (forall minute :: 0 <= minute < MINS_PER_DAY ==>
                  (IsWithinTimeInterval(start, end, minute) <==> !info.IsDaytime(minute)))
            && end - start + info.GetDayLength() == MINS_PER_DAY)
  {
    PairIsPrintedAndParsed(info);
    LocalNightComplementsDay(info, info.ToLocalMinutes(info.sunset), info.ToLocalMinutes(info.sunrise));
  }

  /** Where the sun does not rise or does not set there is no pair and no day length, and it is day or night all
      the time. */
  lemma PolarDaysHaveNoPair(info: SunriseSunsetInfo, minute: int)
    requires info.condition != NORMAL
    ensures info.SchedulePair() == None && info.GetDayLength() == -1
    ensures info.IsDaytime(minute) <==> info.condition == POLAR_DAY
  {
  }
}

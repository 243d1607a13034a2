/** Daily schedules that may cross midnight: validation, the membership test, the next trigger
    instants and the check a timer callback makes (alarm_timer_manager.cpp, dark_mode_manager.cpp). */
module Schedule {
  import opened Decimal

  const DAY_TO_SECOND := 24 * 60 * 60
  const DAY_TO_MINUTE := 24 * 60
  const SECOND_TO_MILLI := 1000
  const MINUTE_TO_SECOND := 60
  const OFFSET_SECONDS := 5
  const I64_MAX := 0x7FFF_FFFF_FFFF_FFFF
  /** One day in milliseconds, the repeat interval of every timer. */
  const STEP := DAY_TO_SECOND * SECOND_TO_MILLI

  type SecondOfDay = s: int | 0 <= s < DAY_TO_SECOND

  /** The local wall clock: the timestamp of the last local midnight and the second of the day. */
  datatype Clock = Clock(midnight: int, second: SecondOfDay) {
    function Time(): int { midnight + second }

    function Minute(): nat { second / MINUTE_TO_SECOND }

    /** The range in which std::time and its product with 1000 are exact, from the epoch on. */
    predicate Representable() {
      0 <= midnight && (midnight + 3 * DAY_TO_SECOND) * SECOND_TO_MILLI <= I64_MAX
    }
  }

  /** Second of the day at timestamp t, where zone is the timestamp of any local midnight. */
  function Phase(zone: int, t: int): SecondOfDay { (t - zone) % DAY_TO_SECOND }

  function ClockAt(zone: int, t: int): Clock { Clock(t - Phase(zone, t), Phase(zone, t)) }

  /** Conversion to uint64_t, which wraps. */
  function ToU64(x: int): nat { x % U64 }

  predicate IsValidScheduleTime(start: nat, end: nat) {
    start < end && start < DAY_TO_MINUTE && end < ToU64(DAY_TO_MINUTE + start)
  }

  predicate IsWithinTimeInterval(start: nat, end: nat, minute: nat) {
    if end <= DAY_TO_MINUTE then
      start <= minute < end
    else
      !(end - DAY_TO_MINUTE <= minute < start)
  }

  /** SetTimerTriggerTime: the start and end trigger in milliseconds, in uint64_t arithmetic. */
  function TriggerTimes(start: nat, end: nat, now: Clock): (nat, nat) {
    var current := ToU64(now.Time() * SECOND_TO_MILLI);
    var zero := ToU64(now.midnight * SECOND_TO_MILLI);
    var startTime := ToU64(zero + start * MINUTE_TO_SECOND * SECOND_TO_MILLI);
    var endTime := ToU64(zero + end * MINUTE_TO_SECOND * SECOND_TO_MILLI);
    Triggers(current, startTime, endTime)
  }

  function Triggers(current: nat, startTime: nat, endTime: nat): (nat, nat) {
    if current <= startTime then
      if current < ToU64(endTime - STEP) then
        (startTime, ToU64(endTime - STEP))
      else
        (startTime, endTime)
    else if current >= endTime then
      (ToU64(startTime + STEP), ToU64(endTime + STEP))
    else
      (ToU64(startTime + STEP), endTime)
  }

  /** The check a timer callback makes, on seconds and with the five-second allowance. */
  predicate CheckCurrentTimeInDarkInterval(start: int, end: int, seconds: int) {
    if end <= DAY_TO_MINUTE then
      start * MINUTE_TO_SECOND - OFFSET_SECONDS < seconds < end * MINUTE_TO_SECOND - OFFSET_SECONDS
    else
      || seconds < (end - DAY_TO_MINUTE) * MINUTE_TO_SECOND - OFFSET_SECONDS
      || seconds > start * MINUTE_TO_SECOND - OFFSET_SECONDS
  }

  /** The minute of the day at which the dark interval ends. */
  function EndOfDay(end: nat): nat { if end <= DAY_TO_MINUTE then end else end - DAY_TO_MINUTE }

  // ---------- triggers ----------

  /** t is a daily occurrence of the minute `boundary` of the clock's day. */
  predicate Occurs(now: Clock, boundary: nat, t: int) {
    (t - (now.midnight + boundary * MINUTE_TO_SECOND) * SECOND_TO_MILLI) % STEP == 0
  }

  predicate NextFrom(now: Clock, boundary: nat, t: int) {
    var current := now.Time() * SECOND_TO_MILLI;
    Occurs(now, boundary, t) && current <= t < current + STEP
  }

  predicate NextAfter(now: Clock, boundary: nat, t: int) {
    var current := now.Time() * SECOND_TO_MILLI;
    Occurs(now, boundary, t) && current < t <= current + STEP
  }

  /** `endTime - STEP` does not wrap in the branch that computes it. */
  predicate NoWrap(start: nat, end: nat, now: Clock) {
    now.second > start * MINUTE_TO_SECOND || now.midnight + end * MINUTE_TO_SECOND >= DAY_TO_SECOND
  }

  lemma MultipleInWindow(x: int, y: int)
    requires (x - y) % STEP == 0 && -STEP < x - y < STEP
    ensures x == y
  {
  }

  lemma NextOccurrenceIsUnique(now: Clock, boundary: nat, t: int, u: int)
    ensures NextFrom(now, boundary, t) && NextFrom(now, boundary, u) ==> t == u
    ensures NextAfter(now, boundary, t) && NextAfter(now, boundary, u) ==> t == u
  {
    var phase := (now.midnight + boundary * MINUTE_TO_SECOND) * SECOND_TO_MILLI;
    if Occurs(now, boundary, t) && Occurs(now, boundary, u) {
      assert t - u == ((t - phase) / STEP - (u - phase) / STEP) * STEP;
      if -STEP < t - u < STEP {
        MultipleInWindow(t, u);
      }
    }
  }

  lemma NoWrapInRange(x: int)
    requires -U64 <= x < U64
    ensures ToU64(x) == if x < 0 then x + U64 else x
  {
  }

  lemma ValidScheduleBounds(start: nat, end: nat)
    ensures IsValidScheduleTime(start, end) <==> start < DAY_TO_MINUTE && start < end < DAY_TO_MINUTE + start
  {
    if start < DAY_TO_MINUTE {
      NoWrapInRange(DAY_TO_MINUTE + start);
    }
  }

  /** The two triggers without the machine arithmetic. */
  lemma TriggersInSeconds(start: nat, end: nat, now: Clock)
    requires IsValidScheduleTime(start, end) && now.Representable()
    ensures
      var s := (now.midnight + start * MINUTE_TO_SECOND) * SECOND_TO_MILLI;
      var e := (now.midnight + end * MINUTE_TO_SECOND) * SECOND_TO_MILLI;
      var tr := TriggerTimes(start, end, now);
      && (now.second <= start * MINUTE_TO_SECOND ==>
        && tr.0 == s
        && (e >= STEP ==> tr.1 == if now.Time() * SECOND_TO_MILLI < e - STEP then e - STEP else e)
        && (e < STEP ==> tr.1 == e - STEP + U64))
      && (now.second > start * MINUTE_TO_SECOND ==>
        tr == (s + STEP, if now.second >= end * MINUTE_TO_SECOND then e + STEP else e))
  {
    var c := now.Time() * SECOND_TO_MILLI;
    var s := (now.midnight + start * MINUTE_TO_SECOND) * SECOND_TO_MILLI;
    var e := (now.midnight + end * MINUTE_TO_SECOND) * SECOND_TO_MILLI;
    ValidScheduleBounds(start, end);
    assert TriggerTimes(start, end, now) == Triggers(c, s, e) by {
      NoWrapInRange(c);
      NoWrapInRange(now.midnight * SECOND_TO_MILLI);
      NoWrapInRange(s);
      NoWrapInRange(e);
    }
    NoWrapInRange(e - STEP);
    NoWrapInRange(s + STEP);
    NoWrapInRange(e + STEP);
  }

  /** Each trigger is the next daily occurrence of its minute, unless the end instant lies in the
      first day of the epoch and the unsigned subtraction wraps. */
  lemma TriggersAreNextOccurrences(start: nat, end: nat, now: Clock)
    requires IsValidScheduleTime(start, end) && now.Representable()
    ensures
      var tr := TriggerTimes(start, end, now);
      NextFrom(now, start, tr.0) && NextAfter(now, end, tr.1) <==> NoWrap(start, end, now)
  {
    var tr := TriggerTimes(start, end, now);
    var s := (now.midnight + start * MINUTE_TO_SECOND) * SECOND_TO_MILLI;
    var e := (now.midnight + end * MINUTE_TO_SECOND) * SECOND_TO_MILLI;
    TriggersInSeconds(start, end, now);
    ValidScheduleBounds(start, end);
    OccursDaily(now, start, 0);
    OccursDaily(now, start, 1);
    OccursDaily(now, end, -1);
    OccursDaily(now, end, 0);
    OccursDaily(now, end, 1);
    if now.second > start * MINUTE_TO_SECOND {
      assert tr.0 == s + STEP;
    } else if e < STEP {
      assert tr.1 == e - STEP + U64;
    }
  }

  /** On the first day of the epoch, before the start, the end trigger lies half a billion years ahead. */
  lemma FirstDayWraps()
    ensures TriggerTimes(7 * 60, 22 * 60, Clock(0, 0)).1 == U64 - 2 * 3600 * SECOND_TO_MILLI
  {
    NoWrapInRange(22 * 3600 * SECOND_TO_MILLI - STEP);
  }

  lemma OccursDaily(now: Clock, boundary: nat, k: int)
    ensures Occurs(now, boundary, (now.midnight + boundary * MINUTE_TO_SECOND) * SECOND_TO_MILLI + k * STEP)
  {
    assert (k * STEP) % STEP == 0;
  }

  /** The order of the two triggers tells the colour of the current minute. */
  lemma TriggerOrderEncodesColour(start: nat, end: nat, now: Clock)
    requires IsValidScheduleTime(start, end) && now.Representable() && NoWrap(start, end, now)
    ensures
      var tr := TriggerTimes(start, end, now);
      && tr.0 != tr.1
      && (IsWithinTimeInterval(start, end, now.Minute())
          <==> tr.1 < tr.0 || now.second == start * MINUTE_TO_SECOND)
  {
    TriggersInSeconds(start, end, now);
    ValidScheduleBounds(start, end);
    MinuteReached(start, now.second);
    MinuteReached(EndOfDay(end), now.second);
  }

  lemma MinuteReached(boundary: nat, s: SecondOfDay)
    ensures boundary <= s / MINUTE_TO_SECOND <==> boundary * MINUTE_TO_SECOND <= s
  {
    assert s == (s / MINUTE_TO_SECOND) * MINUTE_TO_SECOND + s % MINUTE_TO_SECOND;
  }

  /** A timer armed for `trigger` and repeating daily is due at the instant t. */
  predicate Due(trigger: int, t: int) { trigger <= t && (t - trigger) % STEP == 0 }

  /** A trigger for the minute `boundary` is due at every later occurrence of that minute, and only then. */
  lemma DueAtBoundary(zone: int, boundary: nat, trigger: int, t: int)
    requires (trigger - (zone + boundary * MINUTE_TO_SECOND) * SECOND_TO_MILLI) % STEP == 0
    requires trigger <= (t - 1) * SECOND_TO_MILLI + STEP
    ensures Due(trigger, t * SECOND_TO_MILLI)
            <==> Phase(zone, t) == (boundary * MINUTE_TO_SECOND) % DAY_TO_SECOND
  {
    var origin := zone + boundary * MINUTE_TO_SECOND;
    var k := (trigger - origin * SECOND_TO_MILLI) / STEP;
    var gap := t - origin - k * DAY_TO_SECOND;
    assert t * SECOND_TO_MILLI - trigger == gap * SECOND_TO_MILLI;
    MilliMultiple(gap);
    SamePhase(t - zone, boundary * MINUTE_TO_SECOND, k, gap);
  }

  lemma MilliMultiple(gap: int)
    ensures (gap * SECOND_TO_MILLI) % STEP == 0 <==> gap % DAY_TO_SECOND == 0
    ensures gap * SECOND_TO_MILLI > -STEP && gap % DAY_TO_SECOND == 0 ==> gap >= 0
  {
    var q, r := gap / DAY_TO_SECOND, gap % DAY_TO_SECOND;
    assert gap * SECOND_TO_MILLI == q * STEP + r * SECOND_TO_MILLI;
  }

  lemma SamePhase(x: int, y: int, k: int, gap: int)
    requires x - y == gap + k * DAY_TO_SECOND
    ensures gap % DAY_TO_SECOND == 0 <==> x % DAY_TO_SECOND == y % DAY_TO_SECOND
  {
    var d := x / DAY_TO_SECOND - y / DAY_TO_SECOND - k;
    assert gap == d * DAY_TO_SECOND + (x % DAY_TO_SECOND - y % DAY_TO_SECOND);
  }

  // ---------- the callback check ----------

  /** The callback check and the minute test disagree exactly on the four seconds before the start
      and the five seconds before the end. */
  lemma CallbackCheckDisagreesExactly(start: nat, end: nat, s: SecondOfDay)
    requires IsValidScheduleTime(start, end)
    ensures CheckCurrentTimeInDarkInterval(start, end, s)
              != IsWithinTimeInterval(start, end, s / MINUTE_TO_SECOND)
            <==>
            || start * MINUTE_TO_SECOND - OFFSET_SECONDS < s < start * MINUTE_TO_SECOND
            || EndOfDay(end) * MINUTE_TO_SECOND - OFFSET_SECONDS <= s < EndOfDay(end) * MINUTE_TO_SECOND
  {
    ValidScheduleBounds(start, end);
    MinuteReached(start, s);
    MinuteReached(EndOfDay(end), s);
  }
}

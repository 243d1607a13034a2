/** The window of a temporary override: how long the user's colour outlasts the schedule
    (GetTempColorModeTimeInfo and CheckTemporaryStateEffective of dark_mode_temp_state_manager.cpp). */
module TemporaryWindow {
  import opened Schedule

  predicate IsWithInPreInterval(start: int, now: Clock) { now.Minute() <= start }

  /** calcEndTimestamp: one second before the offset from the day's midnight. */
  function CalcEndTimestamp(secondOffset: int, now: Clock): int { now.midnight + secondOffset - 1 }

  /** The start and the end of the override, as timestamps. */
  function GetTempColorModeTimeInfo(start: int, end: int, now: Clock): (int, int) {
    var within := IsWithinTimeInterval(ToU64(start), ToU64(end), now.Minute());
    (now.Time(),
     if end > DAY_TO_MINUTE then
       if !within then
         CalcEndTimestamp(end * MINUTE_TO_SECOND, now)
       else if IsWithInPreInterval(start, now) then
         CalcEndTimestamp(start * MINUTE_TO_SECOND, now)
       else
         CalcEndTimestamp((start + DAY_TO_MINUTE) * MINUTE_TO_SECOND, now)
     else
       if within then
         CalcEndTimestamp((start + DAY_TO_MINUTE) * MINUTE_TO_SECOND, now)
       else if IsWithInPreInterval(start, now) then
         CalcEndTimestamp(end * MINUTE_TO_SECOND, now)
       else
         CalcEndTimestamp((end + DAY_TO_MINUTE) * MINUTE_TO_SECOND, now))
  }

  // ---------- the schedule over absolute time ----------

  /** The scheduled colour at timestamp t, dark when true. */
  predicate DarkAt(start: nat, end: nat, zone: int, t: int) {
    IsWithinTimeInterval(start, end, ClockAt(zone, t).Minute())
  }

  /** The schedule leaves the colour `dark` at timestamp t. */
  predicate LeavesAt(start: nat, end: nat, zone: int, dark: bool, t: int) {
    DarkAt(start, end, zone, t - 1) == dark && DarkAt(start, end, zone, t) != dark
  }

  /** t is the first instant after `now` at which the schedule leaves the colour `dark`. */
  ghost predicate FirstLeaving(start: nat, end: nat, zone: int, dark: bool, now: int, t: int) {
    && now < t
    && LeavesAt(start, end, zone, dark, t)
    && forall u :: now < u < t ==> !LeavesAt(start, end, zone, dark, u)
  }

  /** The toggles for which the `<=` of IsWithInPreInterval picks a window that has already ended. */
  predicate StartMinuteOfCrossing(start: int, end: int, now: Clock) {
    end > DAY_TO_MINUTE && now.Minute() == start
  }

  lemma PhaseOf(zone: int, t: int, day: int, second: int)
    requires t == zone + day * DAY_TO_SECOND + second && 0 <= second < DAY_TO_SECOND
    ensures Phase(zone, t) == second
  {
    assert t - zone == DAY_TO_SECOND * day + second;
  }

  /** Membership in seconds of the day. */
  predicate DarkSecond(start: nat, end: nat, s: int) {
    if end <= DAY_TO_MINUTE then
      start * MINUTE_TO_SECOND <= s < end * MINUTE_TO_SECOND
    else
      !((end - DAY_TO_MINUTE) * MINUTE_TO_SECOND <= s < start * MINUTE_TO_SECOND)
  }

  lemma DarkInSeconds(start: nat, end: nat, zone: int, t: int)
    ensures DarkAt(start, end, zone, t) <==> DarkSecond(start, end, Phase(zone, t))
  {
    MinuteReached(start, Phase(zone, t));
    MinuteReached(EndOfDay(end), Phase(zone, t));
  }

  /** Colour on the day of `now` and the day after, by the offset from the day's midnight. */
  lemma DarkAtOffset(start: nat, end: nat, zone: int, midnight: int, offset: int)
    requires Phase(zone, midnight) == 0 && 0 <= offset < 2 * DAY_TO_SECOND
    ensures DarkAt(start, end, zone, midnight + offset)
            <==> DarkSecond(start, end, if offset < DAY_TO_SECOND then offset else offset - DAY_TO_SECOND)
  {
    var day := (midnight - zone) / DAY_TO_SECOND;
    if offset < DAY_TO_SECOND {
      PhaseOf(zone, midnight + offset, day, offset);
    } else {
      PhaseOf(zone, midnight + offset, day + 1, offset - DAY_TO_SECOND);
    }
    DarkInSeconds(start, end, zone, midnight + offset);
  }

  /** The instant, as an offset from midnight, at which the schedule first turns to the colour the user
      chose against it, and the instant after the end of the window. */
  function Boundaries(start: nat, end: nat, second: SecondOfDay): (int, int) {
    var s, e := start * MINUTE_TO_SECOND, EndOfDay(end) * MINUTE_TO_SECOND;
    var d := DAY_TO_SECOND;
    if DarkSecond(start, end, second) then
      if second < e then (e, if end <= DAY_TO_MINUTE then s + d else s) else (e + d, s + d)
    else
      if second < s then (s, if end <= DAY_TO_MINUTE then e else e + d) else (s + d, e + d)
  }

  lemma BoundariesShape(start: nat, end: nat, second: SecondOfDay)
    requires IsValidScheduleTime(start, end)
    ensures
      var (b, l) := Boundaries(start, end, second);
      second < b && b + 60 <= l && l - second <= DAY_TO_SECOND
  {
    ValidScheduleBounds(start, end);
  }

  /** Until the first boundary the schedule keeps its colour, then it has the user's up to the second. */
  lemma ColoursUntilTheEnd(start: nat, end: nat, zone: int, now: Clock, t: int)
    requires IsValidScheduleTime(start, end) && Phase(zone, now.midnight) == 0
    requires now.Time() <= t <= now.midnight + Boundaries(start, end, now.second).1
    ensures
      var (b, l) := Boundaries(start, end, now.second);
      var scheduled := DarkAt(start, end, zone, now.Time());
      && (t < now.midnight + b ==> DarkAt(start, end, zone, t) == scheduled)
      && (now.midnight + b <= t < now.midnight + l ==> DarkAt(start, end, zone, t) != scheduled)
      && (t == now.midnight + l ==> DarkAt(start, end, zone, t) == scheduled)
  {
    ValidScheduleBounds(start, end);
    BoundariesShape(start, end, now.second);
    DarkAtOffset(start, end, zone, now.midnight, now.second);
    DarkAtOffset(start, end, zone, now.midnight, t - now.midnight);
  }

  /** The six branches, away from the excluded minute, all end one second before the second boundary. */
  lemma SixBranches(start: nat, end: nat, now: Clock)
    requires IsValidScheduleTime(start, end)
    ensures GetTempColorModeTimeInfo(start, end, now).0 == now.Time()
    ensures !StartMinuteOfCrossing(start, end, now) ==>
              GetTempColorModeTimeInfo(start, end, now).1 == now.midnight + Boundaries(start, end, now.second).1 - 1
    ensures StartMinuteOfCrossing(start, end, now) ==>
              GetTempColorModeTimeInfo(start, end, now).1 == now.midnight + start * MINUTE_TO_SECOND - 1
  {
    ValidScheduleBounds(start, end);
    NoWrapInRange(start);
    NoWrapInRange(end);
    MinuteReached(start, now.second);
    MinuteReached(start + 1, now.second);
    MinuteReached(EndOfDay(end), now.second);
  }

  /** The override ends exactly one second before the schedule first leaves the user's colour, lasting
      at least a minute and less than a day, unless it is made in the start minute of a schedule that
      crosses midnight. */
  lemma WindowEndsWhereScheduleLeaves(start: nat, end: nat, zone: int, now: Clock)
    requires IsValidScheduleTime(start, end) && Phase(zone, now.midnight) == 0
    ensures
      var (from, to) := GetTempColorModeTimeInfo(start, end, now);
      var chosen := !DarkAt(start, end, zone, now.Time());
      && (FirstLeaving(start, end, zone, chosen, now.Time(), to + 1) <==> !StartMinuteOfCrossing(start, end, now))
      && from == now.Time()
      && (!StartMinuteOfCrossing(start, end, now) ==> 60 <= to - from < DAY_TO_SECOND)
      && (StartMinuteOfCrossing(start, end, now) ==> to < from)
  {
    var (from, to) := GetTempColorModeTimeInfo(start, end, now);
    var chosen := !DarkAt(start, end, zone, now.Time());
    SixBranches(start, end, now);
    BoundariesShape(start, end, now.second);
    if StartMinuteOfCrossing(start, end, now) {
      MinuteReached(start, now.second);
    } else {
      var (b, l) := Boundaries(start, end, now.second);
      ColoursUntilTheEnd(start, end, zone, now, to);
      ColoursUntilTheEnd(start, end, zone, now, to + 1);
      forall u | now.Time() < u < to + 1
        ensures !LeavesAt(start, end, zone, chosen, u)
      {
        ColoursUntilTheEnd(start, end, zone, now, u - 1);
        ColoursUntilTheEnd(start, end, zone, now, u);
      }
    }
  }

  /** At 22:00:30, under a schedule from 22:00 to 7:00, choosing light gets a window that ended at 21:59:59. */
  lemma StartMinuteToggleIsLost()
    ensures
      var now := Clock(0, 22 * 3600 + 30);
      && IsValidScheduleTime(22 * 60, 31 * 60)
      && GetTempColorModeTimeInfo(22 * 60, 31 * 60, now) == (22 * 3600 + 30, 22 * 3600 - 1)
  {
    NoWrapInRange(22 * 60);
    NoWrapInRange(31 * 60);
  }

  // ---------- while the override lasts ----------

  /** checkTempStateNoTimeout: strictly inside the window. */
  predicate InWindow(from: int, to: int, t: int) { from < t < to }

  /** The schedule changes colour only on whole minutes. */
  lemma ChangesOnWholeMinutes(start: nat, end: nat, zone: int, t: int)
    requires DarkAt(start, end, zone, t - 1) != DarkAt(start, end, zone, t)
    ensures Phase(zone, t) % 60 == 0
  {
    var s := Phase(zone, t);
    if s > 0 {
      PhaseOf(zone, t - 1, (t - zone) / DAY_TO_SECOND, s - 1);
    }
  }

  lemma NoTwoInARow(zone: int, t: int)
    ensures Phase(zone, t) % 60 != 0 || Phase(zone, t + 1) % 60 != 0
  {
    var s := Phase(zone, t);
    if s + 1 < DAY_TO_SECOND {
      PhaseOf(zone, t + 1, (t - zone) / DAY_TO_SECOND, s + 1);
    }
  }

  /** Of the boundaries the schedule passes from the toggle to the end of the window, a callback keeps
      the override at every one but the last, and ends it there. */
  lemma CallbackKeepsThenEnds(start: nat, end: nat, zone: int, now: Clock, t: int)
    requires IsValidScheduleTime(start, end) && Phase(zone, now.midnight) == 0
    requires !StartMinuteOfCrossing(start, end, now)
    requires DarkAt(start, end, zone, t - 1) != DarkAt(start, end, zone, t)
    requires now.Time() < t <= GetTempColorModeTimeInfo(start, end, now).1 + 1
    ensures
      var (from, to) := GetTempColorModeTimeInfo(start, end, now);
      InWindow(from, to, t) <==> t != to + 1
  {
    var (from, to) := GetTempColorModeTimeInfo(start, end, now);
    WindowEndsWhereScheduleLeaves(start, end, zone, now);
    ChangesOnWholeMinutes(start, end, zone, t);
    ChangesOnWholeMinutes(start, end, zone, to + 1);
    NoTwoInARow(zone, to);
  }
}

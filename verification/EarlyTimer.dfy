/** Timers that fire some seconds before their minute. The check of the callback allows for it, and so does the
    end of an override's window, but not for as many seconds. */
module EarlyTimers {
  import opened Accounts
  import opened Schedule
  import opened AlarmLedger
  import opened TemporaryWindow
  import opened TemporaryColorMode
  import opened ScreenSwitchOperator
  import opened UiAppearance
  import opened DarkMode
  import opened ColourRun

  /** The timer with this id runs its callback d seconds before it is due. */
  function FireEarly(w: World, zone: int, id: nat, t: int, d: nat): World {
    if && id in w.alarm.timers && w.alarm.timers[id].running
       && Due(w.alarm.timers[id].trigger, (t + d) * SECOND_TO_MILLI) then
      match w.alarm.timers[id].callback
      case SwitchColor(start, end, context) => TimerCallback(w, (start, end), context, ClockAt(zone, t))
      case Recalculate(_) => w
    else
      w
  }

  /** Both schedule timers of the context, each d seconds early. */
  function FireBothEarly(w: World, p: Plan, t: int, d: nat): World {
    var ids := IdsOf(w.alarm, BuildTimerKey(p.context));
    FireEarly(FireEarly(w, p.zone, ids.start, t, d), p.zone, ids.end, t, d)
  }

  /** One second of a run whose timers are d seconds early. */
  predicate EarlySecond(a: Moment, b: Moment, p: Plan, d: nat) {
    b == Moment(FireBothEarly(a.w, p, a.t + 1, d), a.t + 1)
  }

  predicate IsEarlyRun(ms: seq<Moment>, p: Plan, d: nat) {
    ms != [] && forall i :: 0 <= i < |ms| - 1 ==> EarlySecond(ms[i], ms[i + 1], p, d)
  }

  // ---------- the colour ----------

  /** The colour that a callback at t decides on. */
  predicate Decided(p: Plan, t: int) { CheckCurrentTimeInDarkInterval(p.start, p.end, Phase(p.zone, t)) }

  /** Up to four seconds early a callback decides on the colour of its boundary, but for one: a schedule that
      starts at midnight has the previous day's clock before it. */
  lemma EarlyColour(p: Plan, t: int, d: nat)
    requires p.Valid() && p.Dark(t - 1) != p.Dark(t) && d < OFFSET_SECONDS
    ensures Decided(p, t - d) == p.Dark(t) <==> !(d > 0 && p.start == 0 && p.Dark(t))
  {
    var s := Phase(p.zone, t);
    var day := (t - p.zone) / DAY_TO_SECOND;
    ChangesAtBoundaries(p, t);
    BoundariesDiffer(p);
    CallbackSeesTheSchedule(p, t);
    ValidScheduleBounds(p.start, p.end);
    if d <= s {
      PhaseOf(p.zone, t - d, day, s - d);
    } else {
      assert s == 0;
      PhaseOf(p.zone, t - d, day - 1, DAY_TO_SECOND - d);
    }
  }

  // ---------- the updates ----------

  /** The update that a callback at the next second makes. */
  function UpdateNow(w: World, p: Plan, t: int): World {
    UpdateDarkModeSchedule(w, Decided(p, t), p.context, false, false, ClockAt(p.zone, t))
  }

  /** The boundary of one of the timers comes d seconds after t. */
  predicate Comes(p: Plan, boundary: nat, t: int, d: nat) {
    Phase(p.zone, t + d) == (boundary * MINUTE_TO_SECOND) % DAY_TO_SECOND
  }

  /** The state a second later when each change of the schedule is updated d seconds early. */
  function UpdatedEarly(m: Moment, p: Plan, d: nat): World {
    if p.Dark(m.t + d) != p.Dark(m.t + 1 + d) then UpdateNow(m.w, p, m.t + 1) else m.w
  }

  function LaterEarly(m: Moment, p: Plan, d: nat): Moment { Moment(UpdatedEarly(m, p, d), m.t + 1) }

  function WaitEarly(m: Moment, p: Plan, d: nat, n: nat): (later: Moment)
    ensures later.t == m.t + n
  {
    if n == 0 then m else LaterEarly(WaitEarly(m, p, d, n - 1), p, d)
  }

  lemma OneEarlyTimer(w: World, p: Plan, id: nat, boundary: nat, t: int, d: nat)
    requires p.Valid() && Scheduled(Moment(w, t), p) && Armed(w.alarm, p, id, boundary, t)
    requires boundary == p.start || boundary == p.end
    ensures FireEarly(w, p.zone, id, t + 1, d)
         == if Comes(p, boundary, t + 1, d) then UpdateNow(w, p, t + 1) else w
  {
    DueAtBoundary(p.zone, boundary, w.alarm.timers[id].trigger, t + 1 + d);
    if Comes(p, boundary, t + 1, d) {
      assert w.states[p.context := w.states[p.context]] == w.states;
      assert Touch(w, p.context) == w;
    }
  }

  /** Of the two timers at most one is at its boundary. */
  lemma AtMostOneComes(m: Moment, p: Plan, d: nat, first: World, both: World)
    requires p.Valid()
    requires first == if Comes(p, p.start, m.t + 1, d) then UpdateNow(m.w, p, m.t + 1) else m.w
    requires both == if Comes(p, p.end, m.t + 1, d) then UpdateNow(first, p, m.t + 1) else first
    ensures both == UpdatedEarly(m, p, d)
  {
    ChangesAtBoundaries(p, m.t + 1 + d);
    BoundariesDiffer(p);
  }

  lemma EarlyTimersFireAtChanges(m: Moment, p: Plan, d: nat)
    requires p.Valid() && Scheduled(m, p)
    ensures FireBothEarly(m.w, p, m.t + 1, d) == UpdatedEarly(m, p, d)
  {
    var ids := IdsOf(m.w.alarm, BuildTimerKey(p.context));
    var first := FireEarly(m.w, p.zone, ids.start, m.t + 1, d);
    FirstEarlyTimer(m, p, d, first);
    OneEarlyTimer(first, p, ids.end, p.end, m.t, d);
    AtMostOneComes(m, p, d, first, FireEarly(first, p.zone, ids.end, m.t + 1, d));
  }

  lemma FirstEarlyTimer(m: Moment, p: Plan, d: nat, first: World)
    requires p.Valid() && Scheduled(m, p)
    requires first == FireEarly(m.w, p.zone, IdsOf(m.w.alarm, BuildTimerKey(p.context)).start, m.t + 1, d)
    ensures first == if Comes(p, p.start, m.t + 1, d) then UpdateNow(m.w, p, m.t + 1) else m.w
    ensures Scheduled(Moment(first, m.t), p) && first.alarm == m.w.alarm
  {
    OneEarlyTimer(m.w, p, IdsOf(m.w.alarm, BuildTimerKey(p.context)).start, p.start, m.t, d);
    UpdateKeepsSchedule(m.w, Decided(p, m.t + 1), p.context, ClockAt(p.zone, m.t + 1));
    ScheduledStill(m.w, first, p, m.t);
  }

  lemma {:induction false} WaitEarlyIsScheduled(m: Moment, p: Plan, d: nat, n: nat)
    requires p.Valid() && Scheduled(m, p)
    ensures Scheduled(WaitEarly(m, p, d, n), p)
  {
    if n > 0 {
      var before := WaitEarly(m, p, d, n - 1);
      WaitEarlyIsScheduled(m, p, d, n - 1);
      UpdateKeepsSchedule(before.w, Decided(p, before.t + 1), p.context, ClockAt(p.zone, before.t + 1));
      ScheduledLater(before, p, UpdatedEarly(before, p, d));
    }
  }

  lemma EarlySecondUpdates(a: Moment, b: Moment, p: Plan, d: nat)
    requires p.Valid() && Scheduled(a, p) && EarlySecond(a, b, p, d)
    ensures b == LaterEarly(a, p, d)
  {
    EarlyTimersFireAtChanges(a, p, d);
  }

  /** The last moment of a run is its first one after so many seconds of waiting. */
  lemma {:induction false} EarlyRunWaits(ms: seq<Moment>, p: Plan, d: nat, n: nat)
    requires IsEarlyRun(ms, p, d) && p.Valid() && Scheduled(ms[0], p) && n < |ms|
    ensures ms[n] == WaitEarly(ms[0], p, d, n) && Scheduled(ms[n], p)
  {
    WaitEarlyIsScheduled(ms[0], p, d, n);
    if n > 0 {
      EarlyRunWaits(ms, p, d, n - 1);
      assert EarlySecond(ms[n - 1], ms[n - 1 + 1], p, d);
      EarlySecondUpdates(ms[n - 1], ms[n], p, d);
    }
  }

  lemma {:induction false} EarlyWaitsAdd(m: Moment, p: Plan, d: nat, k: nat, n: nat)
    ensures WaitEarly(WaitEarly(m, p, d, k), p, d, n) == WaitEarly(m, p, d, k + n)
  {
    if n > 0 {
      EarlyWaitsAdd(m, p, d, k, n - 1);
    }
  }

  // ---------- the override ----------

  /** Inside its window an override is left alone, however early the callbacks are. */
  lemma {:induction false} OverrideStandsEarly(m: Moment, p: Plan, d: nat, n: nat)
    requires m.w.screen.operate == NONE
    requires
      var info := InfoOf(m.w.temps.infos, p.context);
      info.temporary && info.start <= m.t && m.t + n < info.end
    ensures SameSight(m.w, WaitEarly(m, p, d, n).w)
  {
    if n > 0 {
      var before := WaitEarly(m, p, d, n - 1);
      OverrideStandsEarly(m, p, d, n - 1);
      ClockTells(p.zone, before.t + 1);
      UpdateLeavesOverride(before.w, p, Decided(p, before.t + 1), ClockAt(p.zone, before.t + 1));
    }
  }

  /** The schedule has the same colour from one instant to another. */
  ghost predicate Steady(p: Plan, from: int, to: int) { forall u :: from <= u <= to ==> p.Dark(u) == p.Dark(from) }

  /** Between changes nothing is updated. */
  lemma {:induction false} NothingComes(m: Moment, p: Plan, d: nat, n: nat)
    requires Steady(p, m.t + d, m.t + d + n)
    ensures WaitEarly(m, p, d, n).w == m.w
  {
    if n > 0 {
      NothingComes(m, p, d, n - 1);
      assert p.Dark(m.t + d + n) == p.Dark(m.t + d) && p.Dark(m.t + d + n - 1) == p.Dark(m.t + d);
    }
  }

  /** An override whose window ends, as every toggle's does, one second before the schedule leaves its colour. */
  predicate Running(m: Moment, p: Plan) {
    var info := InfoOf(m.w.temps.infos, p.context);
    var shown := ShowsDark(m.w.display, p.context);
    && info.temporary && info.start <= m.t && m.w.screen.operate == NONE
    && p.Dark(info.end) == shown && p.Dark(info.end + 1) != shown
  }

  /** Just before the last callback the override still stands. */
  lemma StandsUntilLast(m: Moment, p: Plan, d: nat, k: nat)
    requires p.Valid() && Running(m, p)
    requires m.t + k == InfoOf(m.w.temps.infos, p.context).end - d
    ensures SameSight(m.w, WaitEarly(m, p, d, k).w)
  {
    var end := InfoOf(m.w.temps.infos, p.context).end;
    if d > 0 {
      OverrideStandsEarly(m, p, d, k);
    } else if k > 0 {
      OverrideStandsEarly(m, p, d, k - 1);
      ChangesOnWholeMinutes(p.start, p.end, p.zone, end + 1);
      NoTwoInARow(p.zone, end);
      if p.Dark(end - 1) != p.Dark(end) {
        ChangesOnWholeMinutes(p.start, p.end, p.zone, end);
      }
    }
  }

  /** The last callback, d seconds before the schedule leaves the colour of the override. */
  lemma LastCallback(m: Moment, p: Plan, d: nat)
    requires p.Valid() && Running(m, p) && Alone(m.w.display, p.context)
    requires m.t + d == InfoOf(m.w.temps.infos, p.context).end
    ensures
      var w := UpdatedEarly(m, p, d);
      var colour := Decided(p, m.t + 1);
      && (d > 1 ==> SameSight(m.w, w))
      && (d <= 1 ==>
            && (m.w.screen.on ==>
                  && ShowsDark(w.display, p.context) == ShowsDark(m.w.display, p.context)
                  && w.screen.operate == OperateFor(colour) && w.screen.on)
            && (!m.w.screen.on ==>
                  && ShowsDark(w.display, p.context) == colour && w.screen.operate == NONE
                  && !InfoOf(w.temps.infos, p.context).temporary))
  {
    ClockTells(p.zone, m.t + 1);
    UpdateEffect(m.w, p, Decided(p, m.t + 1), ClockAt(p.zone, m.t + 1));
    if d > 1 {
      UpdateLeavesOverride(m.w, p, Decided(p, m.t + 1), ClockAt(p.zone, m.t + 1));
    }
  }

  /** What is shown, recorded and pending after the last callback, kept until the timers next fire. */
  lemma LeftByLast(m: Moment, p: Plan, d: nat, n: nat, last: Moment)
    requires p.Valid() && Running(m, p) && Alone(m.w.display, p.context) && d < OFFSET_SECONDS
    requires m.t + d <= InfoOf(m.w.temps.infos, p.context).end < m.t + n
    requires Steady(p, InfoOf(m.w.temps.infos, p.context).end + 1, m.t + n + d)
    requires last == WaitEarly(m, p, d, InfoOf(m.w.temps.infos, p.context).end - d - m.t)
    ensures SameSight(m.w, last.w) && WaitEarly(m, p, d, n).w == UpdatedEarly(last, p, d)
  {
    var end := InfoOf(m.w.temps.infos, p.context).end;
    var k := end - d - m.t;
    StandsUntilLast(m, p, d, k);
    var next := WaitEarly(m, p, d, k + 1);
    assert next == Moment(UpdatedEarly(last, p, d), last.t + 1);
    NothingComes(next, p, d, n - k - 1);
    EarlyWaitsAdd(m, p, d, k + 1, n - k - 1);
  }

  lemma AloneStays(w: World, v: World, context: AccountContext)
    requires SameSight(w, v) && Alone(w.display, context)
    ensures Alone(v.display, context)
  {
  }

  /** What the last callback does to the guarantee. */
  lemma LastDecides(last: Moment, p: Plan, d: nat, later: Moment)
    requires p.Valid() && Running(last, p) && Alone(last.w.display, p.context) && d < OFFSET_SECONDS
    requires last.t + d == InfoOf(last.w.temps.infos, p.context).end < later.t
    requires later.w == UpdatedEarly(last, p, d)
    requires p.Dark(later.t) == p.Dark(InfoOf(last.w.temps.infos, p.context).end + 1)
    ensures
      var end := InfoOf(last.w.temps.infos, p.context).end;
      && (Guaranteed(later, p) <==> d == 0 || (d == 1 && !(p.start == 0 && p.Dark(end + 1))))
      && (d > 1 ==> SameSight(last.w, later.w))
  {
    LastCallback(last, p, d);
    EarlyColour(p, InfoOf(last.w.temps.infos, p.context).end + 1, d);
  }

  lemma EarlyWaitKeepsExactly(m: Moment, p: Plan, d: nat, n: nat)
    requires p.Valid() && Running(m, p) && Alone(m.w.display, p.context) && d < OFFSET_SECONDS
    requires m.t + d <= InfoOf(m.w.temps.infos, p.context).end < m.t + n
    requires Steady(p, InfoOf(m.w.temps.infos, p.context).end + 1, m.t + n + d)
    ensures
      var end := InfoOf(m.w.temps.infos, p.context).end;
      var after := WaitEarly(m, p, d, n);
      && (Guaranteed(after, p) <==> d == 0 || (d == 1 && !(p.start == 0 && p.Dark(end + 1))))
      && (d > 1 ==> SameSight(m.w, after.w))
  {
    var end := InfoOf(m.w.temps.infos, p.context).end;
    var last := WaitEarly(m, p, d, end - d - m.t);
    LeftByLast(m, p, d, n, last);
    AloneStays(m.w, last.w, p.context);
    assert p.Dark(m.t + n) == p.Dark(end + 1);
    LastDecides(last, p, d, WaitEarly(m, p, d, n));
  }

  /** With timers d seconds early, d at most four, the last callback of an override ends it, and the guarantee
      holds from the boundary on, exactly when d is nought or one; a schedule that starts at midnight does not
      stand even the one. From two seconds on the override is left recorded past its window, and nothing is
      shown or pending until the next callback. */
  lemma EarlyTimersKeepExactly(ms: seq<Moment>, p: Plan, d: nat)
    requires IsEarlyRun(ms, p, d) && d < OFFSET_SECONDS
    requires p.Valid() && Scheduled(ms[0], p) && Alone(ms[0].w.display, p.context) && Running(ms[0], p)
    requires
      var end := InfoOf(ms[0].w.temps.infos, p.context).end;
      var until := ms[0].t + |ms| - 1;
      ms[0].t + d <= end < until && Steady(p, end + 1, until + d)
    ensures
      var end := InfoOf(ms[0].w.temps.infos, p.context).end;
      var last := ms[|ms| - 1];
      && (Guaranteed(last, p) <==> d == 0 || (d == 1 && !(p.start == 0 && p.Dark(end + 1))))
      && (d > 1 ==> SameSight(ms[0].w, last.w))
  {
    EarlyRunWaits(ms, p, d, |ms| - 1);
    EarlyWaitKeepsExactly(ms[0], p, d, |ms| - 1);
  }

  /** Every pick of the other colour, but an excluded one, begins such an override. */
  lemma PickIsRunning(m: Moment, p: Plan)
    requires p.Valid() && m.w.screen.operate == NONE && ShowsDark(m.w.display, p.context) != p.Dark(m.t)
    requires !StartMinuteOfCrossing(p.start, p.end, ClockAt(p.zone, m.t))
    requires
      var window := GetTempColorModeTimeInfo(p.start, p.end, ClockAt(p.zone, m.t));
      InfoOf(m.w.temps.infos, p.context) == TempInfo(true, window.0, window.1)
    ensures Running(m, p)
  {
    var window := GetTempColorModeTimeInfo(p.start, p.end, ClockAt(p.zone, m.t));
    ClockTells(p.zone, m.t);
    WindowEndsWhereScheduleLeaves(p.start, p.end, p.zone, ClockAt(p.zone, m.t));
    assert LeavesAt(p.start, p.end, p.zone, ShowsDark(m.w.display, p.context), window.1 + 1);
  }
}

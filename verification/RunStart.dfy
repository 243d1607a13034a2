/** How a guaranteed run begins: a change to an automatic mode, or the switch to a context in one. */
module RunStart {
  import opened Decimal
  import opened Errors
  import opened Accounts
  import opened Schedule
  import opened AlarmLedger
  import SystemParameters
  import opened TemporaryWindow
  import opened TemporaryColorMode
  import opened ScreenSwitchOperator
  import opened SettingData
  import opened UiAppearance
  import opened DarkMode
  import opened ColourRun

  /** The plan that starts at `now` with the times of a state. */
  function PlanAt(context: AccountContext, times: (int32, int32), now: Clock): Plan {
    Plan(context, now.midnight, ToU64(times.0), ToU64(times.1))
  }

  /** Neither time is negative: a negative setting converts to a number no schedule has. */
  predicate ValidTimes(times: (int32, int32)) {
    0 <= times.0 && 0 <= times.1 && IsValidScheduleTime(times.0, times.1)
  }

  lemma AcceptedTimesAreValid(times: (int32, int32))
    requires IsValidScheduleTime(ToU64(times.0), ToU64(times.1))
    ensures ValidTimes(times) && ToU64(times.0) == times.0 && ToU64(times.1) == times.1
  {
    NoWrapInRange(times.0);
    NoWrapInRange(times.1);
    ValidScheduleBounds(ToU64(times.0), ToU64(times.1));
  }

  /** The clock is at least a day past the epoch. */
  predicate Modern(now: Clock) { now.Representable() && now.midnight >= DAY_TO_SECOND }

  lemma SameClock(now: Clock)
    ensures ClockAt(now.midnight, now.Time()) == now
  {
  }

  lemma TriggersArm(a: Alarm, p: Plan, now: Clock)
    requires p.Valid() && Modern(now) && p.zone == now.midnight
    requires
      var ids := IdsOf(a, BuildTimerKey(p.context));
      var trigger := TriggerTimes(p.start, p.end, now);
      var callback := SwitchColor(p.start, p.end, p.context);
      && ids.start in a.timers && a.timers[ids.start] == Timer(trigger.0, true, callback)
      && ids.end in a.timers && a.timers[ids.end] == Timer(trigger.1, true, callback)
    ensures
      var ids := IdsOf(a, BuildTimerKey(p.context));
      Armed(a, p, ids.start, p.start, now.Time()) && Armed(a, p, ids.end, p.end, now.Time())
  {
    TriggersAreNextOccurrences(p.start, p.end, now);
  }

  lemma TimersArm(w: World, context: AccountContext, env: Env)
    requires Sound(w.alarm) && Modern(env.now)
    requires CreateOrUpdateTimers(w, Effective(StateOf(w, context)), context, env).1 == ERR_OK
    ensures
      var p := PlanAt(context, Effective(StateOf(w, context)), env.now);
      var a := CreateOrUpdateTimers(w, Effective(StateOf(w, context)), context, env).0.alarm;
      var ids := IdsOf(a, BuildTimerKey(context));
      && Sound(a)
      && Armed(a, p, ids.start, p.start, env.now.Time()) && Armed(a, p, ids.end, p.end, env.now.Time())
  {
    var times := Effective(StateOf(w, context));
    AcceptedTimesAreValid(times);
    ScheduleArms(w.alarm, times.0, times.1, BuildTimerKey(context), SwitchColor(times.0, times.1, context),
                 env.now, env.first, env.second);
    TriggersArm(CreateOrUpdateTimers(w, times, context, env).0.alarm, PlanAt(context, times, env.now), env.now);
  }

  lemma WithinIsDark(times: (int32, int32), context: AccountContext, now: Clock)
    requires ValidTimes(times)
    ensures Within(times, now) == PlanAt(context, times, now).Dark(now.Time())
    ensures PlanAt(context, times, now).Valid()
    ensures PlanAt(context, times, now).start == times.0 && PlanAt(context, times, now).end == times.1
  {
    NoWrapInRange(times.0);
    NoWrapInRange(times.1);
    SameClock(now);
  }

  // ---------- an update and what is left of an override ----------

  /** The context's times are a valid schedule, and the time service offers both its timers. */
  predicate Granted(w: World, context: AccountContext, env: Env) {
    ValidTimes(Effective(StateOf(w, context))) && Offered(w.alarm, BuildTimerKey(context), env.first, env.second)
  }

  lemma GrantedExactly(w: World, context: AccountContext, env: Env)
    requires Sound(w.alarm)
    ensures Granted(w, context, env)
       <==> CreateOrUpdateTimers(w, Effective(StateOf(w, context)), context, env).1 == ERR_OK
  {
    var times := Effective(StateOf(w, context));
    ScheduleSucceedsExactly(
      w.alarm, ToU64(times.0), ToU64(times.1), BuildTimerKey(context), SwitchColor(times.0, times.1, context),
      env.now, env.first, env.second);
    NoWrapInRange(times.0);
    NoWrapInRange(times.1);
    if IsValidScheduleTime(ToU64(times.0), ToU64(times.1)) {
      AcceptedTimesAreValid(times);
    }
  }

  /** What becomes of an override under the schedule p at time t: it is dropped, or it is not active, or it is
      in force and lands, or it has not begun and either the update does not wait for the screen or that does
      no harm. */
  ghost predicate GoesOn(w: World, p: Plan, t: int, reset: bool, boot: bool) {
    var info := InfoOf(w.temps.infos, p.context);
    || reset || !Active(info, t)
    || (if InWindow(info.start, info.end, t) then Lands(p, ShowsDark(w.display, p.context), info.end)
        else boot || !w.screen.on || Bridged(p, ShowsDark(w.display, p.context), t, info))
  }

  /** A schedule update settles the context exactly when its override goes on. */
  lemma UpdateSettlesExactly(w: World, p: Plan, reset: bool, boot: bool, now: Clock)
    requires Alone(w.display, p.context)
    ensures
      var v := UpdateDarkModeSchedule(w, p.Dark(now.Time()), p.context, reset, boot, now);
      && (Settled(Moment(v, now.Time()), p) <==> GoesOn(w, p, now.Time(), reset, boot))
      && Alone(v.display, p.context) && v.alarm == w.alarm && v.states == w.states && v.screen.on == w.screen.on
  {
  }

  // ---------- the timers ----------

  lemma ArmedIsScheduled(w: World, context: AccountContext, now: Clock)
    requires context in w.states && IsAuto(w.states[context].mode) && ValidTimes(Effective(w.states[context]))
    requires
      var p := PlanAt(context, Effective(w.states[context]), now);
      var ids := IdsOf(w.alarm, BuildTimerKey(context));
      Armed(w.alarm, p, ids.start, p.start, now.Time()) && Armed(w.alarm, p, ids.end, p.end, now.Time())
    ensures Scheduled(Moment(w, now.Time()), PlanAt(context, Effective(w.states[context]), now))
  {
    WithinIsDark(Effective(w.states[context]), context, now);
  }

  lemma NothingIsScheduled(w: World, p: Plan, t: int)
    requires Sound(w.alarm) && BuildTimerKey(p.context) !in w.alarm.timerIds
    ensures !Scheduled(Moment(w, t), p)
  {
  }

  /** What a run knows of a timer. */
  predicate SameTimer(a: Alarm, b: Alarm, id: nat) {
    (id in a.timers <==> id in b.timers) && (id in a.timers ==> b.timers[id] == a.timers[id])
  }

  /** Setting or clearing the recalculation timer leaves the other timers of the key as they are. */
  lemma RecalculationKeepsTimers(a: Alarm, key: nat, callback: Callback, now: Clock, reply: Reply, kind: Kind)
    requires Sound(a) && kind != RECALCULATION
    ensures
      var set_, cleared := SetRecalculationTimer(a, key, callback, now, reply), ClearRecalculationTimer(a, key);
      && IdsOf(set_, key) == IdsOf(a, key) && IdsOf(cleared, key) == IdsOf(a, key)
      && SameTimer(a, set_, IdAt(a, Slot(key, kind))) && SameTimer(a, cleared, IdAt(a, Slot(key, kind)))
  {
    var id := IdAt(a, Slot(key, kind));
    SetRecalculationKeepsSound(a, key, callback, now, reply);
    ClearRecalculationKeepsSound(a, key);
    assert id != 0 ==> id != IdAt(a, Slot(key, RECALCULATION));
  }

  /** A run does not depend on the settings in the store, nor on timers of others. */
  lemma SameTimersSameRun(w: World, p: Plan, t: int, alarm: Alarm, settings: Settings)
    requires
      var ids := IdsOf(w.alarm, BuildTimerKey(p.context));
      && IdsOf(alarm, BuildTimerKey(p.context)) == ids
      && SameTimer(w.alarm, alarm, ids.start) && SameTimer(w.alarm, alarm, ids.end)
    ensures Inv(Moment(w.(alarm := alarm, settings := settings), t), p) <==> Inv(Moment(w, t), p)
  {
  }

  lemma RecalculationIsNoMatter(w: World, p: Plan, t: int, now: Clock, reply: Reply, settings: Settings)
    requires Sound(w.alarm)
    ensures
      var key := BuildTimerKey(p.context);
      var set_ := w.(alarm := SetRecalculationTimer(w.alarm, key, Recalculate(p.context), now, reply),
                     settings := settings);
      var cleared := w.(alarm := ClearRecalculationTimer(w.alarm, key), settings := settings);
      && (Inv(Moment(set_, t), p) <==> Inv(Moment(w, t), p))
      && (Inv(Moment(cleared, t), p) <==> Inv(Moment(w, t), p))
      && Sound(set_.alarm) && Sound(cleared.alarm)
  {
    var key := BuildTimerKey(p.context);
    var callback := Recalculate(p.context);
    RecalculationKeepsTimers(w.alarm, key, callback, now, reply, START);
    RecalculationKeepsTimers(w.alarm, key, callback, now, reply, END);
    SameTimersSameRun(w, p, t, SetRecalculationTimer(w.alarm, key, callback, now, reply), settings);
    SameTimersSameRun(w, p, t, ClearRecalculationTimer(w.alarm, key), settings);
    SetRecalculationKeepsSound(w.alarm, key, callback, now, reply);
    ClearRecalculationKeepsSound(w.alarm, key);
  }

  lemma AppliedTimesOnlyTouchSettings(w: World, context: AccountContext, env: Env)
    ensures ApplySunriseSunsetTimes(w, context, env)
            == w.(settings := ApplySunriseSunsetTimes(w, context, env).settings)
  {
  }

  lemma InitIsNoMatter(w: World, p: Plan, t: int, env: Env)
    requires Sound(w.alarm)
    ensures Inv(Moment(InitSunriseSunsetMode(w, p.context, env), t), p) <==> Inv(Moment(w, t), p)
    ensures Sound(InitSunriseSunsetMode(w, p.context, env).alarm)
  {
    var settings := ApplySunriseSunsetTimes(w, p.context, env).settings;
    AppliedTimesOnlyTouchSettings(w, p.context, env);
    RecalculationIsNoMatter(w, p, t, env.now, env.recalculation, settings);
    assert Inv(Moment(w.(settings := settings), t), p) <==> Inv(Moment(w, t), p);
  }

  // ---------- state changes ----------

  /** The timers after a state change: armed for the plan when they are granted, none when they are not. */
  lemma TimedExactly(w: World, context: AccountContext, env: Env)
    requires Sound(w.alarm) && Modern(env.now)
    ensures
      var times := Effective(StateOf(w, context));
      var (timed, code) := CreateOrUpdateTimers(w, times, context, env);
      var p := PlanAt(context, times, env.now);
      var ids := IdsOf(timed.alarm, BuildTimerKey(context));
      && Sound(timed.alarm) && Sound(ClearTimerByUserId(timed.alarm, BuildTimerKey(context)))
      && BuildTimerKey(context) !in ClearTimerByUserId(timed.alarm, BuildTimerKey(context)).timerIds
      && (code == ERR_OK ==>
            && ValidTimes(times)
            && Armed(timed.alarm, p, ids.start, p.start, env.now.Time())
            && Armed(timed.alarm, p, ids.end, p.end, env.now.Time()))
  {
    var times := Effective(StateOf(w, context));
    var key, callback := BuildTimerKey(context), SwitchColor(times.0, times.1, context);
    var (timed, code) := CreateOrUpdateTimers(w, times, context, env);
    ScheduleKeepsLedger(w.alarm, ToU64(times.0), ToU64(times.1), key, callback, env.now, env.first, env.second);
    ScheduleKeepsBooks(w.alarm, ToU64(times.0), ToU64(times.1), key, callback, env.now, env.first, env.second);
    ClearKeepsSound(timed.alarm, key);
    if code == ERR_OK {
      AcceptedTimesAreValid(times);
      TimersArm(w, context, env);
    }
  }

  /** A state change with its update leaves the run in order exactly when the mode is automatic, the timers
      are granted, and the override goes on under the schedule now in force. */
  lemma StateChangeExactly(w: World, context: AccountContext, dark: bool, reset: bool, boot: bool, env: Env)
    requires Sound(w.alarm) && Modern(env.now) && Alone(w.display, context) && context in w.states
    ensures
      var state := w.states[context];
      var p := PlanAt(context, Effective(state), env.now);
      var v := OnStateChange(w, context, true, dark, reset, boot, env).w;
      && (Inv(Moment(v, env.now.Time()), p)
          <==> IsAuto(state.mode) && Granted(w, context, env) && GoesOn(w, p, env.now.Time(), reset, boot))
      && Sound(v.alarm)
  {
    assert w.states[context := w.states[context]] == w.states;
    if IsAuto(w.states[context].mode) {
      AutoChangeExactly(w, context, dark, reset, boot, env);
    } else {
      var key := BuildTimerKey(context);
      ClearRecalculationKeepsSound(w.alarm, key);
      ClearKeepsSound(ClearRecalculationTimer(w.alarm, key), key);
      var v := OnStateChange(w, context, true, dark, reset, boot, env).w;
      AllDayChangeKeeps(w, context, false, reset, boot, env);
      AllDayChangeKeeps(w, context, true, reset, boot, env);
      assert v.states == w.states;
    }
  }

  lemma AllDayChangeKeeps(w: World, context: AccountContext, dark: bool, reset: bool, boot: bool, env: Env)
    ensures
      var v := OnStateChangeToAllDayMode(w, context, dark, true, reset, boot, env).w;
      var key := BuildTimerKey(context);
      v.states == w.states && v.alarm == ClearTimerByUserId(ClearRecalculationTimer(w.alarm, key), key)
  {
  }

  lemma AutoChangeExactly(w: World, context: AccountContext, dark: bool, reset: bool, boot: bool, env: Env)
    requires Sound(w.alarm) && Modern(env.now) && Alone(w.display, context)
    requires context in w.states && IsAuto(w.states[context].mode)
    ensures
      var p := PlanAt(context, Effective(w.states[context]), env.now);
      var v := OnStateChangeToCustomAutoMode(w, context, true, dark, reset, boot, env).w;
      && (Inv(Moment(v, env.now.Time()), p)
          <==> Granted(w, context, env) && GoesOn(w, p, env.now.Time(), reset, boot))
      && Sound(v.alarm)
  {
    var times := Effective(w.states[context]);
    var p := PlanAt(context, times, env.now);
    var (timed, code) := CreateOrUpdateTimers(w, times, context, env);
    var v := OnStateChangeToCustomAutoMode(w, context, true, dark, reset, boot, env).w;
    GrantedExactly(w, context, env);
    if code == ERR_OK {
      WithinIsDark(times, context, env.now);
      TimedSettlesExactly(w, context, reset, boot, env, p, timed);
      assert v == UpdateDarkModeSchedule(timed, p.Dark(env.now.Time()), context, reset, boot, env.now);
    } else {
      TimedExactly(w, context, env);
      NothingIsScheduled(v, p, env.now.Time());
    }
  }

  /** The schedule update over freshly granted timers. */
  lemma TimedSettlesExactly(
    w: World, context: AccountContext, reset: bool, boot: bool, env: Env, p: Plan, timed: World)
    requires Sound(w.alarm) && Modern(env.now) && Alone(w.display, context)
    requires context in w.states && IsAuto(w.states[context].mode)
    requires CreateOrUpdateTimers(w, Effective(w.states[context]), context, env) == (timed, ERR_OK)
    requires p == PlanAt(context, Effective(w.states[context]), env.now)
    ensures
      var v := UpdateDarkModeSchedule(timed, p.Dark(env.now.Time()), context, reset, boot, env.now);
      && (Inv(Moment(v, env.now.Time()), p) <==> GoesOn(w, p, env.now.Time(), reset, boot))
      && Sound(v.alarm)
  {
    var v := UpdateDarkModeSchedule(timed, p.Dark(env.now.Time()), context, reset, boot, env.now);
    TimedExactly(w, context, env);
    WithinIsDark(Effective(w.states[context]), context, env.now);
    UpdateSettlesExactly(timed, p, reset, boot, env.now);
    ArmedIsScheduled(v, context, env.now);
    assert GoesOn(timed, p, env.now.Time(), reset, boot) <==> GoesOn(w, p, env.now.Time(), reset, boot);
  }

  // ---------- the observers ----------

  /** The state in memory after the mode observer. */
  function TakeMode(w: World, key: string, context: AccountContext): DarkModeState {
    var (code, read) := GetInt32ValueStrictly(w.settings, key, -1, context.userId);
    StateOf(w, context).(mode := if code == ERR_OK then ModeOf(read) else INVALID)
  }

  /** The mode observer takes over the mode, drops any override, and leaves a run in order exactly when the
      new mode is automatic and the time service grants both timers. */
  lemma ModeUpdateBeginsRun(w: World, key: string, context: AccountContext, env: Env)
    requires Sound(w.alarm) && Modern(env.now) && Alone(w.display, context)
    ensures
      var state := TakeMode(w, key, context);
      var v := ModeUpdate(w, key, context, env);
      && (Inv(Moment(v, env.now.Time()), PlanAt(context, Effective(state), env.now))
          <==> IsAuto(state.mode) && Granted(WithState(w, context, state), context, env))
      && Sound(v.alarm)
  {
    var state := TakeMode(w, key, context);
    var p := PlanAt(context, Effective(state), env.now);
    var w0 := WithState(w, context, state);
    StateChangeExactly(w0, context, false, true, false, env);
    var w1 := OnStateChange(w0, context, true, false, true, false, env).w;
    InitIsNoMatter(w1, p, env.now.Time(), env);
    RecalculationIsNoMatter(w1, p, env.now.Time(), env.now, env.recalculation, w1.settings);
  }

  datatype Time = START_TIME | END_TIME | SUNSET_TIME | SUNRISE_TIME

  /** The state in memory after the observer of one time. */
  function TakeTime(w: World, key: string, context: AccountContext, which: Time): DarkModeState {
    var state := StateOf(w, context);
    match which
    case START_TIME => state.(start := GetInt32ValueStrictly(w.settings, key, -1, context.userId).1)
    case END_TIME => state.(end := GetInt32ValueStrictly(w.settings, key, -1, context.userId).1)
    case SUNSET_TIME =>
      TakeSunset(state, GetInt32ValueStrictly(w.settings, key, SUNSET_TIME_DEFAULT, context.userId).1)
    case SUNRISE_TIME =>
      TakeSunrise(state, GetInt32ValueStrictly(w.settings, key, SUNRISE_TIME_DEFAULT, context.userId).1)
  }

  function TimeUpdate(w: World, key: string, context: AccountContext, which: Time, env: Env): World {
    match which
    case START_TIME => StartTimeUpdate(w, key, context, env)
    case END_TIME => EndTimeUpdate(w, key, context, env)
    case SUNSET_TIME => SunsetTimeUpdate(w, key, context, env)
    case SUNRISE_TIME => SunriseTimeUpdate(w, key, context, env)
  }

  /** The user's own times drop an override; the sun's leave it. */
  predicate Resets(which: Time) { which == START_TIME || which == END_TIME }

  /** The observer of a time leaves a run of the new schedule in order exactly when the mode is automatic, the
      time service grants both timers, and, at a new sunset or sunrise, a running override lands under the
      new schedule. */
  lemma TimeUpdatesBeginRun(w: World, key: string, context: AccountContext, which: Time, env: Env)
    requires Sound(w.alarm) && Modern(env.now) && Alone(w.display, context)
    ensures
      var state := TakeTime(w, key, context, which);
      var p := PlanAt(context, Effective(state), env.now);
      var v := TimeUpdate(w, key, context, which, env);
      && (Inv(Moment(v, env.now.Time()), p)
          <==> && IsAuto(state.mode) && Granted(WithState(w, context, state), context, env)
               && GoesOn(w, p, env.now.Time(), Resets(which), false))
      && Sound(v.alarm)
  {
    var changed := WithState(w, context, TakeTime(w, key, context, which));
    StateChangeExactly(changed, context, false, Resets(which), false, env);
  }

  lemma SunriseObserverExactly(w: World, key: string, context: AccountContext, env: Env, state: DarkModeState)
    requires Sound(w.alarm) && Modern(env.now) && Alone(w.display, context)
    requires state == TakeTime(w, key, context, SUNRISE_TIME)
    ensures
      var p := PlanAt(context, Effective(state), env.now);
      var after := SunriseTimeUpdate(w, key, context, env);
      && (Inv(Moment(after, env.now.Time()), p)
          <==> && IsAuto(state.mode) && Granted(WithState(w, context, state), context, env)
               && GoesOn(w, p, env.now.Time(), false, false))
      && Sound(after.alarm)
  {
    var changed := WithState(w, context, state);
    var v := OnStateChange(changed, context, true, false, false, false, env).w;
    assert SunriseTimeUpdate(w, key, context, env) == v;
    StateChangeExactly(changed, context, false, false, false, env);
  }

  // ---------- the loads ----------

  /** The override the load finds in the parameters is in force. */
  predicate InForce(info: TempInfo, t: int) { info.temporary && InWindow(info.start, info.end, t) }

  /** The override as the load restores it: unchanged inside its window, gone otherwise. */
  lemma RestoredOverride(t: Temps, context: AccountContext, now: Clock)
    ensures
      var info := Stored(t.params, context);
      InfoOf(LoadTemporary(t, context, now).infos, context) == if InForce(info, now.Time()) then info else NORMAL
  {
  }

  /** The world of a load before its state change. */
  function Loaded(w: World, context: AccountContext, env: Env): World {
    var (settings, state) := LoadState(w.settings, context, env.copies);
    ResetOperate(
      WithState(w.(settings := settings, temps := LoadTemporary(w.temps, context, env.now)), context, state))
  }

  lemma LoadInSteps(w: World, context: AccountContext, boot: bool, env: Env)
    ensures
      var w0 := Loaded(w, context, env);
      var state := LoadState(w.settings, context, env.copies).1;
      var changed := OnStateChange(w0, context, boot, false, false, boot, env);
      var loaded := LoadUserSettingData(w, context, boot, false, boot, env);
      && context in w0.states && w0.states[context] == state
      && w0.alarm == w.alarm && w0.display == w.display && w0.screen.operate == NONE
      && loaded.code == changed.code && loaded.dark == changed.dark
      && loaded.w == if state.mode == SUNRISE_SUNSET then InitSunriseSunsetMode(changed.w, context, env) else changed.w
  {
  }

  lemma AutoChangeCode(w: World, context: AccountContext, need: bool, boot: bool, env: Env)
    ensures OnStateChangeToCustomAutoMode(w, context, need, false, false, boot, env).code
         == CreateOrUpdateTimers(w, Effective(StateOf(w, context)), context, env).1
  {
  }

  lemma LoadsExactlyWhenGranted(w: World, context: AccountContext, need: bool, boot: bool, env: Env)
    requires Sound(w.alarm) && context in w.states && IsAuto(w.states[context].mode)
    ensures (OnStateChange(w, context, need, false, false, boot, env).code == ERR_OK) == Granted(w, context, env)
  {
    GrantedExactly(w, context, env);
    AutoChangeCode(w, context, need, boot, env);
  }

  /** The world after the load that ends a switch: the colour it found is remembered unless an override runs. */
  function TakeQuietly(changed: Changed, context: AccountContext): World {
    if changed.code == ERR_OK && !IsColorModeTemporary(changed.w.temps, context) then
      changed.w.(display := Remember(changed.w.display, changed.dark, context))
    else changed.w
  }

  /** An override the load left in force lands. */
  predicate RestoredLands(w: World, p: Plan) {
    IsColorModeTemporary(w.temps, p.context) ==>
      Lands(p, ShowsDark(w.display, p.context), InfoOf(w.temps.infos, p.context).end)
  }

  /** The state change of the load that ends a switch. */
  lemma QuietChangeExactly(w: World, context: AccountContext, env: Env)
    requires Sound(w.alarm) && Modern(env.now) && Alone(w.display, context) && context in w.states
    requires w.screen.operate == NONE
    requires IsColorModeTemporary(w.temps, context) ==> InForce(InfoOf(w.temps.infos, context), env.now.Time())
    ensures
      var state := w.states[context];
      var p := PlanAt(context, Effective(state), env.now);
      var changed := OnStateChange(w, context, false, false, false, false, env);
      && (Inv(Moment(TakeQuietly(changed, context), env.now.Time()), p)
          <==> IsAuto(state.mode) && Granted(w, context, env) && RestoredLands(w, p))
      && Sound(changed.w.alarm) && changed.w.temps == w.temps
  {
    assert w.states[context := w.states[context]] == w.states;
    if IsAuto(w.states[context].mode) {
      QuietAutoChangeExactly(w, context, env);
    } else {
      var key := BuildTimerKey(context);
      ClearRecalculationKeepsSound(w.alarm, key);
      ClearKeepsSound(ClearRecalculationTimer(w.alarm, key), key);
    }
  }

  lemma QuietAutoChangeExactly(w: World, context: AccountContext, env: Env)
    requires Sound(w.alarm) && Modern(env.now) && Alone(w.display, context)
    requires context in w.states && IsAuto(w.states[context].mode) && w.screen.operate == NONE
    requires IsColorModeTemporary(w.temps, context) ==> InForce(InfoOf(w.temps.infos, context), env.now.Time())
    ensures
      var p := PlanAt(context, Effective(w.states[context]), env.now);
      var changed := OnStateChangeToCustomAutoMode(w, context, false, false, false, false, env);
      && (Inv(Moment(TakeQuietly(changed, context), env.now.Time()), p)
          <==> Granted(w, context, env) && RestoredLands(w, p))
      && Sound(changed.w.alarm) && changed.w.temps == w.temps
  {
    var times := Effective(w.states[context]);
    var p := PlanAt(context, times, env.now);
    var (timed, code) := CreateOrUpdateTimers(w, times, context, env);
    var changed := OnStateChangeToCustomAutoMode(w, context, false, false, false, false, env);
    GrantedExactly(w, context, env);
    if code == ERR_OK {
      WithinIsDark(times, context, env.now);
      QuietlyTimedExactly(w, context, env, p, timed);
      assert changed == Changed(timed, ERR_OK, p.Dark(env.now.Time()));
    } else {
      TimedExactly(w, context, env);
      NothingIsScheduled(changed.w, p, env.now.Time());
    }
  }

  /** Freshly granted timers with the scheduled colour remembered. */
  lemma QuietlyTimedExactly(w: World, context: AccountContext, env: Env, p: Plan, timed: World)
    requires Sound(w.alarm) && Modern(env.now) && Alone(w.display, context)
    requires context in w.states && IsAuto(w.states[context].mode) && w.screen.operate == NONE
    requires IsColorModeTemporary(w.temps, context) ==> InForce(InfoOf(w.temps.infos, context), env.now.Time())
    requires CreateOrUpdateTimers(w, Effective(w.states[context]), context, env) == (timed, ERR_OK)
    requires p == PlanAt(context, Effective(w.states[context]), env.now)
    ensures
      var v := TakeQuietly(Changed(timed, ERR_OK, p.Dark(env.now.Time())), context);
      && (Inv(Moment(v, env.now.Time()), p) <==> RestoredLands(w, p))
      && Sound(timed.alarm) && timed.temps == w.temps
  {
    TimedExactly(w, context, env);
    WithinIsDark(Effective(w.states[context]), context, env.now);
    ArmedIsScheduled(TakeQuietly(Changed(timed, ERR_OK, p.Dark(env.now.Time())), context), context, env.now);
  }

  /** The condition for a load to leave a run in order: an automatic mode with a valid schedule, timers on
      offer for it, and an override that, if it is in force, lands under the loaded schedule. */
  predicate Resumes(w: World, context: AccountContext, env: Env) {
    var state := LoadState(w.settings, context, env.copies).1;
    var info := Stored(w.temps.params, context);
    && IsAuto(state.mode) && ValidTimes(Effective(state))
    && Offered(w.alarm, BuildTimerKey(context), env.first, env.second)
    && (InForce(info, env.now.Time()) ==>
          Lands(PlanAt(context, Effective(state), env.now), ShowsDark(w.display, context), info.end))
  }

  lemma QuietLoadExactly(w: World, context: AccountContext, env: Env)
    requires Sound(w.alarm) && Modern(env.now) && Alone(w.display, context)
    ensures
      var state := LoadState(w.settings, context, env.copies).1;
      var v := TakeQuietly(LoadUserSettingData(w, context, false, false, false, env), context);
      && (Inv(Moment(v, env.now.Time()), PlanAt(context, Effective(state), env.now)) <==> Resumes(w, context, env))
      && Sound(v.alarm)
  {
    var w0 := Loaded(w, context, env);
    var state := LoadState(w.settings, context, env.copies).1;
    var p := PlanAt(context, Effective(state), env.now);
    var changed := OnStateChange(w0, context, false, false, false, false, env);
    var v := TakeQuietly(changed, context);
    LoadInSteps(w, context, false, env);
    RestoredOverride(w.temps, context, env.now);
    QuietChangeExactly(w0, context, env);
    InitIsNoMatter(v, p, env.now.Time(), env);
    InitLeavesDisplay(changed.w, v.display, context, env);
  }

  lemma InitLeavesDisplay(w: World, display: Display, context: AccountContext, env: Env)
    ensures InitSunriseSunsetMode(w.(display := display), context, env)
         == InitSunriseSunsetMode(w, context, env).(display := display)
    ensures InitSunriseSunsetMode(w, context, env).temps == w.temps
    ensures InitSunriseSunsetMode(w, context, env).display == w.display
  {
  }

  lemma BootLoadExactly(w: World, context: AccountContext, env: Env)
    requires Sound(w.alarm) && Modern(env.now) && Alone(w.display, context)
    ensures
      var state := LoadState(w.settings, context, env.copies).1;
      var v := LoadUserSettingData(w, context, true, false, true, env).w;
      && (Inv(Moment(v, env.now.Time()), PlanAt(context, Effective(state), env.now))
          <==> Resumes(w, context, env))
      && Sound(v.alarm)
  {
    var w0 := Loaded(w, context, env);
    var state := LoadState(w.settings, context, env.copies).1;
    LoadInSteps(w, context, true, env);
    RestoredOverride(w.temps, context, env.now);
    StateChangeExactly(w0, context, false, false, true, env);
    InitIsNoMatter(
      OnStateChange(w0, context, true, false, false, true, env).w, PlanAt(context, Effective(state), env.now),
      env.now.Time(), env);
  }

  lemma SwitchLeaves(w: World, context: AccountContext, reach: SwitchEnv)
    requires Sound(w.alarm)
    ensures
      var switched := OnSwitchContext(w, context, reach).0;
      Sound(switched.alarm) && switched.display == w.display && switched.temps == w.temps
  {
    if w.current.userId != INVALID_USER_ID {
      ClearKeepsSound(w.alarm, BuildTimerKey(w.current));
    }
  }

  /** An account switch, or the boot of the service, leaves a run of the context's schedule in order exactly
      when the loaded mode is automatic, its timers are granted, and an override still in force lands. */
  lemma SwitchBeginsRun(w: World, context: AccountContext, boot: bool, reach: SwitchEnv, env: Env)
    requires Sound(w.alarm) && Modern(env.now) && Alone(w.display, context)
    ensures
      var switched := OnSwitchContext(w, context, reach).0;
      var state := LoadState(switched.settings, context, env.copies).1;
      var v := if boot then BootLoad(w, context, reach, env) else SwitchAndLoad(w, context, reach, env);
      && (Inv(Moment(v, env.now.Time()), PlanAt(context, Effective(state), env.now))
          <==> Resumes(switched, context, env))
      && Sound(v.alarm) && Stored(switched.temps.params, context) == Stored(w.temps.params, context)
  {
    SwitchLeaves(w, context, reach);
    if boot {
      BootLoadExactly(OnSwitchContext(w, context, reach).0, context, env);
    } else {
      QuietLoadExactly(OnSwitchContext(w, context, reach).0, context, env);
    }
  }

  // ---------- an example ----------

  const OWNER := AccountContext(100, INVALID_SUB_PROFILE_ID)

  const ALL_STORED := Copies(STORED, STORED, STORED, STORED, STORED)

  /** Half past ten at night of a day in 2024, and a time service that grants everything. */
  const TONIGHT := Env(
    Clock(19723 * DAY_TO_SECOND, 22 * 3600 + 1800), Reply(1, true), Reply(2, true), Reply(3, true), None,
    PairReply(true, true, true, true), ALL_STORED)

  /** A user with the times 22:00 to 7:00 in memory, who has just stored the custom mode. */
  const BEFORE := World(
    map[OWNER := DarkModeState(ALWAYS_LIGHT, 22 * 60, 31 * 60, SUNSET_TIME_DEFAULT, SUNRISE_TIME_DEFAULT)],
    OWNER, NO_TIMERS, Temps(map[], SystemParameters.Params(map[], {})), Screen(true, NONE, 0),
    Settings(true, map[(100, SETTING_DARK_MODE_MODE) := ToString(2)], map[], map[], []),
    Display(map[], map[], [100], true))

  const CUSTOM_TONIGHT := DarkModeState(CUSTOM_AUTO, 22 * 60, 31 * 60, SUNSET_TIME_DEFAULT, SUNRISE_TIME_DEFAULT)

  lemma TonightIsGranted(w: World)
    requires w.alarm == NO_TIMERS && Effective(StateOf(w, OWNER)) == (22 * 60, 31 * 60)
    ensures Granted(w, OWNER, TONIGHT)
  {
    ValidScheduleBounds(22 * 60, 31 * 60);
  }

  lemma NoTimersAreSound()
    ensures Sound(NO_TIMERS)
  {
    assert IdAt(NO_TIMERS, Slot(0, START)) == 0;
  }

  /** The invariant of the guaranteed run is met: this user's evening begins one. */
  lemma ThisEveningBegins()
    ensures
      var w := ModeUpdate(BEFORE, SETTING_DARK_MODE_MODE, OWNER, TONIGHT);
      Inv(Moment(w, TONIGHT.now.Time()), PlanAt(OWNER, (22 * 60, 31 * 60), TONIGHT.now))
  {
    LeadingIntegerInvertsToString(2);
    assert StateOf(BEFORE, OWNER).(mode := CUSTOM_AUTO) == CUSTOM_TONIGHT;
    assert Effective(CUSTOM_TONIGHT) == (22 * 60, 31 * 60);
    TonightIsGranted(WithState(BEFORE, OWNER, CUSTOM_TONIGHT));
    NoTimersAreSound();
    ModeUpdateBeginsRun(BEFORE, SETTING_DARK_MODE_MODE, OWNER, TONIGHT);
  }
}

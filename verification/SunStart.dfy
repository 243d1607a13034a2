/** How the sunrise/sunset mode starts: by its observer, by a load, or again when the clock changes. The pair is
    computed, stored and notified, and the next recalculation is armed. */
module SunStarts {
  import opened Decimal
  import opened Errors
  import opened Accounts
  import opened Schedule
  import opened AlarmLedger
  import opened SettingData
  import opened SunriseSunset
  import opened DarkMode
  import opened Observers
  import opened RunStart
  import opened SunSchedule
  import TimerRun

  // ---------- the pair ----------

  function SunsetKey(context: AccountContext): string { BuildSettingKey(SETTING_DARK_MODE_SUN_SET, context) }

  function SunriseKey(context: AccountContext): string { BuildSettingKey(SETTING_DARK_MODE_SUN_RISE, context) }

  /** Strict readers of the context's own keys find this pair, whatever their defaults. */
  ghost predicate HasPair(s: Settings, context: AccountContext, sunset: int32, sunrise: int32) {
    && (forall d: int32 :: GetInt32ValueStrictly(s, SunsetKey(context), d, context.userId) == (ERR_OK, sunset))
    && (forall d: int32 :: GetInt32ValueStrictly(s, SunriseKey(context), d, context.userId) == (ERR_OK, sunrise))
  }

  /** The store after the times were applied: a computed pair that differs from the one in memory is stored under
      the context's own keys and then notified, if the store takes it; nobody hears of one it does not take. */
  ghost predicate SunApplied(s: Settings, t: Settings, state: DarkModeState, context: AccountContext, env: Env) {
    match env.sun
    case None => t == s
    case Some((sunset, sunrise)) =>
      if (state.sunset, state.sunrise) == (sunset, sunrise) then t == s
      else if !Stores(s, env.pair) then t.notified == s.notified
      else
        && HasPair(t, context, sunset, sunrise)
        && t.notified == s.notified + [Notification(context.userId, SunsetKey(context), t.data),
                                       Notification(context.userId, SunriseKey(context), t.data)]
  }

  lemma PairIsFound(s: Settings, context: AccountContext, sunset: int32, sunrise: int32, reply: PairReply)
    requires Stores(s, reply)
    ensures
      var t := SetInt32ValuePair(
                 s, SunsetKey(context), sunset, SunriseKey(context), sunrise, context.userId, reply).0;
      && HasPair(t, context, sunset, sunrise)
      && t.notified == s.notified + [Notification(context.userId, SunsetKey(context), t.data),
                                     Notification(context.userId, SunriseKey(context), t.data)]
  {
    var sunsetKey, sunriseKey := SunsetKey(context), SunriseKey(context);
    SunKeysDiffer(context);
    var t := SetInt32ValuePair(s, sunsetKey, sunset, sunriseKey, sunrise, context.userId, reply).0;
    forall d: int32
      ensures GetInt32ValueStrictly(t, sunsetKey, d, context.userId) == (ERR_OK, sunset)
      ensures GetInt32ValueStrictly(t, sunriseKey, d, context.userId) == (ERR_OK, sunrise)
    {
      SuccessfulPairNotifiesAfterBoth(s, sunsetKey, sunset, sunriseKey, sunrise, context.userId, reply, d);
    }
    PairIsStored(s, sunsetKey, sunset, sunriseKey, sunrise, context.userId, reply);
  }

  lemma RefusedPairIsSilent(s: Settings, context: AccountContext, sunset: int32, sunrise: int32, reply: PairReply)
    requires !Stores(s, reply)
    ensures
      var t := SetInt32ValuePair(
                 s, SunsetKey(context), sunset, SunriseKey(context), sunrise, context.userId, reply).0;
      t.notified == s.notified
  {
  }

  lemma ApplyingStores(w: World, context: AccountContext, env: Env)
    requires context in w.states && w.states[context].mode == SUNRISE_SUNSET
    ensures
      var v := ApplySunriseSunsetTimes(w, context, env);
      SunApplied(w.settings, v.settings, w.states[context], context, env) && v.states == w.states
  {
    if env.sun.Some? {
      var (sunset, sunrise) := env.sun.value;
      if Stores(w.settings, env.pair) {
        PairIsFound(w.settings, context, sunset, sunrise, env.pair);
      } else {
        RefusedPairIsSilent(w.settings, context, sunset, sunrise, env.pair);
      }
    }
  }

  // ---------- the recalculation ----------

  /** The recalculation timer of the context, if any, computes the sun for it. */
  predicate Recalculates(a: Alarm, context: AccountContext) {
    var key := BuildTimerKey(context);
    key in a.recalculationIds ==>
      a.recalculationIds[key] in a.timers && a.timers[a.recalculationIds[key]].callback == Recalculate(context)
  }

  /** There is one. */
  predicate Recalculating(a: Alarm, context: AccountContext) {
    BuildTimerKey(context) in a.recalculationIds && Recalculates(a, context)
  }

  /** The time service has a timer for the recalculation besides those it may give the schedule. */
  predicate Spare(a: Alarm, env: Env) {
    && env.recalculation.started && env.recalculation.id != 0
    && env.recalculation.id !in a.timers && env.recalculation.id !in {env.first.id, env.second.id}
  }

  /** Starting the mode leaves the timer there is, or arms one for a day ahead where the service has one. */
  lemma StartingArms(w: World, context: AccountContext, env: Env)
    requires Sound(w.alarm) && context in w.states && w.states[context].mode == SUNRISE_SUNSET
    requires Recalculates(w.alarm, context)
    ensures
      var a := InitSunriseSunsetMode(w, context, env).alarm;
      var key := BuildTimerKey(context);
      && Sound(a) && Recalculates(a, context)
      && (key in w.alarm.recalculationIds ==> a == w.alarm)
      && (env.recalculation.started && env.recalculation.id != 0 && env.recalculation.id !in w.alarm.timers ==>
            Recalculating(a, context))
  {
    RecalculationIsArmed(w, context, env);
    SetRecalculationEffect(w.alarm, context, env);
  }

  lemma SetRecalculationEffect(a: Alarm, context: AccountContext, env: Env)
    requires Recalculates(a, context)
    ensures Recalculates(
              SetRecalculationTimer(a, BuildTimerKey(context), Recalculate(context), env.now, env.recalculation),
              context)
  {
  }

  /** A schedule's timers do not touch the recalculation timer; a refused schedule clears it with the rest. */
  lemma ChangeKeepsRecalculation(w: World, context: AccountContext, need: bool, reset: bool, boot: bool, env: Env)
    requires Sound(w.alarm) && context in w.states && IsAuto(w.states[context].mode) && Recalculates(w.alarm, context)
    ensures
      var a := OnStateChange(w, context, need, false, reset, boot, env).w.alarm;
      && Recalculates(a, context) && Sound(a)
      && a.timers.Keys <= w.alarm.timers.Keys + {env.first.id, env.second.id}
  {
    var times := Effective(w.states[context]);
    var key, callback := BuildTimerKey(context), SwitchColor(times.0, times.1, context);
    var timed := CreateOrUpdateTimers(w, times, context, env).0;
    ScheduleKeepsLedger(w.alarm, ToU64(times.0), ToU64(times.1), key, callback, env.now, env.first, env.second);
    ScheduleKeepsBooks(w.alarm, ToU64(times.0), ToU64(times.1), key, callback, env.now, env.first, env.second);
    ScheduleSucceedsExactly(
      w.alarm, ToU64(times.0), ToU64(times.1), key, callback, env.now, env.first, env.second);
    ScheduleKeepsRecalculation(
      w.alarm, ToU64(times.0), ToU64(times.1), context, callback, env.now, env.first, env.second);
    ClearKeepsSound(timed.alarm, key);
    ChangedAlarm(w, context, need, reset, boot, env, timed.alarm);
  }

  lemma ChangedAlarm(w: World, context: AccountContext, need: bool, reset: bool, boot: bool, env: Env, a: Alarm)
    requires context in w.states && IsAuto(w.states[context].mode)
    requires a == CreateOrUpdateTimers(w, Effective(w.states[context]), context, env).0.alarm
    ensures
      var b := OnStateChange(w, context, need, false, reset, boot, env).w.alarm;
      b == a || b == ClearTimerByUserId(a, BuildTimerKey(context))
  {
    ChangedAutoAlarm(w, context, need, reset, boot, env, a);
  }

  lemma ChangedAutoAlarm(w: World, context: AccountContext, need: bool, reset: bool, boot: bool, env: Env, a: Alarm)
    requires a == CreateOrUpdateTimers(w, Effective(StateOf(w, context)), context, env).0.alarm
    ensures
      var b := OnStateChangeToCustomAutoMode(w, context, need, false, reset, boot, env).w.alarm;
      b == a || b == ClearTimerByUserId(a, BuildTimerKey(context))
  {
    var times := Effective(StateOf(w, context));
    var timed := CreateOrUpdateTimers(w, times, context, env).0;
    TimerRun.ScheduleUpdateUndisturbed(timed, Within(times, env.now), context, reset, boot, env.now);
  }

  lemma SlotKeepsOtherTimer(
    a: Alarm, isStart: bool, key: nat, trigger: nat, callback: Callback, reply: Reply, id: nat)
    requires id in a.timers && id != (if isStart then IdsOf(a, key).start else IdsOf(a, key).end)
    ensures
      var b := SetTimer(a, isStart, key, trigger, callback, reply);
      && id in b.timers && b.timers[id] == a.timers[id] && b.recalculationIds == a.recalculationIds
      && (isStart ==> IdsOf(b, key).end == IdsOf(a, key).end)
  {
  }

  lemma ScheduleKeepsRecalculation(
    a: Alarm, start: nat, end: nat, context: AccountContext, callback: Callback, now: Clock, first: Reply,
    second: Reply)
    requires Sound(a) && Recalculates(a, context)
    ensures Recalculates(
              SetScheduleTime(a, start, end, BuildTimerKey(context), callback, now, first, second).0, context)
  {
    var key := BuildTimerKey(context);
    if key in a.recalculationIds && IsValidScheduleTime(start, end) {
      var id := IdAt(a, Slot(key, RECALCULATION));
      var a1 := a.(setupTimes := a.setupTimes[key := Pair(start, end)]);
      var trigger := TriggerTimes(start, end, now);
      var a2 := SetTimer(a1, true, key, trigger.0, callback, first);
      assert IdAt(a, Slot(key, START)) != id && IdAt(a, Slot(key, END)) != id;
      SlotKeepsOtherTimer(a1, true, key, trigger.0, callback, first, id);
      SlotKeepsOtherTimer(a2, false, key, trigger.1, callback, second, id);
    } else {
      ScheduleLeavesRecalculationIds(a, start, end, key, callback, now, first, second);
    }
  }

  lemma ScheduleLeavesRecalculationIds(
    a: Alarm, start: nat, end: nat, key: nat, callback: Callback, now: Clock, first: Reply, second: Reply)
    ensures
      var b := SetScheduleTime(a, start, end, key, callback, now, first, second).0;
      b.recalculationIds == a.recalculationIds && (!IsValidScheduleTime(start, end) ==> b == a)
  {
  }

  // ---------- the three ways in ----------

  lemma ModeUpdateInSteps(w: World, key: string, context: AccountContext, env: Env, changed: World)
    requires GetInt32ValueStrictly(w.settings, key, -1, context.userId) == (ERR_OK, 3)
    requires
      changed
      == OnStateChange(
        WithState(w, context, StateOf(w, context).(mode := SUNRISE_SUNSET)), context, true, false, true, false, env).w
    ensures ModeUpdate(w, key, context, env) == InitSunriseSunsetMode(changed, context, env)
  {
  }

  lemma StartingStores(w: World, context: AccountContext, env: Env)
    requires context in w.states && w.states[context].mode == SUNRISE_SUNSET
    ensures
      var v := InitSunriseSunsetMode(w, context, env);
      SunApplied(w.settings, v.settings, w.states[context], context, env) && v.states == w.states
  {
    ApplyingStores(w, context, env);
  }

  /** What a start of the mode leaves behind, from the store s and the timers a on. */
  ghost predicate Started(
    s: Settings, a: Alarm, v: World, state: DarkModeState, context: AccountContext, env: Env)
  {
    && StateOf(v, context) == state && SunApplied(s, v.settings, state, context, env)
    && Sound(v.alarm) && Recalculates(v.alarm, context)
    && (Spare(a, env) ==> Recalculating(v.alarm, context))
  }

  lemma StartingStarts(w: World, a: Alarm, context: AccountContext, env: Env)
    requires Sound(w.alarm) && Recalculates(w.alarm, context)
    requires context in w.states && w.states[context].mode == SUNRISE_SUNSET
    requires w.alarm.timers.Keys <= a.timers.Keys + {env.first.id, env.second.id}
    ensures Started(w.settings, a, InitSunriseSunsetMode(w, context, env), w.states[context], context, env)
  {
    StartingStores(w, context, env);
    StartingArms(w, context, env);
  }

  lemma ChangeStartsTheSun(
    w: World, context: AccountContext, need: bool, reset: bool, boot: bool, env: Env, changed: World)
    requires Sound(w.alarm) && Recalculates(w.alarm, context)
    requires context in w.states && w.states[context].mode == SUNRISE_SUNSET
    requires changed == OnStateChange(w, context, need, false, reset, boot, env).w
    ensures Started(
              w.settings, w.alarm, InitSunriseSunsetMode(changed, context, env), w.states[context], context, env)
  {
    StateChangeKeepsSettings(w, context, need, false, reset, boot, env);
    ChangeKeepsRecalculation(w, context, need, reset, boot, env);
    StartingStarts(changed, w.alarm, context, env);
  }

  /** The observer that reads the sunrise/sunset mode starts it: the pair is applied, and the recalculation is armed
      wherever the time service has a timer for it. */
  lemma ModeNoticeStartsTheSun(w: World, key: string, context: AccountContext, env: Env)
    requires Sound(w.alarm) && Recalculates(w.alarm, context)
    requires GetInt32ValueStrictly(w.settings, key, -1, context.userId) == (ERR_OK, 3)
    ensures Started(
              w.settings, w.alarm, ModeUpdate(w, key, context, env), StateOf(w, context).(mode := SUNRISE_SUNSET),
              context, env)
  {
    var w0 := WithState(w, context, StateOf(w, context).(mode := SUNRISE_SUNSET));
    var changed := OnStateChange(w0, context, true, false, true, false, env).w;
    ModeUpdateInSteps(w, key, context, env, changed);
    ChangeStartsTheSun(w0, context, true, true, false, env, changed);
  }

  /** A load that finds the sunrise/sunset mode starts it as well, over the copies it made. */
  lemma LoadStartsTheSun(w: World, context: AccountContext, boot: bool, env: Env)
    requires Sound(w.alarm) && Recalculates(w.alarm, context)
    requires LoadState(w.settings, context, env.copies).1.mode == SUNRISE_SUNSET
    ensures
      var (loaded, state) := LoadState(w.settings, context, env.copies);
      Started(
        loaded, w.alarm, LoadUserSettingData(w, context, boot, false, boot, env).w, state, context, env)
  {
    var w0 := Loaded(w, context, env);
    LoadInSteps(w, context, boot, env);
    ChangeStartsTheSun(
      w0, context, boot, false, boot, env, OnStateChange(w0, context, boot, false, false, boot, env).w);
  }

  lemma UpdateKeepsStore(w: World, dark: bool, context: AccountContext, now: Clock)
    ensures
      var v := UpdateDarkModeSchedule(w, dark, context, false, false, now);
      v.settings == w.settings && v.states == w.states
  {
  }

  /** A change of the clock or the zone computes the sun anew in that mode, and in no other. */
  lemma RestartAppliesTheSun(w: World, env: Env)
    ensures
      var v := BeforeRestart(w, env);
      var state := StateOf(w, w.current);
      && StateOf(v, w.current) == state
      && (if state.mode == SUNRISE_SUNSET then SunApplied(w.settings, v.settings, state, w.current, env)
          else v.settings == w.settings)
  {
    var w0 := Touch(w, w.current);
    var state := StateOf(w, w.current);
    if IsAuto(state.mode) {
      var w1 := if state.mode == SUNRISE_SUNSET then ApplySunriseSunsetTimes(w0, w.current, env) else w0;
      if state.mode == SUNRISE_SUNSET {
        ApplyingStores(w0, w.current, env);
      }
      UpdateKeepsStore(w1, Within(Effective(state), env.now), w.current, env.now);
      assert BeforeRestart(w, env)
          == UpdateDarkModeSchedule(w1, Within(Effective(state), env.now), w.current, false, false, env.now);
    }
  }

  // ---------- the sun is followed ----------

  /** A pair the store has taken, once its two notices are delivered, makes the schedule follow the sun exactly when
      it survives its observers. */
  lemma StoredPairIsFollowed(
    w: World, context: AccountContext, info: SunriseSunsetInfo, env: Env, first: Env, second: Env)
    requires info.condition == NORMAL && info.ToLocalMinutes(info.sunrise) != info.ToLocalMinutes(info.sunset)
    requires env.sun.Some? && info.SchedulePair() == Some((env.sun.value.0, env.sun.value.1))
    requires StateOf(w, context).mode == SUNRISE_SUNSET
    requires HasPair(w.settings, context, env.sun.value.0, env.sun.value.1)
    ensures
      var after := StateOf(ObservePair(w, context, first, second), context);
      var survives := Survives(StateOf(w, context), env.sun.value.0, env.sun.value.1);
      && ((after.sunset, after.sunrise) == env.sun.value <==> survives)
      && (survives ==> FollowsTheSun(after, info))
  {
    var (sunset, sunrise) := env.sun.value;
    assert GetInt32ValueStrictly(w.settings, SunsetKey(context), SUNSET_TIME_DEFAULT, context.userId).1 == sunset;
    assert GetInt32ValueStrictly(w.settings, SunriseKey(context), SUNRISE_TIME_DEFAULT, context.userId).1 == sunrise;
    ObserversTakePair(w, context, sunset, sunrise, first, second);
    PairSurvivesExactly(StateOf(w, context), sunset, sunrise);
    if Survives(StateOf(w, context), sunset, sunrise) {
      PairFollowsTheSun(StateOf(ObservePair(w, context, first, second), context), info);
    }
  }

  // ---------- over runs ----------

  lemma TimeUpdateRecalculates(w: World, context: AccountContext, reset: bool, env: Env)
    requires Sound(w.alarm) && context in w.states && Recalculates(w.alarm, context)
    ensures Recalculates(OnStateChange(w, context, true, false, reset, false, env).w.alarm, context)
  {
    match w.states[context].mode
    case INVALID =>
    case ALWAYS_LIGHT => AllDayLeavesNone(w, context, false, reset, env);
    case ALWAYS_DARK => AllDayLeavesNone(w, context, true, reset, env);
    case _ => ChangeKeepsRecalculation(w, context, true, reset, false, env);
  }

  lemma AllDayLeavesNone(w: World, context: AccountContext, dark: bool, reset: bool, env: Env)
    ensures BuildTimerKey(context)
         !in OnStateChangeToAllDayMode(w, context, dark, true, reset, false, env).w.alarm.recalculationIds
  {
  }

  lemma OtherModeLeavesNone(w: World, key: string, context: AccountContext, env: Env)
    requires GetInt32ValueStrictly(w.settings, key, -1, context.userId) != (ERR_OK, 3)
    ensures BuildTimerKey(context) !in ModeUpdate(w, key, context, env).alarm.recalculationIds
  {
  }

  lemma ObserverRecalculates(w: World, o: Observer, env: Env)
    requires Sound(w.alarm) && Recalculates(w.alarm, o.context)
    ensures Recalculates(TimerRun.RunObserver(w, o, env).alarm, o.context)
  {
    var state := StateOf(w, o.context);
    var settings, user := w.settings, o.context.userId;
    if o.setting == SETTING_DARK_MODE_MODE {
      if GetInt32ValueStrictly(settings, o.key, -1, user) == (ERR_OK, 3) {
        ModeNoticeStartsTheSun(w, o.key, o.context, env);
      } else {
        OtherModeLeavesNone(w, o.key, o.context, env);
      }
    } else if o.setting == SETTING_DARK_MODE_START_TIME {
      var value := GetInt32ValueStrictly(settings, o.key, -1, user).1;
      TimeUpdateRecalculates(WithState(w, o.context, state.(start := value)), o.context, true, env);
    } else if o.setting == SETTING_DARK_MODE_END_TIME {
      var value := GetInt32ValueStrictly(settings, o.key, -1, user).1;
      TimeUpdateRecalculates(WithState(w, o.context, state.(end := value)), o.context, true, env);
    } else if o.setting == SETTING_DARK_MODE_SUN_SET {
      var value := GetInt32ValueStrictly(settings, o.key, SUNSET_TIME_DEFAULT, user).1;
      TimeUpdateRecalculates(WithState(w, o.context, TakeSunset(state, value)), o.context, false, env);
    } else if o.setting == SETTING_DARK_MODE_SUN_RISE {
      var value := GetInt32ValueStrictly(settings, o.key, SUNRISE_TIME_DEFAULT, user).1;
      TimeUpdateRecalculates(WithState(w, o.context, TakeSunrise(state, value)), o.context, false, env);
    }
  }

  lemma LoadRecalculates(w: World, context: AccountContext, boot: bool, env: Env)
    requires Sound(w.alarm) && w.alarm.recalculationIds == map[]
    ensures Recalculates(LoadUserSettingData(w, context, boot, false, boot, env).w.alarm, context)
  {
    var w0 := Loaded(w, context, env);
    LoadInSteps(w, context, boot, env);
    if LoadState(w.settings, context, env.copies).1.mode == SUNRISE_SUNSET {
      LoadStartsTheSun(w, context, boot, env);
    } else if IsAuto(w0.states[context].mode) {
      ChangeKeepsRecalculation(w0, context, boot, false, boot, env);
    } else {
      PlainChangeLeavesNone(w0, context, boot, env);
    }
  }

  lemma PlainChangeLeavesNone(w: World, context: AccountContext, boot: bool, env: Env)
    requires context in w.states && !IsAuto(w.states[context].mode) && w.alarm.recalculationIds == map[]
    ensures OnStateChange(w, context, boot, false, false, boot, env).w.alarm.recalculationIds == map[]
  {
  }

  lemma SwitchRecalculates(a: TimerRun.Point, e: TimerRun.Event, b: TimerRun.Point)
    requires TimerRun.Good(a) && TimerRun.Step(a, e, b) && e.Switch? && Recalculates(a.w.alarm, a.w.current)
    ensures Recalculates(b.w.alarm, b.w.current)
  {
    if a.w.settings.initialized || e.reach.available {
      TimerRun.SwitchEmpties(a.w, e.context, e.reach);
      var v := OnSwitchContext(a.w, e.context, e.reach).0;
      TimerRun.LoadAfterSwitch(v, e.context, e.boot, e.boot, e.env);
      LoadRecalculates(v, e.context, e.boot, e.env);
    } else {
      assert OnSwitchContext(a.w, e.context, e.reach) == (a.w, ERR_NO_INIT);
      TimerRun.LoadWithoutStore(a.w, e.context, e.boot, false, e.boot, e.env);
    }
  }

  lemma RestartRecalculates(a: Alarm, b: Alarm, now: Clock, refused: set<nat>, context: AccountContext)
    requires Sound(a) && Restarted(a, b, now, refused) && Recalculates(a, context)
    ensures Recalculates(b, context)
  {
    RestartKeepsCallbacks(a, b, now, refused);
  }

  lemma AutoChangeKeepsCurrent(w: World, context: AccountContext, reset: bool, env: Env)
    ensures OnStateChangeToCustomAutoMode(w, context, true, false, reset, false, env).w.current == w.current
  {
    var times := Effective(StateOf(w, context));
    var timed := CreateOrUpdateTimers(w, times, context, env).0;
    TimerRun.ScheduleUpdateUndisturbed(timed, Within(times, env.now), context, reset, false, env.now);
  }

  lemma AllDayChangeKeepsCurrent(w: World, context: AccountContext, dark: bool, reset: bool, env: Env)
    ensures OnStateChangeToAllDayMode(w, context, dark, true, reset, false, env).w.current == w.current
  {
  }

  lemma ChangeKeepsCurrent(w: World, context: AccountContext, reset: bool, env: Env)
    ensures OnStateChange(w, context, true, false, reset, false, env).w.current == w.current
  {
    AutoChangeKeepsCurrent(w, context, reset, env);
    AllDayChangeKeepsCurrent(w, context, false, reset, env);
    AllDayChangeKeepsCurrent(w, context, true, reset, env);
  }

  lemma ModeUpdateKeepsCurrent(w: World, key: string, context: AccountContext, env: Env)
    ensures ModeUpdate(w, key, context, env).current == w.current
  {
    var w0 := WithState(w, context, TakeMode(w, key, context));
    ChangeKeepsCurrent(w0, context, true, env);
    TimerRun.TimesUndisturbed(OnStateChange(w0, context, true, false, true, false, env).w, context, env);
  }

  lemma ObserverKeepsCurrent(w: World, o: Observer, env: Env)
    ensures TimerRun.RunObserver(w, o, env).current == w.current
  {
    ModeUpdateKeepsCurrent(w, o.key, o.context, env);
    TimeUpdateKeepsCurrent(w, o.key, o.context, START_TIME, env);
    TimeUpdateKeepsCurrent(w, o.key, o.context, END_TIME, env);
    TimeUpdateKeepsCurrent(w, o.key, o.context, SUNSET_TIME, env);
    TimeUpdateKeepsCurrent(w, o.key, o.context, SUNRISE_TIME, env);
  }

  lemma TimeUpdateKeepsCurrent(w: World, key: string, context: AccountContext, which: Time, env: Env)
    ensures TimeUpdate(w, key, context, which, env).current == w.current
  {
    ChangeKeepsCurrent(WithState(w, context, TakeTime(w, key, context, which)), context, Resets(which), env);
  }

  lemma ObserveRecalculates(a: TimerRun.Point, setting: string, context: AccountContext, env: Env, o: Observer)
    requires TimerRun.Good(a) && Recalculates(a.w.alarm, a.w.current)
    requires setting in SETTING_KEYS && ObserverName(setting, context) in a.w.settings.registered
    requires o == a.w.settings.registered[ObserverName(setting, context)]
    ensures
      var v := TimerRun.RunObserver(a.w, o, env);
      v.current == a.w.current && Recalculates(v.alarm, v.current)
  {
    assert o == ObserverOf(setting, a.w.current);
    ObserverRecalculates(a.w, o, env);
    ObserverKeepsCurrent(a.w, o, env);
  }

  lemma TimeChangeRecalculates(a: TimerRun.Point, env: Env, refused: set<nat>, b: TimerRun.Point)
    requires TimerRun.Good(a) && TimerRun.Step(a, TimerRun.TimeChanges(env, refused), b)
    requires Recalculates(a.w.alarm, a.w.current)
    ensures Recalculates(b.w.alarm, b.w.current)
  {
    TimerRun.BeforeRestartUndisturbed(a.w, env);
    if IsAuto(StateOf(a.w, a.w.current).mode) {
      RestartRecalculates(a.w.alarm, b.w.alarm, env.now, refused, a.w.current);
    }
  }

  lemma StepRecalculates(a: TimerRun.Point, e: TimerRun.Event, b: TimerRun.Point)
    requires TimerRun.Good(a) && TimerRun.Step(a, e, b) && Recalculates(a.w.alarm, a.w.current)
    ensures Recalculates(b.w.alarm, b.w.current)
  {
    match e
    case Switch(_, _, _, _) => SwitchRecalculates(a, e, b);
    case Observe(setting, context, env) =>
      ObserveRecalculates(a, setting, context, env, a.w.settings.registered[ObserverName(setting, context)]);
    case StoreChanges(_) =>
    case OtherObserver(_, _) =>
    case TimeChanges(env, refused) => TimeChangeRecalculates(a, env, refused, b);
    case _ => TimerRun.QuietEvent(a, e, b);
  }

  /** In every reachable state a recalculation timer of the current context computes the sun for that context. */
  lemma {:induction false} EveryRunRecalculates(points: seq<TimerRun.Point>, events: seq<TimerRun.Event>)
    requires TimerRun.IsRun(points, events)
    ensures Recalculates(points[|events|].w.alarm, points[|events|].w.current)
    decreases |events|
  {
    if events != [] {
      var n := |events| - 1;
      EveryRunRecalculates(points[..n + 1], events[..n]);
      TimerRun.EveryRunIsConsistent(points[..n + 1], events[..n]);
      StepRecalculates(points[n], events[n], points[n + 1]);
    }
  }

  /** Outside the mode nothing is applied, whatever was computed: the callback of a recalculation that was armed
      before is ignored. */
  lemma OtherModesApplyNothing(w: World, context: AccountContext, env: Env)
    requires StateOf(w, context).mode != SUNRISE_SUNSET
    ensures ApplySunriseSunsetTimes(w, context, env) == w && RecalculationCallback(w, context, env) == w
    ensures InitSunriseSunsetMode(w, context, env) == w
  {
  }
}

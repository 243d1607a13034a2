/** The sunrise/sunset mode end to end: a computed pair is stored, notified, observed, and from then on
    the scheduled colour follows the sun. */
module SunSchedule {
  import opened Decimal
  import opened Accounts
  import opened Schedule
  import opened AlarmLedger
  import opened SettingData
  import opened SunriseSunset
  import opened DarkMode
  import opened ColourRun
  import opened RunStart
  import opened FirstNotices
  import opened Observers

  /** The two observers, in the order of their notifications. */
  function ObservePair(w: World, context: AccountContext, first: Env, second: Env): World {
    SunriseTimeUpdate(
      SunsetTimeUpdate(w, BuildSettingKey(SETTING_DARK_MODE_SUN_SET, context), context, first),
      BuildSettingKey(SETTING_DARK_MODE_SUN_RISE, context), context, second)
  }

  /** The store takes both writes. */
  predicate Stores(s: Settings, r: PairReply) { s.initialized && r.helpers && r.first && r.second }

  /** The scheduled colour is dark exactly when the sun is down. */
  ghost predicate FollowsTheSun(state: DarkModeState, info: SunriseSunsetInfo) {
    && IsValidScheduleTime(ToU64(Effective(state).0), ToU64(Effective(state).1))
    && forall now: Clock :: Within(Effective(state), now) <==> !info.IsDaytime(now.Minute())
  }

  lemma PairFollowsTheSun(state: DarkModeState, info: SunriseSunsetInfo)
    requires info.condition == NORMAL && info.ToLocalMinutes(info.sunrise) != info.ToLocalMinutes(info.sunset)
    requires info.SchedulePair() == Some((state.sunset, state.sunrise)) && state.mode == SUNRISE_SUNSET
    ensures FollowsTheSun(state, info)
  {
    NightScheduleComplementsDaytime(info);
    NoWrapInRange(state.sunset);
    NoWrapInRange(state.sunrise);
    forall now: Clock
      ensures Within(Effective(state), now) <==> !info.IsDaytime(now.Minute())
    {
      MinuteReached(MINS_PER_DAY, now.second);
    }
  }

  /** A recalculation whose pair differs from the one in memory and survives its observers makes the
      schedule follow the sun; the pair already in memory is not written again and follows it too. */
  lemma RecalculationFollowsTheSun(
    w: World, context: AccountContext, info: SunriseSunsetInfo, env: Env, first: Env, second: Env)
    requires info.condition == NORMAL && info.ToLocalMinutes(info.sunrise) != info.ToLocalMinutes(info.sunset)
    requires env.sun.Some? && info.SchedulePair() == Some((env.sun.value.0, env.sun.value.1))
    requires Stores(w.settings, env.pair)
    requires context in w.states && w.states[context].mode == SUNRISE_SUNSET
    ensures
      var state := w.states[context];
      var applied := RecalculationCallback(w, context, env);
      if (state.sunset, state.sunrise) == env.sun.value then
        applied == w && FollowsTheSun(state, info)
      else
        var after := ObservePair(applied, context, first, second);
        && applied.settings.notified[|w.settings.notified|..] == [
             Notification(context.userId, BuildSettingKey(SETTING_DARK_MODE_SUN_SET, context), applied.settings.data),
             Notification(context.userId, BuildSettingKey(SETTING_DARK_MODE_SUN_RISE, context), applied.settings.data)]
        && ((StateOf(after, context).sunset, StateOf(after, context).sunrise) == env.sun.value
            <==> Survives(state, env.sun.value.0, env.sun.value.1))
        && (Survives(state, env.sun.value.0, env.sun.value.1) ==> FollowsTheSun(StateOf(after, context), info))
  {
    var state := w.states[context];
    var (sunset, sunrise) := env.sun.value;
    if (state.sunset, state.sunrise) == (sunset, sunrise) {
      PairFollowsTheSun(state, info);
    } else {
      var sunsetKey := BuildSettingKey(SETTING_DARK_MODE_SUN_SET, context);
      var sunriseKey := BuildSettingKey(SETTING_DARK_MODE_SUN_RISE, context);
      var applied := RecalculationCallback(w, context, env);
      SunKeysDiffer(context);
      SuccessfulPairNotifiesAfterBoth(
        w.settings, sunsetKey, sunset, sunriseKey, sunrise, context.userId, env.pair, SUNSET_TIME_DEFAULT);
      StoredPairReachesMemory(w, context, sunset, sunrise, env.pair, first, second);
      ObserversKeepMode(applied, context, first, second);
      var after := StateOf(ObservePair(applied, context, first, second), context);
      if Survives(state, sunset, sunrise) {
        PairFollowsTheSun(after, info);
      }
    }
  }

  lemma ObserversKeepMode(w: World, context: AccountContext, first: Env, second: Env)
    ensures StateOf(ObservePair(w, context, first, second), context).mode == StateOf(w, context).mode
  {
    var sunsetKey := BuildSettingKey(SETTING_DARK_MODE_SUN_SET, context);
    var sunriseKey := BuildSettingKey(SETTING_DARK_MODE_SUN_RISE, context);
    var sunset := GetInt32ValueStrictly(w.settings, sunsetKey, SUNSET_TIME_DEFAULT, context.userId).1;
    var w1 := WithState(w, context, TakeSunset(StateOf(w, context), sunset));
    StateChangeKeepsSettings(w1, context, true, false, false, false, first);
    var w2 := SunsetTimeUpdate(w, sunsetKey, context, first);
    var sunrise := GetInt32ValueStrictly(w2.settings, sunriseKey, SUNRISE_TIME_DEFAULT, context.userId).1;
    var w3 := WithState(w2, context, TakeSunrise(StateOf(w2, context), sunrise));
    StateChangeKeepsSettings(w3, context, true, false, false, false, second);
  }

  /** Entering the mode leaves a recalculation timer for the context, armed a day ahead when it is new and
      the time service grants it; one that is there already is left as it is. */
  lemma RecalculationIsArmed(w: World, context: AccountContext, env: Env)
    requires Sound(w.alarm) && context in w.states && w.states[context].mode == SUNRISE_SUNSET
    ensures
      var a := InitSunriseSunsetMode(w, context, env).alarm;
      var key := BuildTimerKey(context);
      && Sound(a) && a.timerIds == w.alarm.timerIds && a.setupTimes == w.alarm.setupTimes
      && (key in w.alarm.recalculationIds ==> a == w.alarm && a.recalculationIds[key] in a.timers)
      && (key !in w.alarm.recalculationIds
          && env.recalculation.id != 0 && env.recalculation.id !in w.alarm.timers && env.recalculation.started ==>
            && key in a.recalculationIds && a.recalculationIds[key] in a.timers
            && a.timers[a.recalculationIds[key]]
               == Timer(ToU64((env.now.Time() + DAY_TO_SECOND) * SECOND_TO_MILLI), true, Recalculate(context)))
  {
    var key := BuildTimerKey(context);
    SetRecalculationKeepsSound(w.alarm, key, Recalculate(context), env.now, env.recalculation);
    assert (env.now.Time() + DAY_TO_SECOND) * SECOND_TO_MILLI == env.now.Time() * SECOND_TO_MILLI + STEP;
    if key in w.alarm.recalculationIds {
      assert IdAt(w.alarm, Slot(key, RECALCULATION)) == w.alarm.recalculationIds[key];
    }
  }

  // ---------- the run of the schedule ----------

  /** The state in memory after both observers. */
  function TakePair(w: World, context: AccountContext): DarkModeState {
    var sunsetKey := BuildSettingKey(SETTING_DARK_MODE_SUN_SET, context);
    var sunriseKey := BuildSettingKey(SETTING_DARK_MODE_SUN_RISE, context);
    var sunset := GetInt32ValueStrictly(w.settings, sunsetKey, SUNSET_TIME_DEFAULT, context.userId).1;
    var sunrise := GetInt32ValueStrictly(w.settings, sunriseKey, SUNRISE_TIME_DEFAULT, context.userId).1;
    TakeSunrise(TakeSunset(StateOf(w, context), sunset), sunrise)
  }

  /** The world between the two observers. */
  lemma BetweenObservers(w: World, context: AccountContext, env: Env, p: Plan)
    requires Sound(w.alarm) && Modern(env.now) && Alone(w.display, context)
    requires IsAuto(StateOf(w, context).mode) && p.context == context
    ensures
      var between := SunsetTimeUpdate(w, BuildSettingKey(SETTING_DARK_MODE_SUN_SET, context), context, env);
      && TakeTime(between, BuildSettingKey(SETTING_DARK_MODE_SUN_RISE, context), context, SUNRISE_TIME)
         == TakePair(w, context)
      && (GoesOn(between, p, env.now.Time(), false, false) <==> GoesOn(w, p, env.now.Time(), false, false))
      && Alone(between.display, context) && Sound(between.alarm) && IsAuto(StateOf(between, context).mode)
  {
    var sunsetKey := BuildSettingKey(SETTING_DARK_MODE_SUN_SET, context);
    var changed := WithState(w, context, TakeTime(w, sunsetKey, context, SUNSET_TIME));
    TimeUpdatesBeginRun(w, sunsetKey, context, SUNSET_TIME, env);
    StateChangeKeepsSettings(changed, context, true, false, false, false, env);
    AutoChangeLeaves(changed, p, false, env);
  }

  /** The two observers of a new pair, delivered together, leave a run of the new schedule in order exactly
      when the second is granted its timers and a running override lands under the new schedule. */
  lemma PairKeepsRun(w: World, context: AccountContext, first: Env, second: Env)
    requires Sound(w.alarm) && Modern(second.now) && first.now == second.now && Alone(w.display, context)
    requires IsAuto(StateOf(w, context).mode)
    ensures
      var between := SunsetTimeUpdate(w, BuildSettingKey(SETTING_DARK_MODE_SUN_SET, context), context, first);
      var state := TakeTime(between, BuildSettingKey(SETTING_DARK_MODE_SUN_RISE, context), context, SUNRISE_TIME);
      var p := PlanAt(context, Effective(state), second.now);
      var after := ObservePair(w, context, first, second);
      && state == TakePair(w, context)
      && (Inv(Moment(after, second.now.Time()), p)
          <==> && Granted(WithState(between, context, state), context, second)
               && GoesOn(w, p, second.now.Time(), false, false))
      && Sound(after.alarm)
  {
    var sunriseKey := BuildSettingKey(SETTING_DARK_MODE_SUN_RISE, context);
    var between := SunsetTimeUpdate(w, BuildSettingKey(SETTING_DARK_MODE_SUN_SET, context), context, first);
    BetweenObservers(w, context, first, PlanAt(context, Effective(TakePair(w, context)), second.now));
    SunriseObserverExactly(between, sunriseKey, context, second, TakePair(w, context));
  }
}

/** Inputs at which the guarantee is lost: the sun's pair, and the zone, move the schedule under a running
    override, whose window stays where it was. */
module LostRuns {
  import opened Decimal
  import opened Accounts
  import opened Schedule
  import opened AlarmLedger
  import SystemParameters
  import opened TemporaryWindow
  import opened TemporaryColorMode
  import opened ScreenSwitchOperator
  import opened SettingData
  import opened UiAppearance
  import opened DarkMode
  import opened ColourRun
  import opened RunStart
  import opened FirstNotices
  import opened RunContinues
  import opened Observers
  import opened SunSchedule

  /** The override in force over a light screen, from `start` to `end`. */
  predicate LightFor(w: World, context: AccountContext, info: TempInfo) {
    && InfoOf(w.temps.infos, context) == info && info.temporary
    && !ShowsDark(w.display, context) && w.screen.operate == NONE
  }

  /** The light that outlasts its window: wrong in every second from the window's end to the morning. */
  lemma LightOutlasts(m: Moment, p: Plan, info: TempInfo, n: nat)
    requires p.Valid() && Scheduled(m, p) && LightFor(m.w, p.context, info)
    requires info.start <= m.t < info.end <= m.t + n && Phase(p.zone, p.zone) == 0
    requires p.end > DAY_TO_MINUTE
    requires p.zone + p.start * MINUTE_TO_SECOND < info.end && m.t + n < p.zone + p.end * MINUTE_TO_SECOND
    ensures !Guaranteed(After(m, p, Ticks(n)), p)
  {
    ValidScheduleBounds(p.start, p.end);
    forall u | info.end - 1 <= u <= m.t + n
      ensures p.Dark(u)
    {
      DarkAtOffset(p.start, p.end, p.zone, p.zone, u - p.zone);
    }
    assert WrongFor(m, p, info.end - 1, m.t + n - info.end + 1);
    LostFromTheEnd(m, p, n);
    WaitIsTicks(m, p, n);
  }

  // ---------- the sunset moves ----------

  /** The observer of a sunset or a sunrise under an override in force. */
  lemma ObserverLeavesOverride(w: World, context: AccountContext, state: DarkModeState, env: Env)
    requires IsAuto(state.mode) && InForce(InfoOf(w.temps.infos, context), env.now.Time())
    ensures
      var v := OnStateChange(WithState(w, context, state), context, true, false, false, false, env).w;
      && v.display == w.display && v.temps == w.temps && v.states == w.states[context := state]
      && v.settings == w.settings
      && (w.screen.operate == NONE ==> v.screen.operate == NONE)
  {
    var w0 := WithState(w, context, state);
    var timed := CreateOrUpdateTimers(w0, Effective(state), context, env).0;
  }

  /** A granted state change schedules the plan of its state. */
  lemma GrantedIsScheduled(w: World, context: AccountContext, env: Env)
    requires Sound(w.alarm) && Modern(env.now) && context in w.states && IsAuto(w.states[context].mode)
    requires Granted(w, context, env)
    ensures
      var v := OnStateChange(w, context, true, false, false, false, env).w;
      var p := PlanAt(context, Effective(w.states[context]), env.now);
      Scheduled(Moment(v, env.now.Time()), p) && p.Valid()
  {
    var times := Effective(w.states[context]);
    var timed := CreateOrUpdateTimers(w, times, context, env).0;
    TimedExactly(w, context, env);
    WithinIsDark(times, context, env.now);
    GrantedExactly(w, context, env);
    UpdateKeepsTimers(timed, Within(times, env.now), context, env.now);
    assert OnStateChange(w, context, true, false, false, false, env).w
        == UpdateDarkModeSchedule(timed, Within(times, env.now), context, false, false, env.now);
    ArmedIsScheduled(OnStateChange(w, context, true, false, false, false, env).w, context, env.now);
  }

  lemma UpdateKeepsTimers(w: World, dark: bool, context: AccountContext, now: Clock)
    ensures
      var v := UpdateDarkModeSchedule(w, dark, context, false, false, now);
      v.alarm == w.alarm && v.states == w.states
  {
  }

  /** What the two observers of the pair 17:59 and 7:00 make of a world with a light override in force. */
  lemma PairUnderOverride(w: World, context: AccountContext, info: TempInfo, first: Env, second: Env)
    requires Sound(w.alarm) && Modern(second.now) && first.now == second.now
    requires LightFor(w, context, info) && InForce(info, second.now.Time())
    requires TakePair(w, context) == StateOf(w, context).(sunset := 1079, sunrise := 1860)
    requires StateOf(w, context).mode == SUNRISE_SUNSET
    requires
      var between := SunsetTimeUpdate(w, BuildSettingKey(SETTING_DARK_MODE_SUN_SET, context), context, first);
      Granted(WithState(between, context, TakePair(w, context)), context, second)
    ensures
      var v := ObservePair(w, context, first, second);
      && Scheduled(Moment(v, second.now.Time()), PlanAt(context, (1079, 1860), second.now))
      && LightFor(v, context, info) && PlanAt(context, (1079, 1860), second.now).Valid()
  {
    var sunsetKey := BuildSettingKey(SETTING_DARK_MODE_SUN_SET, context);
    var taken := TakeTime(w, sunsetKey, context, SUNSET_TIME);
    var between := SunsetTimeUpdate(w, sunsetKey, context, first);
    ObserverLeavesOverride(w, context, taken, first);
    TimedSound(WithState(w, context, taken), context, first);
    assert between == OnStateChange(WithState(w, context, taken), context, true, false, false, false, first).w;
    var state := TakePair(w, context);
    ObserverLeavesOverride(between, context, state, second);
    GrantedIsScheduled(WithState(between, context, state), context, second);
    assert ObservePair(w, context, first, second)
        == OnStateChange(WithState(between, context, state), context, true, false, false, false, second).w;
  }

  lemma TimedSound(w: World, context: AccountContext, env: Env)
    requires Sound(w.alarm) && Modern(env.now) && context in w.states && IsAuto(w.states[context].mode)
    ensures Sound(OnStateChange(w, context, true, false, false, false, env).w.alarm)
  {
    TimedExactly(w, context, env);
    var times := Effective(w.states[context]);
    UpdateKeepsTimers(CreateOrUpdateTimers(w, times, context, env).0, Within(times, env.now), context, env.now);
  }

  /** Under the pair 18:00 and 7:00 the user picks light at 23:00, until 17:59:59 the next day. At noon the
      sun is computed anew and brings 17:59. From the end of the window until 7:00 in the morning the screen
      is light, the schedule is dark, and nothing is recorded or pending. */
  lemma MovedSunsetLosesTheRun(
    w: World, context: AccountContext, midnight: int, env: Env, first: Env, second: Env, n: nat)
    requires Sound(w.alarm) && Modern(env.now) && context in w.states
    requires env.now == Clock(midnight, 12 * 3600) && first.now == env.now && second.now == env.now
    requires w.states[context].mode == SUNRISE_SUNSET
    requires (w.states[context].sunset, w.states[context].sunrise) == (18 * 60, 31 * 60)
    requires LightFor(w, context, TempInfo(true, midnight - 3600, midnight + 18 * 3600 - 1))
    requires env.sun == Some((1079, 31 * 60)) && Stores(w.settings, env.pair)
    requires
      var stored := RecalculationCallback(w, context, env);
      var between := SunsetTimeUpdate(stored, BuildSettingKey(SETTING_DARK_MODE_SUN_SET, context), context, first);
      Granted(WithState(between, context, w.states[context].(sunset := 1079)), context, second)
    requires 6 * 3600 - 1 <= n < 19 * 3600
    ensures
      var v := ObservePair(RecalculationCallback(w, context, env), context, first, second);
      var p := PlanAt(context, (1079, 31 * 60), env.now);
      && Scheduled(Moment(v, env.now.Time()), p)
      && !Guaranteed(After(Moment(v, env.now.Time()), p, Ticks(n)), p)
  {
    var stored := RecalculationCallback(w, context, env);
    var p := PlanAt(context, (1079, 31 * 60), env.now);
    var info := TempInfo(true, midnight - 3600, midnight + 18 * 3600 - 1);
    StoredPairIsTaken(w, context, env);
    PairUnderOverride(stored, context, info, first, second);
    NoWrapInRange(1079);
    NoWrapInRange(31 * 60);
    LightOutlasts(Moment(ObservePair(stored, context, first, second), env.now.Time()), p, info, n);
  }

  lemma StoredPairIsTaken(w: World, context: AccountContext, env: Env)
    requires context in w.states && w.states[context].mode == SUNRISE_SUNSET
    requires (w.states[context].sunset, w.states[context].sunrise) == (18 * 60, 31 * 60)
    requires env.sun == Some((1079, 31 * 60)) && Stores(w.settings, env.pair)
    ensures
      var stored := RecalculationCallback(w, context, env);
      && TakePair(stored, context) == w.states[context].(sunset := 1079, sunrise := 31 * 60)
      && stored == w.(settings := stored.settings)
  {
    SunKeysDiffer(context);
    var sunsetKey := BuildSettingKey(SETTING_DARK_MODE_SUN_SET, context);
    var sunriseKey := BuildSettingKey(SETTING_DARK_MODE_SUN_RISE, context);
    SuccessfulPairNotifiesAfterBoth(
      w.settings, sunsetKey, 1079, sunriseKey, 31 * 60, context.userId, env.pair, SUNSET_TIME_DEFAULT);
    SuccessfulPairNotifiesAfterBoth(
      w.settings, sunsetKey, 1079, sunriseKey, 31 * 60, context.userId, env.pair, SUNRISE_TIME_DEFAULT);
  }

  // ---------- a day in 2024 ----------

  const NOON := Clock(19724 * DAY_TO_SECOND, 12 * 3600)

  /** A noon at which the sun is computed anew and the time service offers these two ids. */
  function NoonEnv(start: nat, end: nat): Env {
    Env(NOON, Reply(start, true), Reply(end, true), Reply(7, true), Some((1079, 31 * 60)),
        PairReply(true, true, true, true), ALL_STORED)
  }

  const SUN := DarkModeState(SUNRISE_SUNSET, -1, -1, 18 * 60, 31 * 60)

  /** The light picked at 23:00 the night before. */
  const NIGHT_LIGHT := TempInfo(true, NOON.midnight - 3600, NOON.midnight + 18 * 3600 - 1)

  const UNTIMED := World(
    map[OWNER := SUN], OWNER, NO_TIMERS, Temps(map[OWNER := NIGHT_LIGHT], SystemParameters.Params(map[], {})),
    Screen(true, NONE, 0), Settings(true, map[], map[], map[], []), Display(map[OWNER := false], map[], [100], true))

  /** The same with the timers of the pair in memory. */
  const NOON_WORLD := CreateOrUpdateTimers(UNTIMED, (18 * 60, 31 * 60), OWNER, NoonEnv(1, 2)).0

  lemma NoonIsGuaranteed()
    ensures Sound(NOON_WORLD.alarm) && NOON_WORLD.alarm.timers.Keys <= {1, 2}
    ensures Inv(Moment(NOON_WORLD, NOON.Time()), PlanAt(OWNER, (18 * 60, 31 * 60), NOON))
  {
    var p := PlanAt(OWNER, (18 * 60, 31 * 60), NOON);
    ValidScheduleBounds(18 * 60, 31 * 60);
    NoTimersAreSound();
    assert Effective(StateOf(UNTIMED, OWNER)) == (18 * 60, 31 * 60);
    GrantedExactly(UNTIMED, OWNER, NoonEnv(1, 2));
    TimedExactly(UNTIMED, OWNER, NoonEnv(1, 2));
    WithinIsDark((18 * 60, 31 * 60), OWNER, NOON);
    ArmedIsScheduled(NOON_WORLD, OWNER, NOON);
    DarkAtOffset(p.start, p.end, p.zone, NOON.midnight, 18 * 3600 - 1);
    assert Lands(p, false, NIGHT_LIGHT.end);
  }

  lemma NoonStores()
    ensures
      var stored := RecalculationCallback(NOON_WORLD, OWNER, NoonEnv(0, 0));
      && TakePair(stored, OWNER) == SUN.(sunset := 1079, sunrise := 31 * 60)
      && stored == NOON_WORLD.(settings := stored.settings)
  {
    StoredPairIsTaken(NOON_WORLD, OWNER, NoonEnv(0, 0));
  }

  lemma SecondIsGranted(between: World)
    requires between.alarm.timers.Keys <= {1, 2, 3, 4}
    ensures Granted(WithState(between, OWNER, SUN.(sunset := 1079)), OWNER, NoonEnv(5, 6))
  {
    ValidScheduleBounds(1079, 31 * 60);
  }

  lemma LightAtNoon()
    ensures LightFor(NOON_WORLD, OWNER, NIGHT_LIGHT) && NOON_WORLD.states == map[OWNER := SUN]
    ensures Stores(NOON_WORLD.settings, NoonEnv(0, 0).pair) && Modern(NOON)
  {
  }

  /** All of this can happen: at this noon the guarantee holds, and the pair that comes then loses it. */
  lemma ThisNoonIsLost(n: nat)
    requires 6 * 3600 - 1 <= n < 19 * 3600
    ensures Inv(Moment(NOON_WORLD, NOON.Time()), PlanAt(OWNER, (18 * 60, 31 * 60), NOON))
    ensures
      var stored := RecalculationCallback(NOON_WORLD, OWNER, NoonEnv(0, 0));
      var v := ObservePair(stored, OWNER, NoonEnv(3, 4), NoonEnv(5, 6));
      !Guaranteed(After(Moment(v, NOON.Time()), PlanAt(OWNER, (1079, 31 * 60), NOON), Ticks(n)),
                  PlanAt(OWNER, (1079, 31 * 60), NOON))
  {
    var stored := RecalculationCallback(NOON_WORLD, OWNER, NoonEnv(0, 0));
    NoonIsGuaranteed();
    NoonStores();
    LightAtNoon();
    SunsetTaken(stored);
    SecondIsGranted(
      SunsetTimeUpdate(stored, BuildSettingKey(SETTING_DARK_MODE_SUN_SET, OWNER), OWNER, NoonEnv(3, 4)));
    LostAtNoon(NOON_WORLD, n);
  }

  lemma LostAtNoon(w: World, n: nat)
    requires Sound(w.alarm) && w.states == map[OWNER := SUN] && LightFor(w, OWNER, NIGHT_LIGHT)
    requires Stores(w.settings, NoonEnv(0, 0).pair) && 6 * 3600 - 1 <= n < 19 * 3600
    requires
      var stored := RecalculationCallback(w, OWNER, NoonEnv(0, 0));
      var between := SunsetTimeUpdate(
                       stored, BuildSettingKey(SETTING_DARK_MODE_SUN_SET, OWNER), OWNER, NoonEnv(3, 4));
      Granted(WithState(between, OWNER, SUN.(sunset := 1079)), OWNER, NoonEnv(5, 6))
    ensures
      var v := ObservePair(RecalculationCallback(w, OWNER, NoonEnv(0, 0)), OWNER, NoonEnv(3, 4), NoonEnv(5, 6));
      !Guaranteed(After(Moment(v, NOON.Time()), PlanAt(OWNER, (1079, 31 * 60), NOON), Ticks(n)),
                  PlanAt(OWNER, (1079, 31 * 60), NOON))
  {
    MovedSunsetLosesTheRun(w, OWNER, NOON.midnight, NoonEnv(0, 0), NoonEnv(3, 4), NoonEnv(5, 6), n);
  }

  /** The sunset observer takes 17:59 and its two fresh timers. */
  lemma SunsetTaken(stored: World)
    requires stored == NOON_WORLD.(settings := stored.settings)
    requires TakePair(stored, OWNER) == SUN.(sunset := 1079, sunrise := 31 * 60)
    ensures
      var between := SunsetTimeUpdate(stored, BuildSettingKey(SETTING_DARK_MODE_SUN_SET, OWNER), OWNER, NoonEnv(3, 4));
      between.alarm.timers.Keys <= {1, 2, 3, 4}
  {
    NoonIsGuaranteed();
    var taken := TakeTime(stored, BuildSettingKey(SETTING_DARK_MODE_SUN_SET, OWNER), OWNER, SUNSET_TIME);
    var changed := WithState(stored, OWNER, taken);
    TimersStayFew(changed, NoonEnv(3, 4));
  }

  lemma TimersStayFew(w: World, env: Env)
    requires OWNER in w.states && w.states[OWNER].mode == SUNRISE_SUNSET
    ensures OnStateChange(w, OWNER, true, false, false, false, env).w.alarm.timers.Keys
         <= w.alarm.timers.Keys + {env.first.id, env.second.id}
  {
    var timed := CreateOrUpdateTimers(w, Effective(w.states[OWNER]), OWNER, env).0;
    UpdateKeepsTimers(timed, Within(Effective(w.states[OWNER]), env.now), OWNER, env.now);
  }

  // ---------- the zone moves ----------

  /** Under the schedule from 22:00 to 7:00 the user picks light at 23:00, until 21:59:59 the next day. Half an
      hour later the clock of the new zone is one hour ahead. By that clock the schedule turns dark at 22:00,
      the window ends at 22:59:59, and from then until 7:00 the screen is light, with nothing recorded or
      pending. */
  lemma MovedZoneLosesTheRun(w: World, env: Env, refused: set<nat>, b: World, midnight: int, n: nat)
    requires Sound(w.alarm) && Modern(env.now) && Alone(w.display, w.current) && Set(w, w.current)
    requires Restarted(w.alarm, b.alarm, env.now, refused) && b == BeforeRestart(w, env).(alarm := b.alarm)
    requires
      var ids := IdsOf(w.alarm, BuildTimerKey(w.current));
      ids.start !in refused && ids.end !in refused
    requires Effective(StateOf(w, w.current)) == (22 * 60, 31 * 60) && StateOf(w, w.current).mode == CUSTOM_AUTO
    requires env.now == Clock(midnight, 1800)
    requires LightFor(w, w.current, TempInfo(true, midnight, midnight + 23 * 3600 - 1))
    requires 23 * 3600 - 1 - 1800 <= n < 31 * 3600 - 1800
    ensures
      var p := PlanAt(w.current, (22 * 60, 31 * 60), env.now);
      && Scheduled(Moment(b, env.now.Time()), p)
      && !Guaranteed(After(Moment(b, env.now.Time()), p, Ticks(n)), p)
  {
    var p := PlanAt(w.current, (22 * 60, 31 * 60), env.now);
    var info := TempInfo(true, midnight, midnight + 23 * 3600 - 1);
    RestartLeavesOverride(w, env);
    RestartedIsScheduled(w, b, w.current, env.now, refused);
    WithinIsDark((22 * 60, 31 * 60), w.current, env.now);
    LightOutlasts(Moment(b, env.now.Time()), p, info, n);
  }

  lemma RestartLeavesOverride(w: World, env: Env)
    requires w.current in w.states && w.states[w.current].mode == CUSTOM_AUTO && w.screen.operate == NONE
    requires InForce(InfoOf(w.temps.infos, w.current), env.now.Time())
    ensures
      var v := BeforeRestart(w, env);
      && v.display == w.display && v.temps == w.temps && v.states == w.states && v.screen.operate == NONE
  {
    assert w.states[w.current := w.states[w.current]] == w.states;
  }

  // ---------- a night in 2024 ----------

  /** The user of the example with the light picked at 23:00. */
  const BEDTIME := World(
    map[OWNER := CUSTOM_TONIGHT], OWNER, NO_TIMERS, Temps(map[OWNER := PICK], SystemParameters.Params(map[], {})),
    Screen(true, NONE, 0), Settings(true, map[], map[], map[], []), Display(map[OWNER := false], map[], [100], true))

  /** The same at 23:30 with the timers of the schedule. */
  const NIGHT_WORLD := CreateOrUpdateTimers(BEDTIME, (22 * 60, 31 * 60), OWNER, Late(1, 2)).0

  const NIGHT_PLAN := PlanAt(OWNER, (22 * 60, 31 * 60), Late(1, 2).now)

  /** Half past midnight by the clock of the new zone, at the same instant. */
  const MOVED := Late(0, 0).(now := Clock(PICK.start, 1800))

  /** The timers of a single key after its restart. */
  function RestartOne(a: Alarm, key: nat, now: Clock): Alarm
    requires key in a.setupTimes && IdsOf(a, key).start in a.timers && IdsOf(a, key).end in a.timers
  {
    var ids := IdsOf(a, key);
    a.(timers := a.timers[
         ids.start := Restart(a.timers[ids.start], NextTrigger(a, Slot(key, START), now), true)][
         ids.end := Restart(a.timers[ids.end], NextTrigger(a, Slot(key, END), now), true)])
  }

  lemma OneKeyRestarts(a: Alarm, key: nat, now: Clock)
    requires Sound(a) && a.timerIds.Keys == {key} && a.recalculationIds == map[] && key != 0
    requires IdsOf(a, key).start != 0 && IdsOf(a, key).end != 0
    ensures key in a.setupTimes && IdsOf(a, key).start in a.timers && IdsOf(a, key).end in a.timers
    ensures Restarted(a, RestartOne(a, key, now), now, {})
  {
    var first, second := Slot(key, START), Slot(key, END);
    assert IdAt(a, first) != 0 && IdAt(a, second) != 0;
    assert forall p :: IdAt(a, p) != 0 ==> p == first || p == second;
  }

  lemma NightIsSet()
    ensures Sound(NIGHT_WORLD.alarm) && NIGHT_WORLD == BEDTIME.(alarm := NIGHT_WORLD.alarm)
    ensures NIGHT_WORLD.alarm.timerIds == map[100 := Pair(1, 2)] && NIGHT_WORLD.alarm.recalculationIds == map[]
    ensures NIGHT_WORLD.alarm.setupTimes == map[100 := Pair(22 * 60, 31 * 60)]
    ensures Scheduled(Moment(NIGHT_WORLD, Late(1, 2).now.Time()), NIGHT_PLAN)
  {
    ValidScheduleBounds(22 * 60, 31 * 60);
    NoTimersAreSound();
    assert Effective(StateOf(BEDTIME, OWNER)) == (22 * 60, 31 * 60);
    GrantedExactly(BEDTIME, OWNER, Late(1, 2));
    TimedExactly(BEDTIME, OWNER, Late(1, 2));
    ArmedIsScheduled(NIGHT_WORLD, OWNER, Late(1, 2).now);
  }

  /** The light picked in the night lands where the schedule turns dark again. */
  lemma NightIsGuaranteed()
    ensures Inv(Moment(NIGHT_WORLD, Late(1, 2).now.Time()), NIGHT_PLAN)
  {
    NightIsSet();
    WithinIsDark((22 * 60, 31 * 60), OWNER, Late(1, 2).now);
    DarkAtOffset(NIGHT_PLAN.start, NIGHT_PLAN.end, NIGHT_PLAN.zone, NIGHT_PLAN.zone + DAY_TO_SECOND, 22 * 3600 - 1);
    assert Lands(NIGHT_PLAN, false, PICK.end);
  }

  /** All of this can happen: at 23:30 the guarantee holds, and the move to a zone one hour ahead loses it. */
  lemma ThisNightIsLost(n: nat)
    requires 23 * 3600 - 1 - 1800 <= n < 31 * 3600 - 1800
    ensures Inv(Moment(NIGHT_WORLD, Late(1, 2).now.Time()), NIGHT_PLAN) && MOVED.now.Time() == Late(1, 2).now.Time()
    ensures
      exists alarm ::
        && Restarted(NIGHT_WORLD.alarm, alarm, MOVED.now, {})
        && !Guaranteed(
             After(Moment(BeforeRestart(NIGHT_WORLD, MOVED).(alarm := alarm), MOVED.now.Time()),
                   PlanAt(OWNER, (22 * 60, 31 * 60), MOVED.now), Ticks(n)),
             PlanAt(OWNER, (22 * 60, 31 * 60), MOVED.now))
  {
    NightIsGuaranteed();
    NightIsSet();
    OneKeyRestarts(NIGHT_WORLD.alarm, 100, MOVED.now);
    var alarm := RestartOne(NIGHT_WORLD.alarm, 100, MOVED.now);
    ValidScheduleBounds(22 * 60, 31 * 60);
    MovedZoneLosesTheRun(
      NIGHT_WORLD, MOVED, {}, BeforeRestart(NIGHT_WORLD, MOVED).(alarm := alarm), MOVED.now.midnight, n);
  }
}

/** Whole runs over all contexts: account switches, setting observers, timer callbacks of any age, the
    user's choices, the screen and restarts. Only the current context has timers and observers, and its
    timers follow its settings. */
module TimerRun {
  import opened Decimal
  import opened Errors
  import opened Accounts
  import opened Schedule
  import opened AlarmLedger
  import opened TemporaryColorMode
  import opened SettingData
  import opened UiAppearance
  import opened DarkMode

  // ---------- what every reachable state satisfies ----------

  /** No key but this one has timers. */
  ghost predicate OnlyKey(a: Alarm, key: nat) {
    forall k :: k != key ==> k !in a.timerIds && k !in a.recalculationIds
  }

  /** A live timer with the callback for these times and this context. */
  predicate Carries(a: Alarm, id: nat, times: (int32, int32), context: AccountContext) {
    id in a.timers && a.timers[id].callback == SwitchColor(times.0, times.1, context)
  }

  /** The schedule timers agree with the mode and the effective times of the context's state. */
  predicate ScheduleMatches(a: Alarm, state: DarkModeState, context: AccountContext) {
    var key := BuildTimerKey(context);
    && (IsAuto(state.mode) && key in a.timerIds ==>
          && a.timerIds[key].start != 0 && a.timerIds[key].end != 0
          && Carries(a, a.timerIds[key].start, Effective(state), context)
          && Carries(a, a.timerIds[key].end, Effective(state), context)
          && key in a.setupTimes
          && a.setupTimes[key] == Pair(ToU64(Effective(state).0), ToU64(Effective(state).1)))
    && (state.mode in {ALWAYS_LIGHT, ALWAYS_DARK} ==> key !in a.timerIds && key !in a.recalculationIds)
  }

  ghost predicate TimersFollow(w: World) {
    var key := BuildTimerKey(w.current);
    && OnlyKey(w.alarm, key)
    && ScheduleMatches(w.alarm, StateOf(w, w.current), w.current)
    && (key in w.alarm.recalculationIds ==> StateOf(w, w.current).mode == SUNRISE_SUNSET)
  }

  /** The current context is a real one, or there is none yet and nothing is set up; without an
      initialized store there is none. */
  ghost predicate CurrentContext(w: World) {
    || (w.current.userId > INVALID_USER_ID && w.settings.initialized)
    || (&& w.current.userId == INVALID_USER_ID && w.alarm.timerIds == map[] && w.alarm.recalculationIds == map[]
        && forall k, c | k in SETTING_KEYS :: ObserverName(k, c) !in w.settings.observers)
  }

  ghost predicate Consistent(w: World) {
    Sound(w.alarm) && CurrentContext(w) && TimersFollow(w) && RegistrySound(w.settings, w.current)
  }

  // ---------- events ----------

  datatype Event =
    | Switch(context: AccountContext, boot: bool, reach: SwitchEnv, env: Env)
    | Observe(setting: string, context: AccountContext, env: Env)
    | StoreChanges(data: map<(int32, string), string>)
    | OtherObserver(observer: Observer, helper: bool)
    | TimerFires(start: int, end: int, context: AccountContext, now: Clock)
    | RecalculationFires(context: AccountContext, env: Env)
    | Choose(context: AccountContext, mode: ColorMode, now: Clock, granted: PutReply)
    | ScreenTurns(on: bool)
    | TimeChanges(env: Env, refused: set<nat>)

  /** What the store's notification runs: the update function the observer was built with. */
  function RunObserver(w: World, o: Observer, env: Env): World {
    if o.setting == SETTING_DARK_MODE_MODE then ModeUpdate(w, o.key, o.context, env)
    else if o.setting == SETTING_DARK_MODE_START_TIME then StartTimeUpdate(w, o.key, o.context, env)
    else if o.setting == SETTING_DARK_MODE_END_TIME then EndTimeUpdate(w, o.key, o.context, env)
    else if o.setting == SETTING_DARK_MODE_SUN_SET then SunsetTimeUpdate(w, o.key, o.context, env)
    else if o.setting == SETTING_DARK_MODE_SUN_RISE then SunriseTimeUpdate(w, o.key, o.context, env)
    else w
  }

  /** A state of the run, and whether the last switch registered every observer. */
  datatype Point = Point(w: World, registered: bool)

  ghost predicate Step(a: Point, e: Event, b: Point) {
    match e
    case Switch(context, boot, reach, env) =>
      && context.userId > INVALID_USER_ID && Reaches(a.w.settings, a.w.current, reach.unregister)
      && b.w == (if boot then BootLoad(a.w, context, reach, env) else SwitchAndLoad(a.w, context, reach, env))
      && b.registered == (OnSwitchContext(a.w, context, reach).1 == ERR_OK)
    case Observe(setting, context, env) =>
      && setting in SETTING_KEYS && ObserverName(setting, context) in a.w.settings.registered
      && b == a.(w := RunObserver(a.w, a.w.settings.registered[ObserverName(setting, context)], env))
    case StoreChanges(data) => b == a.(w := a.w.(settings := a.w.settings.(data := data)))
    case OtherObserver(o, helper) =>
      && (forall k, c | k in SETTING_KEYS :: GenerateObserverName(o.key, o.userId) != ObserverName(k, c))
      && b == a.(w := a.w.(settings := RegisterObserver(a.w.settings, o, helper).0))
    case TimerFires(start, end, context, now) => b == a.(w := TimerCallback(a.w, (start, end), context, now))
    case RecalculationFires(context, env) => b == a.(w := RecalculationCallback(a.w, context, env))
    case Choose(context, mode, now, granted) => b == a.(w := SetDarkMode(a.w, context, mode, now, granted).0)
    case ScreenTurns(on) => b == a.(w := if on then ScreenOn(a.w) else ScreenOff(a.w))
    case TimeChanges(env, refused) =>
      if IsAuto(StateOf(a.w, a.w.current).mode) then
        && Books(a.w.alarm) && Restarted(a.w.alarm, b.w.alarm, env.now, refused)
        && b == a.(w := BeforeRestart(a.w, env).(alarm := b.w.alarm))
      else
        b == a.(w := BeforeRestart(a.w, env))
  }

  ghost predicate Good(a: Point) {
    Consistent(a.w) && (a.registered ==> AllFive(a.w.settings, a.w.current))
  }

  // ---------- events that leave the timers and the registry alone ----------

  predicate SameRegistry(s: Settings, t: Settings) {
    s.observers == t.observers && s.registered == t.registered && s.initialized == t.initialized
  }

  ghost predicate Undisturbed(w: World, v: World) {
    && v.current == w.current && v.alarm == w.alarm && SameRegistry(w.settings, v.settings)
    && forall c :: StateOf(v, c) == StateOf(w, c)
  }

  lemma UndisturbedKeepsGood(a: Point, b: Point)
    requires Good(a) && Undisturbed(a.w, b.w) && b.registered == a.registered
    ensures Good(b)
  {
  }

  lemma ScheduleUpdateUndisturbed(w: World, dark: bool, c: AccountContext, reset: bool, boot: bool, now: Clock)
    ensures Undisturbed(w, UpdateDarkModeSchedule(w, dark, c, reset, boot, now))
    ensures UpdateDarkModeSchedule(w, dark, c, reset, boot, now).states == w.states
  {
  }

  lemma CallbackUndisturbed(w: World, times: (int, int), context: AccountContext, now: Clock)
    ensures Undisturbed(w, TimerCallback(w, times, context, now))
  {
    var touched := Touch(w, context);
    assert Undisturbed(w, touched);
    match CheckTimerCallbackParams(w, times, context, now) {
      case None =>
      case Some(dark) => ScheduleUpdateUndisturbed(touched, dark, context, false, false, now);
    }
  }

  /** The callback of an older schedule, or of a timer left over when the mode became invalid, changes
      nothing that is shown, recorded or pending. */
  lemma StaleCallbackIsInert(w: World, times: (int, int), context: AccountContext, now: Clock)
    requires !IsAuto(StateOf(w, context).mode) || Effective(StateOf(w, context)) != times
    ensures
      var v := TimerCallback(w, times, context, now);
      && v.display == w.display && v.temps == w.temps && v.screen == w.screen
      && v.settings == w.settings && v.alarm == w.alarm
  {
  }

  lemma ConfigureUndisturbed(w: World, context: AccountContext, dark: bool, now: Clock, granted: PutReply)
    ensures Undisturbed(w, ConfigurePersistence(w, context, dark, now, granted).0)
  {
    var switched := DoSwitchTemporaryColorMode(w, context, dark, now);
    assert Undisturbed(w, switched);
    var shown := WithLook(switched, Show(LookOf(switched), dark, context));
    assert Undisturbed(w, shown);
    assert Undisturbed(shown, NotifyDarkModeUpdate(shown, context, dark, granted));
  }

  lemma {:induction false} ConfigureAllUndisturbed(
    w: World, users: seq<int32>, dark: bool, now: Clock, granted: PutReply)
    ensures Undisturbed(w, ConfigureAll(w, users, dark, now, granted).0)
  {
    if users != [] {
      var n := |users| - 1;
      ConfigureAllUndisturbed(w, users[..n], dark, now, granted);
      var done := ConfigureAll(w, users[..n], dark, now, granted).0;
      ConfigureUndisturbed(done, ForegroundContext(done.display, users[n]), dark, now, granted);
    }
  }

  lemma ChooseUndisturbed(w: World, context: AccountContext, mode: ColorMode, now: Clock, granted: PutReply)
    ensures Undisturbed(w, SetDarkMode(w, context, mode, now, granted).0)
  {
    var w0 := WithLook(w, PersistColor(LookOf(w), mode == DARK));
    ConfigureAllUndisturbed(w0, w.display.foregroundUsers, mode == DARK, now, granted);
    ConfigureUndisturbed(w0, context, mode == DARK, now, granted);
  }

  lemma TimesUndisturbed(w: World, context: AccountContext, env: Env)
    ensures Undisturbed(w, ApplySunriseSunsetTimes(w, context, env))
    ensures ApplySunriseSunsetTimes(w, context, env).states == w.states
  {
  }

  lemma BeforeRestartUndisturbed(w: World, env: Env)
    ensures Undisturbed(w, BeforeRestart(w, env))
  {
    var w0 := Touch(w, w.current);
    var state := StateOf(w, w.current);
    assert Undisturbed(w, w0);
    TimesUndisturbed(w0, w.current, env);
    var w1 := if state.mode == SUNRISE_SUNSET then ApplySunriseSunsetTimes(w0, w.current, env) else w0;
    ScheduleUpdateUndisturbed(w1, Within(Effective(state), env.now), w.current, false, false, env.now);
  }

  // ---------- state changes of the current context ----------

  /** A schedule call only touches its own key. */
  lemma ScheduleStaysOnKey(
    a: Alarm, start: nat, end: nat, key: nat, callback: Callback, now: Clock, first: Reply, second: Reply)
    requires OnlyKey(a, key)
    ensures
      var (b, code) := SetScheduleTime(a, start, end, key, callback, now, first, second);
      && OnlyKey(b, key) && b.recalculationIds == a.recalculationIds
      && (code == ERR_OK ==>
            && key in b.timerIds && b.timerIds[key].start != 0 && b.timerIds[key].end != 0
            && key in b.setupTimes && b.setupTimes[key] == Pair(start, end))
  {
  }

  lemma ClearStaysOnKey(a: Alarm, key: nat)
    requires OnlyKey(a, key)
    ensures
      var b := ClearTimerByUserId(a, key);
      OnlyKey(b, key) && key !in b.timerIds && key !in b.recalculationIds
  {
  }

  /** Whatever the outcome of a state change, the timers match the state afterwards. */
  lemma ChangeMatches(w: World, context: AccountContext, need: bool, dark: bool, reset: bool, boot: bool, env: Env)
    requires Sound(w.alarm) && OnlyKey(w.alarm, BuildTimerKey(context)) && context in w.states
    ensures
      var v := OnStateChange(w, context, need, dark, reset, boot, env).w;
      var key := BuildTimerKey(context);
      && Sound(v.alarm) && OnlyKey(v.alarm, key)
      && ScheduleMatches(v.alarm, StateOf(w, context), context)
      && v.alarm.recalculationIds.Keys <= w.alarm.recalculationIds.Keys
      && v.states == w.states && v.current == w.current && v.settings == w.settings
  {
    var key := BuildTimerKey(context);
    var state := StateOf(w, context);
    match state.mode
    case INVALID =>
      assert w.states[context := w.states[context]] == w.states;
    case CUSTOM_AUTO => AutoChangeMatches(w, context, need, dark, reset, boot, env);
    case SUNRISE_SUNSET => AutoChangeMatches(w, context, need, dark, reset, boot, env);
    case ALWAYS_LIGHT => AllDayChangeMatches(w, context, false, need, reset, boot, env);
    case ALWAYS_DARK => AllDayChangeMatches(w, context, true, need, reset, boot, env);
  }

  lemma AllDayChangeMatches(
    w: World, context: AccountContext, dark: bool, need: bool, reset: bool, boot: bool, env: Env)
    requires Sound(w.alarm) && OnlyKey(w.alarm, BuildTimerKey(context))
    ensures
      var v := OnStateChangeToAllDayMode(w, context, dark, need, reset, boot, env).w;
      var key := BuildTimerKey(context);
      && Sound(v.alarm) && OnlyKey(v.alarm, key) && key !in v.alarm.timerIds && key !in v.alarm.recalculationIds
      && v.states == w.states && v.current == w.current && v.settings == w.settings
  {
    var key := BuildTimerKey(context);
    ClearRecalculationKeepsSound(w.alarm, key);
    var a := ClearRecalculationTimer(w.alarm, key);
    ClearKeepsSound(a, key);
    ClearStaysOnKey(a, key);
  }

  lemma AutoChangeMatches(w: World, context: AccountContext, need: bool, dark: bool, reset: bool, boot: bool, env: Env)
    requires Sound(w.alarm) && OnlyKey(w.alarm, BuildTimerKey(context)) && IsAuto(StateOf(w, context).mode)
    ensures
      var v := OnStateChangeToCustomAutoMode(w, context, need, dark, reset, boot, env).w;
      var key := BuildTimerKey(context);
      && Sound(v.alarm) && OnlyKey(v.alarm, key)
      && ScheduleMatches(v.alarm, StateOf(w, context), context)
      && v.alarm.recalculationIds.Keys <= w.alarm.recalculationIds.Keys
      && v.states == w.states && v.current == w.current && v.settings == w.settings
  {
    var key := BuildTimerKey(context);
    var times := Effective(StateOf(w, context));
    var timed := CreateOrUpdateTimers(w, times, context, env).0;
    TimedMatches(w, context, env);
    ClearKeepsSound(timed.alarm, key);
    ClearStaysOnKey(timed.alarm, key);
    ScheduleUpdateUndisturbed(timed, Within(times, env.now), context, reset, boot, env.now);
  }

  /** The timers of a schedule, granted or not. */
  lemma TimedMatches(w: World, context: AccountContext, env: Env)
    requires Sound(w.alarm) && OnlyKey(w.alarm, BuildTimerKey(context)) && IsAuto(StateOf(w, context).mode)
    ensures
      var (timed, code) := CreateOrUpdateTimers(w, Effective(StateOf(w, context)), context, env);
      && Sound(timed.alarm) && OnlyKey(timed.alarm, BuildTimerKey(context)) && timed == w.(alarm := timed.alarm)
      && timed.alarm.recalculationIds == w.alarm.recalculationIds
      && (code == ERR_OK ==> ScheduleMatches(timed.alarm, StateOf(w, context), context))
  {
    var key := BuildTimerKey(context);
    var times := Effective(StateOf(w, context));
    var callback := SwitchColor(times.0, times.1, context);
    ScheduleKeepsLedger(w.alarm, ToU64(times.0), ToU64(times.1), key, callback, env.now, env.first, env.second);
    ScheduleKeepsBooks(w.alarm, ToU64(times.0), ToU64(times.1), key, callback, env.now, env.first, env.second);
    ScheduleStaysOnKey(w.alarm, ToU64(times.0), ToU64(times.1), key, callback, env.now, env.first, env.second);
    if CreateOrUpdateTimers(w, times, context, env).1 == ERR_OK {
      ScheduleArms(w.alarm, ToU64(times.0), ToU64(times.1), key, callback, env.now, env.first, env.second);
    }
  }

  /** Starting the sunrise/sunset mode adds at most the recalculation timer of the context. */
  lemma InitKeepsMatch(w: World, context: AccountContext, env: Env)
    requires Sound(w.alarm) && OnlyKey(w.alarm, BuildTimerKey(context))
    requires ScheduleMatches(w.alarm, StateOf(w, context), context)
    requires StateOf(w, context).mode == SUNRISE_SUNSET
    ensures
      var v := InitSunriseSunsetMode(w, context, env);
      && Sound(v.alarm) && OnlyKey(v.alarm, BuildTimerKey(context))
      && ScheduleMatches(v.alarm, StateOf(w, context), context)
      && v.states == w.states && v.current == w.current && SameRegistry(w.settings, v.settings)
  {
    TimesUndisturbed(w, context, env);
    SetRecalculationKeepsSound(w.alarm, BuildTimerKey(context), Recalculate(context), env.now, env.recalculation);
  }

  lemma ClearRecalculationKeepsMatch(a: Alarm, state: DarkModeState, context: AccountContext)
    requires Sound(a) && OnlyKey(a, BuildTimerKey(context)) && ScheduleMatches(a, state, context)
    ensures
      var key := BuildTimerKey(context);
      var b := ClearRecalculationTimer(a, key);
      Sound(b) && OnlyKey(b, key) && ScheduleMatches(b, state, context) && key !in b.recalculationIds
  {
    var key := BuildTimerKey(context);
    ClearRecalculationKeepsSound(a, key);
    if key in a.timerIds && key in a.recalculationIds {
      var r := Slot(key, RECALCULATION);
      assert IdAt(a, Slot(key, START)) != 0 ==> IdAt(a, Slot(key, START)) != IdAt(a, r);
      assert IdAt(a, Slot(key, END)) != 0 ==> IdAt(a, Slot(key, END)) != IdAt(a, r);
    }
  }

  /** A time observer of the current context: new state, same mode. */
  lemma TimeUpdateKeepsGood(a: Point, state: DarkModeState, reset: bool, env: Env)
    requires Good(a) && a.w.current.userId > INVALID_USER_ID && state.mode == StateOf(a.w, a.w.current).mode
    ensures
      var w := WithState(a.w, a.w.current, state);
      Good(a.(w := OnStateChange(w, a.w.current, true, false, reset, false, env).w))
  {
    var w := WithState(a.w, a.w.current, state);
    ChangeMatches(w, a.w.current, true, false, reset, false, env);
  }

  /** A state change of the current context that leaves its timers in order leaves everything in order. */
  lemma MatchedKeepsGood(a: Point, v: World)
    requires Good(a) && a.w.current.userId > INVALID_USER_ID && v.current == a.w.current
    requires SameRegistry(a.w.settings, v.settings)
    requires
      var key := BuildTimerKey(v.current);
      && Sound(v.alarm) && OnlyKey(v.alarm, key) && ScheduleMatches(v.alarm, StateOf(v, v.current), v.current)
      && (key in v.alarm.recalculationIds ==> StateOf(v, v.current).mode == SUNRISE_SUNSET)
    ensures Good(a.(w := v))
  {
  }

  lemma ModeUpdateKeepsGood(a: Point, key: string, env: Env)
    requires Good(a) && a.w.current.userId > INVALID_USER_ID
    ensures Good(a.(w := ModeUpdate(a.w, key, a.w.current, env)))
  {
    var context := a.w.current;
    var (code, read) := GetInt32ValueStrictly(a.w.settings, key, -1, context.userId);
    var mode := if code == ERR_OK then ModeOf(read) else INVALID;
    var w := WithState(a.w, context, StateOf(a.w, context).(mode := mode));
    ChangeMatches(w, context, true, false, true, false, env);
    var v := OnStateChange(w, context, true, false, true, false, env).w;
    if mode == SUNRISE_SUNSET {
      InitKeepsMatch(v, context, env);
    } else {
      ClearRecalculationKeepsMatch(v.alarm, StateOf(v, context), context);
    }
    MatchedKeepsGood(a, ModeUpdate(a.w, key, context, env));
  }

  lemma ObserverKeepsGood(a: Point, setting: string, context: AccountContext, env: Env)
    requires Good(a) && setting in SETTING_KEYS && ObserverName(setting, context) in a.w.settings.registered
    requires a.w.current.userId > INVALID_USER_ID
    ensures Good(a.(w := RunObserver(a.w, a.w.settings.registered[ObserverName(setting, context)], env)))
  {
    var o := a.w.settings.registered[ObserverName(setting, context)];
    assert o == ObserverOf(setting, a.w.current);
    var state := StateOf(a.w, a.w.current);
    var settings, user := a.w.settings, a.w.current.userId;
    if setting == SETTING_DARK_MODE_MODE {
      ModeUpdateKeepsGood(a, o.key, env);
    } else if setting == SETTING_DARK_MODE_START_TIME {
      TimeUpdateKeepsGood(a, state.(start := GetInt32ValueStrictly(settings, o.key, -1, user).1), true, env);
    } else if setting == SETTING_DARK_MODE_END_TIME {
      TimeUpdateKeepsGood(a, state.(end := GetInt32ValueStrictly(settings, o.key, -1, user).1), true, env);
    } else if setting == SETTING_DARK_MODE_SUN_SET {
      var value := GetInt32ValueStrictly(settings, o.key, SUNSET_TIME_DEFAULT, user).1;
      TimeUpdateKeepsGood(a, TakeSunset(state, value), false, env);
    } else if setting == SETTING_DARK_MODE_SUN_RISE {
      var value := GetInt32ValueStrictly(settings, o.key, SUNRISE_TIME_DEFAULT, user).1;
      TimeUpdateKeepsGood(a, TakeSunrise(state, value), false, env);
    }
  }

  /** An observer left in the store by a switch whose unregistration missed it sets timers for its context,
      current or not, as soon as it is notified of an automatic mode whose times are granted. */
  lemma StaleObserverSetsTimers(w: World, key: string, context: AccountContext, env: Env)
    requires
      var (code, read) := GetInt32ValueStrictly(w.settings, key, -1, context.userId);
      var state := StateOf(w, context).(mode := ModeOf(read));
      && code == ERR_OK && IsAuto(state.mode)
      && CreateOrUpdateTimers(WithState(w, context, state), Effective(state), context, env).1 == ERR_OK
    ensures BuildTimerKey(context) in ModeUpdate(w, key, context, env).alarm.timerIds
  {
    var state := StateOf(w, context).(mode := ModeOf(GetInt32ValueStrictly(w.settings, key, -1, context.userId).1));
    var w0 := WithState(w, context, state);
    var timed := CreateOrUpdateTimers(w0, Effective(state), context, env).0;
    ScheduleUpdateUndisturbed(timed, Within(Effective(state), env.now), context, true, false, env.now);
    TimesUndisturbed(OnStateChange(w0, context, true, false, true, false, env).w, context, env);
  }

  // ---------- account switches ----------

  /** After a switch that gets past initialization no timer is left at all, and the registry belongs to the
      new context. */
  lemma SwitchEmpties(w: World, context: AccountContext, reach: SwitchEnv)
    requires Consistent(w) && context.userId > INVALID_USER_ID && (w.settings.initialized || reach.available)
    requires Reaches(w.settings, w.current, reach.unregister)
    ensures
      var (v, code) := OnSwitchContext(w, context, reach);
      && Sound(v.alarm) && v.alarm.timerIds == map[] && v.alarm.recalculationIds == map[]
      && v.current == context && v.states == w.states && v.settings.initialized
      && RegistrySound(v.settings, context)
      && (code == ERR_OK ==> AllFive(v.settings, context))
  {
    var s0 := w.settings.(initialized := true);
    if w.current.userId != INVALID_USER_ID {
      var key := BuildTimerKey(w.current);
      ClearKeepsSound(w.alarm, key);
      ClearStaysOnKey(w.alarm, key);
      assert ClearTimerByUserId(w.alarm, key).timerIds == map[];
      assert ClearTimerByUserId(w.alarm, key).recalculationIds == map[];
      UnregisterAllSound(s0, w.current, reach.unregister);
      var s1 := UnregisterAll(s0, SETTING_KEYS, w.current, reach.unregister);
      RegisterAllSound(s1, SETTING_KEYS, context, reach.register);
    } else {
      RegisterAllSound(s0, SETTING_KEYS, context, reach.register);
    }
  }

  lemma LoadInt32KeepsRegistry(s: Settings, baseKey: string, default: int32, context: AccountContext, granted: PutReply)
    ensures SameRegistry(s, LoadInt32(s, baseKey, default, context, granted).0)
  {
  }

  lemma LoadStateKeepsRegistry(s: Settings, context: AccountContext, copies: Copies)
    ensures SameRegistry(s, LoadState(s, context, copies).0)
  {
    var s1 := LoadInt32(s, SETTING_DARK_MODE_MODE, -1, context, copies.mode).0;
    var s2 := LoadInt32(s1, SETTING_DARK_MODE_START_TIME, -1, context, copies.start).0;
    var s3 := LoadInt32(s2, SETTING_DARK_MODE_END_TIME, -1, context, copies.end).0;
    var s4 := LoadInt32(s3, SETTING_DARK_MODE_SUN_SET, SUNSET_TIME_DEFAULT, context, copies.sunset).0;
    LoadInt32KeepsRegistry(s, SETTING_DARK_MODE_MODE, -1, context, copies.mode);
    LoadInt32KeepsRegistry(s1, SETTING_DARK_MODE_START_TIME, -1, context, copies.start);
    LoadInt32KeepsRegistry(s2, SETTING_DARK_MODE_END_TIME, -1, context, copies.end);
    LoadInt32KeepsRegistry(s3, SETTING_DARK_MODE_SUN_SET, SUNSET_TIME_DEFAULT, context, copies.sunset);
    LoadInt32KeepsRegistry(s4, SETTING_DARK_MODE_SUN_RISE, SUNRISE_TIME_DEFAULT, context, copies.sunrise);
  }

  lemma SameRegistryKeepsSound(s: Settings, t: Settings, context: AccountContext)
    requires SameRegistry(s, t) && RegistrySound(s, context)
    ensures RegistrySound(t, context)
    ensures AllFive(s, context) ==> AllFive(t, context)
  {
  }

  /** The load that follows the switch sets up the timers of the new context and no others. */
  lemma LoadAfterSwitch(v: World, context: AccountContext, need: bool, boot: bool, env: Env)
    requires Sound(v.alarm) && v.alarm.timerIds == map[] && v.alarm.recalculationIds == map[]
    requires v.current == context && context.userId > INVALID_USER_ID && v.settings.initialized
    requires RegistrySound(v.settings, context)
    ensures
      var w := LoadUserSettingData(v, context, need, false, boot, env).w;
      && Consistent(w) && w.current == context
      && (AllFive(v.settings, context) ==> AllFive(w.settings, context))
  {
    var (settings, state) := LoadState(v.settings, context, env.copies);
    var v0 := ResetOperate(
                WithState(v.(settings := settings, temps := LoadTemporary(v.temps, context, env.now)), context, state));
    LoadStateKeepsRegistry(v.settings, context, env.copies);
    SameRegistryKeepsSound(v.settings, settings, context);
    ChangeMatches(v0, context, need, false, false, boot, env);
    var v1 := OnStateChange(v0, context, need, false, false, boot, env).w;
    if state.mode == SUNRISE_SUNSET {
      InitKeepsMatch(v1, context, env);
      SameRegistryKeepsSound(v1.settings, InitSunriseSunsetMode(v1, context, env).settings, context);
    }
  }

  lemma ReadsFailUninitialized(s: Settings, context: AccountContext, copies: Copies)
    requires !s.initialized
    ensures LoadState(s, context, copies) == (s, DEFAULT_STATE)
  {
  }

  /** A load without an initialized store reads nothing: the mode is invalid and no timer is touched. */
  lemma LoadWithoutStore(
    w: World, context: AccountContext, need: bool, dark: bool, boot: bool, env: Env)
    requires !w.settings.initialized
    ensures
      var changed := LoadUserSettingData(w, context, need, dark, boot, env);
      && changed.code == ERR_INVALID_OPERATION && changed.dark == dark
      && StateOf(changed.w, context) == DEFAULT_STATE
      && changed.w == w.(states := w.states[context := DEFAULT_STATE],
                         temps := LoadTemporary(w.temps, context, env.now), screen := changed.w.screen)
  {
    ReadsFailUninitialized(w.settings, context, env.copies);
    var states := w.states[context := DEFAULT_STATE];
    assert states[context := DEFAULT_STATE] == states;
  }

  /** A switch that cannot initialize the store changes nothing the timers or the registry depend on. */
  lemma SwitchWithoutStore(a: Point, e: Event, b: Point)
    requires Good(a) && Step(a, e, b) && e.Switch? && !a.w.settings.initialized && !e.reach.available
    ensures Good(b)
  {
    assert OnSwitchContext(a.w, e.context, e.reach) == (a.w, ERR_NO_INIT);
    LoadWithoutStore(a.w, e.context, e.boot, false, e.boot, e.env);
    assert b.w.alarm == a.w.alarm && b.w.settings == a.w.settings && b.w.current == a.w.current;
    assert e.context != a.w.current;
    assert StateOf(b.w, b.w.current) == StateOf(a.w, a.w.current);
  }

  lemma SwitchWithStore(a: Point, e: Event, b: Point)
    requires Good(a) && Step(a, e, b) && e.Switch? && (a.w.settings.initialized || e.reach.available)
    ensures Good(b)
  {
    SwitchEmpties(a.w, e.context, e.reach);
    var v := OnSwitchContext(a.w, e.context, e.reach).0;
    LoadAfterSwitch(v, e.context, e.boot, e.boot, e.env);
    var w := LoadUserSettingData(v, e.context, e.boot, false, e.boot, e.env).w;
    assert b.w == w || b.w == w.(display := b.w.display);
    assert Undisturbed(w, b.w);
  }

  lemma SwitchKeepsGood(a: Point, e: Event, b: Point)
    requires Good(a) && Step(a, e, b) && e.Switch?
    ensures Good(b)
  {
    if a.w.settings.initialized || e.reach.available {
      SwitchWithStore(a, e, b);
    } else {
      SwitchWithoutStore(a, e, b);
    }
  }

  // ---------- every event, every run ----------

  lemma OtherObserverKeepsGood(a: Point, o: Observer, helper: bool)
    requires Good(a)
    requires forall k, c | k in SETTING_KEYS :: GenerateObserverName(o.key, o.userId) != ObserverName(k, c)
    ensures Good(a.(w := a.w.(settings := RegisterObserver(a.w.settings, o, helper).0)))
  {
  }

  lemma StoreChangeKeepsGood(a: Point, b: Point)
    requires Good(a) && b == a.(w := a.w.(settings := a.w.settings.(data := b.w.settings.data)))
    ensures Good(b)
  {
  }

  lemma TimeChangeKeepsGood(a: Point, env: Env, refused: set<nat>, b: Point)
    requires Good(a) && Step(a, TimeChanges(env, refused), b)
    ensures Good(b)
  {
    BeforeRestartUndisturbed(a.w, env);
    if IsAuto(StateOf(a.w, a.w.current).mode) {
      RestartKeepsSound(a.w.alarm, b.w.alarm, env.now, refused);
      RestartKeepsCallbacks(a.w.alarm, b.w.alarm, env.now, refused);
    }
  }

  /** The events that neither change a setting nor switch contexts. */
  lemma QuietEvent(a: Point, e: Event, b: Point)
    requires Step(a, e, b) && (e.TimerFires? || e.RecalculationFires? || e.Choose? || e.ScreenTurns?)
    ensures Undisturbed(a.w, b.w) && b.registered == a.registered
  {
    match e
    case TimerFires(start, end, context, now) => CallbackUndisturbed(a.w, (start, end), context, now);
    case RecalculationFires(context, env) => TimesUndisturbed(a.w, context, env);
    case Choose(context, mode, now, granted) => ChooseUndisturbed(a.w, context, mode, now, granted);
    case ScreenTurns(_) =>
  }

  lemma StepKeepsGood(a: Point, e: Event, b: Point)
    requires Good(a) && Step(a, e, b)
    ensures Good(b)
  {
    match e
    case Switch(_, _, _, _) => SwitchKeepsGood(a, e, b);
    case Observe(setting, context, env) => ObserverKeepsGood(a, setting, context, env);
    case StoreChanges(_) => StoreChangeKeepsGood(a, b);
    case OtherObserver(o, helper) => OtherObserverKeepsGood(a, o, helper);
    case TimeChanges(env, refused) => TimeChangeKeepsGood(a, env, refused, b);
    case _ =>
      QuietEvent(a, e, b);
      UndisturbedKeepsGood(a, b);
  }

  /** Nothing loaded, registered or set up yet; the store, the parameters and the display are arbitrary. */
  predicate Initial(w: World) {
    && w.states == map[] && w.current == CreateBaseContext(INVALID_USER_ID) && w.alarm == NO_TIMERS
    && w.settings.observers == map[] && w.settings.registered == map[]
  }

  ghost predicate IsRun(points: seq<Point>, events: seq<Event>) {
    && |points| == |events| + 1
    && Initial(points[0].w) && !points[0].registered
    && forall i :: 0 <= i < |events| ==> Step(points[i], events[i], points[i + 1])
  }

  /** At every reachable state only the current context has timers and dark mode observers; its timers
      follow its mode and times; all five observers are there after a switch that returned ERR_OK. */
  lemma {:induction false} EveryRunIsConsistent(points: seq<Point>, events: seq<Event>)
    requires IsRun(points, events)
    ensures Good(points[|events|])
    decreases |events|
  {
    if events == [] {
      assert IdAt(NO_TIMERS, Slot(0, START)) == 0;
    } else {
      var n := |events| - 1;
      EveryRunIsConsistent(points[..n + 1], events[..n]);
      StepKeepsGood(points[n], events[n], points[n + 1]);
    }
  }

  /** What a good state says about any other context whose timer key is its own: no timers, and no
      observers either way. */
  lemma OtherContextsAreBare(a: Point, other: AccountContext, setting: string)
    requires Good(a) && other != a.w.current && setting in SETTING_KEYS
    ensures !SharesTimerKey(other, a.w.current) && !SharesTimerKey(a.w.current, other) ==>
              BuildTimerKey(other) !in a.w.alarm.timerIds && BuildTimerKey(other) !in a.w.alarm.recalculationIds
    ensures ObserverName(setting, other) !in a.w.settings.registered
  {
    TimerKeyCollidesExactly(other, a.w.current);
  }

  lemma FreshNamesAreNotified(s: Settings, context: AccountContext, helpers: set<string>)
    requires forall k | k in SETTING_KEYS :: ObserverName(k, context) !in s.observers
    requires RegisterAll(s, SETTING_KEYS, context, helpers).1 == 0
    ensures RegisterAll(s, SETTING_KEYS, context, helpers).0.notified
         == s.notified + FirstNotifications(s, SETTING_KEYS, context)
  {
    SettingKeysAreDistinct();
    forall i, j | 0 <= i < j < |SETTING_KEYS|
      ensures ObserverName(SETTING_KEYS[i], context) != ObserverName(SETTING_KEYS[j], context)
    {
      if ObserverName(SETTING_KEYS[i], context) == ObserverName(SETTING_KEYS[j], context) {
        assert SETTING_KEYS[i] in SETTING_KEYS && SETTING_KEYS[j] in SETTING_KEYS;
        SettingObserverIsInjective(SETTING_KEYS[i], context, SETTING_KEYS[j], context);
      }
    }
    FreshObserversAreNotified(s, SETTING_KEYS, context, helpers);
  }

  lemma {:induction false} SameFirstNotifications(
    s: Settings, t: Settings, settings: seq<string>, context: AccountContext)
    requires s.data == t.data
    ensures FirstNotifications(s, settings, context) == FirstNotifications(t, settings, context)
  {
    if settings != [] {
      SameFirstNotifications(s, t, settings[..|settings| - 1], context);
    }
  }

  /** A switch that returns ERR_OK has sent each of the five observers of its context a first
      notification, in order, even when the context was the current one already. */
  lemma SwitchNotifiesEveryObserver(w: World, context: AccountContext, reach: SwitchEnv)
    requires Consistent(w) && context.userId > INVALID_USER_ID
    requires OnSwitchContext(w, context, reach).1 == ERR_OK
    ensures OnSwitchContext(w, context, reach).0.settings.notified
         == w.settings.notified + FirstNotifications(w.settings, SETTING_KEYS, context)
  {
    var s0 := w.settings.(initialized := true);
    if w.current.userId != INVALID_USER_ID {
      UnregisterAllSound(s0, w.current, reach.unregister);
      var s1 := UnregisterAll(s0, SETTING_KEYS, w.current, reach.unregister);
      FreshNamesAreNotified(s1, context, reach.register);
      SameFirstNotifications(w.settings, s1, SETTING_KEYS, context);
    } else {
      FreshNamesAreNotified(s0, context, reach.register);
      SameFirstNotifications(w.settings, s0, SETTING_KEYS, context);
    }
  }

  // ---------- what is refused, and what is left alone ----------

  lemma {:induction false} RegisterAllCounts(
    s: Settings, settings: seq<string>, context: AccountContext, helpers: set<string>)
    requires s.initialized
    requires forall k :: k in settings ==> ObserverName(k, context) !in s.observers
    requires forall i, j :: 0 <= i < j < |settings| ==>
                              ObserverName(settings[i], context) != ObserverName(settings[j], context)
    ensures RegisterAll(s, settings, context, helpers).1 == 0 <==> forall k :: k in settings ==> k in helpers
    ensures RegisterAll(s, settings, context, helpers).0.initialized
  {
    if settings != [] {
      var n := |settings| - 1;
      forall k | k in settings[..n]
        ensures ObserverName(settings[n], context) != ObserverName(k, context) && k in settings
      {
      }
      RegisterAllCounts(s, settings[..n], context, helpers);
      RegisterAllNames(s, settings[..n], context, helpers, ObserverName(settings[n], context));
      assert forall k :: k in settings <==> k in settings[..n] || k == settings[n];
    }
  }

  lemma FiveAreCounted(s: Settings, context: AccountContext, helpers: set<string>)
    requires s.initialized && forall k | k in SETTING_KEYS :: ObserverName(k, context) !in s.observers
    ensures RegisterAll(s, SETTING_KEYS, context, helpers).1 == 0 <==> forall k | k in SETTING_KEYS :: k in helpers
  {
    SettingKeysAreDistinct();
    forall i, j | 0 <= i < j < |SETTING_KEYS|
      ensures ObserverName(SETTING_KEYS[i], context) != ObserverName(SETTING_KEYS[j], context)
    {
      if ObserverName(SETTING_KEYS[i], context) == ObserverName(SETTING_KEYS[j], context) {
        assert SETTING_KEYS[i] in SETTING_KEYS && SETTING_KEYS[j] in SETTING_KEYS;
        SettingObserverIsInjective(SETTING_KEYS[i], context, SETTING_KEYS[j], context);
      }
    }
    RegisterAllCounts(s, SETTING_KEYS, context, helpers);
  }

  /** A switch returns ERR_OK exactly when the store can be initialized, the user is a real one, and the store can be
      reached for each of the five observers. */
  lemma SwitchSucceedsExactly(w: World, context: AccountContext, reach: SwitchEnv)
    requires Consistent(w)
    ensures OnSwitchContext(w, context, reach).1 == ERR_OK
       <==> && (w.settings.initialized || reach.available) && context.userId > INVALID_USER_ID
            && forall k | k in SETTING_KEYS :: k in reach.register
  {
    if (w.settings.initialized || reach.available) && context.userId > INVALID_USER_ID {
      var s0 := w.settings.(initialized := true);
      if w.current.userId != INVALID_USER_ID {
        UnregisterAllSound(s0, w.current, reach.unregister);
        FiveAreCounted(UnregisterAll(s0, SETTING_KEYS, w.current, reach.unregister), context, reach.register);
      } else {
        FiveAreCounted(s0, context, reach.register);
      }
    }
  }

  /** A switch to no user, or without a store, keeps the timers, the observers and the context it found. */
  lemma RefusedSwitchKeepsAll(w: World, context: AccountContext, reach: SwitchEnv)
    requires context.userId <= INVALID_USER_ID || !(w.settings.initialized || reach.available)
    ensures
      var (v, code) := OnSwitchContext(w, context, reach);
      && code != ERR_OK
      && v == w.(settings := w.settings.(initialized := w.settings.initialized || reach.available))
  {
  }

  /** A mode setting that is missing, not a printed integer, or none of 0 to 3 makes the mode INVALID: nothing is
      shown, recorded or pending, and of the timers only the recalculation goes. */
  lemma BadModeStops(w: World, key: string, context: AccountContext, env: Env)
    requires
      var (code, read) := GetInt32ValueStrictly(w.settings, key, -1, context.userId);
      code != ERR_OK || read < 0 || read > 3
    ensures
      var v := ModeUpdate(w, key, context, env);
      && StateOf(v, context) == StateOf(w, context).(mode := INVALID)
      && v.display == w.display && v.temps == w.temps && v.screen == w.screen && v.settings == w.settings
      && v.alarm == ClearRecalculationTimer(w.alarm, BuildTimerKey(context))
  {
  }

  /** A schedule update of one context leaves the override of every other as it was. */
  lemma UpdateLeavesOthers(
    w: World, dark: bool, context: AccountContext, reset: bool, boot: bool, now: Clock, other: AccountContext)
    requires other != context
    ensures
      var v := UpdateDarkModeSchedule(w, dark, context, reset, boot, now);
      InfoOf(v.temps.infos, other) == InfoOf(w.temps.infos, other)
  {
  }
}

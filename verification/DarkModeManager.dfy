/** The dark mode manager over its collaborators; every method is proved to do to the whole state what
    the function of the same name says (dark_mode_manager.cpp). */
module DarkModeManagers {
  import opened Decimal
  import opened Errors
  import opened Accounts
  import opened Schedule
  import opened AlarmLedger
  import opened AlarmTimers
  import opened TemporaryColorMode
  import opened TemporaryColorModes
  import opened ScreenSwitchOperator
  import opened SettingData
  import opened SettingDataManagers
  import opened UiAppearance
  import opened AppearanceDisplays
  import opened DarkMode

  class DarkModeManager {
    const alarm: AlarmTimerManager
    const temporary: TemporaryColorModeManager
    const screen: ScreenSwitchOperatorManager
    const settings: SettingDataManager
    const display: AppearanceDisplay
    var darkModeStates: map<AccountContext, DarkModeState>
    var settingDataObserversContext: AccountContext

    /** The overrides and the service persist into the same system parameters. */
    ghost predicate Valid() { temporary.parameters == display.parameters }

    ghost function Footprint(): set<object> {
      {this, alarm, alarm.service, temporary, temporary.parameters, screen, settings, display}
    }

    ghost function World(): World
      reads Footprint()
    {
      DarkMode.World(
        darkModeStates, settingDataObserversContext, alarm.State(), temporary.State(), screen.State(),
        settings.State(), display.State())
    }

    constructor (
      alarm: AlarmTimerManager, temporary: TemporaryColorModeManager, screen: ScreenSwitchOperatorManager,
      settings: SettingDataManager, display: AppearanceDisplay)
      requires temporary.parameters == display.parameters
      ensures Valid()
      ensures this.alarm == alarm && this.temporary == temporary && this.screen == screen
      ensures this.settings == settings && this.display == display
      ensures World() == DarkMode.World(
                           map[], CreateBaseContext(INVALID_USER_ID), alarm.State(), temporary.State(), screen.State(),
                           settings.State(), display.State())
    {
      this.alarm, this.temporary, this.screen, this.settings, this.display :=
        alarm, temporary, screen, settings, display;
      darkModeStates, settingDataObserversContext := map[], CreateBaseContext(INVALID_USER_ID);
    }

    /** darkModeStates_[context] */
    method State(context: AccountContext) returns (state: DarkModeState)
      modifies this`darkModeStates
      ensures state == StateOf(old(World()), context)
      ensures World() == Touch(old(World()), context)
    {
      if context !in darkModeStates {
        darkModeStates := darkModeStates[context := DEFAULT_STATE];
      }
      state := darkModeStates[context];
      assert darkModeStates == old(darkModeStates)[context := state];
    }

    method OnChangeDarkMode(dark: bool, context: AccountContext)
      requires Valid()
      modifies display, temporary, temporary.parameters
      ensures World() == DarkMode.OnChangeDarkMode(old(World()), dark, context)
    {
      display.UpdateDarkModeCallback(dark, context.userId);
      assert display.LookState() == UiAppearance.UpdateDarkModeCallback(LookOf(old(World())), dark, context.userId);
      if InfoOf(temporary.multiUserTempColorModeMap, context).temporary {
        temporary.SetColorModeNormal(context);
      }
    }

    method UpdateDarkModeSchedule(
      dark: bool, context: AccountContext, resetTemporary: bool, bootLoad: bool, now: Clock)
      requires Valid()
      modifies screen, display, temporary, temporary.parameters
      ensures World() == DarkMode.UpdateDarkModeSchedule(old(World()), dark, context, resetTemporary, bootLoad, now)
    {
      screen.ResetScreenOffOperateInfo();
      if resetTemporary {
        OnChangeDarkMode(dark, context);
        return;
      }
      var effective := temporary.IsEffective(context, now);
      if !screen.screenOn || bootLoad {
        if !effective {
          OnChangeDarkMode(dark, context);
        }
        return;
      }
      if !effective {
        screen.SetScreenOffOperateInfo(dark, context.userId);
      }
    }

    method CreateOrUpdateTimers(times: (int32, int32), context: AccountContext, env: Env) returns (code: ErrCode)
      modifies alarm, alarm.service
      ensures (World(), code) == DarkMode.CreateOrUpdateTimers(old(World()), times, context, env)
    {
      code := alarm.SetScheduleTime(
        ToU64(times.0), ToU64(times.1), BuildTimerKey(context), SwitchColor(times.0, times.1, context),
        env.now, env.first, env.second);
    }

    /** The state change methods return the error code and the caller's colour variable after the call. */
    method OnStateChangeToAllDayMode(
      context: AccountContext, dark: bool, needUpdate: bool, resetTemporary: bool, bootLoad: bool, env: Env)
      returns (code: ErrCode, isDarkMode: bool)
      requires Valid()
      modifies Footprint()
      ensures Changed(World(), code, isDarkMode)
              == DarkMode.OnStateChangeToAllDayMode(
                old(World()), context, dark, needUpdate, resetTemporary, bootLoad, env)
    {
      alarm.ClearRecalculationTimer(BuildTimerKey(context));
      alarm.ClearTimerByUserId(BuildTimerKey(context));
      isDarkMode := dark;
      if needUpdate {
        UpdateDarkModeSchedule(dark, context, resetTemporary, bootLoad, env.now);
      }
      code := ERR_OK;
    }

    method OnStateChangeToCustomAutoMode(
      context: AccountContext, needUpdate: bool, dark: bool, resetTemporary: bool, bootLoad: bool, env: Env)
      returns (code: ErrCode, isDarkMode: bool)
      requires Valid() && context in darkModeStates
      modifies Footprint()
      ensures Changed(World(), code, isDarkMode)
              == DarkMode.OnStateChangeToCustomAutoMode(
                old(World()), context, needUpdate, dark, resetTemporary, bootLoad, env)
    {
      isDarkMode := dark;
      var times := Effective(darkModeStates[context]);
      code := CreateOrUpdateTimers(times, context, env);
      if code != ERR_OK {
        alarm.ClearTimerByUserId(BuildTimerKey(context));
        return;
      }
      isDarkMode := Within(times, env.now);
      if needUpdate {
        UpdateDarkModeSchedule(isDarkMode, context, resetTemporary, bootLoad, env.now);
      }
    }

    method OnStateChangeLocked(
      context: AccountContext, needUpdate: bool, dark: bool, resetTemporary: bool, bootLoad: bool, env: Env)
      returns (code: ErrCode, isDarkMode: bool)
      requires Valid() && context in darkModeStates
      modifies Footprint()
      ensures Changed(World(), code, isDarkMode)
              == DarkMode.OnStateChange(old(World()), context, needUpdate, dark, resetTemporary, bootLoad, env)
    {
      var state := State(context);
      assert World() == old(World());
      match state.mode {
        case INVALID =>
          code, isDarkMode := ERR_INVALID_OPERATION, dark;
        case ALWAYS_LIGHT =>
          code, isDarkMode := OnStateChangeToAllDayMode(context, false, needUpdate, resetTemporary, bootLoad, env);
        case ALWAYS_DARK =>
          code, isDarkMode := OnStateChangeToAllDayMode(context, true, needUpdate, resetTemporary, bootLoad, env);
        case _ =>
          code, isDarkMode := OnStateChangeToCustomAutoMode(context, needUpdate, dark, resetTemporary, bootLoad, env);
      }
    }

    method ApplySunriseSunsetTimes(context: AccountContext, env: Env)
      modifies settings
      ensures World() == DarkMode.ApplySunriseSunsetTimes(old(World()), context, env)
    {
      if env.sun == None {
        return;
      }
      var (sunset, sunrise) := env.sun.value;
      if context !in darkModeStates || darkModeStates[context].mode != SUNRISE_SUNSET {
        return;
      }
      if darkModeStates[context].sunset == sunset && darkModeStates[context].sunrise == sunrise {
        return;
      }
      var _ := settings.SetInt32ValuePair(
        BuildSettingKey(SETTING_DARK_MODE_SUN_SET, context), sunset,
        BuildSettingKey(SETTING_DARK_MODE_SUN_RISE, context), sunrise, context.userId, env.pair);
    }

    method InitSunriseSunsetMode(context: AccountContext, env: Env)
      modifies settings, alarm, alarm.service
      ensures World() == DarkMode.InitSunriseSunsetMode(old(World()), context, env)
    {
      ApplySunriseSunsetTimes(context, env);
      if context !in darkModeStates || darkModeStates[context].mode != SUNRISE_SUNSET {
        return;
      }
      alarm.SetRecalculationTimer(BuildTimerKey(context), Recalculate(context), env.now, env.recalculation);
    }

    method RecalculationCallback(context: AccountContext, env: Env)
      modifies settings
      ensures World() == DarkMode.RecalculationCallback(old(World()), context, env)
    {
      if context !in darkModeStates || darkModeStates[context].mode != SUNRISE_SUNSET {
        return;
      }
      ApplySunriseSunsetTimes(context, env);
    }

    method LoadInt32(baseKey: string, default: int32, context: AccountContext, granted: PutReply) returns (value: int32)
      modifies settings
      ensures (settings.State(), value) == DarkMode.LoadInt32(old(settings.State()), baseKey, default, context, granted)
    {
      var contextKey := BuildSettingKey(baseKey, context);
      var code;
      code, value := settings.GetInt32ValueStrictly(contextKey, default, context.userId);
      if code == ERR_OK || !context.IsSubProfile() {
        return;
      }
      code, value := settings.GetInt32ValueStrictly(baseKey, value, context.userId);
      if code == ERR_OK {
        var _ := settings.SetStringValue(contextKey, ToString(value), context.userId, false, granted);
      }
    }

    method LoadState(context: AccountContext, copies: Copies) returns (state: DarkModeState)
      modifies settings
      ensures (settings.State(), state) == DarkMode.LoadState(old(settings.State()), context, copies)
    {
      var darkMode := LoadInt32(SETTING_DARK_MODE_MODE, -1, context, copies.mode);
      var startTime := LoadInt32(SETTING_DARK_MODE_START_TIME, -1, context, copies.start);
      var endTime := LoadInt32(SETTING_DARK_MODE_END_TIME, -1, context, copies.end);
      var sunsetTime := LoadInt32(SETTING_DARK_MODE_SUN_SET, SUNSET_TIME_DEFAULT, context, copies.sunset);
      var sunriseTime := LoadInt32(SETTING_DARK_MODE_SUN_RISE, SUNRISE_TIME_DEFAULT, context, copies.sunrise);
      state := DarkModeState(ModeOf(darkMode), startTime, endTime, sunsetTime, sunriseTime);
    }

    method LoadTemporary(context: AccountContext, now: Clock)
      modifies temporary, temporary.parameters
      ensures temporary.State() == DarkMode.LoadTemporary(old(temporary.State()), context, now)
    {
      temporary.InitData(context);
      var effective := temporary.IsEffective(context, now);
      if temporary.multiUserTempColorModeMap[context].temporary && !effective {
        temporary.SetColorModeNormal(context);
      }
    }

    method LoadUserSettingData(context: AccountContext, needUpdate: bool, dark: bool, bootLoad: bool, env: Env)
      returns (code: ErrCode, isDarkMode: bool)
      requires Valid()
      modifies Footprint()
      ensures Changed(World(), code, isDarkMode)
              == DarkMode.LoadUserSettingData(old(World()), context, needUpdate, dark, bootLoad, env)
    {
      var state := LoadState(context, env.copies);
      darkModeStates := darkModeStates[context := state];
      LoadTemporary(context, env.now);
      screen.ResetScreenOffOperateInfo();
      code, isDarkMode := OnStateChangeLocked(context, needUpdate, dark, false, bootLoad, env);
      if state.mode == SUNRISE_SUNSET {
        InitSunriseSunsetMode(context, env);
      }
    }

    method RegisterSettingDataObservers(context: AccountContext, helpers: set<string>) returns (failures: nat)
      modifies settings
      ensures (settings.State(), failures) == RegisterAll(old(settings.State()), SETTING_KEYS, context, helpers)
    {
      failures := RegisterObservers(SETTING_KEYS, context, helpers);
    }

    method UnregisterSettingDataObservers(context: AccountContext, helpers: set<string>)
      modifies settings
      ensures settings.State() == UnregisterAll(old(settings.State()), SETTING_KEYS, context, helpers)
    {
      UnregisterObservers(SETTING_KEYS, context, helpers);
    }

    method RegisterObservers(keys: seq<string>, context: AccountContext, helpers: set<string>) returns (failures: nat)
      modifies settings
      ensures (settings.State(), failures) == RegisterAll(old(settings.State()), keys, context, helpers)
    {
      failures := 0;
      for i := 0 to |keys|
        invariant (settings.State(), failures) == RegisterAll(old(settings.State()), keys[..i], context, helpers)
      {
        assert keys[..i + 1][..i] == keys[..i];
        var code := settings.RegisterObserver(ObserverOf(keys[i], context), keys[i] in helpers);
        if code != ERR_OK {
          failures := failures + 1;
        }
      }
      assert keys[..|keys|] == keys;
    }

    method UnregisterObservers(keys: seq<string>, context: AccountContext, helpers: set<string>)
      modifies settings
      ensures settings.State() == UnregisterAll(old(settings.State()), keys, context, helpers)
    {
      for i := 0 to |keys|
        invariant settings.State() == UnregisterAll(old(settings.State()), keys[..i], context, helpers)
      {
        assert keys[..i + 1][..i] == keys[..i];
        var _ := settings.UnregisterObserver(BuildSettingKey(keys[i], context), context.userId, keys[i] in helpers);
      }
      assert keys[..|keys|] == keys;
    }

    method OnSwitchContext(context: AccountContext, reach: SwitchEnv) returns (code: ErrCode)
      requires Valid()
      modifies this, settings, alarm, alarm.service
      ensures (World(), code) == DarkMode.OnSwitchContext(old(World()), context, reach)
    {
      var initialized := settings.Initialize(reach.available);
      if initialized != ERR_OK {
        return ERR_NO_INIT;
      }
      if context.userId <= INVALID_USER_ID {
        return ERR_INVALID_OPERATION;
      }
      if settingDataObserversContext.userId != INVALID_USER_ID {
        alarm.ClearTimerByUserId(BuildTimerKey(settingDataObserversContext));
        UnregisterSettingDataObservers(settingDataObserversContext, reach.unregister);
      }
      var failures := RegisterSettingDataObservers(context, reach.register);
      settingDataObserversContext := context;
      return if failures == 0 then ERR_OK else ERR_NO_INIT;
    }

    method SettingDataDarkModeModeUpdateFunc(key: string, context: AccountContext, env: Env)
      requires Valid()
      modifies Footprint()
      ensures World() == ModeUpdate(old(World()), key, context, env)
    {
      var code, value := settings.GetInt32ValueStrictly(key, -1, context.userId);
      var mode := if code == ERR_OK then ModeOf(value) else INVALID;
      var state := State(context);
      SameAfterTouch(old(World()), context, state.(mode := mode));
      ApplyState(context, state.(mode := mode), true, env);
      if mode == SUNRISE_SUNSET {
        InitSunriseSunsetMode(context, env);
      } else {
        alarm.ClearRecalculationTimer(BuildTimerKey(context));
      }
    }

    /** What the five observers share: store the changed state and apply it. */
    method ApplyState(context: AccountContext, state: DarkModeState, resetTemporary: bool, env: Env)
      requires Valid()
      modifies Footprint()
      ensures World()
              == OnStateChange(
                WithState(old(World()), context, state), context, true, false, resetTemporary, false, env).w
    {
      darkModeStates := darkModeStates[context := state];
      var _, _ := OnStateChangeLocked(context, true, false, resetTemporary, false, env);
    }

    method SettingDataDarkModeStartTimeUpdateFunc(key: string, context: AccountContext, env: Env)
      requires Valid()
      modifies Footprint()
      ensures World() == StartTimeUpdate(old(World()), key, context, env)
    {
      var _, value := settings.GetInt32ValueStrictly(key, -1, context.userId);
      var state := State(context);
      SameAfterTouch(old(World()), context, state.(start := value));
      ApplyState(context, state.(start := value), true, env);
    }

    method SettingDataDarkModeEndTimeUpdateFunc(key: string, context: AccountContext, env: Env)
      requires Valid()
      modifies Footprint()
      ensures World() == EndTimeUpdate(old(World()), key, context, env)
    {
      var _, value := settings.GetInt32ValueStrictly(key, -1, context.userId);
      var state := State(context);
      SameAfterTouch(old(World()), context, state.(end := value));
      ApplyState(context, state.(end := value), true, env);
    }

    method SettingDataDarkModeSunsetTimeUpdateFunc(key: string, context: AccountContext, env: Env)
      requires Valid()
      modifies Footprint()
      ensures World() == SunsetTimeUpdate(old(World()), key, context, env)
    {
      var _, value := settings.GetInt32ValueStrictly(key, SUNSET_TIME_DEFAULT, context.userId);
      var state := State(context);
      if value >= state.sunrise {
        state := state.(sunset := SUNSET_TIME_DEFAULT, sunrise := SUNRISE_TIME_DEFAULT);
      } else {
        state := state.(sunset := value);
      }
      SameAfterTouch(old(World()), context, state);
      ApplyState(context, state, false, env);
    }

    method SettingDataDarkModeSunriseTimeUpdateFunc(key: string, context: AccountContext, env: Env)
      requires Valid()
      modifies Footprint()
      ensures World() == SunriseTimeUpdate(old(World()), key, context, env)
    {
      var _, value := settings.GetInt32ValueStrictly(key, SUNRISE_TIME_DEFAULT, context.userId);
      var state := State(context);
      if value <= state.sunset {
        state := state.(sunset := SUNSET_TIME_DEFAULT, sunrise := SUNRISE_TIME_DEFAULT);
      } else {
        state := state.(sunrise := value);
      }
      SameAfterTouch(old(World()), context, state);
      ApplyState(context, state, false, env);
    }

    static lemma SameAfterTouch(w: World, context: AccountContext, state: DarkModeState)
      ensures WithState(Touch(w, context), context, state) == WithState(w, context, state)
    {
      assert Touch(w, context).states[context := state] == w.states[context := state];
    }

    method CheckTimerCallbackParams(times: (int, int), context: AccountContext, now: Clock) returns (dark: Option<bool>)
      modifies this`darkModeStates
      ensures dark == DarkMode.CheckTimerCallbackParams(old(World()), times, context, now)
      ensures World() == Touch(old(World()), context)
    {
      var state := State(context);
      if state.mode == CUSTOM_AUTO {
        if state.start != times.0 || state.end != times.1 {
          return None;
        }
      } else if state.mode == SUNRISE_SUNSET {
        if state.sunset != times.0 || state.sunrise != times.1 {
          return None;
        }
      } else {
        return None;
      }
      return Some(CheckCurrentTimeInDarkInterval(times.0, times.1, now.second));
    }

    /** The lambda both schedule timers run. */
    method TimerCallback(times: (int, int), context: AccountContext, now: Clock)
      requires Valid()
      modifies Footprint()
      ensures World() == DarkMode.TimerCallback(old(World()), times, context, now)
    {
      var dark := CheckTimerCallbackParams(times, context, now);
      if dark.Some? {
        UpdateDarkModeSchedule(dark.value, context, false, false, now);
      }
    }

    /** `refused` are the timers the time service does not start again. */
    method RestartTimer(env: Env, refused: set<nat>) returns (ok: bool)
      requires Valid() && Sound(World().alarm)
      modifies Footprint()
      ensures ok && World() == BeforeRestart(old(World()), env).(alarm := World().alarm)
      ensures if IsAuto(StateOf(old(World()), old(World().current)).mode)
              then Restarted(old(World().alarm), World().alarm, env.now, refused)
              else World().alarm == old(World().alarm)
    {
      var context := settingDataObserversContext;
      var state := State(context);
      if !IsAuto(state.mode) {
        return true;
      }
      var times := Effective(state);
      if state.mode == SUNRISE_SUNSET {
        ApplySunriseSunsetTimes(context, env);
      }
      UpdateDarkModeSchedule(Within(times, env.now), context, false, false, env.now);
      ScheduleLeavesTimersAlone(Touch(old(World()), context), state, context, env);
      ok := alarm.RestartAllTimer(env.now, refused);
    }

    static lemma ScheduleLeavesTimersAlone(w: World, state: DarkModeState, context: AccountContext, env: Env)
      ensures
        var w1 := if state.mode == SUNRISE_SUNSET then DarkMode.ApplySunriseSunsetTimes(w, context, env) else w;
        DarkMode.UpdateDarkModeSchedule(w1, Within(Effective(state), env.now), context, false, false, env.now).alarm
        == w.alarm
    {
    }

    method ScreenOnCallback()
      modifies screen
      ensures World() == ScreenOn(old(World()))
    {
      screen.SetScreenOn();
    }

    method ScreenOffCallback()
      requires Valid()
      modifies Footprint()
      ensures World() == ScreenOff(old(World()))
    {
      screen.SetScreenOff();
      if screen.screenOffOperator != NONE {
        OnChangeDarkMode(screen.screenOffOperator == SWITCH_TO_DARK, CreateBaseContext(screen.operateUserId));
        screen.ResetScreenOffOperateInfo();
      }
    }

    method DoSwitchTemporaryColorMode(context: AccountContext, dark: bool, now: Clock)
      requires Valid()
      modifies Footprint()
      ensures World() == DarkMode.DoSwitchTemporaryColorMode(old(World()), context, dark, now)
    {
      var state := State(context);
      if IsAuto(state.mode) {
        screen.ResetScreenOffOperateInfo();
        var times := Effective(state);
        if Within(times, now) == dark {
          temporary.SetColorModeNormal(context);
        } else {
          var _ := temporary.SetColorModeTemporary(context, Some((times.0, times.1)), now);
        }
      }
    }

    method NotifyDarkModeUpdate(context: AccountContext, dark: bool, granted: PutReply)
      requires Valid()
      modifies this, settings
      ensures World() == DarkMode.NotifyDarkModeUpdate(old(World()), context, dark, granted)
    {
      var state := State(context);
      var key := BuildSettingKey(SETTING_DARK_MODE_MODE, context);
      if dark {
        if state.mode == ALWAYS_LIGHT || state.mode == INVALID {
          var _ := settings.SetStringValue(key, ToString(1), context.userId, true, granted);
        }
      } else {
        if state.mode == ALWAYS_DARK || state.mode == INVALID {
          var _ := settings.SetStringValue(key, ToString(0), context.userId, true, granted);
        }
      }
    }
  }
}

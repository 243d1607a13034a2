/** The dark mode scheduler as values: what each entry point of DarkModeManager and of the service's
    colour setter does to the whole state (dark_mode_manager.cpp, ui_appearance_ability.cpp). */
module DarkMode {
  import opened Decimal
  import opened Errors
  import opened Accounts
  import opened Schedule
  import opened AlarmLedger
  import opened TemporaryColorMode
  import opened ScreenSwitchOperator
  import opened SettingData
  import opened UiAppearance

  const SUNSET_TIME_DEFAULT: int32 := 18 * 60
  const SUNRISE_TIME_DEFAULT: int32 := 7 * 60 + DAY_TO_MINUTE

  datatype Mode = INVALID | ALWAYS_LIGHT | ALWAYS_DARK | CUSTOM_AUTO | SUNRISE_SUNSET

  datatype DarkModeState = DarkModeState(mode: Mode, start: int32, end: int32, sunset: int32, sunrise: int32)

  const DEFAULT_STATE := DarkModeState(INVALID, -1, -1, SUNSET_TIME_DEFAULT, SUNRISE_TIME_DEFAULT)

  datatype World = World(
    states: map<AccountContext, DarkModeState>,
    current: AccountContext,
    alarm: Alarm,
    temps: Temps,
    screen: Screen,
    settings: Settings,
    display: Display)

  /** The store's answers to the copies a load makes for a sub-profile, one per setting. */
  datatype Copies = Copies(mode: PutReply, start: PutReply, end: PutReply, sunset: PutReply, sunrise: PutReply)

  /** What the environment answers during one entry point: the clock, the time service (start, end and
      recalculation timer), the computed sunset and sunrise if any, and the settings store. */
  datatype Env = Env(
    now: Clock, first: Reply, second: Reply, recalculation: Reply, sun: Option<(int32, int32)>, pair: PairReply,
    copies: Copies)

  function StateOf(w: World, context: AccountContext): DarkModeState {
    if context in w.states then w.states[context] else DEFAULT_STATE
  }

  /** Indexing the state map creates a missing entry. */
  function Touch(w: World, context: AccountContext): World {
    w.(states := w.states[context := StateOf(w, context)])
  }

  function WithState(w: World, context: AccountContext, state: DarkModeState): World {
    w.(states := w.states[context := state])
  }

  function ModeOf(value: int32): Mode {
    if value == 0 then ALWAYS_LIGHT
    else if value == 1 then ALWAYS_DARK
    else if value == 2 then CUSTOM_AUTO
    else if value == 3 then SUNRISE_SUNSET
    else INVALID
  }

  predicate IsAuto(mode: Mode) { mode == CUSTOM_AUTO || mode == SUNRISE_SUNSET }

  /** The times that drive the schedule in the mode of the state. */
  function Effective(state: DarkModeState): (int32, int32) {
    if state.mode == SUNRISE_SUNSET then (state.sunset, state.sunrise) else (state.start, state.end)
  }

  function GetSettingTime(w: World, context: AccountContext): Option<(int, int)> {
    if context !in w.states then None
    else
      var state := w.states[context];
      if state.mode == CUSTOM_AUTO then Some((state.start, state.end)) else Some((state.sunset, state.sunrise))
  }

  predicate Within(times: (int32, int32), now: Clock) {
    IsWithinTimeInterval(ToU64(times.0), ToU64(times.1), now.Minute())
  }

  // ---------- showing a colour ----------

  /** Applies a change of the display and of the parameters. */
  function WithLook(w: World, look: Look): World {
    w.(display := look.display, temps := w.temps.(params := look.params))
  }

  function LookOf(w: World): Look { Look(w.display, w.temps.params) }

  function OnChangeDarkMode(w: World, dark: bool, context: AccountContext): World {
    var shown := WithLook(w, UpdateDarkModeCallback(LookOf(w), dark, context.userId));
    if IsColorModeTemporary(shown.temps, context) then
      shown.(temps := SetColorModeNormal(shown.temps, context))
    else
      shown
  }

  function ResetOperate(w: World): World { w.(screen := w.screen.(operate := NONE, userId := USER100)) }

  /** Shows the scheduled colour now, defers it to screen-off, or leaves a running override alone. */
  function UpdateDarkModeSchedule(
    w: World, dark: bool, context: AccountContext, resetTemporary: bool, bootLoad: bool, now: Clock): World
  {
    var w0 := ResetOperate(w);
    if resetTemporary then
      OnChangeDarkMode(w0, dark, context)
    else
      var overridden := IsColorModeTemporary(w0.temps, context) && CheckTemporaryStateEffective(w0.temps, context, now);
      if overridden then
        w0
      else if !w0.screen.on || bootLoad then
        OnChangeDarkMode(w0, dark, context)
      else
        w0.(screen := w0.screen.(operate := if dark then SWITCH_TO_DARK else SWITCH_TO_LIGHT, userId := context.userId))
  }

  // ---------- state changes ----------

  datatype Changed = Changed(w: World, code: ErrCode, dark: bool)

  function CreateOrUpdateTimers(w: World, times: (int32, int32), context: AccountContext, env: Env): (World, ErrCode) {
    var (alarm, code) := SetScheduleTime(
                           w.alarm, ToU64(times.0), ToU64(times.1), BuildTimerKey(context),
                           SwitchColor(times.0, times.1, context), env.now, env.first, env.second);
    (w.(alarm := alarm), code)
  }

  function OnStateChangeToAllDayMode(
    w: World, context: AccountContext, dark: bool, needUpdate: bool, resetTemporary: bool, bootLoad: bool, env: Env)
    : Changed
  {
    var key := BuildTimerKey(context);
    var cleared := w.(alarm := ClearTimerByUserId(ClearRecalculationTimer(w.alarm, key), key));
    Changed(
      if needUpdate then UpdateDarkModeSchedule(cleared, dark, context, resetTemporary, bootLoad, env.now) else cleared,
      ERR_OK, dark)
  }

  function OnStateChangeToCustomAutoMode(
    w: World, context: AccountContext, needUpdate: bool, dark: bool, resetTemporary: bool, bootLoad: bool, env: Env)
    : Changed
  {
    var times := Effective(StateOf(w, context));
    var (timed, code) := CreateOrUpdateTimers(w, times, context, env);
    if code != ERR_OK then
      Changed(timed.(alarm := ClearTimerByUserId(timed.alarm, BuildTimerKey(context))), code, dark)
    else
      var scheduled := Within(times, env.now);
      Changed(
        if needUpdate then
          UpdateDarkModeSchedule(timed, scheduled, context, resetTemporary, bootLoad, env.now)
        else timed,
        ERR_OK, scheduled)
  }

  /** OnStateChangeLocked; `dark` is the caller's variable, kept unless a colour is decided. */
  function OnStateChange(
    w: World, context: AccountContext, needUpdate: bool, dark: bool, resetTemporary: bool, bootLoad: bool, env: Env)
    : Changed
  {
    match StateOf(w, context).mode
    case INVALID => Changed(Touch(w, context), ERR_INVALID_OPERATION, dark)
    case ALWAYS_LIGHT => OnStateChangeToAllDayMode(w, context, false, needUpdate, resetTemporary, bootLoad, env)
    case ALWAYS_DARK => OnStateChangeToAllDayMode(w, context, true, needUpdate, resetTemporary, bootLoad, env)
    case _ => OnStateChangeToCustomAutoMode(w, context, needUpdate, dark, resetTemporary, bootLoad, env)
  }

  // ---------- sunrise and sunset ----------

  /** Stores a newly computed pair while the mode is still sunrise/sunset and the pair differs. */
  function ApplySunriseSunsetTimes(w: World, context: AccountContext, env: Env): World {
    match env.sun
    case None => w
    case Some((sunset, sunrise)) =>
      if context !in w.states || w.states[context].mode != SUNRISE_SUNSET then w
      else if w.states[context].sunset == sunset && w.states[context].sunrise == sunrise then w
      else
        w.(settings := SetInt32ValuePair(
             w.settings, BuildSettingKey(SETTING_DARK_MODE_SUN_SET, context), sunset,
             BuildSettingKey(SETTING_DARK_MODE_SUN_RISE, context), sunrise, context.userId, env.pair).0)
  }

  function InitSunriseSunsetMode(w: World, context: AccountContext, env: Env): World {
    var w1 := ApplySunriseSunsetTimes(w, context, env);
    if context !in w1.states || w1.states[context].mode != SUNRISE_SUNSET then
      w1
    else
      w1.(alarm := SetRecalculationTimer(
            w1.alarm, BuildTimerKey(context), Recalculate(context), env.now, env.recalculation))
  }

  /** The recalculation timer's callback, ignored once the mode has changed. */
  function RecalculationCallback(w: World, context: AccountContext, env: Env): World {
    if context in w.states && w.states[context].mode == SUNRISE_SUNSET then
      ApplySunriseSunsetTimes(w, context, env)
    else
      w
  }

  // ---------- loading ----------

  /** One setting of the context, read strictly; a sub-profile falls back on the user's own key and
      copies what it finds there, without a notification. */
  function LoadInt32(s: Settings, baseKey: string, default: int32, context: AccountContext, granted: PutReply)
    : (Settings, int32)
  {
    var contextKey := BuildSettingKey(baseKey, context);
    var (code, value) := GetInt32ValueStrictly(s, contextKey, default, context.userId);
    if code == ERR_OK || !context.IsSubProfile() then (s, value)
    else
      var (baseCode, baseValue) := GetInt32ValueStrictly(s, baseKey, value, context.userId);
      (if baseCode == ERR_OK then
         SetStringValue(s, contextKey, ToString(baseValue), context.userId, false, granted).0
       else s,
       baseValue)
  }

  function LoadState(s: Settings, context: AccountContext, copies: Copies): (Settings, DarkModeState) {
    var (s1, mode) := LoadInt32(s, SETTING_DARK_MODE_MODE, -1, context, copies.mode);
    var (s2, start) := LoadInt32(s1, SETTING_DARK_MODE_START_TIME, -1, context, copies.start);
    var (s3, end) := LoadInt32(s2, SETTING_DARK_MODE_END_TIME, -1, context, copies.end);
    var (s4, sunset) := LoadInt32(s3, SETTING_DARK_MODE_SUN_SET, SUNSET_TIME_DEFAULT, context, copies.sunset);
    var (s5, sunrise) := LoadInt32(s4, SETTING_DARK_MODE_SUN_RISE, SUNRISE_TIME_DEFAULT, context, copies.sunrise);
    (s5, DarkModeState(ModeOf(mode), start, end, sunset, sunrise))
  }

  /** Restores the override and drops it when its window is over. */
  function LoadTemporary(t: Temps, context: AccountContext, now: Clock): Temps {
    var restored := InitData(t, context);
    if IsColorModeTemporary(restored, context) && !CheckTemporaryStateEffective(restored, context, now) then
      SetColorModeNormal(restored, context)
    else
      restored
  }

  function LoadUserSettingData(
    w: World, context: AccountContext, needUpdate: bool, dark: bool, bootLoad: bool, env: Env): Changed
  {
    var (settings, state) := LoadState(w.settings, context, env.copies);
    var loaded := ResetOperate(
                    WithState(
                      w.(settings := settings, temps := LoadTemporary(w.temps, context, env.now)), context, state));
    var changed := OnStateChange(loaded, context, needUpdate, dark, false, bootLoad, env);
    if state.mode == SUNRISE_SUNSET then
      changed.(w := InitSunriseSunsetMode(changed.w, context, env))
    else
      changed
  }

  /** What the registrations of one context switch can reach, and whether the store can be initialized. */
  datatype SwitchEnv = SwitchEnv(available: bool, unregister: set<string>, register: set<string>)

  function OnSwitchContext(w: World, context: AccountContext, reach: SwitchEnv): (World, ErrCode) {
    var w0 := w.(settings := w.settings.(initialized := w.settings.initialized || reach.available));
    if !w0.settings.initialized then (w0, ERR_NO_INIT)
    else if context.userId <= INVALID_USER_ID then (w0, ERR_INVALID_OPERATION)
    else
      var left :=
        if w0.current.userId == INVALID_USER_ID then w0
        else
          w0.(alarm := ClearTimerByUserId(w0.alarm, BuildTimerKey(w0.current)),
              settings := UnregisterAll(w0.settings, SETTING_KEYS, w0.current, reach.unregister));
      var (settings, failures) := RegisterAll(left.settings, SETTING_KEYS, context, reach.register);
      (left.(settings := settings, current := context), if failures == 0 then ERR_OK else ERR_NO_INIT)
  }

  // ---------- setting observers ----------

  function ModeUpdate(w: World, key: string, context: AccountContext, env: Env): World {
    var (code, read) := GetInt32ValueStrictly(w.settings, key, -1, context.userId);
    var mode := if code == ERR_OK then ModeOf(read) else INVALID;
    var changed := OnStateChange(
                     WithState(w, context, StateOf(w, context).(mode := mode)),
                     context, true, false, true, false, env).w;
    if mode == SUNRISE_SUNSET then
      InitSunriseSunsetMode(changed, context, env)
    else
      changed.(alarm := ClearRecalculationTimer(changed.alarm, BuildTimerKey(context)))
  }

  function StartTimeUpdate(w: World, key: string, context: AccountContext, env: Env): World {
    var value := GetInt32ValueStrictly(w.settings, key, -1, context.userId).1;
    OnStateChange(
      WithState(w, context, StateOf(w, context).(start := value)), context, true, false, true, false, env).w
  }

  function EndTimeUpdate(w: World, key: string, context: AccountContext, env: Env): World {
    var value := GetInt32ValueStrictly(w.settings, key, -1, context.userId).1;
    OnStateChange(
      WithState(w, context, StateOf(w, context).(end := value)), context, true, false, true, false, env).w
  }

  /** A sunset at or after the sunrise in memory resets both times. */
  function TakeSunset(state: DarkModeState, value: int32): DarkModeState {
    if value >= state.sunrise then state.(sunset := SUNSET_TIME_DEFAULT, sunrise := SUNRISE_TIME_DEFAULT)
    else state.(sunset := value)
  }

  function TakeSunrise(state: DarkModeState, value: int32): DarkModeState {
    if value <= state.sunset then state.(sunset := SUNSET_TIME_DEFAULT, sunrise := SUNRISE_TIME_DEFAULT)
    else state.(sunrise := value)
  }

  function SunsetTimeUpdate(w: World, key: string, context: AccountContext, env: Env): World {
    var value := GetInt32ValueStrictly(w.settings, key, SUNSET_TIME_DEFAULT, context.userId).1;
    OnStateChange(
      WithState(w, context, TakeSunset(StateOf(w, context), value)), context, true, false, false, false, env).w
  }

  function SunriseTimeUpdate(w: World, key: string, context: AccountContext, env: Env): World {
    var value := GetInt32ValueStrictly(w.settings, key, SUNRISE_TIME_DEFAULT, context.userId).1;
    OnStateChange(
      WithState(w, context, TakeSunrise(StateOf(w, context), value)), context, true, false, false, false, env).w
  }

  // ---------- timers and screen ----------

  /** CheckTimerCallbackParams: the colour to show, or nothing for a callback of an older schedule. */
  function CheckTimerCallbackParams(w: World, times: (int, int), context: AccountContext, now: Clock): Option<bool> {
    var state := StateOf(w, context);
    if !IsAuto(state.mode) || Effective(state) != times then None
    else Some(CheckCurrentTimeInDarkInterval(times.0, times.1, now.second))
  }

  function TimerCallback(w: World, times: (int, int), context: AccountContext, now: Clock): World {
    match CheckTimerCallbackParams(w, times, context, now)
    case None => Touch(w, context)
    case Some(dark) => UpdateDarkModeSchedule(Touch(w, context), dark, context, false, false, now)
  }

  /** RestartTimer up to the restart of the timers themselves; nothing to restart outside the automatic modes. */
  function BeforeRestart(w: World, env: Env): World {
    var w0 := Touch(w, w.current);
    var state := StateOf(w, w.current);
    if !IsAuto(state.mode) then w0
    else
      var w1 := if state.mode == SUNRISE_SUNSET then ApplySunriseSunsetTimes(w0, w.current, env) else w0;
      UpdateDarkModeSchedule(w1, Within(Effective(state), env.now), w.current, false, false, env.now)
  }

  function ScreenOn(w: World): World { w.(screen := w.screen.(on := true)) }

  /** Carries out the pending operation, on the base context of its user. */
  function ScreenOff(w: World): World {
    var off := w.(screen := w.screen.(on := false));
    if off.screen.operate == NONE then off
    else
      ResetOperate(
        OnChangeDarkMode(off, off.screen.operate == SWITCH_TO_DARK, CreateBaseContext(off.screen.userId)))
  }

  // ---------- the user's choice ----------

  function DoSwitchTemporaryColorMode(w: World, context: AccountContext, dark: bool, now: Clock): World {
    var w0 := Touch(w, context);
    if !IsAuto(StateOf(w, context).mode) then w0
    else
      var w1 := ResetOperate(w0);
      if Within(Effective(StateOf(w, context)), now) == dark then
        w1.(temps := SetColorModeNormal(w1.temps, context))
      else
        w1.(temps := SetColorModeTemporary(w1.temps, context, GetSettingTime(w1, context), now).0)
  }

  /** In the modes without a schedule the choice becomes the mode setting. */
  function NotifyDarkModeUpdate(w: World, context: AccountContext, dark: bool, granted: PutReply): World {
    var w0 := Touch(w, context);
    var mode := StateOf(w, context).mode;
    if mode == INVALID || mode == (if dark then ALWAYS_LIGHT else ALWAYS_DARK) then
      w0.(settings := SetStringValue(
            w0.settings, BuildSettingKey(SETTING_DARK_MODE_MODE, context), ToString(if dark then 1 else 0),
            context.userId, true, granted).0)
    else
      w0
  }

  /** ConfigurePersistence of the setter; false when the parameter cannot be written. */
  function ConfigurePersistence(w: World, context: AccountContext, dark: bool, now: Clock, granted: PutReply)
    : (World, bool)
  {
    var switched := DoSwitchTemporaryColorMode(w, context, dark, now);
    var shown := WithLook(switched, Show(LookOf(switched), dark, context));
    if DarkModeKey(context) in w.temps.params.refused then
      (shown, false)
    else
      (NotifyDarkModeUpdate(shown, context, dark, granted), true)
  }

  /** The loop over the foreground users, cut short by the first failure. */
  function ConfigureAll(w: World, users: seq<int32>, dark: bool, now: Clock, granted: PutReply): (World, bool) {
    if users == [] then (w, true)
    else
      var n := |users| - 1;
      var (done, ok) := ConfigureAll(w, users[..n], dark, now, granted);
      if !ok then (done, false)
      else ConfigurePersistence(done, ForegroundContext(done.display, users[n]), dark, now, granted)
  }

  datatype ColorMode = LIGHT | DARK | OTHER

  datatype SetResult = SUCCEEDED | SYS_ERR | INVALID_ARG

  function OnSetDarkMode(w: World, context: AccountContext, mode: ColorMode, now: Clock, granted: PutReply)
    : (World, SetResult)
  {
    if mode == OTHER then (w, INVALID_ARG)
    else if !w.display.accepting then (w, SYS_ERR)
    else
      var w0 := WithLook(w, PersistColor(LookOf(w), mode == DARK));
      var (w1, ok) :=
        if |w.display.foregroundUsers| > 1 then
          ConfigureAll(w0, w.display.foregroundUsers, mode == DARK, now, granted)
        else
          ConfigurePersistence(w0, context, mode == DARK, now, granted);
      (w1, if ok then SUCCEEDED else SYS_ERR)
  }

  /** A request for the colour already shown is refused. */
  function SetDarkMode(w: World, context: AccountContext, mode: ColorMode, now: Clock, granted: PutReply)
    : (World, SetResult)
  {
    if mode == (if ShowsDark(w.display, context) then DARK else LIGHT) then (w, SYS_ERR)
    else OnSetDarkMode(w, context, mode, now, granted)
  }

  /** AccountContextSwitchFunc: the switch, the load, and the scheduled colour unless an override runs. */
  function SwitchAndLoad(w: World, context: AccountContext, reach: SwitchEnv, env: Env): World {
    var switched := OnSwitchContext(w, context, reach).0;
    var loaded := LoadUserSettingData(switched, context, false, false, false, env);
    if loaded.code == ERR_OK && !IsColorModeTemporary(loaded.w.temps, context) then
      loaded.w.(display := Remember(loaded.w.display, loaded.dark, context))
    else
      loaded.w
  }

  /** The boot path: the switch and a load that shows the colour at once. */
  function BootLoad(w: World, context: AccountContext, reach: SwitchEnv, env: Env): World {
    LoadUserSettingData(OnSwitchContext(w, context, reach).0, context, true, false, true, env).w
  }
}

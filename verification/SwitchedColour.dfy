/** The colour a context shows after an account switch or the boot of the service, whatever its mode. */
module SwitchedColours {
  import opened Decimal
  import opened Errors
  import opened Accounts
  import opened Schedule
  import opened AlarmLedger
  import opened TemporaryColorMode
  import opened ScreenSwitchOperator
  import opened UiAppearance
  import opened Migration
  import opened ShownColours
  import opened Startup
  import opened DarkMode
  import opened ColourRun
  import opened RunStart
  import opened FirstNotices
  import opened AccountSwitches

  /** The colour that the settings decide on: none in an invalid mode, the mode's own in an all-day one, and the
      scheduled one in an automatic mode whose timers are granted. */
  function DecidedColour(w: World, context: AccountContext, env: Env): Option<bool> {
    var state := LoadState(w.settings, context, env.copies).1;
    match state.mode
    case INVALID => None
    case ALWAYS_LIGHT => Some(false)
    case ALWAYS_DARK => Some(true)
    case _ =>
      if ValidTimes(Effective(state)) && Offered(w.alarm, BuildTimerKey(context), env.first, env.second) then
        Some(Within(Effective(state), env.now))
      else None
  }

  predicate Untimed(a: Alarm, context: AccountContext) {
    BuildTimerKey(context) !in a.timerIds && BuildTimerKey(context) !in a.recalculationIds
  }

  predicate IsAllDay(mode: Mode) { mode == ALWAYS_LIGHT || mode == ALWAYS_DARK }

  lemma AutoDecides(w: World, context: AccountContext, boot: bool, env: Env)
    requires Sound(w.alarm) && context in w.states && IsAuto(w.states[context].mode)
    ensures
      var changed := OnStateChange(w, context, boot, false, false, boot, env);
      && (changed.code == ERR_OK <==> Granted(w, context, env))
      && (changed.code == ERR_OK ==> changed.dark == Within(Effective(w.states[context]), env.now))
  {
    LoadsExactlyWhenGranted(w, context, boot, boot, env);
    AutoChangeColour(w, context, boot, env);
  }

  lemma AutoChangeColour(w: World, context: AccountContext, boot: bool, env: Env)
    ensures
      var changed := OnStateChangeToCustomAutoMode(w, context, boot, false, false, boot, env);
      changed.code == ERR_OK ==> changed.dark == Within(Effective(StateOf(w, context)), env.now)
  {
  }

  lemma AllDayDecides(w: World, context: AccountContext, dark: bool, boot: bool, env: Env)
    ensures
      var changed := OnStateChangeToAllDayMode(w, context, dark, boot, false, boot, env);
      changed.code == ERR_OK && changed.dark == dark && Untimed(changed.w.alarm, context)
  {
  }

  /** The load succeeds exactly when the settings decide on a colour, which it then reports; an all-day mode has
      no timers left. */
  lemma LoadDecides(w: World, context: AccountContext, boot: bool, env: Env)
    requires Sound(w.alarm)
    ensures
      var loaded := LoadUserSettingData(w, context, boot, false, boot, env);
      var decided := DecidedColour(w, context, env);
      && (loaded.code == ERR_OK <==> decided.Some?)
      && (decided.Some? ==> loaded.dark == decided.value)
      && (IsAllDay(LoadState(w.settings, context, env.copies).1.mode) ==> Untimed(loaded.w.alarm, context))
  {
    var w0 := Loaded(w, context, env);
    var mode := LoadState(w.settings, context, env.copies).1.mode;
    LoadInSteps(w, context, boot, env);
    match mode
    case INVALID =>
    case ALWAYS_LIGHT => AllDayDecides(w0, context, false, boot, env);
    case ALWAYS_DARK => AllDayDecides(w0, context, true, boot, env);
    case _ => AutoDecides(w0, context, boot, env);
  }

  // ---------- the switch ----------

  /** A load that is not to update leaves the display alone, and an override only where one is in force. */
  lemma QuietLoadLeaves(w: World, context: AccountContext, env: Env)
    ensures
      var loaded := LoadUserSettingData(w, context, false, false, false, env);
      && loaded.w.display == w.display
      && (IsColorModeTemporary(loaded.w.temps, context) <==> InForce(Stored(w.temps.params, context), env.now.Time()))
  {
    var w0 := Loaded(w, context, env);
    LoadInSteps(w, context, false, env);
    RestoredOverride(w.temps, context, env.now);
    QuietChangeKeepsLook(w0, context, env);
    InitLeavesDisplay(OnStateChange(w0, context, false, false, false, false, env).w, w.display, context, env);
  }

  lemma QuietChangeKeepsLook(w: World, context: AccountContext, env: Env)
    ensures
      var v := OnStateChange(w, context, false, false, false, false, env).w;
      v.display == w.display && v.temps == w.temps
  {
  }

  /** After a switch the context shows the colour its settings decide on, unless an override is in force or they
      decide on none; every other context shows what it showed, and an all-day mode has no timers. */
  lemma SwitchShows(w: World, context: AccountContext, reach: SwitchEnv, env: Env)
    requires Sound(w.alarm)
    ensures
      var switched := OnSwitchContext(w, context, reach).0;
      var decided := DecidedColour(switched, context, env);
      var v := SwitchAndLoad(w, context, reach, env);
      && (if decided.Some? && !InForce(Stored(w.temps.params, context), env.now.Time())
          then v.display == Remember(w.display, decided.value, context) else v.display == w.display)
      && (IsAllDay(LoadState(switched.settings, context, env.copies).1.mode) ==> Untimed(v.alarm, context))
  {
    var switched := OnSwitchContext(w, context, reach).0;
    SwitchLeaves(w, context, reach);
    LoadDecides(switched, context, false, env);
    QuietLoadLeaves(switched, context, env);
  }

  /** A switch into an always-dark or always-light context. */
  lemma AllDaySwitchShows(w: World, context: AccountContext, reach: SwitchEnv, env: Env, mode: Mode)
    requires Sound(w.alarm) && IsAllDay(mode)
    requires LoadState(OnSwitchContext(w, context, reach).0.settings, context, env.copies).1.mode == mode
    requires !InForce(Stored(w.temps.params, context), env.now.Time())
    ensures
      var v := SwitchAndLoad(w, context, reach, env);
      ShowsDark(v.display, context) == (mode == ALWAYS_DARK) && Untimed(v.alarm, context)
  {
    SwitchShows(w, context, reach, env);
  }

  // ---------- the boot ----------

  /** The update of the boot path reaches its audience, unless an override is in force. */
  lemma BootUpdateShows(w: World, context: AccountContext, dark: bool, now: Clock, c: AccountContext)
    requires Pruned(w, context, now)
    ensures
      var v := UpdateDarkModeSchedule(w, dark, context, false, true, now);
      ShowsDark(v.display, c)
      == if && w.display.accepting && Reached(w.display, Audience(w.display, context.userId), c)
            && !IsColorModeTemporary(w.temps, context)
         then dark else ShowsDark(w.display, c)
  {
    UpdateReachesTheAudience(LookOf(ResetOperate(w)), dark, context.userId, c);
  }

  lemma BootAllDayShows(w: World, context: AccountContext, dark: bool, env: Env, c: AccountContext)
    requires Pruned(w, context, env.now)
    ensures
      var v := OnStateChangeToAllDayMode(w, context, dark, true, false, true, env).w;
      ShowsDark(v.display, c)
      == if && w.display.accepting && Reached(w.display, Audience(w.display, context.userId), c)
            && !IsColorModeTemporary(w.temps, context)
         then dark else ShowsDark(w.display, c)
  {
    var key := BuildTimerKey(context);
    var cleared := w.(alarm := ClearTimerByUserId(ClearRecalculationTimer(w.alarm, key), key));
    BootUpdateShows(cleared, context, dark, env.now, c);
  }

  lemma BootAutoShows(w: World, context: AccountContext, env: Env, c: AccountContext)
    requires Sound(w.alarm) && Pruned(w, context, env.now)
    ensures
      var times := Effective(StateOf(w, context));
      var v := OnStateChangeToCustomAutoMode(w, context, true, false, false, true, env).w;
      ShowsDark(v.display, c)
      == if && Granted(w, context, env)
            && w.display.accepting && Reached(w.display, Audience(w.display, context.userId), c)
            && !IsColorModeTemporary(w.temps, context)
         then Within(times, env.now) else ShowsDark(w.display, c)
  {
    var times := Effective(StateOf(w, context));
    var timed := CreateOrUpdateTimers(w, times, context, env).0;
    GrantedExactly(w, context, env);
    BootUpdateShows(timed, context, Within(times, env.now), env.now, c);
  }

  lemma BootChangeShows(w: World, context: AccountContext, env: Env, c: AccountContext, decided: Option<bool>)
    requires Sound(w.alarm) && Pruned(w, context, env.now)
    requires
      decided == match StateOf(w, context).mode
                 case INVALID => None
                 case ALWAYS_LIGHT => Some(false)
                 case ALWAYS_DARK => Some(true)
                 case _ =>
                   if Granted(w, context, env) then Some(Within(Effective(StateOf(w, context)), env.now)) else None
    ensures
      var v := OnStateChange(w, context, true, false, false, true, env).w;
      ShowsDark(v.display, c)
      == if && decided.Some? && !IsColorModeTemporary(w.temps, context)
            && w.display.accepting && Reached(w.display, Audience(w.display, context.userId), c)
         then decided.value else ShowsDark(w.display, c)
  {
    match StateOf(w, context).mode
    case INVALID =>
    case ALWAYS_LIGHT => BootAllDayShows(w, context, false, env, c);
    case ALWAYS_DARK => BootAllDayShows(w, context, true, env, c);
    case _ => BootAutoShows(w, context, env, c);
  }

  /** The boot path shows the colour the settings decide on to everyone an accepted update is for, unless an
      override of its context is in force; everyone else shows what they showed, and an all-day mode has no
      timers. */
  lemma BootShows(w: World, context: AccountContext, reach: SwitchEnv, env: Env, c: AccountContext)
    requires Sound(w.alarm)
    ensures
      var switched := OnSwitchContext(w, context, reach).0;
      var decided := DecidedColour(switched, context, env);
      var v := BootLoad(w, context, reach, env);
      && ShowsDark(v.display, c)
         == (if && decided.Some? && !InForce(Stored(w.temps.params, context), env.now.Time())
                && w.display.accepting && Reached(w.display, Audience(w.display, context.userId), c)
             then decided.value else ShowsDark(w.display, c))
      && (IsAllDay(LoadState(switched.settings, context, env.copies).1.mode) ==> Untimed(v.alarm, context))
  {
    var switched := OnSwitchContext(w, context, reach).0;
    var w0 := Loaded(switched, context, env);
    SwitchLeaves(w, context, reach);
    LoadDecides(switched, context, true, env);
    LoadInSteps(switched, context, true, env);
    RestoredOverride(switched.temps, context, env.now);
    BootChangeShows(w0, context, env, c, DecidedColour(switched, context, env));
    var changed := OnStateChange(w0, context, true, false, false, true, env).w;
    InitLeavesDisplay(changed, changed.display, context, env);
  }

  /** A boot into an always-dark or always-light context that is the foreground one. */
  lemma AllDayBootShows(w: World, context: AccountContext, reach: SwitchEnv, env: Env, mode: Mode)
    requires Sound(w.alarm) && IsAllDay(mode)
    requires LoadState(OnSwitchContext(w, context, reach).0.settings, context, env.copies).1.mode == mode
    requires !InForce(Stored(w.temps.params, context), env.now.Time())
    requires w.display.accepting && Reached(w.display, Audience(w.display, context.userId), context)
    ensures
      var v := BootLoad(w, context, reach, env);
      ShowsDark(v.display, context) == (mode == ALWAYS_DARK) && Untimed(v.alarm, context)
  {
    BootShows(w, context, reach, env, context);
  }

  // ---------- the whole switch ----------

  /** What the context shows once nothing is due any more: where the parameters are read in this very switch, the
      colour stored for it after any migration, else what it showed. */
  function ColourBefore(l: Look, chores: Chores, context: AccountContext): bool {
    var p := if chores.migrate then DoCompatibleProcess(l.params, chores.contexts, chores.valid) else l.params;
    if chores.initialize && context in chores.contexts then StoredColour(p, context) == "dark"
    else ShowsDark(l.display, context)
  }

  lemma ChoresShow(l: Look, chores: Chores, context: AccountContext)
    ensures ShowsDark(DoChores(l, chores).display, context) == ColourBefore(l, chores, context)
  {
    var p := if chores.migrate then DoCompatibleProcess(l.params, chores.contexts, chores.valid) else l.params;
    if chores.initialize {
      InitShowsEach(l.(params := p), chores.contexts, chores.valid, context);
    }
  }

  lemma FinishShows(
    loaded: World, context: AccountContext, code: ErrCode, dark: bool, chores: Chores, reachable: bool)
    ensures
      var v := FinishSwitch(loaded, context, code, dark, chores, reachable);
      && ShowsDark(v.display, context)
         == (if code == ERR_OK && !IsColorModeTemporary(loaded.temps, context) then dark
             else ColourBefore(LookOf(loaded), chores, context))
      && (reachable && PERSIST_DARKMODE_KEY !in DoChores(LookOf(loaded), chores).params.refused ==>
            Reads(v.temps.params, PERSIST_DARKMODE_KEY, ShowsDark(v.display, context)))
      && v.alarm == loaded.alarm
  {
    var ready := WithLook(loaded, DoChores(LookOf(loaded), chores));
    var shown := TakeLoadedColor(ready, context, code, dark);
    ChoresShow(LookOf(loaded), chores, context);
    TellingEffect(LookOf(shown), context, reachable, context);
  }

  lemma ChoresKeepRefused(l: Look, chores: Chores)
    ensures DoChores(l, chores).params.refused == l.params.refused
  {
    var p := if chores.migrate then DoCompatibleProcess(l.params, chores.contexts, chores.valid) else l.params;
    MigrationInLoops(l.params, chores.contexts, chores.valid);
    LoopsAreWellFormed(l.params, chores.valid);
    DarkModePrefix();
    LoopsEffect(
      l.params, chores.contexts, Loops(l.params, chores.valid), PERSIST_DARKMODE_KEY_FOR_NONE, CreateBaseContext(0));
    if chores.initialize {
      InitShowsEach(l.(params := p), chores.contexts, chores.valid, CreateBaseContext(0));
    }
  }

  /** Whatever is still due, after the whole switch the context shows the colour its settings decide on, unless an
      override is in force or they decide on none, and the device is told the colour it shows. */
  lemma AccountShows(
    w: World, context: AccountContext, reach: SwitchEnv, chores: Chores, reachable: bool, env: Env, loaded: Changed)
    requires Sound(w.alarm)
    requires loaded == LoadUserSettingData(OnSwitchContext(w, context, reach).0, context, false, false, false, env)
    ensures
      var decided := DecidedColour(OnSwitchContext(w, context, reach).0, context, env);
      var v := SwitchAccount(w, context, reach, chores, reachable, env);
      && ShowsDark(v.display, context)
         == (if decided.Some? && !InForce(Stored(w.temps.params, context), env.now.Time()) then decided.value
             else ColourBefore(LookOf(loaded.w), chores, context))
      && (reachable && PERSIST_DARKMODE_KEY !in w.temps.params.refused ==>
            Reads(v.temps.params, PERSIST_DARKMODE_KEY, ShowsDark(v.display, context)))
      && v.alarm == loaded.w.alarm && loaded.w.display == w.display
  {
    var switched := OnSwitchContext(w, context, reach).0;
    SwitchLeaves(w, context, reach);
    LoadDecides(switched, context, false, env);
    QuietLoadLeaves(switched, context, env);
    SwitchInSteps(w, context, reach, chores, reachable, env, loaded);
    FinishShows(loaded.w, context, loaded.code, loaded.dark, chores, reachable);
    ChoresKeepRefused(LookOf(loaded.w), chores);
    LoadKeepsRefused(switched, context, env);
  }

  lemma LoadKeepsRefused(w: World, context: AccountContext, env: Env)
    ensures LoadUserSettingData(w, context, false, false, false, env).w.temps.params.refused
         == w.temps.params.refused
  {
    var w0 := Loaded(w, context, env);
    LoadInSteps(w, context, false, env);
    QuietChangeKeepsLook(w0, context, env);
    InitLeavesDisplay(OnStateChange(w0, context, false, false, false, false, env).w, w.display, context, env);
  }

  // ---------- the observers ----------

  /** The notice of an all-day mode, from whatever mode there was: its colour is shown at once, an override and a
      pending operation are gone, and so are the timers. */
  lemma AllDayNoticeTakesOver(w: World, context: AccountContext, d: Delivery)
    requires Alone(w.display, context) && d.notice == OfMode && IsAllDay(Take(w, context, OfMode).mode)
    ensures
      var v := Observe(w, context, d);
      && ShowsDark(v.display, context) == (Take(w, context, OfMode).mode == ALWAYS_DARK)
      && !IsColorModeTemporary(v.temps, context) && v.screen.operate == NONE && Untimed(v.alarm, context)
  {
    var state := Take(w, context, OfMode);
    var w0 := WithState(w, context, state);
    AllDayResetShows(w0, context, state.mode == ALWAYS_DARK, d.env);
    NoticeInSteps(w, context, d);
    AllDayNoticeInSteps(w, context, d);
  }

  lemma AllDayResetShows(w: World, context: AccountContext, dark: bool, env: Env)
    requires Alone(w.display, context)
    ensures
      var v := OnStateChangeToAllDayMode(w, context, dark, true, true, false, env).w;
      && ShowsDark(v.display, context) == dark
      && !IsColorModeTemporary(v.temps, context) && v.screen.operate == NONE && Untimed(v.alarm, context)
  {
    var key := BuildTimerKey(context);
    ResetShows(
      w.(alarm := ClearTimerByUserId(ClearRecalculationTimer(w.alarm, key), key)), dark, context, env.now);
  }

  lemma AllDayNoticeInSteps(w: World, context: AccountContext, d: Delivery)
    requires d.notice == OfMode && IsAllDay(Take(w, context, OfMode).mode)
    ensures
      var state := Take(w, context, OfMode);
      var changed := OnStateChangeToAllDayMode(
                       WithState(w, context, state), context, state.mode == ALWAYS_DARK, true, true, false, d.env).w;
      && changed == OnStateChange(WithState(w, context, state), context, true, false, true, false, d.env).w
      && (Untimed(changed.alarm, context) ==> Untimed(Observe(w, context, d).alarm, context))
  {
  }

  /** A state change that fails decides on no colour: the caller's is left as it was. */
  lemma FailedChangeKeepsColour(
    w: World, context: AccountContext, need: bool, dark: bool, reset: bool, boot: bool, env: Env)
    ensures
      var changed := OnStateChange(w, context, need, dark, reset, boot, env);
      changed.code != ERR_OK ==> changed.dark == dark
  {
    FailedAutoKeepsColour(w, context, need, dark, reset, boot, env);
  }

  lemma FailedAutoKeepsColour(
    w: World, context: AccountContext, need: bool, dark: bool, reset: bool, boot: bool, env: Env)
    ensures
      var changed := OnStateChangeToCustomAutoMode(w, context, need, dark, reset, boot, env);
      changed.code != ERR_OK ==> changed.dark == dark
  {
  }
}

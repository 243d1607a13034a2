/** The user's choice of a colour: with several users in the foreground it reaches every one of them or
    stops at the first whose colour cannot be persisted; without a schedule it becomes the mode. */
module UserChoice {
  import opened Decimal
  import opened Errors
  import opened Accounts
  import opened Schedule
  import opened TemporaryWindow
  import opened TemporaryColorMode
  import opened SettingData
  import opened UiAppearance
  import opened DarkMode
  import opened TimerRun

  /** The record of a context after the choice: an override exactly when its schedule disagrees. */
  function RecordAfter(w: World, context: AccountContext, dark: bool, now: Clock): TempInfo {
    var state := StateOf(w, context);
    if !IsAuto(state.mode) then InfoOf(w.temps.infos, context)
    else if Within(Effective(state), now) == dark then NORMAL
    else
      var window := GetTempColorModeTimeInfo(Effective(state).0, Effective(state).1, now);
      TempInfo(true, window.0, window.1)
  }

  /** What a choice leaves alone. */
  ghost predicate SameGround(w: World, v: World) {
    && (forall c :: StateOf(v, c) == StateOf(w, c))
    && v.temps.params.refused == w.temps.params.refused
    && v.display == w.display.(usersParam := v.display.usersParam)
  }

  lemma SwitchRecords(w: World, context: AccountContext, dark: bool, now: Clock)
    ensures
      var v := DoSwitchTemporaryColorMode(w, context, dark, now);
      && SameGround(w, v) && v.display == w.display
      && InfoOf(v.temps.infos, context) == RecordAfter(w, context, dark, now)
      && forall c :: c != context ==> InfoOf(v.temps.infos, c) == InfoOf(w.temps.infos, c)
  {
  }

  lemma NotifySameGround(w: World, context: AccountContext, dark: bool, granted: PutReply)
    ensures
      var v := NotifyDarkModeUpdate(w, context, dark, granted);
      SameGround(w, v) && v.display == w.display && v.temps == w.temps
  {
  }

  /** The choice for one context: it shows the colour, and its record follows its schedule. */
  ghost predicate Recorded(w: World, context: AccountContext, dark: bool, now: Clock, v: World, ok: bool) {
    && ok == (DarkModeKey(context) !in w.temps.params.refused)
    && SameGround(w, v) && v.display == Remember(w.display, dark, context)
    && InfoOf(v.temps.infos, context) == RecordAfter(w, context, dark, now)
    && forall c :: c != context ==> InfoOf(v.temps.infos, c) == InfoOf(w.temps.infos, c)
  }

  lemma ConfigureRecords(w: World, context: AccountContext, dark: bool, now: Clock, granted: PutReply)
    ensures
      var (v, ok) := ConfigurePersistence(w, context, dark, now, granted);
      Recorded(w, context, dark, now, v, ok)
  {
    var switched := DoSwitchTemporaryColorMode(w, context, dark, now);
    SwitchRecords(w, context, dark, now);
    NotifySameGround(WithLook(switched, Show(LookOf(switched), dark, context)), context, dark, granted);
  }

  predicate Persistable(w: World, users: seq<int32>) {
    forall u :: u in users ==> DarkModeKey(ForegroundContext(w.display, u)) !in w.temps.params.refused
  }

  lemma OneMorePersistable(w: World, users: seq<int32>)
    requires users != []
    ensures
      var n := |users| - 1;
      Persistable(w, users)
      <==> Persistable(w, users[..n]) && DarkModeKey(ForegroundContext(w.display, users[n])) !in w.temps.params.refused
  {
    var n := |users| - 1;
    assert forall u :: u in users <==> u in users[..n] || u == users[n];
  }

  /** The loop succeeds exactly when every user's colour can be persisted, and then each one's foreground
      context shows the colour and records it against its own schedule; other contexts keep theirs. */
  ghost predicate Outcome(
    w: World, users: seq<int32>, dark: bool, now: Clock, v: World, ok: bool, context: AccountContext)
  {
    && (ok <==> Persistable(w, users)) && SameGround(w, v)
    && (if Reached(w.display, users, context) then
          ok ==>
            && context in v.display.usersParam && v.display.usersParam[context] == dark
            && InfoOf(v.temps.infos, context) == RecordAfter(w, context, dark, now)
        else
          && ShowsDark(v.display, context) == ShowsDark(w.display, context)
          && InfoOf(v.temps.infos, context) == InfoOf(w.temps.infos, context))
  }

  lemma OneMoreOutcome(
    w: World, users: seq<int32>, dark: bool, now: Clock, done: World, v: World, ok: bool, context: AccountContext)
    requires users != [] && Outcome(w, users[..|users| - 1], dark, now, done, true, context)
    requires Recorded(done, ForegroundContext(done.display, users[|users| - 1]), dark, now, v, ok)
    ensures Outcome(w, users, dark, now, v, ok, context)
  {
    OneMoreUser(w.display, users, context);
    OneMorePersistable(w, users);
  }

  lemma {:induction false} LoopReachesEveryUser(
    w: World, users: seq<int32>, dark: bool, now: Clock, granted: PutReply, context: AccountContext)
    ensures
      var (v, ok) := ConfigureAll(w, users, dark, now, granted);
      Outcome(w, users, dark, now, v, ok, context)
  {
    if users != [] {
      var n := |users| - 1;
      var (done, ok) := ConfigureAll(w, users[..n], dark, now, granted);
      LoopReachesEveryUser(w, users[..n], dark, now, granted, context);
      if ok {
        var (v, last) := ConfigurePersistence(done, ForegroundContext(done.display, users[n]), dark, now, granted);
        ConfigureRecords(done, ForegroundContext(done.display, users[n]), dark, now, granted);
        OneMoreOutcome(w, users, dark, now, done, v, last, context);
      } else {
        OneMoreUser(w.display, users, context);
        OneMorePersistable(w, users);
      }
    }
  }

  /** With several foreground users the service's setter reports success exactly when the colour reached
      and was persisted for every one of them. */
  lemma ChoiceReachesEveryUser(
    w: World, context: AccountContext, mode: ColorMode, now: Clock, granted: PutReply, other: AccountContext)
    requires mode != OTHER && w.display.accepting && |w.display.foregroundUsers| > 1
    ensures
      var (v, res) := OnSetDarkMode(w, context, mode, now, granted);
      var users := w.display.foregroundUsers;
      && (res == SUCCEEDED <==> Persistable(w, users))
      && (res == SUCCEEDED && Reached(w.display, users, other) ==>
            && ShowsDark(v.display, other) == (mode == DARK)
            && InfoOf(v.temps.infos, other) == RecordAfter(w, other, mode == DARK, now))
      && (!Reached(w.display, users, other) ==>
            && ShowsDark(v.display, other) == ShowsDark(w.display, other)
            && InfoOf(v.temps.infos, other) == InfoOf(w.temps.infos, other))
  {
    var w0 := WithLook(w, PersistColor(LookOf(w), mode == DARK));
    LoopReachesEveryUser(w0, w.display.foregroundUsers, mode == DARK, now, granted, other);
  }

  // ---------- the modes without a schedule ----------

  function ChosenMode(dark: bool): Mode { if dark then ALWAYS_DARK else ALWAYS_LIGHT }

  /** The setter for one context followed by the mode observer when the choice was stored. */
  function ChooseAndObserve(w: World, context: AccountContext, dark: bool, granted: PutReply, env: Env): World {
    var chosen := ConfigurePersistence(w, context, dark, env.now, granted).0;
    if chosen.settings == w.settings then chosen
    else ModeUpdate(chosen, BuildSettingKey(SETTING_DARK_MODE_MODE, context), context, env)
  }

  /** Both stores take the choice: the parameter of the colour and the mode setting. */
  predicate Storable(w: World, context: AccountContext, granted: PutReply) {
    DarkModeKey(context) !in w.temps.params.refused && w.settings.initialized && granted == STORED
  }

  lemma NotifyStores(w: World, context: AccountContext, dark: bool, granted: PutReply)
    ensures
      var v := NotifyDarkModeUpdate(w, context, dark, granted);
      var mode := StateOf(w, context).mode;
      && (v.settings != w.settings
          <==> !IsAuto(mode) && mode != ChosenMode(dark) && w.settings.initialized && granted == STORED)
      && (v.settings != w.settings ==>
            GetInt32ValueStrictly(v.settings, BuildSettingKey(SETTING_DARK_MODE_MODE, context), -1, context.userId)
            == (ERR_OK, if dark then 1 else 0))
  {
    LeadingIntegerInvertsToString(if dark then 1 else 0);
    var v := NotifyDarkModeUpdate(w, context, dark, granted);
    if v.settings.notified != w.settings.notified {
      assert |v.settings.notified| == |w.settings.notified| + 1;
    }
  }

  /** The mode setting is written exactly when there is no schedule, it has to change, and it can be. */
  lemma ChoiceIsStored(w: World, context: AccountContext, dark: bool, now: Clock, granted: PutReply)
    ensures
      var v := ConfigurePersistence(w, context, dark, now, granted).0;
      var mode := StateOf(w, context).mode;
      && (v.settings != w.settings <==> !IsAuto(mode) && mode != ChosenMode(dark) && Storable(w, context, granted))
      && (v.settings != w.settings ==>
            GetInt32ValueStrictly(v.settings, BuildSettingKey(SETTING_DARK_MODE_MODE, context), -1, context.userId)
            == (ERR_OK, if dark then 1 else 0))
  {
    var switched := DoSwitchTemporaryColorMode(w, context, dark, now);
    var shown := WithLook(switched, Show(LookOf(switched), dark, context));
    assert shown.settings == w.settings && StateOf(shown, context) == StateOf(w, context);
    NotifyStores(shown, context, dark, granted);
  }

  /** Outside the automatic modes a choice is shown at once, and becomes the mode exactly when it is the
      mode already or both stores take it. A changed mode leaves no timer; an unchanged one has none if the
      timers were in order. */
  lemma ManualChoiceSticks(w: World, context: AccountContext, dark: bool, granted: PutReply, env: Env)
    requires !IsAuto(StateOf(w, context).mode)
    requires w.display.accepting && |w.display.foregroundUsers| <= 1
    requires ForegroundContext(w.display, context.userId) == context
    ensures
      var v := ChooseAndObserve(w, context, dark, granted, env);
      var key := BuildTimerKey(context);
      && ShowsDark(v.display, context) == dark
      && (StateOf(v, context).mode == ChosenMode(dark)
          <==> StateOf(w, context).mode == ChosenMode(dark) || Storable(w, context, granted))
      && (StateOf(w, context).mode != StateOf(v, context).mode || (TimersFollow(w) && w.current == context) ==>
            StateOf(v, context).mode == ChosenMode(dark) ==>
              key !in v.alarm.timerIds && key !in v.alarm.recalculationIds)
  {
    var chosen := ConfigurePersistence(w, context, dark, env.now, granted).0;
    ConfigureRecords(w, context, dark, env.now, granted);
    ConfigureUndisturbed(w, context, dark, env.now, granted);
    ChoiceIsStored(w, context, dark, env.now, granted);
    if chosen.settings != w.settings {
      var updated := WithState(chosen, context, StateOf(chosen, context).(mode := ChosenMode(dark)));
      AllDayShows(updated, context, dark, env);
    }
  }

  lemma AllDayShows(w: World, context: AccountContext, dark: bool, env: Env)
    requires w.display.accepting && |w.display.foregroundUsers| <= 1
    requires ForegroundContext(w.display, context.userId) == context
    ensures
      var v := OnStateChangeToAllDayMode(w, context, dark, true, true, false, env).w;
      var key := BuildTimerKey(context);
      && v.states == w.states && ShowsDark(v.display, context) == dark
      && key !in v.alarm.timerIds && key !in v.alarm.recalculationIds
  {
  }
}

/** What a switch, a boot and their first notices leave behind for the next interruption: the schedule
    recorded for a restart of the timers, the override and its colour stored for a restart of the service. */
module PersistedLoads {
  import opened Errors
  import opened Accounts
  import opened Schedule
  import opened AlarmLedger
  import opened TemporaryColorMode
  import opened UiAppearance
  import opened ShownColours
  import opened DarkMode
  import opened ColourRun
  import opened RunStart
  import opened FirstNotices
  import opened PersistedRuns
  import TimerRun

  /** The alarm manager has the schedule recorded under a key that restarts. */
  predicate Recorded(w: World, p: Plan) {
    var key := BuildTimerKey(p.context);
    key != 0 && key in w.alarm.setupTimes && w.alarm.setupTimes[key] == Pair(p.start, p.end)
  }

  /** The account's parameters take its writes, and hold the colour of an override that is in force. */
  predicate Recoverable(w: World, context: AccountContext, now: Clock) {
    && BuildTimerKey(context) != 0 && context.userId > INVALID_USER_ID && Keeps(w.temps.params, context)
    && (InForce(Stored(w.temps.params, context), now.Time()) ==>
          Reads(w.temps.params, DarkModeKey(context), ShowsDark(w.display, context)))
  }

  // ---------- state changes ----------

  /** A granted state change records the schedule and keeps what a restart needs. */
  lemma ChangeRecords(w: World, context: AccountContext, reset: bool, boot: bool, env: Env)
    requires context in w.states && IsAuto(w.states[context].mode) && Granted(w, context, env)
    requires Sound(w.alarm) && Alone(w.display, context) && BuildTimerKey(context) != 0
    requires Restorable(w, context)
    ensures
      var v := OnStateChange(w, context, true, false, reset, boot, env).w;
      && Recorded(v, PlanAt(context, Effective(w.states[context]), env.now))
      && Restorable(v, context) && v.current == w.current
  {
    var times := Effective(w.states[context]);
    var timed := CreateOrUpdateTimers(w, times, context, env).0;
    GrantedExactly(w, context, env);
    TimedRecords(w, context, env);
    UpdateKeepsRestorable(timed, Within(times, env.now), context, reset, boot, env.now);
    TimerRun.ScheduleUpdateUndisturbed(timed, Within(times, env.now), context, reset, boot, env.now);
    assert OnStateChange(w, context, true, false, reset, boot, env).w
        == UpdateDarkModeSchedule(timed, Within(times, env.now), context, reset, boot, env.now);
  }

  lemma TimedRecords(w: World, context: AccountContext, env: Env)
    requires context in w.states && BuildTimerKey(context) != 0
    requires CreateOrUpdateTimers(w, Effective(w.states[context]), context, env).1 == ERR_OK
    ensures
      var timed := CreateOrUpdateTimers(w, Effective(w.states[context]), context, env).0;
      && Recorded(timed, PlanAt(context, Effective(w.states[context]), env.now))
      && timed == w.(alarm := timed.alarm)
  {
  }

  /** The recalculation timer and the store do not matter to what is recorded. */
  lemma InitKeepsRecords(w: World, p: Plan, env: Env)
    ensures
      var v := InitSunriseSunsetMode(w, p.context, env);
      && (Recorded(v, p) <==> Recorded(w, p)) && v.current == w.current
      && v.temps == w.temps && v.display == w.display
    ensures ClearRecalculationTimer(w.alarm, BuildTimerKey(p.context)).setupTimes == w.alarm.setupTimes
  {
    AppliedTimesOnlyTouchSettings(w, p.context, env);
  }

  lemma ModeKeeps(w: World, key: string, context: AccountContext, env: Env, state: DarkModeState)
    requires Sound(w.alarm) && Alone(w.display, context) && BuildTimerKey(context) != 0 && Restorable(w, context)
    requires state == TakeMode(w, key, context) && IsAuto(state.mode)
    requires Granted(WithState(w, context, state), context, env)
    ensures
      var v := ModeUpdate(w, key, context, env);
      && Recorded(v, PlanAt(context, Effective(state), env.now)) && Restorable(v, context) && v.current == w.current
  {
    var w0 := WithState(w, context, state);
    var p := PlanAt(context, Effective(state), env.now);
    ChangeRecords(w0, context, true, false, env);
    var w1 := OnStateChange(w0, context, true, false, true, false, env).w;
    InitKeepsRecords(w1, p, env);
    assert ModeUpdate(w, key, context, env)
        == if state.mode == SUNRISE_SUNSET then InitSunriseSunsetMode(w1, context, env)
           else w1.(alarm := ClearRecalculationTimer(w1.alarm, BuildTimerKey(context)));
  }

  lemma TimeKeeps(w: World, key: string, context: AccountContext, which: Time, env: Env, state: DarkModeState)
    requires Sound(w.alarm) && Alone(w.display, context) && BuildTimerKey(context) != 0 && Restorable(w, context)
    requires state == TakeTime(w, key, context, which) && IsAuto(state.mode)
    requires Granted(WithState(w, context, state), context, env)
    ensures
      var v := TimeUpdate(w, key, context, which, env);
      && Recorded(v, PlanAt(context, Effective(state), env.now)) && Restorable(v, context) && v.current == w.current
  {
    ChangeRecords(WithState(w, context, state), context, Resets(which), false, env);
  }

  // ---------- what needs no schedule ----------

  /** A state change keeps what a restart of the service needs, whatever comes of it. */
  lemma AllDayRestores(w: World, context: AccountContext, dark: bool, need: bool, reset: bool, boot: bool, env: Env)
    requires Alone(w.display, context) && Restorable(w, context)
    ensures Restorable(OnStateChangeToAllDayMode(w, context, dark, need, reset, boot, env).w, context)
  {
    var key := BuildTimerKey(context);
    var cleared := w.(alarm := ClearTimerByUserId(ClearRecalculationTimer(w.alarm, key), key));
    UpdateKeepsRestorable(cleared, dark, context, reset, boot, env.now);
  }

  lemma AutoRestores(w: World, context: AccountContext, need: bool, reset: bool, boot: bool, env: Env)
    requires Alone(w.display, context) && Restorable(w, context)
    ensures Restorable(OnStateChangeToCustomAutoMode(w, context, need, false, reset, boot, env).w, context)
  {
    var times := Effective(StateOf(w, context));
    var timed := CreateOrUpdateTimers(w, times, context, env).0;
    UpdateKeepsRestorable(timed, Within(times, env.now), context, reset, boot, env.now);
  }

  lemma ChangeRestores(w: World, context: AccountContext, need: bool, reset: bool, boot: bool, env: Env)
    requires Alone(w.display, context) && Restorable(w, context)
    ensures Restorable(OnStateChange(w, context, need, false, reset, boot, env).w, context)
  {
    match StateOf(w, context).mode
    case INVALID =>
    case ALWAYS_LIGHT => AllDayRestores(w, context, false, need, reset, boot, env);
    case ALWAYS_DARK => AllDayRestores(w, context, true, need, reset, boot, env);
    case _ => AutoRestores(w, context, need, reset, boot, env);
  }

  /** Only the display and the parameters matter. */
  lemma SameLookRestores(w: World, v: World, context: AccountContext)
    requires Restorable(w, context) && v.temps == w.temps
    requires v.display == w.display || !IsColorModeTemporary(w.temps, context)
    ensures Restorable(v, context)
  {
  }

  // ---------- loads ----------

  /** What the load makes of the record, and of the colour that goes with it. */
  lemma LoadedIsRestorable(w: World, context: AccountContext, env: Env)
    requires Recoverable(w, context, env.now)
    ensures Restorable(Loaded(w, context, env), context)
  {
    RestoredOverride(w.temps, context, env.now);
    SaveEffect(w.temps.params, context, NORMAL, context);
  }

  /** The load of a switch or a boot leaves the record in memory and in the parameters alike. */
  lemma ReloadRestores(w: World, context: AccountContext, boot: bool, reach: SwitchEnv, env: Env)
    requires Sound(w.alarm) && Alone(w.display, context) && Recoverable(w, context, env.now)
    ensures Restorable(Reload(w, context, boot, reach, env), context)
  {
    var switched := OnSwitchContext(w, context, reach).0;
    var w0 := Loaded(switched, context, env);
    var changed := OnStateChange(w0, context, boot, false, false, boot, env);
    SwitchLeaves(w, context, reach);
    LoadInSteps(switched, context, boot, env);
    LoadedIsRestorable(switched, context, env);
    ChangeRestores(w0, context, boot, false, boot, env);
    InitLeavesDisplay(changed.w, changed.w.display, context, env);
    SameLookRestores(changed.w, Reload(w, context, boot, reach, env), context);
  }

  /** A load that resumes an automatic mode has an initialized store, so the switch made the context current. */
  lemma ResumedIsCurrent(w: World, context: AccountContext, reach: SwitchEnv, env: Env)
    requires context.userId > INVALID_USER_ID
    requires Resumes(OnSwitchContext(w, context, reach).0, context, env)
    ensures OnSwitchContext(w, context, reach).0.current == context
  {
    var switched := OnSwitchContext(w, context, reach).0;
    if !switched.settings.initialized {
      TimerRun.ReadsFailUninitialized(switched.settings, context, env.copies);
    }
  }

  lemma QuietChangeRecords(w: World, context: AccountContext, env: Env)
    requires context in w.states && IsAuto(w.states[context].mode) && Granted(w, context, env)
    requires BuildTimerKey(context) != 0
    ensures
      var changed := OnStateChange(w, context, false, false, false, false, env);
      && Recorded(changed.w, PlanAt(context, Effective(w.states[context]), env.now))
      && changed.w.temps == w.temps && changed.w.display == w.display && changed.w.current == w.current
  {
  }

  /** A load that resumes records its schedule and makes the context current. */
  lemma ReloadRecords(w: World, context: AccountContext, boot: bool, reach: SwitchEnv, env: Env)
    requires Sound(w.alarm) && Alone(w.display, context) && Recoverable(w, context, env.now)
    requires Resumes(OnSwitchContext(w, context, reach).0, context, env)
    ensures
      var v := Reload(w, context, boot, reach, env);
      var state := LoadState(OnSwitchContext(w, context, reach).0.settings, context, env.copies).1;
      Recorded(v, PlanAt(context, Effective(state), env.now)) && v.current == context
  {
    var switched := OnSwitchContext(w, context, reach).0;
    var w0 := Loaded(switched, context, env);
    var p := PlanAt(context, Effective(LoadState(switched.settings, context, env.copies).1), env.now);
    SwitchLeaves(w, context, reach);
    ResumedIsCurrent(w, context, reach, env);
    LoadInSteps(switched, context, boot, env);
    if boot {
      LoadedIsRestorable(switched, context, env);
      ChangeRecords(w0, context, false, true, env);
    } else {
      QuietChangeRecords(w0, context, env);
    }
    InitKeepsRecords(OnStateChange(w0, context, boot, false, false, boot, env).w, p, env);
  }

  // ---------- notices ----------

  lemma NoticeRestores(w: World, context: AccountContext, d: Delivery)
    requires Alone(w.display, context) && Restorable(w, context)
    ensures Restorable(Observe(w, context, d), context)
  {
    var w0 := WithState(w, context, Take(w, context, d.notice));
    ChangeRestores(w0, context, true, Drops(d.notice), false, d.env);
    NoticeInSteps(w, context, d);
    SameLookRestores(
      OnStateChange(w0, context, true, false, Drops(d.notice), false, d.env).w, Observe(w, context, d), context);
  }

  lemma {:induction false} NoticesRestore(w: World, context: AccountContext, ds: seq<Delivery>, now: Clock)
    requires Sound(w.alarm) && Modern(now) && Alone(w.display, context) && AllAt(ds, now)
    requires Restorable(w, context)
    ensures Restorable(Deliver(w, context, ds), context)
  {
    if ds != [] {
      var n := |ds| - 1;
      assert forall d :: d in ds[..n] ==> d in ds;
      NoticesRestore(w, context, ds[..n], now);
      NoticesLeave(w, PlanAt(context, (0, 0), now), ds[..n], now);
      NoticeRestores(Deliver(w, context, ds[..n]), context, ds[n]);
    }
  }

  /** A notice that grants its schedule records it. */
  lemma NoticeRecords(w: World, context: AccountContext, d: Delivery)
    requires Sound(w.alarm) && Alone(w.display, context) && BuildTimerKey(context) != 0 && Restorable(w, context)
    requires
      var state := Take(w, context, d.notice);
      IsAuto(state.mode) && Granted(WithState(w, context, state), context, d.env)
    ensures Recorded(Observe(w, context, d), PlanAt(context, Effective(Take(w, context, d.notice)), d.env.now))
  {
    match d.notice
    case OfMode => ModeKeeps(w, KeyOf(OfMode, context), context, d.env, Take(w, context, OfMode));
    case OfTime(which) =>
      TimeKeeps(w, KeyOf(d.notice, context), context, which, d.env, Take(w, context, d.notice));
  }

  lemma NoticesRecord(w: World, context: AccountContext, ds: seq<Delivery>, now: Clock)
    requires Sound(w.alarm) && Modern(now) && Alone(w.display, context) && AllAt(ds, now)
    requires BuildTimerKey(context) != 0 && Restorable(w, context) && ds != [] && LastGrants(w, context, ds)
    ensures Recorded(Deliver(w, context, ds), PlanAfter(w, context, ds, now))
  {
    var n := |ds| - 1;
    var before := Deliver(w, context, ds[..n]);
    assert ds[n] in ds && forall d :: d in ds[..n] ==> d in ds;
    NoticesRestore(w, context, ds[..n], now);
    NoticesLeave(w, PlanAt(context, (0, 0), now), ds[..n], now);
    NoticeRecords(before, context, ds[n]);
    NoticeLeaves(before, PlanAt(context, (0, 0), now), ds[n]);
    assert StateOf(Deliver(w, context, ds), context) == Take(before, context, ds[n].notice);
  }
}

/** The long life of a schedule: besides the seconds, the user and the screen of an ordinary run, its times
    and its mode change, the sun's pair is computed anew, updates are refused, the clock and the zone change,
    the account switches and the service restarts. Each happening keeps the guarantee under an exact condition. */
module LongRuns {
  import opened Decimal
  import opened Accounts
  import opened Schedule
  import opened AlarmLedger
  import opened TemporaryColorMode
  import opened SettingData
  import opened UiAppearance
  import opened DarkMode
  import opened ColourRun
  import opened RefusedUpdates
  import opened RunStart
  import opened FirstNotices
  import opened PersistedRuns
  import opened PersistedLoads
  import opened RunContinues
  import opened AccountSwitches
  import TimerRun

  datatype Life = Life(m: Moment, p: Plan)

  ghost predicate Kept(x: Life) {
    && Inv(x.m, x.p) && Sound(x.m.w.alarm) && Recorded(x.m.w, x.p)
    && Restorable(x.m.w, x.p.context) && x.m.w.current == x.p.context
  }

  datatype Happening =
    | Ordinary(event: Event)
    | Refused(event: Event)
    | ModeObserved(key: string, env: Env)
    | TimeObserved(key: string, which: Time, env: Env)
    | SunComputed(env: Env)
    | StoreChanged(data: map<(int32, string), string>)
    | ClockChanged(env: Env, refused: set<nat>)
    | AccountSwitched(
        context: AccountContext, display: Display, reach: SwitchEnv, chores: Chores, reachable: bool, env: Env,
        notices: seq<Delivery>)
    | ServiceRestarted(v: World, start: Start, reach: SwitchEnv, env: Env, notices: seq<Delivery>)

  /** The happening takes place now, more than a day after the epoch. */
  predicate Now(x: Life, now: Clock) { now == ClockAt(x.p.zone, x.m.t) && Modern(now) }

  ghost predicate Step(a: Life, h: Happening, b: Life) {
    var w, c := a.m.w, a.p.context;
    match h
    case Ordinary(event) => b == Life(Next(a.m, a.p, event), a.p)
    case Refused(event) => b == Life(NextRefused(a.m, a.p, event), a.p)
    case ModeObserved(key, env) =>
      && Now(a, env.now)
      && b == Life(Moment(ModeUpdate(w, key, c, env), env.now.Time()),
                   PlanAt(c, Effective(TakeMode(w, key, c)), env.now))
    case TimeObserved(key, which, env) =>
      && Now(a, env.now)
      && b == Life(Moment(TimeUpdate(w, key, c, which, env), env.now.Time()),
                   PlanAt(c, Effective(TakeTime(w, key, c, which)), env.now))
    case SunComputed(env) => b == a.(m := a.m.(w := RecalculationCallback(w, c, env)))
    case StoreChanged(data) => b == a.(m := a.m.(w := w.(settings := w.settings.(data := data))))
    case ClockChanged(env, refused) =>
      && Modern(env.now) && Books(w.alarm) && Restarted(w.alarm, b.m.w.alarm, env.now, refused)
      && b == Life(Moment(BeforeRestart(w, env).(alarm := b.m.w.alarm), env.now.Time()),
                   PlanAt(c, Effective(StateOf(w, c)), env.now))
    case AccountSwitched(context, display, reach, chores, reachable, env, notices) =>
      var w0 := w.(display := display);
      && Now(a, env.now) && Alone(display, context) && Recoverable(w0, context, env.now)
      && !chores.migrate && !chores.initialize
      && Comes(SwitchAccount(w0, context, reach, chores, reachable, env), context, notices, env.now, b)
    case ServiceRestarted(v, start, reach, env, notices) =>
      && Now(a, env.now) && Started(w, v, start) && c in start.contexts
      && Alone(v.display, c) && v.alarm == NO_TIMERS && c.userId > INVALID_USER_ID
      && Comes(BootLoad(v, c, reach, env), c, notices, env.now, b)
  }

  /** The load, and the first notices that have come after it; none come unless the context was made current. */
  ghost predicate Comes(loaded: World, context: AccountContext, notices: seq<Delivery>, now: Clock, b: Life) {
    && AllAt(notices, now) && (notices != [] ==> loaded.current == context)
    && b == Life(Moment(Deliver(loaded, context, notices), now.Time()), PlanAfter(loaded, context, notices, now))
  }

  /** The happenings that break the guarantee, each by a condition that can be told before it. */
  ghost predicate Breaks(a: Life, h: Happening) {
    var w, c := a.m.w, a.p.context;
    match h
    case Ordinary(event) => Excluded(a.m, a.p, event)
    case Refused(event) => !Harmless(a.m, a.p, event)
    case ModeObserved(key, env) =>
      var state := TakeMode(w, key, c);
      !IsAuto(state.mode) || !Granted(WithState(w, c, state), c, env)
    case TimeObserved(key, which, env) =>
      var state := TakeTime(w, key, c, which);
      || !Granted(WithState(w, c, state), c, env)
      || !GoesOn(w, PlanAt(c, Effective(state), env.now), env.now.Time(), Resets(which), false)
    case SunComputed(_) => false
    case StoreChanged(_) => false
    case ClockChanged(env, refused) =>
      var ids := IdsOf(w.alarm, BuildTimerKey(c));
      || ids.start in refused || ids.end in refused
      || !GoesOn(w, PlanAt(c, Effective(StateOf(w, c)), env.now), env.now.Time(), false, false)
    case AccountSwitched(context, display, reach, chores, reachable, env, notices) =>
      var w0 := w.(display := display);
      !Settles(w0, SwitchAccount(w0, context, reach, chores, reachable, env), context, reach, env, notices)
    case ServiceRestarted(v, _, reach, env, notices) => !Settles(v, BootLoad(v, c, reach, env), c, reach, env, notices)
  }

  // ---------- what stays when only the colour, the override and the screen are at work ----------

  lemma SameAlarmKeeps(a: Life, m: Moment)
    requires Kept(a) && m.w.alarm == a.m.w.alarm && m.w.current == a.m.w.current
    requires Inv(m, a.p) && Restorable(m.w, a.p.context)
    ensures Kept(Life(m, a.p))
  {
  }

  lemma OrdinaryLeaves(m: Moment, p: Plan, event: Event)
    requires p.Valid() && Scheduled(m, p)
    ensures Next(m, p, event).w.alarm == m.w.alarm && Next(m, p, event).w.current == m.w.current
  {
    match event
    case Tick =>
      TickUpdates(m, p);
      TimerRun.ScheduleUpdateUndisturbed(
        m.w, p.Dark(m.t + 1), p.context, false, false, ClockAt(p.zone, m.t + 1));
    case Toggle(mode, granted) =>
      TimerRun.ChooseUndisturbed(m.w, p.context, mode, ClockAt(p.zone, m.t), granted);
    case ScreenTurnsOn =>
    case ScreenTurnsOff =>
  }

  lemma OrdinaryExactly(a: Life, event: Event)
    requires Kept(a)
    ensures Kept(Life(Next(a.m, a.p, event), a.p)) <==> !Excluded(a.m, a.p, event)
  {
    if Excluded(a.m, a.p, event) {
      ToggleKeepsExactly(a.m, a.p, event.mode, event.granted);
    } else {
      EventKeepsInv(a.m, a.p, event);
      GuaranteedEventKeepsRestorable(a.m, a.p, event);
      OrdinaryLeaves(a.m, a.p, event);
      SameAlarmKeeps(a, Next(a.m, a.p, event));
    }
  }

  lemma RefusedExactly(a: Life, event: Event)
    requires Kept(a)
    ensures Kept(Life(NextRefused(a.m, a.p, event), a.p)) <==> Harmless(a.m, a.p, event)
  {
    RefusalKeepsExactly(a.m, a.p, event);
    if Harmless(a.m, a.p, event) {
      RefusalKeepsRestorable(a.m, a.p, event);
      OrdinaryLeaves(a.m.(w := Accepting(a.m.w, false)), a.p, event);
      SameAlarmKeeps(a, NextRefused(a.m, a.p, event));
    }
  }

  lemma StoreKeeps(a: Life, settings: Settings)
    requires Kept(a)
    ensures Kept(a.(m := a.m.(w := a.m.w.(settings := settings))))
  {
  }

  // ---------- state changes ----------

  lemma ModeExactly(a: Life, key: string, env: Env, b: Life)
    requires Kept(a) && Step(a, ModeObserved(key, env), b)
    ensures Kept(b) <==> !Breaks(a, ModeObserved(key, env))
  {
    ClockTells(a.p.zone, a.m.t);
    ModeUpdateBeginsRun(a.m.w, key, a.p.context, env);
    if !Breaks(a, ModeObserved(key, env)) {
      ModeKeeps(a.m.w, key, a.p.context, env, TakeMode(a.m.w, key, a.p.context));
    }
  }

  lemma TimeExactly(a: Life, key: string, which: Time, env: Env, b: Life)
    requires Kept(a) && Step(a, TimeObserved(key, which, env), b)
    ensures Kept(b) <==> !Breaks(a, TimeObserved(key, which, env))
  {
    var w, c := a.m.w, a.p.context;
    ClockTells(a.p.zone, a.m.t);
    TimeUpdatesBeginRun(w, key, c, which, env);
    if !Breaks(a, TimeObserved(key, which, env)) {
      TimeKeeps(w, key, c, which, env, TakeTime(w, key, c, which));
    }
  }

  // ---------- the clock ----------

  lemma KeptIsSet(a: Life)
    requires Kept(a)
    ensures Set(a.m.w, a.m.w.current)
    ensures Effective(StateOf(a.m.w, a.m.w.current)) == (a.p.start, a.p.end)
  {
  }

  lemma ClockExactly(a: Life, env: Env, refused: set<nat>, b: Life)
    requires Kept(a) && Step(a, ClockChanged(env, refused), b)
    ensures Kept(b) <==> !Breaks(a, ClockChanged(env, refused))
  {
    var w := a.m.w;
    KeptIsSet(a);
    TimeChangeBeginsRun(w, env, refused, b.m.w);
    if !Breaks(a, ClockChanged(env, refused)) {
      RestartKeepsSound(w.alarm, b.m.w.alarm, env.now, refused);
      TimerRun.BeforeRestartUndisturbed(w, env);
      BeforeRestartKeepsRestorable(w, env);
      NoWrapInRange(a.p.start);
      NoWrapInRange(a.p.end);
    }
  }

  lemma BeforeRestartKeepsRestorable(w: World, env: Env)
    requires w.current in w.states && Alone(w.display, w.current) && IsAuto(w.states[w.current].mode)
    requires Restorable(w, w.current)
    ensures Restorable(BeforeRestart(w, env), w.current)
  {
    var w0 := Touch(w, w.current);
    var state := StateOf(w, w.current);
    var w1 := if state.mode == SUNRISE_SUNSET then ApplySunriseSunsetTimes(w0, w.current, env) else w0;
    AppliedTimesOnlyTouchSettings(w0, w.current, env);
    UpdateKeepsRestorable(w1, Within(Effective(state), env.now), w.current, false, false, env.now);
    assert BeforeRestart(w, env)
        == UpdateDarkModeSchedule(w1, Within(Effective(state), env.now), w.current, false, false, env.now);
  }

  // ---------- switches and restarts ----------

  /** What notices find: the world v of a load from w. */
  predicate Found(w: World, v: World, context: AccountContext, now: Clock) {
    var info := Stored(w.temps.params, context);
    && Alone(v.display, context) && Restorable(v, context) && BuildTimerKey(context) != 0
    && InfoOf(v.temps.infos, context) == (if InForce(info, now.Time()) then info else NORMAL)
    && (InForce(info, now.Time()) ==> ShowsDark(v.display, context) == ShowsDark(w.display, context))
  }

  /** A load with at least one notice. */
  lemma NoticedExactly(w: World, v: World, context: AccountContext, now: Clock, ds: seq<Delivery>, b: Life)
    requires Sound(v.alarm) && Modern(now) && Found(w, v, context, now) && ds != [] && Comes(v, context, ds, now, b)
    ensures Kept(b) <==> && LastGrants(v, context, ds)
                         && (AnyDrops(v, context, ds) || StoredLands(w, PlanAfter(v, context, ds, now), now))
  {
    NoticesSettleExactly(v, context, ds, now);
    StoredGoesOn(w, v, b.p, now);
    NoticesLeave(v, b.p, ds, now);
    NoticesRestore(v, context, ds, now);
    if LastGrants(v, context, ds) {
      NoticesRecord(v, context, ds, now);
    }
  }

  lemma ReloadIsFound(w: World, context: AccountContext, boot: bool, reach: SwitchEnv, env: Env)
    requires Sound(w.alarm) && Modern(env.now) && Alone(w.display, context) && Recoverable(w, context, env.now)
    ensures
      var v := Reload(w, context, boot, reach, env);
      Found(w, v, context, env.now) && Sound(v.alarm)
  {
    ReloadedOverride(w, context, boot, reach, env);
    ReloadRestores(w, context, boot, reach, env);
    SwitchBeginsRun(w, context, boot, reach, env);
  }

  /** A load with no notice yet. */
  lemma LoadExactly(w: World, context: AccountContext, boot: bool, reach: SwitchEnv, env: Env)
    requires Sound(w.alarm) && Modern(env.now) && Alone(w.display, context) && Recoverable(w, context, env.now)
    ensures
      var v := Reload(w, context, boot, reach, env);
      Kept(Life(Moment(v, env.now.Time()), PlanAfter(v, context, [], env.now)))
      <==> Resumes(OnSwitchContext(w, context, reach).0, context, env)
  {
    SwitchBeginsRun(w, context, boot, reach, env);
    ReloadedMemory(w, context, boot, reach, env);
    ReloadRestores(w, context, boot, reach, env);
    if Resumes(OnSwitchContext(w, context, reach).0, context, env) {
      ReloadRecords(w, context, boot, reach, env);
    }
  }

  lemma ReloadExactly(
    w: World, context: AccountContext, boot: bool, reach: SwitchEnv, env: Env, ds: seq<Delivery>, b: Life)
    requires Sound(w.alarm) && Modern(env.now) && Alone(w.display, context) && Recoverable(w, context, env.now)
    requires Comes(Reload(w, context, boot, reach, env), context, ds, env.now, b)
    ensures Kept(b) <==> Settles(w, Reload(w, context, boot, reach, env), context, reach, env, ds)
  {
    if ds == [] {
      LoadExactly(w, context, boot, reach, env);
    } else {
      ReloadIsFound(w, context, boot, reach, env);
      NoticedExactly(w, Reload(w, context, boot, reach, env), context, env.now, ds, b);
    }
  }

  /** Telling the applications leaves what the notices find. */
  lemma ToldIsFound(w: World, v: World, context: AccountContext, reachable: bool, now: Clock)
    requires Found(w, v, context, now)
    ensures Found(w, WithLook(v, UpdateCurrentUserConfiguration(LookOf(v), context, reachable)), context, now)
  {
    TellingEffect(LookOf(v), context, reachable, context);
    TellingIsNoMatter(v, PlanAt(context, (0, 0), now), now.Time(), context, reachable);
  }

  lemma ToldKeeps(v: World, p: Plan, t: int, context: AccountContext, reachable: bool)
    requires Restorable(v, p.context) && Sound(v.alarm)
    ensures
      var told := WithLook(v, UpdateCurrentUserConfiguration(LookOf(v), context, reachable));
      Kept(Life(Moment(told, t), p)) <==> Kept(Life(Moment(v, t), p))
  {
    TellingIsNoMatter(v, p, t, context, reachable);
  }

  lemma AccountExactly(
    w: World, context: AccountContext, reach: SwitchEnv, chores: Chores, reachable: bool, env: Env,
    ds: seq<Delivery>, b: Life)
    requires Sound(w.alarm) && Modern(env.now) && Alone(w.display, context) && Recoverable(w, context, env.now)
    requires !chores.migrate && !chores.initialize
    requires Comes(SwitchAccount(w, context, reach, chores, reachable, env), context, ds, env.now, b)
    ensures Kept(b)
       <==> Settles(w, SwitchAccount(w, context, reach, chores, reachable, env), context, reach, env, ds)
  {
    var v := SwitchAndLoad(w, context, reach, env);
    assert Reload(w, context, false, reach, env) == v;
    SteadySwitch(w, context, reach, chores, reachable, env);
    ReloadIsFound(w, context, false, reach, env);
    if ds == [] {
      LoadExactly(w, context, false, reach, env);
      ToldKeeps(v, b.p, env.now.Time(), context, reachable);
    } else {
      ToldIsFound(w, v, context, reachable, env.now);
      NoticedExactly(w, SwitchAccount(w, context, reach, chores, reachable, env), context, env.now, ds, b);
    }
  }

  lemma StartedIsRecoverable(a: Life, v: World, start: Start, now: Clock)
    requires Kept(a) && Started(a.m.w, v, start) && a.p.context in start.contexts && Now(a, now)
    requires a.p.context.userId > INVALID_USER_ID
    ensures Recoverable(v, a.p.context, now)
  {
    FoundAgain(a.m, a.p, v, start);
  }

  lemma ServiceExactly(
    a: Life, v: World, start: Start, reach: SwitchEnv, env: Env, ds: seq<Delivery>, b: Life)
    requires Kept(a) && Step(a, ServiceRestarted(v, start, reach, env, ds), b)
    ensures Kept(b) <==> !Breaks(a, ServiceRestarted(v, start, reach, env, ds))
  {
    NoTimersAreSound();
    StartedIsRecoverable(a, v, start, env.now);
    assert Reload(v, a.p.context, true, reach, env) == BootLoad(v, a.p.context, reach, env);
    ReloadExactly(v, a.p.context, true, reach, env, ds, b);
  }

  // ---------- every happening, every life ----------

  /** Each happening keeps everything exactly when it does not break the guarantee by its own condition. */
  lemma StepExactly(a: Life, h: Happening, b: Life)
    requires Kept(a) && Step(a, h, b)
    ensures Kept(b) <==> !Breaks(a, h)
  {
    match h
    case Ordinary(event) => OrdinaryExactly(a, event);
    case Refused(event) => RefusedExactly(a, event);
    case ModeObserved(key, env) => ModeExactly(a, key, env, b);
    case TimeObserved(key, which, env) => TimeExactly(a, key, which, env, b);
    case SunComputed(env) => StoreKeeps(a, b.m.w.settings);
    case StoreChanged(data) => StoreKeeps(a, b.m.w.settings);
    case ClockChanged(env, refused) => ClockExactly(a, env, refused, b);
    case AccountSwitched(context, display, reach, chores, reachable, env, notices) =>
      AccountExactly(a.m.w.(display := display), context, reach, chores, reachable, env, notices, b);
    case ServiceRestarted(v, start, reach, env, notices) => ServiceExactly(a, v, start, reach, env, notices, b);
  }

  lemma StepKeeps(a: Life, h: Happening, b: Life)
    requires Kept(a) && Step(a, h, b) && !Breaks(a, h)
    ensures Kept(b) && Guaranteed(b.m, b.p)
  {
    StepExactly(a, h, b);
    InvariantImpliesGuarantee(b.m, b.p);
  }

  /** Happenings one after the other, none of which breaks the guarantee. */
  ghost predicate IsLife(lives: seq<Life>, happenings: seq<Happening>) {
    && |lives| == |happenings| + 1
    && Kept(lives[0])
    && forall i :: 0 <= i < |happenings| ==> Goes(lives[i], happenings[i], lives[i + 1])
  }

  ghost predicate Goes(a: Life, h: Happening, b: Life) { Step(a, h, b) && !Breaks(a, h) }

  /** As long as no happening breaks the guarantee, by a condition that can be told before it, the guarantee
      holds throughout the long life of a schedule. */
  lemma {:induction false} EveryLifeIsGuaranteed(lives: seq<Life>, happenings: seq<Happening>)
    requires IsLife(lives, happenings)
    ensures Kept(lives[|happenings|]) && Guaranteed(lives[|happenings|].m, lives[|happenings|].p)
    decreases |happenings|
  {
    var n := |happenings| - 1;
    if n < 0 {
      InvariantImpliesGuarantee(lives[0].m, lives[0].p);
    } else {
      EveryLifeIsGuaranteed(lives[..n + 1], happenings[..n]);
      assert Goes(lives[n], happenings[n], lives[n + 1]);
      StepKeeps(lives[n], happenings[n], lives[n + 1]);
    }
  }

  // ---------- a life begins ----------

  /** The user puts a schedule in force: a long life begins exactly when the mode is automatic and its timers
      are granted. */
  lemma LifeBegins(w: World, key: string, context: AccountContext, env: Env)
    requires Sound(w.alarm) && Modern(env.now) && Alone(w.display, context) && Restorable(w, context)
    requires BuildTimerKey(context) != 0 && w.current == context
    ensures
      var state := TakeMode(w, key, context);
      Kept(Life(Moment(ModeUpdate(w, key, context, env), env.now.Time()), PlanAt(context, Effective(state), env.now)))
      <==> IsAuto(state.mode) && Granted(WithState(w, context, state), context, env)
  {
    var state := TakeMode(w, key, context);
    ModeUpdateBeginsRun(w, key, context, env);
    if IsAuto(state.mode) && Granted(WithState(w, context, state), context, env) {
      ModeKeeps(w, key, context, env, state);
    }
  }

  /** The evening of the example begins one. */
  lemma ThisEveningIsKept()
    ensures Kept(Life(Moment(ModeUpdate(BEFORE, SETTING_DARK_MODE_MODE, OWNER, TONIGHT), TONIGHT.now.Time()),
                      PlanAt(OWNER, (22 * 60, 31 * 60), TONIGHT.now)))
  {
    LeadingIntegerInvertsToString(2);
    assert TakeMode(BEFORE, SETTING_DARK_MODE_MODE, OWNER) == CUSTOM_TONIGHT;
    TonightIsGranted(WithState(BEFORE, OWNER, CUSTOM_TONIGHT));
    NoTimersAreSound();
    LifeBegins(BEFORE, SETTING_DARK_MODE_MODE, OWNER, TONIGHT);
  }
}

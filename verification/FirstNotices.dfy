/** The first notifications that registering its observers brings a context, delivered after the load that
    ends a switch or a boot. */
module FirstNotices {
  import opened Decimal
  import opened Errors
  import opened Accounts
  import opened Schedule
  import opened AlarmLedger
  import opened TemporaryColorMode
  import opened ScreenSwitchOperator
  import opened SettingData
  import opened UiAppearance
  import opened DarkMode
  import opened Observers
  import opened ColourRun
  import opened RunStart
  import TimerRun

  datatype Notice = OfMode | OfTime(which: Time)

  /** A notice, and what the environment answers its observer. */
  datatype Delivery = Delivery(notice: Notice, env: Env)

  /** The place of the notice's setting among the five. */
  function PlaceOf(n: Notice): (i: nat)
    ensures i < 5
  {
    match n
    case OfMode => 0
    case OfTime(START_TIME) => 1
    case OfTime(END_TIME) => 2
    case OfTime(SUNSET_TIME) => 3
    case OfTime(SUNRISE_TIME) => 4
  }

  function KeyOf(n: Notice, context: AccountContext): string { BuildSettingKey(SETTING_KEYS[PlaceOf(n)], context) }

  function Observe(w: World, context: AccountContext, d: Delivery): World {
    match d.notice
    case OfMode => ModeUpdate(w, KeyOf(d.notice, context), context, d.env)
    case OfTime(which) => TimeUpdate(w, KeyOf(d.notice, context), context, which, d.env)
  }

  /** The notices one after the other: any of the five, in any order, any number of times. */
  function Deliver(w: World, context: AccountContext, ds: seq<Delivery>): World {
    if ds == [] then w else Observe(Deliver(w, context, ds[..|ds| - 1]), context, ds[|ds| - 1])
  }

  /** The state in memory after a notice. */
  function Take(w: World, context: AccountContext, n: Notice): DarkModeState {
    match n
    case OfMode => TakeMode(w, KeyOf(n, context), context)
    case OfTime(which) => TakeTime(w, KeyOf(n, context), context, which)
  }

  /** A notice runs the observer that the switch registered for its setting. */
  lemma NoticeRunsItsObserver(w: World, context: AccountContext, d: Delivery)
    ensures Observe(w, context, d)
         == TimerRun.RunObserver(w, ObserverOf(SETTING_KEYS[PlaceOf(d.notice)], context), d.env)
  {
    SettingKeysAreDistinct();
  }

  // ---------- one notice ----------

  predicate Drops(n: Notice) { n.OfMode? || Resets(n.which) }

  /** The state change is carried out: there is a mode, and an automatic one is granted its timers. */
  predicate TakesEffect(w: World, context: AccountContext, env: Env) {
    var mode := StateOf(w, context).mode;
    mode != INVALID && (IsAuto(mode) ==> Granted(w, context, env))
  }

  /** The notice drops an override. */
  predicate DropsOverride(w: World, context: AccountContext, d: Delivery) {
    Drops(d.notice) && TakesEffect(WithState(w, context, Take(w, context, d.notice)), context, d.env)
  }

  /** What happened from w to v to an override of the context: dropped, or left alone while in force; and
      whether it goes on under the plan has changed no further. */
  ghost predicate Leaves(w: World, v: World, p: Plan, t: int, dropped: bool) {
    var info, left := InfoOf(w.temps.infos, p.context), InfoOf(v.temps.infos, p.context);
    && (GoesOn(v, p, t, false, false) <==> dropped || GoesOn(w, p, t, false, false))
    && (dropped || !info.temporary ==> !left.temporary)
    && (!dropped && InForce(info, t) ==>
          left == info && ShowsDark(v.display, p.context) == ShowsDark(w.display, p.context))
    && Alone(v.display, p.context) && v.screen.on == w.screen.on && v.current == w.current
  }

  lemma LeavesOn(w: World, u: World, v: World, p: Plan, t: int, first: bool, second: bool)
    requires Leaves(w, u, p, t, first) && Leaves(u, v, p, t, second)
    ensures Leaves(w, v, p, t, first || second)
  {
  }

  lemma UpdateLeaves(w: World, p: Plan, dark: bool, reset: bool, now: Clock)
    requires Alone(w.display, p.context)
    ensures
      var v := UpdateDarkModeSchedule(w, dark, p.context, reset, false, now);
      Leaves(w, v, p, now.Time(), reset) && v.states == w.states
  {
  }

  /** The timers do not matter to an override. */
  lemma SameLookLeaves(w: World, v: World, p: Plan, t: int)
    requires Alone(w.display, p.context)
    requires v.display == w.display && v.temps == w.temps && v.screen == w.screen && v.current == w.current
    ensures Leaves(w, v, p, t, false)
  {
  }

  lemma AllDayChangeLeaves(w: World, p: Plan, dark: bool, reset: bool, env: Env)
    requires Alone(w.display, p.context)
    ensures
      var v := OnStateChangeToAllDayMode(w, p.context, dark, true, reset, false, env).w;
      Leaves(w, v, p, env.now.Time(), reset) && v.states == w.states
  {
    var key := BuildTimerKey(p.context);
    var cleared := w.(alarm := ClearTimerByUserId(ClearRecalculationTimer(w.alarm, key), key));
    UpdateLeaves(cleared, p, dark, reset, env.now);
    SameLookLeaves(w, cleared, p, env.now.Time());
    LeavesOn(
      w, cleared, UpdateDarkModeSchedule(cleared, dark, p.context, reset, false, env.now), p, env.now.Time(), false,
      reset);
  }

  lemma AutoChangeLeaves(w: World, p: Plan, reset: bool, env: Env)
    requires Sound(w.alarm) && Alone(w.display, p.context)
    ensures
      var v := OnStateChangeToCustomAutoMode(w, p.context, true, false, reset, false, env).w;
      Leaves(w, v, p, env.now.Time(), reset && Granted(w, p.context, env)) && v.states == w.states
  {
    var times := Effective(StateOf(w, p.context));
    var (timed, code) := CreateOrUpdateTimers(w, times, p.context, env);
    GrantedExactly(w, p.context, env);
    SameLookLeaves(w, timed, p, env.now.Time());
    if code == ERR_OK {
      UpdateLeaves(timed, p, Within(times, env.now), reset, env.now);
      LeavesOn(
        w, timed, UpdateDarkModeSchedule(timed, Within(times, env.now), p.context, reset, false, env.now), p,
        env.now.Time(), false, reset);
    } else {
      SameLookLeaves(w, OnStateChangeToCustomAutoMode(w, p.context, true, false, reset, false, env).w, p,
                     env.now.Time());
    }
  }

  lemma ChangeLeaves(w: World, p: Plan, reset: bool, env: Env)
    requires Sound(w.alarm) && Alone(w.display, p.context) && p.context in w.states
    ensures
      var v := OnStateChange(w, p.context, true, false, reset, false, env).w;
      Leaves(w, v, p, env.now.Time(), reset && TakesEffect(w, p.context, env)) && v.states == w.states
  {
    match StateOf(w, p.context).mode
    case INVALID =>
      assert w.states[p.context := w.states[p.context]] == w.states;
      SameLookLeaves(w, w, p, env.now.Time());
    case ALWAYS_LIGHT => AllDayChangeLeaves(w, p, false, reset, env);
    case ALWAYS_DARK => AllDayChangeLeaves(w, p, true, reset, env);
    case _ => AutoChangeLeaves(w, p, reset, env);
  }

  /** A notice in two steps: the state change, and for the mode what becomes of the recalculation timer. */
  lemma NoticeInSteps(w: World, context: AccountContext, d: Delivery)
    ensures
      var changed := OnStateChange(
                       WithState(w, context, Take(w, context, d.notice)), context, true, false, Drops(d.notice),
                       false, d.env).w;
      var v := Observe(w, context, d);
      && v.display == changed.display && v.temps == changed.temps && v.screen == changed.screen
      && v.states == changed.states && v.current == changed.current
  {
  }

  /** What a notice does to an override. */
  lemma NoticeLeaves(w: World, p: Plan, d: Delivery)
    requires Sound(w.alarm) && Alone(w.display, p.context)
    ensures
      var v := Observe(w, p.context, d);
      && Leaves(w, v, p, d.env.now.Time(), DropsOverride(w, p.context, d))
      && v.states == w.states[p.context := Take(w, p.context, d.notice)]
  {
    var t := d.env.now.Time();
    var w0 := WithState(w, p.context, Take(w, p.context, d.notice));
    var changed := OnStateChange(w0, p.context, true, false, Drops(d.notice), false, d.env).w;
    SameLookLeaves(w, w0, p, t);
    ChangeLeaves(w0, p, Drops(d.notice), d.env);
    NoticeInSteps(w, p.context, d);
    SameLookLeaves(changed, Observe(w, p.context, d), p, t);
    LeavesOn(w, w0, changed, p, t, false, DropsOverride(w, p.context, d));
    LeavesOn(w, changed, Observe(w, p.context, d), p, t, DropsOverride(w, p.context, d), false);
  }

  /** A notice leaves a run of the schedule it puts in force exactly when that schedule's timers are granted and
      an override is dropped or goes on. */
  lemma NoticeExactly(w: World, context: AccountContext, d: Delivery)
    requires Sound(w.alarm) && Modern(d.env.now) && Alone(w.display, context)
    ensures
      var state := Take(w, context, d.notice);
      var p := PlanAt(context, Effective(state), d.env.now);
      var v := Observe(w, context, d);
      && (Inv(Moment(v, d.env.now.Time()), p)
          <==> && IsAuto(state.mode) && Granted(WithState(w, context, state), context, d.env)
               && (Drops(d.notice) || GoesOn(w, p, d.env.now.Time(), false, false)))
      && Sound(v.alarm)
  {
    match d.notice
    case OfMode => ModeUpdateBeginsRun(w, KeyOf(d.notice, context), context, d.env);
    case OfTime(which) => TimeUpdatesBeginRun(w, KeyOf(d.notice, context), context, which, d.env);
  }

  // ---------- all notices ----------

  /** Some notice drops an override. */
  predicate AnyDrops(w: World, context: AccountContext, ds: seq<Delivery>) {
    ds != []
    && (|| AnyDrops(w, context, ds[..|ds| - 1])
        || DropsOverride(Deliver(w, context, ds[..|ds| - 1]), context, ds[|ds| - 1]))
  }

  predicate AllAt(ds: seq<Delivery>, now: Clock) { forall d :: d in ds ==> d.env.now == now }

  lemma {:induction false} NoticesLeave(w: World, p: Plan, ds: seq<Delivery>, now: Clock)
    requires Sound(w.alarm) && Modern(now) && Alone(w.display, p.context) && AllAt(ds, now)
    ensures
      var v := Deliver(w, p.context, ds);
      Leaves(w, v, p, now.Time(), AnyDrops(w, p.context, ds)) && Sound(v.alarm)
  {
    if ds == [] {
      SameLookLeaves(w, w, p, now.Time());
    } else {
      var n := |ds| - 1;
      var before := Deliver(w, p.context, ds[..n]);
      assert ds[n] in ds && forall d :: d in ds[..n] ==> d in ds;
      NoticesLeave(w, p, ds[..n], now);
      NoticeLeaves(before, p, ds[n]);
      NoticeExactly(before, p.context, ds[n]);
      LeavesOn(
        w, before, Deliver(w, p.context, ds), p, now.Time(), AnyDrops(w, p.context, ds[..n]),
        DropsOverride(before, p.context, ds[n]));
    }
  }

  /** The last notice puts a schedule in force: its mode is automatic and its timers are granted. */
  predicate LastGrants(w: World, context: AccountContext, ds: seq<Delivery>)
    requires ds != []
  {
    var before, last := Deliver(w, context, ds[..|ds| - 1]), ds[|ds| - 1];
    var state := Take(before, context, last.notice);
    IsAuto(state.mode) && Granted(WithState(before, context, state), context, last.env)
  }

  /** The plan of the state that the notices leave. */
  function PlanAfter(w: World, context: AccountContext, ds: seq<Delivery>, now: Clock): Plan {
    PlanAt(context, Effective(StateOf(Deliver(w, context, ds), context)), now)
  }

  /** Notices delivered together leave a run of their last schedule exactly when its timers are granted and
      an override is dropped by one of them or goes on. */
  lemma NoticesSettleExactly(w: World, context: AccountContext, ds: seq<Delivery>, now: Clock)
    requires Sound(w.alarm) && Modern(now) && Alone(w.display, context) && AllAt(ds, now) && ds != []
    ensures
      var p := PlanAfter(w, context, ds, now);
      && (Inv(Moment(Deliver(w, context, ds), now.Time()), p)
          <==> && LastGrants(w, context, ds)
               && (AnyDrops(w, context, ds) || GoesOn(w, p, now.Time(), false, false)))
  {
    var n := |ds| - 1;
    var before := Deliver(w, context, ds[..n]);
    var p := PlanAfter(w, context, ds, now);
    assert ds[n] in ds && forall d :: d in ds[..n] ==> d in ds;
    NoticesLeave(w, p, ds[..n], now);
    NoticeLeaves(before, p, ds[n]);
    NoticeExactly(before, context, ds[n]);
    assert StateOf(Deliver(w, context, ds), context) == Take(before, context, ds[n].notice);
    if IsAuto(Take(before, context, ds[n].notice).mode) && Drops(ds[n].notice) {
      assert LastGrants(w, context, ds) ==> DropsOverride(before, context, ds[n]);
    }
  }

  /** Whenever it comes, the mode's own notice ends an override: granted, it shows the scheduled colour at
      once, with nothing recorded and nothing pending. */
  lemma ModeNoticeTakesOver(w: World, context: AccountContext, d: Delivery)
    requires Sound(w.alarm) && Alone(w.display, context) && d.notice == OfMode
    requires
      var state := Take(w, context, OfMode);
      IsAuto(state.mode) && Granted(WithState(w, context, state), context, d.env)
    ensures
      var v := Observe(w, context, d);
      var p := PlanAt(context, Effective(Take(w, context, OfMode)), d.env.now);
      && ShowsDark(v.display, context) == p.Dark(d.env.now.Time())
      && !IsColorModeTemporary(v.temps, context) && v.screen.operate == NONE
  {
    var state := Take(w, context, OfMode);
    var w0 := WithState(w, context, state);
    GrantedExactly(w0, context, d.env);
    WithinIsDark(Effective(state), context, d.env.now);
    ResetShows(CreateOrUpdateTimers(w0, Effective(state), context, d.env).0, Within(Effective(state), d.env.now),
               context, d.env.now);
    NoticeInSteps(w, context, d);
  }

  lemma ResetShows(w: World, dark: bool, context: AccountContext, now: Clock)
    requires Alone(w.display, context)
    ensures
      var v := UpdateDarkModeSchedule(w, dark, context, true, false, now);
      && ShowsDark(v.display, context) == dark && !IsColorModeTemporary(v.temps, context) && v.screen.operate == NONE
  {
  }

  // ---------- after the load ----------

  /** The world after a switch, or after the boot path, and its load. */
  function Reload(w: World, context: AccountContext, boot: bool, reach: SwitchEnv, env: Env): World {
    if boot then BootLoad(w, context, reach, env) else SwitchAndLoad(w, context, reach, env)
  }

  /** An override is absent or in force. */
  predicate Pruned(w: World, context: AccountContext, now: Clock) {
    IsColorModeTemporary(w.temps, context) ==> InForce(InfoOf(w.temps.infos, context), now.Time())
  }

  /** An override in force is left alone, and none is recorded. */
  predicate LeftAlone(w: World, v: World, context: AccountContext) {
    && InfoOf(v.temps.infos, context) == InfoOf(w.temps.infos, context)
    && (IsColorModeTemporary(w.temps, context) ==> v.display == w.display)
    && Alone(v.display, context)
  }

  lemma QuietUpdateLeaves(w: World, context: AccountContext, dark: bool, boot: bool, now: Clock)
    requires Alone(w.display, context) && Pruned(w, context, now)
    ensures LeftAlone(w, UpdateDarkModeSchedule(w, dark, context, false, boot, now), context)
  {
  }

  lemma QuietAllDayLeaves(w: World, context: AccountContext, dark: bool, boot: bool, env: Env)
    requires Alone(w.display, context) && Pruned(w, context, env.now)
    ensures LeftAlone(w, OnStateChangeToAllDayMode(w, context, dark, boot, false, boot, env).w, context)
  {
    var key := BuildTimerKey(context);
    QuietUpdateLeaves(
      w.(alarm := ClearTimerByUserId(ClearRecalculationTimer(w.alarm, key), key)), context, dark, boot, env.now);
  }

  lemma QuietAutoLeaves(w: World, context: AccountContext, boot: bool, env: Env)
    requires Alone(w.display, context) && Pruned(w, context, env.now)
    ensures LeftAlone(w, OnStateChangeToCustomAutoMode(w, context, boot, false, false, boot, env).w, context)
  {
    var times := Effective(StateOf(w, context));
    QuietUpdateLeaves(
      CreateOrUpdateTimers(w, times, context, env).0, context, Within(times, env.now), boot, env.now);
  }

  /** The state change of a load. */
  lemma QuietChangeLeaves(w: World, context: AccountContext, boot: bool, env: Env)
    requires Alone(w.display, context) && Pruned(w, context, env.now)
    ensures LeftAlone(w, OnStateChange(w, context, boot, false, false, boot, env).w, context)
  {
    match StateOf(w, context).mode
    case INVALID =>
    case ALWAYS_LIGHT => QuietAllDayLeaves(w, context, false, boot, env);
    case ALWAYS_DARK => QuietAllDayLeaves(w, context, true, boot, env);
    case _ => QuietAutoLeaves(w, context, boot, env);
  }

  /** The override after the load: restored inside its window, with the colour shown, and gone otherwise. */
  lemma ReloadedOverride(w: World, context: AccountContext, boot: bool, reach: SwitchEnv, env: Env)
    requires Sound(w.alarm) && Alone(w.display, context)
    ensures
      var v := Reload(w, context, boot, reach, env);
      var info := Stored(w.temps.params, context);
      && InfoOf(v.temps.infos, context) == (if InForce(info, env.now.Time()) then info else NORMAL)
      && (InForce(info, env.now.Time()) ==> ShowsDark(v.display, context) == ShowsDark(w.display, context))
      && Alone(v.display, context)
  {
    var switched := OnSwitchContext(w, context, reach).0;
    var w0 := Loaded(switched, context, env);
    SwitchLeaves(w, context, reach);
    LoadInSteps(switched, context, boot, env);
    RestoredOverride(switched.temps, context, env.now);
    QuietChangeLeaves(w0, context, boot, env);
    var changed := OnStateChange(w0, context, boot, false, false, boot, env).w;
    InitLeavesDisplay(changed, changed.display, context, env);
  }

  /** What remains of a stored override lands under the plan. */
  predicate StoredLands(w: World, p: Plan, now: Clock) {
    var info := Stored(w.temps.params, p.context);
    InForce(info, now.Time()) ==> Lands(p, ShowsDark(w.display, p.context), info.end)
  }

  /** A switch or a boot with its first notices: it leaves a run of the schedule in force exactly when the last
      notice grants it, and a notice dropped the stored override or it lands. A stored override that is in
      force survives exactly when no notice of the mode or of the user's own times takes effect. */
  lemma SwitchSettlesExactly(
    w: World, context: AccountContext, boot: bool, reach: SwitchEnv, env: Env, ds: seq<Delivery>)
    requires Sound(w.alarm) && Modern(env.now) && Alone(w.display, context) && AllAt(ds, env.now) && ds != []
    ensures
      var loaded := Reload(w, context, boot, reach, env);
      var p := PlanAfter(loaded, context, ds, env.now);
      var v := Deliver(loaded, context, ds);
      var info := Stored(w.temps.params, context);
      && (Inv(Moment(v, env.now.Time()), p)
          <==> && LastGrants(loaded, context, ds)
               && (AnyDrops(loaded, context, ds) || StoredLands(w, p, env.now)))
      && (InForce(info, env.now.Time()) ==>
            (InfoOf(v.temps.infos, context) == info <==> !AnyDrops(loaded, context, ds)))
      && (!IsColorModeTemporary(v.temps, context)
          <==> AnyDrops(loaded, context, ds) || !InForce(info, env.now.Time()))
      && Sound(v.alarm)
  {
    var loaded := Reload(w, context, boot, reach, env);
    var p := PlanAfter(loaded, context, ds, env.now);
    SwitchBeginsRun(w, context, boot, reach, env);
    ReloadedOverride(w, context, boot, reach, env);
    NoticesSettleExactly(loaded, context, ds, env.now);
    NoticesLeave(loaded, p, ds, env.now);
    StoredGoesOn(w, loaded, p, env.now);
  }

  lemma StoredGoesOn(w: World, v: World, p: Plan, now: Clock)
    requires
      var info := Stored(w.temps.params, p.context);
      && InfoOf(v.temps.infos, p.context) == (if InForce(info, now.Time()) then info else NORMAL)
      && (InForce(info, now.Time()) ==> ShowsDark(v.display, p.context) == ShowsDark(w.display, p.context))
    ensures GoesOn(v, p, now.Time(), false, false) <==> StoredLands(w, p, now)
  {
  }

  /** The condition for a switch or a boot from w, which the load took to v, to leave a run in order: without
      a notice yet, that the load resumes it; with notices, that the last one grants its schedule and the stored
      override was dropped or lands. */
  predicate Settles(w: World, v: World, context: AccountContext, reach: SwitchEnv, env: Env, ds: seq<Delivery>) {
    if ds == [] then Resumes(OnSwitchContext(w, context, reach).0, context, env)
    else
      && LastGrants(v, context, ds)
      && (AnyDrops(v, context, ds) || StoredLands(w, PlanAfter(v, context, ds, env.now), env.now))
  }

  // ---------- what becomes of the loaded state ----------

  /** The sun is not computed anew, or comes out as it is in memory. */
  predicate Steady(env: Env, state: DarkModeState) {
    state.mode == SUNRISE_SUNSET ==> env.sun == None || env.sun == Some((state.sunset, state.sunrise))
  }

  /** The notice finds the loaded setting under the context's own key, and a sun pair it does not reset. */
  predicate Echoes(s: Settings, context: AccountContext, copies: Copies, n: Notice) {
    var state := LoadState(s, context, copies).1;
    match n
    case OfMode => ReadsBack(s, context, copies, 0) || state.mode == INVALID
    case OfTime(which) =>
      ReadsBack(s, context, copies, PlaceOf(n)) && (Resets(which) || state.sunset < state.sunrise)
  }

  lemma TakesWhatItReads(w: World, context: AccountContext, n: Notice)
    ensures
      var state, own := StateOf(w, context), OwnRead(w.settings, context, PlaceOf(n)).1;
      Take(w, context, n)
      == match n
         case OfMode => state.(mode := ModeOf(own))
         case OfTime(START_TIME) => state.(start := own)
         case OfTime(END_TIME) => state.(end := own)
         case OfTime(SUNSET_TIME) => TakeSunset(state, own)
         case OfTime(SUNRISE_TIME) => TakeSunrise(state, own)
  {
  }

  /** A notice after the load leaves the loaded state as it is exactly when it echoes. The observers know no
      fallback: a mode that a sub-profile has from the user and could not copy becomes INVALID. */
  lemma LoadedStateStaysExactly(w: World, context: AccountContext, s: Settings, copies: Copies, n: Notice)
    requires LoadState(s, context, copies) == (w.settings, StateOf(w, context))
    ensures
      var state, taken := StateOf(w, context), Take(w, context, n);
      && (taken == state <==> Echoes(s, context, copies, n))
      && (n == OfMode && !Echoes(s, context, copies, n) ==> taken == state.(mode := INVALID))
  {
    TakesWhatItReads(w, context, n);
    if n == OfMode {
      LoadedModeReadsBack(s, context, copies);
    } else {
      LoadedValueReadsBack(s, context, copies, PlaceOf(n));
    }
  }

  /** For a base context there is nothing to copy: every notice of the mode and the user's times echoes, and
      one of the sun does exactly when the pair is ordered. */
  lemma BaseContextEchoes(s: Settings, context: AccountContext, copies: Copies, n: Notice)
    requires !context.IsSubProfile()
    ensures
      var state := LoadState(s, context, copies).1;
      Echoes(s, context, copies, n) <==> Drops(n) || state.sunset < state.sunrise
  {
  }

  lemma SteadyKeepsSettings(w: World, context: AccountContext, d: Delivery)
    requires Steady(d.env, StateOf(w, context)) && Take(w, context, d.notice) == StateOf(w, context)
    ensures Observe(w, context, d).settings == w.settings
    ensures StateOf(Observe(w, context, d), context) == StateOf(w, context)
  {
    var w0 := WithState(w, context, Take(w, context, d.notice));
    var changed := OnStateChange(w0, context, true, false, Drops(d.notice), false, d.env).w;
    StateChangeKeepsSettings(w0, context, true, false, Drops(d.notice), false, d.env);
    if StateOf(w, context).mode == SUNRISE_SUNSET {
      SteadySunIsKept(changed, context, d.env);
    }
    NoticeInSteps(w, context, d);
  }

  lemma SteadySunIsKept(w: World, context: AccountContext, env: Env)
    requires Steady(env, StateOf(w, context))
    ensures
      var v := InitSunriseSunsetMode(w, context, env);
      v.settings == w.settings && v.states == w.states
  {
  }

  /** Echoing notices leave the loaded state as it is. */
  lemma {:induction false} EchoesKeepState(
    w: World, context: AccountContext, s: Settings, copies: Copies, ds: seq<Delivery>)
    requires LoadState(s, context, copies) == (w.settings, StateOf(w, context))
    requires forall d :: d in ds ==> Echoes(s, context, copies, d.notice) && Steady(d.env, StateOf(w, context))
    ensures
      var v := Deliver(w, context, ds);
      v.settings == w.settings && StateOf(v, context) == StateOf(w, context)
  {
    if ds != [] {
      var n := |ds| - 1;
      var before := Deliver(w, context, ds[..n]);
      assert ds[n] in ds && forall d :: d in ds[..n] ==> d in ds;
      EchoesKeepState(w, context, s, copies, ds[..n]);
      LoadedStateStaysExactly(before, context, s, copies, ds[n].notice);
      SteadyKeepsSettings(before, context, ds[n]);
    }
  }

  /** The load leaves in memory what it found. */
  lemma ReloadedMemory(w: World, context: AccountContext, boot: bool, reach: SwitchEnv, env: Env)
    ensures StateOf(Reload(w, context, boot, reach, env), context)
         == LoadState(OnSwitchContext(w, context, reach).0.settings, context, env.copies).1
  {
    var switched := OnSwitchContext(w, context, reach).0;
    var w0 := Loaded(switched, context, env);
    LoadInSteps(switched, context, boot, env);
    StateChangeKeepsSettings(w0, context, boot, false, false, boot, env);
    TimerRun.TimesUndisturbed(OnStateChange(w0, context, boot, false, false, boot, env).w, context, env);
  }

  lemma ReloadedState(w: World, context: AccountContext, boot: bool, reach: SwitchEnv, env: Env)
    requires Steady(env, LoadState(OnSwitchContext(w, context, reach).0.settings, context, env.copies).1)
    ensures
      var v := Reload(w, context, boot, reach, env);
      LoadState(OnSwitchContext(w, context, reach).0.settings, context, env.copies)
      == (v.settings, StateOf(v, context))
  {
    var switched := OnSwitchContext(w, context, reach).0;
    var w0 := Loaded(switched, context, env);
    var state := LoadState(switched.settings, context, env.copies).1;
    LoadInSteps(switched, context, boot, env);
    StateChangeKeepsSettings(w0, context, boot, false, false, boot, env);
    var changed := OnStateChange(w0, context, boot, false, false, boot, env).w;
    if state.mode == SUNRISE_SUNSET {
      SteadySunIsKept(changed, context, env);
    }
  }

  /** After a switch or a boot whose notices all echo, the state in memory is the loaded one. */
  lemma NoticesKeepLoadedState(
    w: World, context: AccountContext, boot: bool, reach: SwitchEnv, env: Env, ds: seq<Delivery>)
    requires
      var s := OnSwitchContext(w, context, reach).0.settings;
      var state := LoadState(s, context, env.copies).1;
      && Steady(env, state)
      && forall d :: d in ds ==> Echoes(s, context, env.copies, d.notice) && Steady(d.env, state)
    ensures
      var state := LoadState(OnSwitchContext(w, context, reach).0.settings, context, env.copies).1;
      StateOf(Deliver(Reload(w, context, boot, reach, env), context, ds), context) == state
  {
    ReloadedState(w, context, boot, reach, env);
    EchoesKeepState(
      Reload(w, context, boot, reach, env), context, OnSwitchContext(w, context, reach).0.settings, env.copies, ds);
  }

  // ---------- the five first notices ----------

  lemma {:induction false} FirstNotificationAt(s: Settings, settings: seq<string>, context: AccountContext, i: nat)
    requires i < |settings|
    ensures |FirstNotifications(s, settings, context)| == |settings|
    ensures FirstNotifications(s, settings, context)[i]
         == Notification(context.userId, BuildSettingKey(settings[i], context), s.data)
  {
    var n := |settings| - 1;
    if n > 0 {
      FirstNotificationAt(s, settings[..n], context, if i < n then i else 0);
    }
  }

  /** A switch that returns ERR_OK sends the notice of each of the five settings, in this order. */
  lemma SwitchSendsFiveNotices(w: World, context: AccountContext, reach: SwitchEnv, n: Notice)
    requires TimerRun.Consistent(w) && context.userId > INVALID_USER_ID
    requires OnSwitchContext(w, context, reach).1 == ERR_OK
    ensures
      var sent, before := OnSwitchContext(w, context, reach).0.settings.notified, |w.settings.notified|;
      && |sent| == before + 5
      && sent[before + PlaceOf(n)] == Notification(context.userId, KeyOf(n, context), w.settings.data)
  {
    TimerRun.SwitchNotifiesEveryObserver(w, context, reach);
    FirstNotificationAt(w.settings, SETTING_KEYS, context, PlaceOf(n));
  }

  /** A user who picked the other colour loses it to a switch or a restart: the load still restores the pick,
      and the notice of the mode then shows the scheduled colour and erases the record. */
  lemma PickIsUndone(w: World, context: AccountContext, boot: bool, reach: SwitchEnv, env: Env, d: Delivery)
    requires Sound(w.alarm) && Modern(env.now) && Alone(w.display, context) && d.notice == OfMode
    requires InForce(Stored(w.temps.params, context), env.now.Time())
    requires
      var loaded := Reload(w, context, boot, reach, env);
      var state := Take(loaded, context, OfMode);
      && IsAuto(state.mode) && Granted(WithState(loaded, context, state), context, d.env)
      && ShowsDark(w.display, context) != PlanAt(context, Effective(state), d.env.now).Dark(d.env.now.Time())
    ensures
      var loaded := Reload(w, context, boot, reach, env);
      var v := Observe(loaded, context, d);
      && InfoOf(loaded.temps.infos, context) == Stored(w.temps.params, context)
      && ShowsDark(loaded.display, context) == ShowsDark(w.display, context)
      && !IsColorModeTemporary(v.temps, context) && ShowsDark(v.display, context) != ShowsDark(w.display, context)
  {
    SwitchBeginsRun(w, context, boot, reach, env);
    ReloadedOverride(w, context, boot, reach, env);
    ModeNoticeTakesOver(Reload(w, context, boot, reach, env), context, d);
  }

  /** Half past eleven of the same night. */
  function Late(start: nat, end: nat): Env {
    TONIGHT.(
      now := Clock(TONIGHT.now.midnight, 23 * 3600 + 1800), first := Reply(start, true), second := Reply(end, true))
  }

  /** The light picked at eleven, until 21:59:59 the next day. */
  const PICK := TempInfo(true, TONIGHT.now.midnight + 23 * 3600, TONIGHT.now.midnight + 46 * 3600 - 1)

  /** The user of the example, with the times 22:00 to 7:00 in force, picks light at 23:00, and the service
      restarts at 23:30: the load restores the light, the first notice of the mode turns it dark. */
  lemma ThisPickIsUndone(w: World, reach: SwitchEnv)
    requires w.alarm == NO_TIMERS && w.current == CreateBaseContext(INVALID_USER_ID) && Alone(w.display, OWNER)
    requires Stored(w.temps.params, OWNER) == PICK && !ShowsDark(w.display, OWNER)
    requires LoadState(OnSwitchContext(w, OWNER, reach).0.settings, OWNER, ALL_STORED).1 == CUSTOM_TONIGHT
    ensures
      var loaded := BootLoad(w, OWNER, reach, Late(1, 2));
      var v := Observe(loaded, OWNER, Delivery(OfMode, Late(3, 4)));
      && InfoOf(loaded.temps.infos, OWNER) == PICK && !ShowsDark(loaded.display, OWNER)
      && !IsColorModeTemporary(v.temps, OWNER) && ShowsDark(v.display, OWNER)
  {
    var loaded := BootLoad(w, OWNER, reach, Late(1, 2));
    var s := OnSwitchContext(w, OWNER, reach).0.settings;
    NoTimersAreSound();
    assert Reload(w, OWNER, true, reach, Late(1, 2)) == loaded;
    ReloadedState(w, OWNER, true, reach, Late(1, 2));
    LoadedStateStaysExactly(loaded, OWNER, s, ALL_STORED, OfMode);
    BaseContextEchoes(s, OWNER, ALL_STORED, OfMode);
    LateIsGranted(w, reach);
    WithinIsDark((22 * 60, 31 * 60), OWNER, Late(3, 4).now);
    PickIsUndone(w, OWNER, true, reach, Late(1, 2), Delivery(OfMode, Late(3, 4)));
  }

  lemma LateIsGranted(w: World, reach: SwitchEnv)
    requires w.alarm == NO_TIMERS && w.current == CreateBaseContext(INVALID_USER_ID)
    requires LoadState(OnSwitchContext(w, OWNER, reach).0.settings, OWNER, ALL_STORED).1 == CUSTOM_TONIGHT
    ensures
      var loaded := BootLoad(w, OWNER, reach, Late(1, 2));
      Granted(WithState(loaded, OWNER, CUSTOM_TONIGHT), OWNER, Late(3, 4))
  {
    var switched := OnSwitchContext(w, OWNER, reach).0;
    var loaded := BootLoad(w, OWNER, reach, Late(1, 2));
    LoadInSteps(switched, OWNER, true, Late(1, 2));
    NoTimersAreSound();
    FewTimers(Loaded(switched, OWNER, Late(1, 2)), Late(1, 2));
    FreshIsGranted(WithState(loaded, OWNER, CUSTOM_TONIGHT));
  }

  lemma FreshIsGranted(w: World)
    requires w.alarm.timers.Keys <= {1, 2} && StateOf(w, OWNER) == CUSTOM_TONIGHT
    ensures Granted(w, OWNER, Late(3, 4))
  {
    ValidScheduleBounds(22 * 60, 31 * 60);
  }

  lemma FewTimers(w: World, env: Env)
    requires Ledger(w.alarm) && w.alarm.timers == map[]
    requires OWNER in w.states && w.states[OWNER] == CUSTOM_TONIGHT
    ensures OnStateChange(w, OWNER, true, false, false, true, env).w.alarm.timers.Keys <= {env.first.id, env.second.id}
  {
    var callback := SwitchColor(22 * 60, 31 * 60, OWNER);
    ScheduleSucceedsExactly(
      w.alarm, ToU64(22 * 60), ToU64(31 * 60), BuildTimerKey(OWNER), callback, env.now, env.first, env.second);
    var timed := CreateOrUpdateTimers(w, (22 * 60, 31 * 60), OWNER, env).0;
    TimerRun.ScheduleUpdateUndisturbed(timed, Within((22 * 60, 31 * 60), env.now), OWNER, false, true, env.now);
  }
}

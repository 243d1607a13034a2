/** How a guaranteed run outlives an interruption: a restart of the service in its middle, and a change
    of the clock or the zone. */
module RunContinues {
  import opened Decimal
  import opened Accounts
  import opened Schedule
  import opened AlarmLedger
  import opened TemporaryWindow
  import opened TemporaryColorMode
  import opened ScreenSwitchOperator
  import opened UiAppearance
  import opened ShownColours
  import opened Startup
  import opened DarkMode
  import opened ColourRun
  import opened RunStart
  import opened FirstNotices
  import opened PersistedRuns
  import opened AccountSwitches
  import TimerRun

  // ---------- any midnight will do ----------

  lemma SamePhaseEverywhere(zone: int, other: int, t: int)
    requires (other - zone) % DAY_TO_SECOND == 0
    ensures Phase(other, t) == Phase(zone, t)
  {
    var k := (other - zone) / DAY_TO_SECOND;
    PhaseOf(zone, t, (t - other) / DAY_TO_SECOND + k, Phase(other, t));
  }

  /** A plan may name any local midnight: an override lands by all of them or by none. */
  lemma LandsAtAnyMidnight(p: Plan, other: int, shown: bool, end: int)
    requires (other - p.zone) % DAY_TO_SECOND == 0
    ensures Lands(p.(zone := other), shown, end) <==> Lands(p, shown, end)
  {
    SamePhaseEverywhere(p.zone, other, end);
    SamePhaseEverywhere(p.zone, other, end - 1);
  }

  lemma MidnightIsWholeDays(zone: int, t: int)
    ensures (ClockAt(zone, t).midnight - zone) % DAY_TO_SECOND == 0 && ClockAt(zone, t).Time() == t
  {
    ClockTells(zone, t);
  }

  // ---------- a restart of the service ----------

  /** What the service finds in the parameters when it starts again, and which context it then tells the
      applications the colour of. */
  datatype Start = Start(
    contexts: seq<AccountContext>, valid: string -> bool, told: AccountContext, reachable: bool)

  /** The service has started again, read the colours back and told the applications. */
  predicate Started(w: World, v: World, start: Start) {
    var before := v.(display := v.display.(usersParam := map[]), temps := w.temps);
    LookOf(v)
    == UpdateCurrentUserConfiguration(
      DoInitProcess(LookOf(before), start.contexts, start.valid), start.told, start.reachable)
  }

  /** An override in force is found again with the colour the user chose. */
  lemma FoundAgain(m: Moment, p: Plan, v: World, start: Start)
    requires Restorable(m.w, p.context) && Started(m.w, v, start) && p.context in start.contexts
    ensures v.temps.params.refused == m.w.temps.params.refused
    ensures Stored(v.temps.params, p.context) == InfoOf(m.w.temps.infos, p.context)
    ensures IsColorModeTemporary(m.w.temps, p.context) ==>
              && ShowsDark(v.display, p.context) == ShowsDark(m.w.display, p.context)
              && Reads(v.temps.params, DarkModeKey(p.context), ShowsDark(v.display, p.context))
  {
    var look := LookOf(v.(display := v.display.(usersParam := map[]), temps := m.w.temps));
    var read := DoInitProcess(look, start.contexts, start.valid);
    InitKeepsRecords(look, start.contexts, start.valid, p.context);
    SameRecordIsStored(m.w.temps.params, read.params, p.context);
    TellingEffect(read, start.told, start.reachable, p.context);
    SameRecordIsStored(read.params, v.temps.params, p.context);
    if IsColorModeTemporary(m.w.temps, p.context) {
      InitRestoresColour(look, start.contexts, start.valid, p.context, ShowsDark(m.w.display, p.context));
    }
  }

  /** No operation that the restart drops waits over an override in force, or the override lands without it. */
  predicate NothingWaits(m: Moment, p: Plan) {
    var info := InfoOf(m.w.temps.infos, p.context);
    || m.w.screen.operate == NONE || !InForce(info, m.t)
    || Lands(p, ShowsDark(m.w.display, p.context), info.end)
  }

  /** The override found again lands under the schedule found again. */
  lemma OverrideStillLands(m: Moment, p: Plan, now: Clock)
    requires Inv(m, p) && now == ClockAt(p.zone, m.t)
    ensures now.Time() == m.t
    ensures
      var info := InfoOf(m.w.temps.infos, p.context);
      && (InForce(info, m.t) ==> Active(info, m.t))
      && (NothingWaits(m, p)
          <==> (InForce(info, m.t) ==> Lands(p.(zone := now.midnight), ShowsDark(m.w.display, p.context), info.end)))
  {
    MidnightIsWholeDays(p.zone, m.t);
    SettledLands(m, p);
    LandsAtAnyMidnight(p, now.midnight, ShowsDark(m.w.display, p.context), InfoOf(m.w.temps.infos, p.context).end);
  }

  lemma SettledLands(m: Moment, p: Plan)
    requires Settled(m, p)
    ensures
      var info := InfoOf(m.w.temps.infos, p.context);
      NothingWaits(m, p) <==> (InForce(info, m.t) ==> Lands(p, ShowsDark(m.w.display, p.context), info.end))
  {
  }

  /** The boot path finds an automatic mode and is offered its timers. */
  predicate Reloads(v: World, p: Plan, env: Env) {
    && IsAuto(LoadState(v.settings, p.context, env.copies).1.mode)
    && Offered(v.alarm, BuildTimerKey(p.context), env.first, env.second)
  }

  lemma ResumesAfterRestart(m: Moment, p: Plan, v: World, env: Env)
    requires Inv(m, p) && env.now == ClockAt(p.zone, m.t)
    requires Stored(v.temps.params, p.context) == InfoOf(m.w.temps.infos, p.context)
    requires Active(InfoOf(m.w.temps.infos, p.context), m.t) ==>
               ShowsDark(v.display, p.context) == ShowsDark(m.w.display, p.context)
    requires Effective(LoadState(v.settings, p.context, env.copies).1) == (p.start, p.end)
    ensures PlanAt(p.context, (p.start, p.end), env.now) == p.(zone := env.now.midnight)
    ensures Resumes(v, p.context, env) <==> Reloads(v, p, env) && NothingWaits(m, p)
  {
    OverrideStillLands(m, p, env.now);
    NoWrapInRange(p.start);
    NoWrapInRange(p.end);
    AcceptedTimesAreValid((p.start, p.end));
  }

  /** The service restarts in the middle of a guaranteed run: the memory, the timers and the pending operation
      are lost, and nothing but the parameters and the settings is left. The load of the boot path takes the
      run up again exactly when the settings still hold the schedule's mode, the time service offers its timers,
      and no operation waited over an override; it restores an override with its colour for as long as its
      window lasts. */
  lemma RestartContinuesRun(m: Moment, p: Plan, v: World, start: Start, reach: SwitchEnv, env: Env)
    requires Inv(m, p) && Restorable(m.w, p.context)
    requires env.now == ClockAt(p.zone, m.t) && Modern(env.now)
    requires Started(m.w, v, start) && p.context in start.contexts && Alone(v.display, p.context) && Sound(v.alarm)
    requires Effective(LoadState(OnSwitchContext(v, p.context, reach).0.settings, p.context, env.copies).1)
          == (p.start, p.end)
    ensures
      Inv(Moment(BootLoad(v, p.context, reach, env), env.now.Time()), PlanAt(p.context, (p.start, p.end), env.now))
      <==> Reloads(OnSwitchContext(v, p.context, reach).0, p, env) && NothingWaits(m, p)
    ensures
      var b := BootLoad(v, p.context, reach, env);
      var info := InfoOf(m.w.temps.infos, p.context);
      && InfoOf(b.temps.infos, p.context) == (if InForce(info, m.t) then info else NORMAL)
      && (InForce(info, m.t) ==> ShowsDark(b.display, p.context) == ShowsDark(m.w.display, p.context))
    ensures env.now.Time() == m.t && PlanAt(p.context, (p.start, p.end), env.now) == p.(zone := env.now.midnight)
  {
    FoundAgain(m, p, v, start);
    SwitchLeaves(v, p.context, reach);
    MidnightIsWholeDays(p.zone, m.t);
    ReloadedOverride(v, p.context, true, reach, env);
    ResumesAfterRestart(m, p, OnSwitchContext(v, p.context, reach).0, env);
    BootBeginsRun(v, p.context, reach, env, (p.start, p.end));
  }

  /** The same with the first notices of the observers the boot path registers. The override the load restored
      survives exactly when no notice of the mode or of the user's times takes effect; the run goes on exactly
      when the last notice grants its schedule, and an override that survives lands under it. */
  lemma RestartSettlesExactly(
    m: Moment, p: Plan, v: World, start: Start, reach: SwitchEnv, env: Env, ds: seq<Delivery>)
    requires Inv(m, p) && Restorable(m.w, p.context)
    requires env.now == ClockAt(p.zone, m.t) && Modern(env.now) && AllAt(ds, env.now) && ds != []
    requires Started(m.w, v, start) && p.context in start.contexts && Alone(v.display, p.context) && Sound(v.alarm)
    ensures
      var loaded := BootLoad(v, p.context, reach, env);
      var b := Deliver(loaded, p.context, ds);
      var after := PlanAfter(loaded, p.context, ds, env.now);
      var info := InfoOf(m.w.temps.infos, p.context);
      && (Inv(Moment(b, env.now.Time()), after)
          <==> && LastGrants(loaded, p.context, ds)
               && (|| AnyDrops(loaded, p.context, ds) || !InForce(info, m.t)
                   || Lands(after, ShowsDark(m.w.display, p.context), info.end)))
      && (InForce(info, m.t) ==> (InfoOf(b.temps.infos, p.context) == info <==> !AnyDrops(loaded, p.context, ds)))
      && ((after.start, after.end) == (p.start, p.end) ==>
            (NothingWaits(m, p)
             <==> (InForce(info, m.t) ==> Lands(after, ShowsDark(m.w.display, p.context), info.end))))
  {
    var loaded := BootLoad(v, p.context, reach, env);
    FoundAgain(m, p, v, start);
    MidnightIsWholeDays(p.zone, m.t);
    OverrideStillLands(m, p, env.now);
    assert Reload(v, p.context, true, reach, env) == loaded;
    SwitchSettlesExactly(v, p.context, true, reach, env, ds);
  }

  lemma BootBeginsRun(v: World, context: AccountContext, reach: SwitchEnv, env: Env, times: (int32, int32))
    requires Sound(v.alarm) && Modern(env.now) && Alone(v.display, context)
    requires Effective(LoadState(OnSwitchContext(v, context, reach).0.settings, context, env.copies).1) == times
    ensures Inv(Moment(BootLoad(v, context, reach, env), env.now.Time()), PlanAt(context, times, env.now))
            <==> Resumes(OnSwitchContext(v, context, reach).0, context, env)
  {
    SwitchBeginsRun(v, context, true, reach, env);
  }

  // ---------- a change of the clock ----------

  /** Both timers of the context run its callback, under a key that restarts. */
  predicate Set(w: World, context: AccountContext) {
    var key := BuildTimerKey(context);
    var times := Effective(StateOf(w, context));
    var ids := IdsOf(w.alarm, key);
    && context in w.states && IsAuto(w.states[context].mode) && ValidTimes(times)
    && key != 0 && key in w.alarm.setupTimes && w.alarm.setupTimes[key] == Pair(times.0, times.1)
    && ids.start in w.alarm.timers && ids.end in w.alarm.timers
    && w.alarm.timers[ids.start].callback == SwitchColor(times.0, times.1, context)
    && w.alarm.timers[ids.end].callback == SwitchColor(times.0, times.1, context)
  }

  /** In every reachable state the timers of an automatic mode are set, if the current key restarts at all. */
  lemma ConsistentIsSet(w: World)
    requires TimerRun.Consistent(w) && w.current in w.states && IsAuto(w.states[w.current].mode)
    requires BuildTimerKey(w.current) in w.alarm.timerIds && BuildTimerKey(w.current) != 0
    ensures Set(w, w.current)
  {
    var key := BuildTimerKey(w.current);
    assert IsValidScheduleTime(w.alarm.setupTimes[key].start, w.alarm.setupTimes[key].end);
    AcceptedTimesAreValid(Effective(w.states[w.current]));
  }

  lemma NextIsArmed(b: Alarm, context: AccountContext, times: (int32, int32), now: Clock, id: nat, boundary: nat)
    requires ValidTimes(times) && id in b.timers && b.timers[id].running
    requires b.timers[id].callback == SwitchColor(times.0, times.1, context)
    requires NextFrom(now, boundary, b.timers[id].trigger) || NextAfter(now, boundary, b.timers[id].trigger)
    ensures
      var p := PlanAt(context, times, now);
      p.start == times.0 && p.end == times.1 && Armed(b, p, id, boundary, now.Time())
  {
    NoWrapInRange(times.0);
    NoWrapInRange(times.1);
  }

  /** One of the two timers after the restart: armed exactly when it may start. */
  lemma RestartedIsArmed(w: World, b: Alarm, context: AccountContext, now: Clock, refused: set<nat>, slot: Slot)
    requires Sound(w.alarm) && Modern(now) && Set(w, context) && Restarted(w.alarm, b, now, refused)
    requires slot.key == BuildTimerKey(context) && slot.kind != RECALCULATION
    ensures
      var p := PlanAt(context, Effective(StateOf(w, context)), now);
      var id := IdAt(w.alarm, slot);
      && id == IdAt(b, slot)
      && (Armed(b, p, id, if slot.kind == START then p.start else p.end, now.Time()) <==> id !in refused)
  {
    var times := Effective(StateOf(w, context));
    var id := IdAt(w.alarm, slot);
    if id !in refused {
      RestartArmsNextOccurrences(w.alarm, b, now, refused, slot);
      NextIsArmed(b, context, times, now, id, if slot.kind == START then times.0 else times.1);
    }
  }

  lemma RestartedIsScheduled(w: World, v: World, context: AccountContext, now: Clock, refused: set<nat>)
    requires Sound(w.alarm) && Modern(now) && Set(w, context) && Restarted(w.alarm, v.alarm, now, refused)
    requires v.states == w.states
    ensures
      var ids := IdsOf(w.alarm, BuildTimerKey(context));
      Scheduled(Moment(v, now.Time()), PlanAt(context, Effective(StateOf(w, context)), now))
      <==> ids.start !in refused && ids.end !in refused
  {
    var key := BuildTimerKey(context);
    RestartedIsArmed(w, v.alarm, context, now, refused, Slot(key, START));
    RestartedIsArmed(w, v.alarm, context, now, refused, Slot(key, END));
    WithinIsDark(Effective(StateOf(w, context)), context, now);
  }

  /** The restart up to the timers themselves. */
  lemma BeforeRestartSettles(w: World, env: Env)
    requires Alone(w.display, w.current) && w.current in w.states && IsAuto(w.states[w.current].mode)
    requires ValidTimes(Effective(w.states[w.current]))
    ensures
      var v := BeforeRestart(w, env);
      var p := PlanAt(w.current, Effective(w.states[w.current]), env.now);
      && (Settled(Moment(v, env.now.Time()), p) <==> GoesOn(w, p, env.now.Time(), false, false))
      && Alone(v.display, p.context) && v.states == w.states
  {
    var times := Effective(StateOf(w, w.current));
    var p := PlanAt(w.current, times, env.now);
    assert w.states[w.current := w.states[w.current]] == w.states;
    assert Touch(w, w.current) == w;
    WithinIsDark(times, w.current, env.now);
    AppliedTimesOnlyTouchSettings(w, w.current, env);
    var w1 := if StateOf(w, w.current).mode == SUNRISE_SUNSET then ApplySunriseSunsetTimes(w, w.current, env) else w;
    UpdateSettlesExactly(w1, p, false, false, env.now);
  }

  /** The clock jumps or the zone changes: at the new time a guaranteed run goes on exactly when both timers
      start again, and an override that is active by the new clock either is in force and lands, or has yet to
      begin and is dropped at once or does no harm. */
  lemma TimeChangeBeginsRun(w: World, env: Env, refused: set<nat>, b: World)
    requires Sound(w.alarm) && Modern(env.now) && Alone(w.display, w.current) && Set(w, w.current)
    requires Restarted(w.alarm, b.alarm, env.now, refused) && b == BeforeRestart(w, env).(alarm := b.alarm)
    ensures
      var p := PlanAt(w.current, Effective(StateOf(w, w.current)), env.now);
      var ids := IdsOf(w.alarm, BuildTimerKey(w.current));
      Inv(Moment(b, env.now.Time()), p)
      <==> && ids.start !in refused && ids.end !in refused
           && GoesOn(w, p, env.now.Time(), false, false)
  {
    BeforeRestartSettles(w, env);
    RestartedIsScheduled(w, b, w.current, env.now, refused);
    WithinIsDark(Effective(StateOf(w, w.current)), w.current, env.now);
  }
}

/** Whole runs of one context under a fixed schedule: seconds pass and the armed timers fire, the user
    toggles the colour, the screen goes on and off. */
module ColourRun {
  import opened Decimal
  import opened Accounts
  import opened Schedule
  import opened AlarmLedger
  import opened TemporaryWindow
  import opened TemporaryColorMode
  import opened ScreenSwitchOperator
  import opened SettingData
  import opened UiAppearance
  import opened DarkMode

  /** The context, a local midnight, and its schedule in minutes. */
  datatype Plan = Plan(context: AccountContext, zone: int, start: nat, end: nat) {
    predicate Valid() { IsValidScheduleTime(start, end) && end <= I32_MAX }

    predicate Dark(t: int) { DarkAt(start, end, zone, t) }
  }

  datatype Moment = Moment(w: World, t: int)

  datatype Event = Tick | Toggle(mode: ColorMode, granted: PutReply) | ScreenTurnsOn | ScreenTurnsOff

  /** The timer with this id runs its callback when it is due. */
  function Fire(w: World, zone: int, id: nat, t: int): World {
    if id in w.alarm.timers && w.alarm.timers[id].running && Due(w.alarm.timers[id].trigger, t * SECOND_TO_MILLI) then
      match w.alarm.timers[id].callback
      case SwitchColor(start, end, context) => TimerCallback(w, (start, end), context, ClockAt(zone, t))
      case Recalculate(_) => w
    else
      w
  }

  /** Both schedule timers of the context. */
  function FireBoth(w: World, p: Plan, t: int): World {
    var ids := IdsOf(w.alarm, BuildTimerKey(p.context));
    Fire(Fire(w, p.zone, ids.start, t), p.zone, ids.end, t)
  }

  function Next(m: Moment, p: Plan, event: Event): Moment {
    match event
    case Tick => Moment(FireBoth(m.w, p, m.t + 1), m.t + 1)
    case Toggle(mode, granted) =>
      m.(w := SetDarkMode(m.w, p.context, mode, ClockAt(p.zone, m.t), granted).0)
    case ScreenTurnsOn => m.(w := ScreenOn(m.w))
    case ScreenTurnsOff => m.(w := ScreenOff(m.w))
  }

  function After(m: Moment, p: Plan, events: seq<Event>): Moment {
    if events == [] then m else Next(After(m, p, events[..|events| - 1]), p, events[|events| - 1])
  }

  // ---------- the guarantee ----------

  function OperateFor(dark: bool): Operate { if dark then SWITCH_TO_DARK else SWITCH_TO_LIGHT }

  /** An override is recorded and its window has not run out. */
  predicate OverrideRecorded(m: Moment, p: Plan) {
    var info := InfoOf(m.w.temps.infos, p.context);
    info.temporary && info.start <= m.t < info.end
  }

  /** The colour shown is the scheduled one, or an override runs, or the scheduled colour waits for the
      screen to go off; and nothing waits while the screen is off. */
  predicate Guaranteed(m: Moment, p: Plan) {
    && (|| ShowsDark(m.w.display, p.context) == p.Dark(m.t)
        || OverrideRecorded(m, p)
        || m.w.screen.operate == OperateFor(p.Dark(m.t)))
    && (m.w.screen.operate != NONE ==> m.w.screen.on && m.w.screen.operate == OperateFor(p.Dark(m.t)))
  }

  // ---------- the invariant ----------

  /** A timer of the service that runs the schedule's callback at every `boundary` minute after t. */
  predicate Armed(a: Alarm, p: Plan, id: nat, boundary: nat, t: int) {
    && id in a.timers && a.timers[id].running
    && a.timers[id].callback == SwitchColor(p.start, p.end, p.context)
    && (a.timers[id].trigger - (p.zone + boundary * MINUTE_TO_SECOND) * SECOND_TO_MILLI) % STEP == 0
    && a.timers[id].trigger <= t * SECOND_TO_MILLI + STEP
  }

  predicate Scheduled(m: Moment, p: Plan) {
    var ids := IdsOf(m.w.alarm, BuildTimerKey(p.context));
    && p.context in m.w.states
    && IsAuto(m.w.states[p.context].mode)
    && Effective(m.w.states[p.context]) == (p.start, p.end)
    && Armed(m.w.alarm, p, ids.start, p.start, m.t)
    && Armed(m.w.alarm, p, ids.end, p.end, m.t)
  }

  /** One foreground account, showing this context, and updates accepted. */
  predicate Alone(d: Display, context: AccountContext) {
    d.accepting && |d.foregroundUsers| <= 1 && ForegroundContext(d, context.userId) == context
  }

  /** A recorded override whose end is still ahead. */
  predicate Active(info: TempInfo, t: int) { info.temporary && t < info.end }

  /** When a window ends at `end` over the colour `shown`, the schedule has that colour, or changes at that
      very second and is updated. */
  predicate Lands(p: Plan, shown: bool, end: int) { p.Dark(end) == shown || p.Dark(end - 1) != p.Dark(end) }

  /** The schedule keeps its colour strictly between two instants. */
  ghost predicate Calm(p: Plan, from: int, to: int) {
    forall u :: from < u < to ==> p.Dark(u - 1) == p.Dark(u)
  }

  /** Whatever colour of the schedule is shown from `from` to `to`, a window that ends at `end` lands over it. */
  ghost predicate AllLand(p: Plan, from: int, to: int, end: int) {
    forall u :: from <= u <= to ==> Lands(p, p.Dark(u), end)
  }

  function Max(a: int, b: int): int { if a < b then b else a }

  /** An override that has not begun, or over which an operation waits, does no harm: no callback falls into
      what is left of its window, or it lands over the colour shown. Screen-off clears the record of a base
      context alone, so in a sub-profile it has to land over the colours shown by then as well. */
  ghost predicate Bridged(p: Plan, shown: bool, t: int, info: TempInfo) {
    var from := Max(t, info.start);
    || Calm(p, from, info.end)
    || (Lands(p, shown, info.end) && (p.context.IsSubProfile() ==> AllLand(p, t, from, info.end)))
  }

  /** An override in its window lands; one that has not begun, or waits for the screen, does no harm; without
      one the colour shown is the scheduled one or about to be. */
  ghost predicate Settled(m: Moment, p: Plan) {
    var info := InfoOf(m.w.temps.infos, p.context);
    var shown := ShowsDark(m.w.display, p.context);
    && (m.w.screen.operate != NONE ==>
          && m.w.screen.on && m.w.screen.userId == p.context.userId
          && m.w.screen.operate == OperateFor(p.Dark(m.t)))
    && (if Active(info, m.t) && info.start <= m.t && m.w.screen.operate == NONE then
          Lands(p, shown, info.end)
        else
          && (shown == p.Dark(m.t) || m.w.screen.operate == OperateFor(p.Dark(m.t)))
          && (Active(info, m.t) ==> Bridged(p, shown, m.t, info)))
  }

  ghost predicate Inv(m: Moment, p: Plan) {
    p.Valid() && Scheduled(m, p) && Alone(m.w.display, p.context) && Settled(m, p)
  }

  lemma InvariantImpliesGuarantee(m: Moment, p: Plan)
    requires Inv(m, p)
    ensures Guaranteed(m, p)
  {
  }

  lemma {:induction false} CalmIsConstant(p: Plan, from: int, to: int, u: int)
    requires Calm(p, from, to) && from <= u < to
    ensures p.Dark(u) == p.Dark(from)
    decreases u - from
  {
    if from < u {
      CalmIsConstant(p, from, to, u - 1);
    }
  }

  /** Over the colour of a calm window it lands. */
  lemma CalmLands(p: Plan, from: int, end: int)
    requires Calm(p, from, end) && from < end
    ensures Lands(p, p.Dark(from), end)
  {
    CalmIsConstant(p, from, end, end - 1);
  }

  /** A second later, before the window or without a change of colour. */
  lemma BridgedLater(p: Plan, shown: bool, t: int, info: TempInfo)
    requires Bridged(p, shown, t, info) && (t < info.start || p.Dark(t) == p.Dark(t + 1))
    ensures Bridged(p, shown, t + 1, info)
  {
    var from, later := Max(t, info.start), Max(t + 1, info.start);
    if Calm(p, from, info.end) {
      assert Calm(p, later, info.end);
    } else if p.context.IsSubProfile() {
      forall u | t + 1 <= u <= later
        ensures Lands(p, p.Dark(u), info.end)
      {
        assert u <= from || p.Dark(u) == p.Dark(t);
      }
    }
  }

  /** When the window of a bridged override is entered with the scheduled colour shown, or a change of colour
      falls into it, it lands over the colour shown. */
  lemma BridgedLands(p: Plan, shown: bool, t: int, info: TempInfo)
    requires Bridged(p, shown, t, info) && t + 1 < info.end
    requires || (shown == p.Dark(t + 1) && t + 1 == info.start)
             || (info.start <= t && p.Dark(t) != p.Dark(t + 1))
    ensures Lands(p, shown, info.end)
  {
    if t < info.start {
      if Calm(p, info.start, info.end) {
        CalmLands(p, info.start, info.end);
      }
    } else {
      assert !Calm(p, t, info.end) by {
        assert p.Dark(t + 1 - 1) != p.Dark(t + 1);
      }
    }
  }

  // ---------- a second passes ----------

  lemma DarkSecondChanges(start: nat, end: nat, s: SecondOfDay)
    requires IsValidScheduleTime(start, end)
    ensures DarkSecond(start, end, if s > 0 then s - 1 else DAY_TO_SECOND - 1) != DarkSecond(start, end, s)
            <==> s == start * MINUTE_TO_SECOND || s == (end * MINUTE_TO_SECOND) % DAY_TO_SECOND
  {
    ValidScheduleBounds(start, end);
    var e := end * MINUTE_TO_SECOND;
    assert e % DAY_TO_SECOND == if e < DAY_TO_SECOND then e else e - DAY_TO_SECOND;
  }

  /** The schedule changes colour exactly at its two minutes. */
  lemma ChangesAtBoundaries(p: Plan, t: int)
    requires p.Valid()
    ensures p.Dark(t - 1) != p.Dark(t)
            <==> || Phase(p.zone, t) == p.start * MINUTE_TO_SECOND
                 || Phase(p.zone, t) == (p.end * MINUTE_TO_SECOND) % DAY_TO_SECOND
  {
    var s := Phase(p.zone, t);
    var day := (t - p.zone) / DAY_TO_SECOND;
    if s > 0 {
      PhaseOf(p.zone, t - 1, day, s - 1);
    } else {
      PhaseOf(p.zone, t - 1, day - 1, DAY_TO_SECOND - 1);
    }
    DarkInSeconds(p.start, p.end, p.zone, t);
    DarkInSeconds(p.start, p.end, p.zone, t - 1);
    DarkSecondChanges(p.start, p.end, s);
  }

  lemma BoundariesDiffer(p: Plan)
    requires p.Valid()
    ensures p.start * MINUTE_TO_SECOND != (p.end * MINUTE_TO_SECOND) % DAY_TO_SECOND
    ensures (p.start * MINUTE_TO_SECOND) % DAY_TO_SECOND == p.start * MINUTE_TO_SECOND
    ensures ((p.end * MINUTE_TO_SECOND) % DAY_TO_SECOND) % 60 == 0
  {
    ValidScheduleBounds(p.start, p.end);
  }

  /** On a whole minute the callback computes the scheduled colour. */
  lemma CallbackSeesTheSchedule(p: Plan, t: int)
    requires p.Valid() && Phase(p.zone, t) % 60 == 0
    ensures CheckCurrentTimeInDarkInterval(p.start, p.end, Phase(p.zone, t)) == p.Dark(t)
  {
    ValidScheduleBounds(p.start, p.end);
    CallbackCheckDisagreesExactly(p.start, p.end, Phase(p.zone, t));
  }

  lemma OneTimer(w: World, p: Plan, id: nat, boundary: nat, t: int)
    requires p.Valid() && Scheduled(Moment(w, t), p) && Armed(w.alarm, p, id, boundary, t)
    requires boundary == p.start || boundary == p.end
    ensures Fire(w, p.zone, id, t + 1)
            == if Phase(p.zone, t + 1) == (boundary * MINUTE_TO_SECOND) % DAY_TO_SECOND then
                 UpdateDarkModeSchedule(w, p.Dark(t + 1), p.context, false, false, ClockAt(p.zone, t + 1))
               else w
  {
    DueAtBoundary(p.zone, boundary, w.alarm.timers[id].trigger, t + 1);
    BoundariesDiffer(p);
    if Phase(p.zone, t + 1) == (boundary * MINUTE_TO_SECOND) % DAY_TO_SECOND {
      CallbackSeesTheSchedule(p, t + 1);
      assert w.states[p.context := w.states[p.context]] == w.states;
      assert Touch(w, p.context) == w;
    }
  }

  /** The state a second later when the schedule is updated exactly at its changes. */
  function Updated(m: Moment, p: Plan): World {
    if p.Dark(m.t) != p.Dark(m.t + 1) then
      UpdateDarkModeSchedule(m.w, p.Dark(m.t + 1), p.context, false, false, ClockAt(p.zone, m.t + 1))
    else m.w
  }

  /** The armed timers bring exactly one schedule update at each change of colour and none between. */
  lemma TimersFireAtChanges(m: Moment, p: Plan)
    requires p.Valid() && Scheduled(m, p)
    ensures FireBoth(m.w, p, m.t + 1) == Updated(m, p)
  {
    var ids := IdsOf(m.w.alarm, BuildTimerKey(p.context));
    var first := Fire(m.w, p.zone, ids.start, m.t + 1);
    ChangesAtBoundaries(p, m.t + 1);
    BoundariesDiffer(p);
    OneTimer(m.w, p, ids.start, p.start, m.t);
    UpdateKeepsSchedule(m.w, p.Dark(m.t + 1), p.context, ClockAt(p.zone, m.t + 1));
    ScheduledStill(m.w, first, p, m.t);
    OneTimer(first, p, ids.end, p.end, m.t);
  }

  lemma UpdateKeepsSchedule(w: World, dark: bool, context: AccountContext, now: Clock)
    ensures
      var v := UpdateDarkModeSchedule(w, dark, context, false, false, now);
      v.alarm == w.alarm && v.states == w.states
  {
  }

  lemma ScheduledStill(w: World, v: World, p: Plan, t: int)
    requires Scheduled(Moment(w, t), p) && v.alarm == w.alarm && v.states == w.states
    ensures Scheduled(Moment(v, t), p)
  {
  }

  lemma ClockTells(zone: int, t: int)
    ensures ClockAt(zone, t).Time() == t && Phase(zone, ClockAt(zone, t).midnight) == 0
  {
    assert t - Phase(zone, t) - zone == ((t - zone) / DAY_TO_SECOND) * DAY_TO_SECOND;
  }

  /** The effect of a schedule update on the colour, the override and the pending operation. */
  lemma UpdateEffect(w: World, p: Plan, dark: bool, now: Clock)
    requires Alone(w.display, p.context)
    ensures
      var w' := UpdateDarkModeSchedule(w, dark, p.context, false, false, now);
      var overridden := CheckTemporaryStateEffective(w.temps, p.context, now);
      && Alone(w'.display, p.context) && w'.alarm == w.alarm && w'.states == w.states
      && w'.screen.on == w.screen.on
      && (overridden || w.screen.on ==>
            && ShowsDark(w'.display, p.context) == ShowsDark(w.display, p.context)
            && InfoOf(w'.temps.infos, p.context) == InfoOf(w.temps.infos, p.context))
      && (overridden ==> w'.screen.operate == NONE)
      && (!overridden && w.screen.on ==>
            w'.screen.operate == OperateFor(dark) && w'.screen.userId == p.context.userId)
      && (!overridden && !w.screen.on ==>
            && w'.screen.operate == NONE && ShowsDark(w'.display, p.context) == dark
            && !InfoOf(w'.temps.infos, p.context).temporary)
  {
  }

  lemma ScheduledLater(m: Moment, p: Plan, w: World)
    requires Scheduled(m, p) && w.alarm == m.w.alarm && w.states == m.w.states
    ensures Scheduled(Moment(w, m.t + 1), p)
  {
  }

  lemma QuietSecond(m: Moment, p: Plan)
    requires Inv(m, p) && p.Dark(m.t) == p.Dark(m.t + 1)
    ensures Settled(Moment(m.w, m.t + 1), p)
  {
    var info := InfoOf(m.w.temps.infos, p.context);
    var shown := ShowsDark(m.w.display, p.context);
    if Active(info, m.t + 1) && !(info.start <= m.t && m.w.screen.operate == NONE) {
      BridgedLater(p, shown, m.t, info);
      if m.t + 1 == info.start && m.w.screen.operate == NONE {
        BridgedLands(p, shown, m.t, info);
      }
    }
  }

  lemma ChangingSecond(m: Moment, p: Plan)
    requires Inv(m, p) && p.Dark(m.t) != p.Dark(m.t + 1)
    ensures
      var w' := UpdateDarkModeSchedule(m.w, p.Dark(m.t + 1), p.context, false, false, ClockAt(p.zone, m.t + 1));
      Settled(Moment(w', m.t + 1), p) && Alone(w'.display, p.context)
  {
    var info := InfoOf(m.w.temps.infos, p.context);
    var shown := ShowsDark(m.w.display, p.context);
    ClockTells(p.zone, m.t + 1);
    UpdateEffect(m.w, p, p.Dark(m.t + 1), ClockAt(p.zone, m.t + 1));
    if Active(info, m.t + 1) && !(info.start <= m.t && m.w.screen.operate == NONE) {
      if m.t < info.start {
        BridgedLater(p, shown, m.t, info);
      } else {
        BridgedLands(p, shown, m.t, info);
      }
    }
  }

  lemma ChangedKeepsInv(m: Moment, p: Plan, w: World)
    requires Inv(m, p) && p.Dark(m.t) != p.Dark(m.t + 1)
    requires w == UpdateDarkModeSchedule(
                    m.w, p.Dark(m.t + 1), p.context, false, false, ClockAt(p.zone, m.t + 1))
    ensures Inv(Moment(w, m.t + 1), p)
  {
    UpdateKeepsSchedule(m.w, p.Dark(m.t + 1), p.context, ClockAt(p.zone, m.t + 1));
    ScheduledLater(m, p, w);
    ChangingSecond(m, p);
  }

  lemma UpdatedKeepsInv(m: Moment, p: Plan)
    requires Inv(m, p)
    ensures Inv(Moment(Updated(m, p), m.t + 1), p)
  {
    if p.Dark(m.t) == p.Dark(m.t + 1) {
      QuietSecond(m, p);
      ScheduledLater(m, p, m.w);
    } else {
      ChangedKeepsInv(m, p, Updated(m, p));
    }
  }

  lemma TickUpdates(m: Moment, p: Plan)
    requires p.Valid() && Scheduled(m, p)
    ensures Next(m, p, Tick) == Moment(Updated(m, p), m.t + 1)
  {
    TimersFireAtChanges(m, p);
  }

  lemma TickKeepsInv(m: Moment, p: Plan)
    requires Inv(m, p)
    ensures Inv(Next(m, p, Tick), p)
  {
    UpdatedKeepsInv(m, p);
    TickUpdates(m, p);
  }

  /** At a change of colour inside the window the override is still in force; at its last one it is not. */
  lemma OverrideAtChange(p: Plan, t: int, info: TempInfo, shown: bool)
    requires p.Valid() && p.Dark(t) != p.Dark(t + 1)
    requires info.start <= t <= info.end && FirstLeaving(p.start, p.end, p.zone, shown, t, info.end + 1)
    ensures InWindow(info.start, info.end, t + 1) <==> t != info.end
  {
    ChangesOnWholeMinutes(p.start, p.end, p.zone, t + 1);
    ChangesOnWholeMinutes(p.start, p.end, p.zone, info.end + 1);
    NoTwoInARow(p.zone, info.end);
  }

  /** In the second it is made an override is not yet in force: an update in that very second shows the scheduled
      colour over it, and with the screen off erases it. In the next second it is, until the second before its end. */
  lemma PickSecondIsOpen(w: World, p: Plan, dark: bool, now: Clock)
    requires Alone(w.display, p.context) && IsColorModeTemporary(w.temps, p.context)
    ensures
      var info := InfoOf(w.temps.infos, p.context);
      var v := UpdateDarkModeSchedule(w, dark, p.context, false, false, now);
      && (now.Time() <= info.start || info.end <= now.Time() ==>
            if w.screen.on then v.screen.operate == OperateFor(dark)
            else ShowsDark(v.display, p.context) == dark && !IsColorModeTemporary(v.temps, p.context))
      && (info.start < now.Time() < info.end ==>
            && ShowsDark(v.display, p.context) == ShowsDark(w.display, p.context)
            && InfoOf(v.temps.infos, p.context) == info && v.screen.operate == NONE)
  {
    UpdateEffect(w, p, dark, now);
  }

  // ---------- the user and the screen ----------

  /** The user leaves the scheduled colour in the start minute of a schedule that crosses midnight. */
  predicate Excluded(m: Moment, p: Plan, event: Event) {
    && event.Toggle? && event.mode != OTHER
    && StartMinuteOfCrossing(p.start, p.end, ClockAt(p.zone, m.t))
    && (event.mode == DARK) != p.Dark(m.t)
    && (event.mode == DARK) != ShowsDark(m.w.display, p.context)
  }

  /** The effect of a toggle to the other colour. */
  lemma ToggleEffect(m: Moment, p: Plan, mode: ColorMode, granted: PutReply)
    requires p.Valid() && Scheduled(m, p) && Alone(m.w.display, p.context)
    requires mode != OTHER && (mode == DARK) != ShowsDark(m.w.display, p.context)
    ensures
      var w' := Next(m, p, Toggle(mode, granted)).w;
      var window := GetTempColorModeTimeInfo(p.start, p.end, ClockAt(p.zone, m.t));
      && w'.alarm == m.w.alarm && w'.states == m.w.states && Alone(w'.display, p.context)
      && w'.screen.operate == NONE && w'.screen.on == m.w.screen.on
      && ShowsDark(w'.display, p.context) == (mode == DARK)
      && InfoOf(w'.temps.infos, p.context)
         == if (mode == DARK) == p.Dark(m.t) then NORMAL else TempInfo(true, window.0, window.1)
  {
    var w0 := WithLook(m.w, PersistColor(LookOf(m.w), mode == DARK));
    ConfigureEffect(w0, p, mode == DARK, m.t, granted);
  }

  /** In an automatic mode the choice does not touch the settings. */
  lemma NotifyEffect(w: World, p: Plan, t: int, dark: bool, granted: PutReply)
    requires Scheduled(Moment(w, t), p)
    ensures NotifyDarkModeUpdate(w, p.context, dark, granted) == w
  {
    assert w.states[p.context := w.states[p.context]] == w.states;
    assert Touch(w, p.context) == w;
  }

  lemma ConfigureEffect(w: World, p: Plan, dark: bool, t: int, granted: PutReply)
    requires p.Valid() && Scheduled(Moment(w, t), p)
    ensures
      var switched := DoSwitchTemporaryColorMode(w, p.context, dark, ClockAt(p.zone, t));
      ConfigurePersistence(w, p.context, dark, ClockAt(p.zone, t), granted).0
      == WithLook(switched, Show(LookOf(switched), dark, p.context))
    ensures
      var w' := ConfigurePersistence(w, p.context, dark, ClockAt(p.zone, t), granted).0;
      var window := GetTempColorModeTimeInfo(p.start, p.end, ClockAt(p.zone, t));
      && w'.alarm == w.alarm && w'.states == w.states && w'.display == Remember(w.display, dark, p.context)
      && w'.screen == w.screen.(operate := NONE, userId := USER100)
      && InfoOf(w'.temps.infos, p.context)
         == if dark == p.Dark(t) then NORMAL else TempInfo(true, window.0, window.1)
  {
    var switched := DoSwitchTemporaryColorMode(w, p.context, dark, ClockAt(p.zone, t));
    SwitchEffect(w, p, dark, t);
    NotifyEffect(WithLook(switched, Show(LookOf(switched), dark, p.context)), p, t, dark, granted);
  }

  lemma SwitchEffect(w: World, p: Plan, dark: bool, t: int)
    requires p.Valid() && Scheduled(Moment(w, t), p)
    ensures
      var w' := DoSwitchTemporaryColorMode(w, p.context, dark, ClockAt(p.zone, t));
      var window := GetTempColorModeTimeInfo(p.start, p.end, ClockAt(p.zone, t));
      && w'.alarm == w.alarm && w'.states == w.states && w'.display == w.display
      && w'.screen == w.screen.(operate := NONE, userId := USER100)
      && InfoOf(w'.temps.infos, p.context)
         == if dark == p.Dark(t) then NORMAL else TempInfo(true, window.0, window.1)
  {
    NoWrapInRange(p.start);
    NoWrapInRange(p.end);
    assert w.states[p.context := w.states[p.context]] == w.states;
  }

  /** A toggle keeps the guarantee exactly when it is not an excluded one, and then keeps the invariant. */
  lemma ToggleKeepsExactly(m: Moment, p: Plan, mode: ColorMode, granted: PutReply)
    requires Inv(m, p)
    ensures
      var m' := Next(m, p, Toggle(mode, granted));
      && (Guaranteed(m', p) <==> !Excluded(m, p, Toggle(mode, granted)))
      && (Inv(m', p) <==> !Excluded(m, p, Toggle(mode, granted)))
  {
    var m' := Next(m, p, Toggle(mode, granted));
    if mode == OTHER || (mode == DARK) == ShowsDark(m.w.display, p.context) {
      assert m' == m;
      InvariantImpliesGuarantee(m, p);
    } else {
      ToggleEffect(m, p, mode, granted);
      ScheduledStill(m.w, m'.w, p, m.t);
      OverrideHoldsExactly(m', p, mode == DARK);
    }
  }

  /** Right after the user chose a colour: the guarantee and the invariant hold unless the recorded
      window has already ended. */
  lemma OverrideHoldsExactly(m: Moment, p: Plan, dark: bool)
    requires p.Valid() && Scheduled(m, p) && Alone(m.w.display, p.context)
    requires m.w.screen.operate == NONE && ShowsDark(m.w.display, p.context) == dark
    requires
      var window := GetTempColorModeTimeInfo(p.start, p.end, ClockAt(p.zone, m.t));
      InfoOf(m.w.temps.infos, p.context) == if dark == p.Dark(m.t) then NORMAL else TempInfo(true, window.0, window.1)
    ensures Guaranteed(m, p) <==> dark == p.Dark(m.t) || !StartMinuteOfCrossing(p.start, p.end, ClockAt(p.zone, m.t))
    ensures Inv(m, p) <==> dark == p.Dark(m.t) || !StartMinuteOfCrossing(p.start, p.end, ClockAt(p.zone, m.t))
  {
    var window := GetTempColorModeTimeInfo(p.start, p.end, ClockAt(p.zone, m.t));
    ClockTells(p.zone, m.t);
    WindowEndsWhereScheduleLeaves(p.start, p.end, p.zone, ClockAt(p.zone, m.t));
    if dark != p.Dark(m.t) && !StartMinuteOfCrossing(p.start, p.end, ClockAt(p.zone, m.t)) {
      assert LeavesAt(p.start, p.end, p.zone, dark, window.1 + 1);
    }
  }

  lemma ScreenKeepsInv(m: Moment, p: Plan, on: bool)
    requires Inv(m, p)
    ensures Inv(Next(m, p, if on then ScreenTurnsOn else ScreenTurnsOff), p)
  {
    if on {
      ScheduledStill(m.w, ScreenOn(m.w), p, m.t);
    } else {
      ScreenOffEffect(m.w, p);
      ScheduledStill(m.w, ScreenOff(m.w), p, m.t);
      ScreenOffSettles(m, p);
    }
  }

  /** In a sub-profile the record outlives the operation carried out over it. */
  lemma ScreenOffSettles(m: Moment, p: Plan)
    requires Inv(m, p)
    ensures Settled(Moment(ScreenOff(m.w), m.t), p)
  {
    var info := InfoOf(m.w.temps.infos, p.context);
    ScreenOffEffect(m.w, p);
    if m.w.screen.operate != NONE && Active(info, m.t) && p.context.IsSubProfile() {
      BridgedOverSchedule(p, ShowsDark(m.w.display, p.context), m.t, info);
    }
  }

  lemma BridgedOverSchedule(p: Plan, shown: bool, t: int, info: TempInfo)
    requires Bridged(p, shown, t, info) && p.context.IsSubProfile() && t < info.end
    ensures Bridged(p, p.Dark(t), t, info)
    ensures info.start <= t ==> Lands(p, p.Dark(t), info.end)
  {
    if Calm(p, Max(t, info.start), info.end) {
      if info.start <= t {
        CalmLands(p, t, info.end);
      }
    } else {
      assert Lands(p, p.Dark(t), info.end);
    }
  }

  lemma ScreenOffEffect(w: World, p: Plan)
    requires Alone(w.display, p.context) && (w.screen.operate != NONE ==> w.screen.userId == p.context.userId)
    ensures
      var w' := ScreenOff(w);
      && w'.alarm == w.alarm && w'.states == w.states && Alone(w'.display, p.context)
      && w'.screen.operate == NONE && !w'.screen.on
      && ShowsDark(w'.display, p.context)
         == (if w.screen.operate == NONE then ShowsDark(w.display, p.context) else w.screen.operate == SWITCH_TO_DARK)
      && (w.screen.operate == NONE ==> w'.temps == w.temps)
      && InfoOf(w'.temps.infos, p.context)
         == (if w.screen.operate != NONE && !p.context.IsSubProfile() && InfoOf(w.temps.infos, p.context).temporary
             then NORMAL else InfoOf(w.temps.infos, p.context))
  {
  }

  // ---------- runs ----------

  ghost predicate NeverExcluded(m: Moment, p: Plan, events: seq<Event>) {
    forall i :: 0 <= i < |events| ==> !Excluded(After(m, p, events[..i]), p, events[i])
  }

  lemma EventKeepsInv(m: Moment, p: Plan, event: Event)
    requires Inv(m, p) && !Excluded(m, p, event)
    ensures Inv(Next(m, p, event), p)
  {
    match event
    case Tick => TickKeepsInv(m, p);
    case Toggle(mode, granted) => ToggleKeepsExactly(m, p, mode, granted);
    case ScreenTurnsOn => ScreenKeepsInv(m, p, true);
    case ScreenTurnsOff => ScreenKeepsInv(m, p, false);
  }

  /** Over every run without an excluded toggle, the colour shown is the scheduled one, or an unexpired
      override is recorded, or exactly the scheduled colour waits for the screen to go off. */
  lemma {:induction false} EveryRunIsGuaranteed(m: Moment, p: Plan, events: seq<Event>)
    requires Inv(m, p) && NeverExcluded(m, p, events)
    ensures Inv(After(m, p, events), p) && Guaranteed(After(m, p, events), p)
  {
    if events == [] {
      InvariantImpliesGuarantee(m, p);
    } else {
      var n := |events| - 1;
      assert forall i :: 0 <= i <= n ==> events[..n][..i] == events[..i];
      EveryRunIsGuaranteed(m, p, events[..n]);
      EventKeepsInv(After(m, p, events[..n]), p, events[n]);
      InvariantImpliesGuarantee(After(m, p, events), p);
    }
  }

  // ---------- the invariant is exact ----------

  /** n seconds in which nothing happens but time and the timers. */
  function Ticks(n: nat): (events: seq<Event>)
    ensures |events| == n
  {
    if n == 0 then [] else Ticks(n - 1) + [Tick]
  }

  /** The moment n seconds later, by the schedule updates alone. */
  function Wait(m: Moment, p: Plan, n: nat): (later: Moment)
    ensures later.t == m.t + n
  {
    if n == 0 then m
    else
      var before := Wait(m, p, n - 1);
      Moment(Updated(before, p), before.t + 1)
  }

  lemma OneMoreTick(m: Moment, p: Plan, n: nat)
    requires p.Valid() && Scheduled(After(m, p, Ticks(n)), p)
    ensures
      var before := After(m, p, Ticks(n));
      After(m, p, Ticks(n + 1)) == Moment(Updated(before, p), before.t + 1)
  {
    assert Ticks(n + 1)[..n] == Ticks(n);
    TickUpdates(After(m, p, Ticks(n)), p);
  }

  lemma {:induction false} WaitIsScheduled(m: Moment, p: Plan, n: nat)
    requires p.Valid() && Scheduled(m, p)
    ensures Scheduled(Wait(m, p, n), p)
  {
    if n > 0 {
      var before := Wait(m, p, n - 1);
      WaitIsScheduled(m, p, n - 1);
      UpdateKeepsSchedule(before.w, p.Dark(before.t + 1), p.context, ClockAt(p.zone, before.t + 1));
      ScheduledLater(before, p, Updated(before, p));
    }
  }

  /** Waiting is the run of that many ticks. */
  lemma {:induction false} WaitIsTicks(m: Moment, p: Plan, n: nat)
    requires p.Valid() && Scheduled(m, p)
    ensures After(m, p, Ticks(n)) == Wait(m, p, n)
  {
    if n > 0 {
      WaitIsTicks(m, p, n - 1);
      WaitIsScheduled(m, p, n - 1);
      OneMoreTick(m, p, n - 1);
    }
  }

  /** The same but for the user of an operation that is not pending. */
  predicate SameSight(w: World, v: World) {
    && v.display == w.display && v.temps == w.temps
    && v.screen.operate == w.screen.operate && v.screen.on == w.screen.on
  }

  lemma UpdateLeavesOverride(w: World, p: Plan, dark: bool, now: Clock)
    requires CheckTemporaryStateEffective(w.temps, p.context, now) && w.screen.operate == NONE
    ensures SameSight(w, UpdateDarkModeSchedule(w, dark, p.context, false, false, now))
  {
  }

  /** An override is left alone until the second before its end. */
  lemma {:induction false} OverrideStands(m: Moment, p: Plan, n: nat)
    requires m.w.screen.operate == NONE
    requires
      var info := InfoOf(m.w.temps.infos, p.context);
      info.temporary && info.start <= m.t && m.t + n < info.end
    ensures SameSight(m.w, Wait(m, p, n).w)
  {
    if n > 0 {
      var before := Wait(m, p, n - 1);
      OverrideStands(m, p, n - 1);
      ClockTells(p.zone, before.t + 1);
      UpdateLeavesOverride(before.w, p, p.Dark(before.t + 1), ClockAt(p.zone, before.t + 1));
    }
  }

  /** The colour shown is wrong from t on for n more seconds. */
  ghost predicate WrongFor(m: Moment, p: Plan, t: int, n: nat) {
    forall u :: t <= u <= t + n ==> p.Dark(u) != ShowsDark(m.w.display, p.context)
  }

  /** A wrong colour with nothing recorded or pending stays until the schedule next changes. */
  lemma {:induction false} WrongColourStays(m: Moment, p: Plan, n: nat)
    requires !Active(InfoOf(m.w.temps.infos, p.context), m.t) && m.w.screen.operate == NONE
    requires WrongFor(m, p, m.t, n)
    ensures Wait(m, p, n).w == m.w && !Guaranteed(Wait(m, p, n), p)
  {
    assert p.Dark(m.t + n) != ShowsDark(m.w.display, p.context);
    if n > 0 {
      WrongColourStays(m, p, n - 1);
      assert p.Dark(m.t + n - 1) != ShowsDark(m.w.display, p.context);
    }
  }

  lemma {:induction false} WaitsAdd(m: Moment, p: Plan, k: nat, n: nat)
    ensures Wait(Wait(m, p, k), p, n) == Wait(m, p, k + n)
  {
    if n > 0 {
      WaitsAdd(m, p, k, n - 1);
    }
  }

  /** The moment a window ends over a colour the schedule has left before. */
  lemma AtTheEnd(m: Moment, p: Plan)
    requires m.w.screen.operate == NONE
    requires
      var info := InfoOf(m.w.temps.infos, p.context);
      && Active(info, m.t) && info.start <= m.t && p.Dark(info.end - 1) == p.Dark(info.end)
    ensures
      var info := InfoOf(m.w.temps.infos, p.context);
      var at := Wait(m, p, info.end - m.t);
      SameSight(m.w, at.w)
  {
    var info := InfoOf(m.w.temps.infos, p.context);
    OverrideStands(m, p, info.end - m.t - 1);
  }

  /** An override that does not land: from its end until the schedule next changes the guarantee is lost. */
  lemma LostFromTheEnd(m: Moment, p: Plan, n: nat)
    requires m.w.screen.operate == NONE
    requires
      var info := InfoOf(m.w.temps.infos, p.context);
      && Active(info, m.t) && info.start <= m.t && info.end <= m.t + n
      && WrongFor(m, p, info.end - 1, m.t + n - info.end + 1)
    ensures !Guaranteed(Wait(m, p, n), p)
  {
    var end := InfoOf(m.w.temps.infos, p.context).end;
    assert p.Dark(end - 1) != ShowsDark(m.w.display, p.context);
    assert p.Dark(end) != ShowsDark(m.w.display, p.context);
    AtTheEnd(m, p);
    LostOnceEnded(m, p, Wait(m, p, end - m.t), m.t + n - end);
    WaitsAdd(m, p, end - m.t, m.t + n - end);
  }

  lemma LostOnceEnded(m: Moment, p: Plan, ended: Moment, n: nat)
    requires SameSight(m.w, ended.w) && ended.t == InfoOf(m.w.temps.infos, p.context).end
    requires m.w.screen.operate == NONE && WrongFor(m, p, ended.t, n)
    ensures !Guaranteed(Wait(ended, p, n), p)
  {
    WrongColourStays(ended, p, n);
  }

  lemma NoLandingIsLost(m: Moment, p: Plan)
    requires m.w.screen.operate == NONE
    requires
      var info := InfoOf(m.w.temps.infos, p.context);
      Active(info, m.t) && info.start <= m.t && !Lands(p, ShowsDark(m.w.display, p.context), info.end)
    ensures !Guaranteed(Wait(m, p, InfoOf(m.w.temps.infos, p.context).end - m.t), p)
  {
    var info := InfoOf(m.w.temps.infos, p.context);
    WrongForTwo(m, p, info.end - 1);
    LostFromTheEnd(m, p, info.end - m.t);
  }

  lemma WrongForTwo(m: Moment, p: Plan, t: int)
    requires p.Dark(t + 1) != ShowsDark(m.w.display, p.context) && p.Dark(t) == p.Dark(t + 1)
    ensures WrongFor(m, p, t, 1)
  {
    forall u | t <= u <= t + 1
      ensures p.Dark(u) != ShowsDark(m.w.display, p.context)
    {
      assert u == t || u == t + 1;
    }
  }

  // ---------- a pick is kept ----------

  predicate NoToggle(events: seq<Event>) { forall i :: 0 <= i < |events| ==> !events[i].Toggle? }

  function Seconds(events: seq<Event>): nat {
    if events == [] then 0
    else Seconds(events[..|events| - 1]) + (if events[|events| - 1] == Tick then 1 else 0)
  }

  lemma PickStaysOneEvent(m: Moment, p: Plan, event: Event)
    requires p.Valid() && Scheduled(m, p) && Alone(m.w.display, p.context) && !event.Toggle?
    requires m.w.screen.operate == NONE
    requires
      var info := InfoOf(m.w.temps.infos, p.context);
      info.temporary && info.start <= m.t && (event == Tick ==> m.t + 1 < info.end)
    ensures
      var n := Next(m, p, event);
      && Scheduled(n, p) && n.w.display == m.w.display && n.w.temps == m.w.temps && n.w.screen.operate == NONE
      && n.t == m.t + (if event == Tick then 1 else 0)
  {
    match event
    case Tick =>
      TickUpdates(m, p);
      OverrideStands(m, p, 1);
      WaitIsScheduled(m, p, 1);
      assert Wait(m, p, 0) == m;
      assert Wait(m, p, 1) == Moment(Updated(m, p), m.t + 1);
    case ScreenTurnsOn => ScheduledStill(m.w, ScreenOn(m.w), p, m.t);
    case ScreenTurnsOff => ScheduledStill(m.w, ScreenOff(m.w), p, m.t);
  }

  lemma {:induction false} PickStays(m: Moment, p: Plan, events: seq<Event>)
    requires p.Valid() && Scheduled(m, p) && Alone(m.w.display, p.context) && NoToggle(events)
    requires m.w.screen.operate == NONE
    requires
      var info := InfoOf(m.w.temps.infos, p.context);
      info.temporary && info.start <= m.t && m.t + Seconds(events) < info.end
    ensures
      var n := After(m, p, events);
      && Scheduled(n, p) && n.w.display == m.w.display && n.w.temps == m.w.temps && n.w.screen.operate == NONE
      && n.t == m.t + Seconds(events)
  {
    if events != [] {
      var n := |events| - 1;
      PickStays(m, p, events[..n]);
      PickStaysOneEvent(After(m, p, events[..n]), p, events[n]);
    }
  }

  lemma WindowOfPick(p: Plan, t: int, dark: bool, from: int, to: int)
    requires p.Valid() && dark != p.Dark(t) && !StartMinuteOfCrossing(p.start, p.end, ClockAt(p.zone, t))
    requires (from, to) == GetTempColorModeTimeInfo(p.start, p.end, ClockAt(p.zone, t))
    ensures from == t && FirstLeaving(p.start, p.end, p.zone, dark, t, to + 1)
  {
    ClockTells(p.zone, t);
    WindowEndsWhereScheduleLeaves(p.start, p.end, p.zone, ClockAt(p.zone, t));
  }

  lemma PickedIsOnRecord(
    m: Moment, p: Plan, mode: ColorMode, granted: PutReply, picked: Moment, from: int, to: int)
    requires Inv(m, p) && mode != OTHER && (mode == DARK) != ShowsDark(m.w.display, p.context)
    requires (mode == DARK) != p.Dark(m.t) && picked == Next(m, p, Toggle(mode, granted))
    requires (from, to) == GetTempColorModeTimeInfo(p.start, p.end, ClockAt(p.zone, m.t))
    ensures
      && picked.t == m.t && Scheduled(picked, p) && Alone(picked.w.display, p.context)
      && picked.w.screen.operate == NONE && ShowsDark(picked.w.display, p.context) == (mode == DARK)
      && InfoOf(picked.w.temps.infos, p.context) == TempInfo(true, from, to)
  {
    ToggleEffect(m, p, mode, granted);
    ScheduledStill(m.w, picked.w, p, m.t);
  }

  lemma PickIsKept(m: Moment, p: Plan, dark: bool, events: seq<Event>, from: int, to: int)
    requires p.Valid() && Scheduled(m, p) && Alone(m.w.display, p.context) && m.w.screen.operate == NONE
    requires ShowsDark(m.w.display, p.context) == dark && NoToggle(events)
    requires InfoOf(m.w.temps.infos, p.context) == TempInfo(true, from, to)
    requires from == m.t && m.t + Seconds(events) < to
    ensures
      var n := After(m, p, events);
      ShowsDark(n.w.display, p.context) == dark && InfoOf(n.w.temps.infos, p.context) == TempInfo(true, from, to)
  {
    PickStays(m, p, events);
  }

  /** The user's pick of the colour that is not scheduled is shown, and on record, until the schedule next leaves that
      colour, whatever the screen does and whatever was waiting for it when the user picked. */
  lemma EveryPickIsKept(
    m: Moment, p: Plan, mode: ColorMode, granted: PutReply, events: seq<Event>, from: int, to: int)
    requires Inv(m, p) && mode != OTHER && (mode == DARK) != ShowsDark(m.w.display, p.context)
    requires (mode == DARK) != p.Dark(m.t) && !Excluded(m, p, Toggle(mode, granted)) && NoToggle(events)
    requires (from, to) == GetTempColorModeTimeInfo(p.start, p.end, ClockAt(p.zone, m.t))
    requires m.t + Seconds(events) < to
    ensures
      var n := After(Next(m, p, Toggle(mode, granted)), p, events);
      && ShowsDark(n.w.display, p.context) == (mode == DARK)
      && InfoOf(n.w.temps.infos, p.context) == TempInfo(true, from, to)
    ensures FirstLeaving(p.start, p.end, p.zone, mode == DARK, m.t, to + 1)
  {
    var picked := Next(m, p, Toggle(mode, granted));
    WindowOfPick(p, m.t, mode == DARK, from, to);
    PickedIsOnRecord(m, p, mode, granted, picked, from, to);
    PickIsKept(picked, p, mode == DARK, events, from, to);
  }

  // ---------- runs that lose the guarantee ----------

  /** Some run in which the user does nothing loses the guarantee. */
  ghost predicate Lost(m: Moment, p: Plan) {
    exists events :: NoToggle(events) && !Guaranteed(After(m, p, events), p)
  }

  lemma LostNow(m: Moment, p: Plan)
    requires !Guaranteed(m, p)
    ensures Lost(m, p)
  {
    assert NoToggle([]) && After(m, p, []) == m;
  }

  lemma {:induction false} AfterFirst(m: Moment, p: Plan, event: Event, events: seq<Event>)
    ensures After(m, p, [event] + events) == After(Next(m, p, event), p, events)
  {
    var all := [event] + events;
    if events == [] {
      assert all == [event] && [event][..0] == [];
      assert After(m, p, []) == m;
    } else {
      var n := |events| - 1;
      AfterFirst(m, p, event, events[..n]);
      assert all[..|all| - 1] == [event] + events[..n];
    }
  }

  lemma LostAfter(m: Moment, p: Plan, event: Event)
    requires !event.Toggle? && Lost(Next(m, p, event), p)
    ensures Lost(m, p)
  {
    var events :| NoToggle(events) && !Guaranteed(After(Next(m, p, event), p, events), p);
    AfterFirst(m, p, event, events);
    assert NoToggle([event] + events);
  }

  /** Timers armed, one account in the foreground, and any operation for this user. */
  predicate Ready(m: Moment, p: Plan) {
    && p.Valid() && Scheduled(m, p) && Alone(m.w.display, p.context)
    && (m.w.screen.operate != NONE ==> m.w.screen.userId == p.context.userId)
  }

  function Later(m: Moment, p: Plan): Moment { Moment(Updated(m, p), m.t + 1) }

  lemma LaterIsReady(m: Moment, p: Plan)
    requires Ready(m, p)
    ensures Ready(Later(m, p), p)
  {
    UpdateEffect(m.w, p, p.Dark(m.t + 1), ClockAt(p.zone, m.t + 1));
    ScheduledLater(m, p, Updated(m, p));
    ClockTells(p.zone, m.t + 1);
  }

  lemma LostLater(m: Moment, p: Plan)
    requires Ready(m, p) && Lost(Later(m, p), p)
    ensures Lost(m, p)
  {
    TickUpdates(m, p);
    LostAfter(m, p, Tick);
  }

  lemma {:induction false} AfterAppend(m: Moment, p: Plan, first: seq<Event>, events: seq<Event>)
    ensures After(m, p, first + events) == After(After(m, p, first), p, events)
  {
    if events == [] {
      assert first + events == first;
    } else {
      var n := |events| - 1;
      AfterAppend(m, p, first, events[..n]);
      assert (first + events)[..|first + events| - 1] == first + events[..n];
    }
  }

  lemma {:induction false} TicksAreNoToggle(n: nat)
    ensures NoToggle(Ticks(n))
  {
    if n > 0 {
      TicksAreNoToggle(n - 1);
    }
  }

  lemma LostWaiting(m: Moment, p: Plan, n: nat, at: Moment)
    requires p.Valid() && Scheduled(m, p) && at == Wait(m, p, n) && Lost(at, p)
    ensures Lost(m, p)
  {
    var events :| NoToggle(events) && !Guaranteed(After(at, p, events), p);
    WaitIsTicks(m, p, n);
    TicksAreNoToggle(n);
    AfterAppend(m, p, Ticks(n), events);
    assert NoToggle(Ticks(n) + events);
  }

  function InfoAt(m: Moment, p: Plan): TempInfo { InfoOf(m.w.temps.infos, p.context) }

  function Shown(m: Moment, p: Plan): bool { ShowsDark(m.w.display, p.context) }

  /** In its window, with nothing waiting, an override has to land. */
  lemma HasToLand(m: Moment, p: Plan)
    requires Ready(m, p) && Active(InfoAt(m, p), m.t) && InfoAt(m, p).start <= m.t && m.w.screen.operate == NONE
    requires !Lands(p, Shown(m, p), InfoAt(m, p).end)
    ensures Lost(m, p)
  {
    NoLandingIsLost(m, p);
    LostNow(Wait(m, p, InfoAt(m, p).end - m.t), p);
    LostWaiting(m, p, InfoAt(m, p).end - m.t, Wait(m, p, InfoAt(m, p).end - m.t));
  }

  /** What a second brings to a lit screen over which the override has not taken hold. */
  lemma LitSecond(m: Moment, p: Plan)
    requires Ready(m, p) && m.w.screen.on && Active(InfoAt(m, p), m.t + 1)
    ensures
      var l := Later(m, p);
      var changes := p.Dark(m.t) != p.Dark(m.t + 1);
      && l.w.screen.on && InfoAt(l, p) == InfoAt(m, p) && Shown(l, p) == Shown(m, p)
      && (!changes ==> l.w.screen.operate == m.w.screen.operate)
      && (changes ==> l.w.screen.operate == if m.t < InfoAt(m, p).start then OperateFor(p.Dark(m.t + 1)) else NONE)
  {
    ClockTells(p.zone, m.t + 1);
    UpdateEffect(m.w, p, p.Dark(m.t + 1), ClockAt(p.zone, m.t + 1));
  }

  /** A callback falls into what is left of the window. */
  predicate Ahead(m: Moment, p: Plan) { m.t < InfoAt(m, p).start || m.w.screen.operate != NONE }

  lemma {:induction false} LitHasToLand(m: Moment, p: Plan)
    requires Ready(m, p) && m.w.screen.on && Active(InfoAt(m, p), m.t) && Ahead(m, p)
    requires !Calm(p, Max(m.t, InfoAt(m, p).start), InfoAt(m, p).end) && !Lands(p, Shown(m, p), InfoAt(m, p).end)
    ensures Lost(m, p)
    decreases InfoAt(m, p).end - m.t
  {
    var info := InfoAt(m, p);
    var u :| Max(m.t, info.start) < u < info.end && p.Dark(u - 1) != p.Dark(u);
    var l := Later(m, p);
    LaterIsReady(m, p);
    LitSecond(m, p);
    if info.start <= l.t && l.w.screen.operate == NONE {
      HasToLand(l, p);
    } else {
      assert u != l.t || m.t < info.start;
      assert !Calm(p, Max(l.t, info.start), info.end);
      LitHasToLand(l, p);
    }
    LostLater(m, p);
  }

  lemma LitIsReady(m: Moment, p: Plan)
    requires Ready(m, p)
    ensures
      var l := Next(m, p, ScreenTurnsOn);
      && Ready(l, p) && l.t == m.t && l.w.screen.on && InfoAt(l, p) == InfoAt(m, p) && Shown(l, p) == Shown(m, p)
      && l.w.screen.operate == m.w.screen.operate
  {
  }

  /** The same whatever the screen. */
  lemma AheadHasToLand(m: Moment, p: Plan)
    requires Ready(m, p) && Active(InfoAt(m, p), m.t) && Ahead(m, p)
    requires !Calm(p, Max(m.t, InfoAt(m, p).start), InfoAt(m, p).end) && !Lands(p, Shown(m, p), InfoAt(m, p).end)
    ensures Lost(m, p)
  {
    LitIsReady(m, p);
    LitHasToLand(Next(m, p, ScreenTurnsOn), p);
    LostAfter(m, p, ScreenTurnsOn);
  }

  /** Screen-off over a sub-profile shows the schedule's colour and leaves the record. */
  lemma ProfileOff(m: Moment, p: Plan)
    requires Ready(m, p) && p.context.IsSubProfile() && m.w.screen.operate == OperateFor(p.Dark(m.t))
    ensures
      var l := Next(m, p, ScreenTurnsOff);
      && Ready(l, p) && l.t == m.t && l.w.screen.operate == NONE
      && InfoAt(l, p) == InfoAt(m, p) && Shown(l, p) == p.Dark(m.t)
  {
    ScreenOffEffect(m.w, p);
    ScheduledStill(m.w, ScreenOff(m.w), p, m.t);
  }

  /** In a sub-profile every colour of the schedule up to the window may be the one left showing. */
  lemma {:induction false} ProfileHasToLand(m: Moment, p: Plan, u: int)
    requires Ready(m, p) && p.context.IsSubProfile() && Active(InfoAt(m, p), m.t) && Ahead(m, p)
    requires !Calm(p, Max(m.t, InfoAt(m, p).start), InfoAt(m, p).end)
    requires m.w.screen.operate == if m.w.screen.operate == NONE then NONE else OperateFor(p.Dark(m.t))
    requires m.w.screen.operate == NONE ==> Shown(m, p) == p.Dark(m.t)
    requires m.t <= u <= Max(m.t, InfoAt(m, p).start) && !Lands(p, p.Dark(u), InfoAt(m, p).end)
    ensures Lost(m, p)
    decreases u - m.t
  {
    if u == m.t {
      ProfileHasToLandNow(m, p);
    } else {
      var lit := Next(m, p, ScreenTurnsOn);
      var l := Later(lit, p);
      LitIsReady(m, p);
      LaterIsReady(lit, p);
      LitSecond(lit, p);
      if Ahead(l, p) {
        ProfileHasToLand(l, p, u);
      } else {
        HasToLand(l, p);
      }
      LostLater(lit, p);
      LostAfter(m, p, ScreenTurnsOn);
    }
  }

  lemma ProfileHasToLandNow(m: Moment, p: Plan)
    requires Ready(m, p) && p.context.IsSubProfile() && Active(InfoAt(m, p), m.t) && Ahead(m, p)
    requires !Calm(p, Max(m.t, InfoAt(m, p).start), InfoAt(m, p).end)
    requires m.w.screen.operate == if m.w.screen.operate == NONE then NONE else OperateFor(p.Dark(m.t))
    requires m.w.screen.operate == NONE ==> Shown(m, p) == p.Dark(m.t)
    requires !Lands(p, p.Dark(m.t), InfoAt(m, p).end)
    ensures Lost(m, p)
  {
    if m.w.screen.operate == NONE {
      AheadHasToLand(m, p);
    } else {
      var l := Next(m, p, ScreenTurnsOff);
      ProfileOff(m, p);
      if InfoAt(l, p).start <= l.t {
        HasToLand(l, p);
      } else {
        AheadHasToLand(l, p);
      }
      LostAfter(m, p, ScreenTurnsOff);
    }
  }

  lemma UnsettledIsLost(m: Moment, p: Plan)
    requires Ready(m, p) && !Settled(m, p)
    ensures Lost(m, p)
  {
    var info := InfoAt(m, p);
    if !Guaranteed(m, p) {
      LostNow(m, p);
    } else if info.start <= m.t && m.w.screen.operate == NONE {
      HasToLand(m, p);
    } else if !Lands(p, Shown(m, p), info.end) {
      AheadHasToLand(m, p);
    } else {
      var u :| m.t <= u <= Max(m.t, info.start) && !Lands(p, p.Dark(u), info.end);
      ProfileHasToLand(m, p, u);
    }
  }

  /** The guarantee holds at every moment of every run to come without an excluded toggle. */
  ghost predicate Secure(m: Moment, p: Plan) {
    forall events | NeverExcluded(m, p, events) :: Guaranteed(After(m, p, events), p)
  }

  /** With the timers armed the invariant says no more than the guarantee does: it holds exactly when the
      guarantee will hold in every run to come. */
  lemma InvariantIsExact(m: Moment, p: Plan)
    requires Ready(m, p)
    ensures Inv(m, p) <==> Secure(m, p)
  {
    if Inv(m, p) {
      forall events | NeverExcluded(m, p, events)
        ensures Guaranteed(After(m, p, events), p)
      {
        EveryRunIsGuaranteed(m, p, events);
      }
    } else {
      UnsettledIsLost(m, p);
      var events :| NoToggle(events) && !Guaranteed(After(m, p, events), p);
      assert NeverExcluded(m, p, events);
    }
  }
}

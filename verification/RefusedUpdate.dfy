/** Updates the application manager refuses: an event of a guaranteed run during which no colour can be
    shown. */
module RefusedUpdates {
  import opened Accounts
  import opened Schedule
  import opened TemporaryColorMode
  import opened ScreenSwitchOperator
  import opened UiAppearance
  import opened DarkMode
  import opened ColourRun

  function Accepting(w: World, accepting: bool): World { w.(display := w.display.(accepting := accepting)) }

  /** The event with updates refused while it lasts. */
  function NextRefused(m: Moment, p: Plan, event: Event): Moment {
    var next := Next(m.(w := Accepting(m.w, false)), p, event);
    next.(w := Accepting(next.w, true))
  }

  /** The refusal does no harm: there is nothing to show, or what cannot be shown is shown already. */
  predicate Harmless(m: Moment, p: Plan, event: Event) {
    match event
    case Tick =>
      || p.Dark(m.t) == p.Dark(m.t + 1) || m.w.screen.on
      || ShowsDark(m.w.display, p.context) == p.Dark(m.t + 1)
      || CheckTemporaryStateEffective(m.w.temps, p.context, ClockAt(p.zone, m.t + 1))
    case ScreenTurnsOff =>
      var info := InfoOf(m.w.temps.infos, p.context);
      || m.w.screen.operate == NONE
      || (if p.context.IsSubProfile() && Active(info, m.t) && info.start <= m.t then
            Lands(p, ShowsDark(m.w.display, p.context), info.end)
          else ShowsDark(m.w.display, p.context) == p.Dark(m.t))
    case Toggle(_, _) => true
    case ScreenTurnsOn => true
  }

  /** A refused update drops the override and any pending operation but leaves the colour. */
  lemma RefusedChange(w: World, dark: bool, context: AccountContext, other: AccountContext)
    requires !w.display.accepting
    ensures
      var v := OnChangeDarkMode(w, dark, context);
      && v.display == w.display && v.alarm == w.alarm && v.states == w.states && v.screen == w.screen
      && InfoOf(v.temps.infos, other)
         == if other == context && InfoOf(w.temps.infos, other).temporary then NORMAL else InfoOf(w.temps.infos, other)
  {
  }

  /** A second later, by the schedule update alone. */
  function RefusedSecond(m: Moment, p: Plan): Moment {
    Moment(Accepting(Updated(m.(w := Accepting(m.w, false)), p), true), m.t + 1)
  }

  lemma RefusedTick(m: Moment, p: Plan)
    requires p.Valid() && Scheduled(m, p)
    ensures NextRefused(m, p, Tick) == RefusedSecond(m, p)
  {
    TickUpdates(m.(w := Accepting(m.w, false)), p);
  }

  lemma RefusedUpdateEffect(w: World, p: Plan, dark: bool, now: Clock)
    requires !w.display.accepting
    ensures
      var v := UpdateDarkModeSchedule(w, dark, p.context, false, false, now);
      var overridden := CheckTemporaryStateEffective(w.temps, p.context, now);
      && v.display == w.display && v.alarm == w.alarm && v.states == w.states && v.screen.on == w.screen.on
      && (overridden || w.screen.on ==> InfoOf(v.temps.infos, p.context) == InfoOf(w.temps.infos, p.context))
      && (overridden ==> v.screen.operate == NONE)
      && (!overridden && w.screen.on ==>
            v.screen.operate == OperateFor(dark) && v.screen.userId == p.context.userId)
      && (!overridden && !w.screen.on ==>
            v.screen.operate == NONE && !InfoOf(v.temps.infos, p.context).temporary)
  {
    RefusedChange(ResetOperate(w), dark, p.context, p.context);
  }

  lemma RefusedSecondExactly(m: Moment, p: Plan)
    requires Inv(m, p)
    ensures
      var m' := RefusedSecond(m, p);
      && (Guaranteed(m', p) <==> Harmless(m, p, Tick))
      && (Inv(m', p) <==> Harmless(m, p, Tick))
  {
    ClockTells(p.zone, m.t + 1);
    if p.Dark(m.t) == p.Dark(m.t + 1) {
      assert RefusedSecond(m, p) == Moment(m.w, m.t + 1);
      QuietSecond(m, p);
    } else {
      RefusedUpdateEffect(Accepting(m.w, false), p, p.Dark(m.t + 1), ClockAt(p.zone, m.t + 1));
    }
    ScheduledLater(m, p, RefusedSecond(m, p).w);
  }

  lemma RefusedScreenOffEffect(w: World, p: Plan)
    requires Alone(w.display, p.context) && w.screen.operate != NONE && w.screen.userId == p.context.userId
    ensures
      var v := Accepting(ScreenOff(Accepting(w, false)), true);
      && v.display == w.display && v.alarm == w.alarm && v.states == w.states
      && v.screen.operate == NONE && !v.screen.on
      && InfoOf(v.temps.infos, p.context)
         == if !p.context.IsSubProfile() && InfoOf(w.temps.infos, p.context).temporary then NORMAL
            else InfoOf(w.temps.infos, p.context)
  {
    var off := Accepting(w, false).(screen := w.screen.(on := false));
    RefusedChange(off, w.screen.operate == SWITCH_TO_DARK, CreateBaseContext(w.screen.userId), p.context);
    assert w.display.(accepting := true) == w.display;
  }

  lemma RefusedScreenOffExactly(m: Moment, p: Plan)
    requires Inv(m, p)
    ensures Inv(NextRefused(m, p, ScreenTurnsOff), p) <==> Harmless(m, p, ScreenTurnsOff)
  {
    var v := NextRefused(m, p, ScreenTurnsOff).w;
    if m.w.screen.operate == NONE {
      assert v == ScreenOff(m.w) == m.w.(screen := m.w.screen.(on := false));
    } else {
      RefusedScreenOffEffect(m.w, p);
    }
    ScheduledStill(m.w, v, p, m.t);
  }

  /** A guaranteed run survives an event whose updates are refused exactly when the refusal is harmless. */
  lemma RefusalKeepsExactly(m: Moment, p: Plan, event: Event)
    requires Inv(m, p)
    ensures
      var m' := NextRefused(m, p, event);
      && (Inv(m', p) <==> Harmless(m, p, event))
      && (Harmless(m, p, event) ==> Guaranteed(m', p))
  {
    match event
    case Tick =>
      RefusedTick(m, p);
      RefusedSecondExactly(m, p);
    case ScreenTurnsOff => RefusedScreenOffExactly(m, p);
    case Toggle(mode, granted) => assert NextRefused(m, p, event) == m;
    case ScreenTurnsOn =>
      ScheduledStill(m.w, NextRefused(m, p, event).w, p, m.t);
  }

  lemma RefusedLeavesReady(m: Moment, p: Plan)
    requires Inv(m, p)
    ensures Ready(RefusedSecond(m, p), p)
  {
    RefusedUpdateEffect(Accepting(m.w, false), p, p.Dark(m.t + 1), ClockAt(p.zone, m.t + 1));
    ScheduledLater(m, p, RefusedSecond(m, p).w);
  }

  /** A screen-off whose update is refused leaves the wrong colour, unless a sub-profile keeps an override. */
  lemma ScreenOffHarms(m: Moment, p: Plan)
    requires Inv(m, p) && !Harmless(m, p, ScreenTurnsOff)
    ensures
      var m' := NextRefused(m, p, ScreenTurnsOff);
      Ready(m', p) && (Guaranteed(m', p) ==> p.context.IsSubProfile() && OverrideRecorded(m', p))
  {
    RefusedScreenOffEffect(m.w, p);
    ScheduledStill(m.w, NextRefused(m, p, ScreenTurnsOff).w, p, m.t);
  }

  /** A refusal that is not harmless loses the guarantee: at once, or, for an override a sub-profile keeps
      through it, in some run to come. */
  lemma HarmIsDone(m: Moment, p: Plan, event: Event, m': Moment)
    requires Inv(m, p) && !Harmless(m, p, event) && m' == NextRefused(m, p, event)
    ensures !Secure(m', p) && (Guaranteed(m', p) ==> p.context.IsSubProfile() && OverrideRecorded(m', p))
  {
    RefusalKeepsExactly(m, p, event);
    if event == Tick {
      RefusedTick(m, p);
      RefusedSecondExactly(m, p);
      RefusedLeavesReady(m, p);
    } else {
      ScreenOffHarms(m, p);
    }
    InvariantIsExact(m', p);
  }
}

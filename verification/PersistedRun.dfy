/** What a guaranteed run keeps in the parameters: the record of the override as it is in memory, and the
    colour shown for as long as there is one. */
module PersistedRuns {
  import opened Decimal
  import opened Accounts
  import opened Schedule
  import opened SystemParameters
  import opened TemporaryWindow
  import opened TemporaryColorMode
  import opened ScreenSwitchOperator
  import opened SettingData
  import opened UiAppearance
  import opened Migration
  import opened ShownColours
  import opened Startup
  import opened DarkMode
  import opened ColourRun
  import opened RefusedUpdates

  /** The parameter service takes what the context writes. */
  predicate Keeps(p: Params, context: AccountContext) {
    Writable(p, context) && DarkModeKey(context) !in p.refused
  }

  /** What a restart needs of the parameters: the record as it is in memory and, while there is one, the
      colour shown. */
  predicate Restorable(w: World, context: AccountContext) {
    && Keeps(w.temps.params, context)
    && Stored(w.temps.params, context) == InfoOf(w.temps.infos, context)
    && (IsColorModeTemporary(w.temps, context) ==>
          Reads(w.temps.params, DarkModeKey(context), ShowsDark(w.display, context)))
  }

  // ---------- the override's record ----------

  lemma ThreeKeysAreNoColour(c: AccountContext, context: AccountContext)
    ensures FlagKey(c) != DarkModeKey(context) && StartKey(c) != DarkModeKey(context)
    ensures EndKey(c) != DarkModeKey(context)
  {
    ContextKeyIsNoRecordKey(0, context, c);
    assert DarkModeKey(context) == BuildUserParamKey(PARAM_PREFIXES[0], context);
  }

  /** Saving a record stores it and leaves the colours alone. */
  lemma SaveEffect(p: Params, c: AccountContext, info: TempInfo, context: AccountContext)
    requires Writable(p, context) && (info.temporary || info == NORMAL)
    ensures
      var q := SaveTempColorModeInfo(p, c, info);
      && q.refused == p.refused && Unchanged(p, q, DarkModeKey(context))
      && Stored(q, context) == if c == context then info else Stored(p, context)
  {
    ThreeKeysAreNoColour(c, context);
    if c == context {
      SavedRecordIsRebuilt(p, c, info, context);
    } else {
      OtherContextsKeepTheirs(p, c, info, context);
    }
  }

  lemma NormalKeepsRestorable(w: World, c: AccountContext, context: AccountContext)
    requires Restorable(w, context)
    ensures Restorable(w.(temps := SetColorModeNormal(w.temps, c)), context)
  {
    SaveEffect(w.temps.params, c, NORMAL, context);
  }

  // ---------- colours ----------

  lemma LookKeepsRestorable(w: World, dark: bool, userId: int32, context: AccountContext)
    requires Restorable(w, context) && Alone(w.display, context) && userId == context.userId
    ensures Restorable(WithLook(w, UpdateDarkModeCallback(LookOf(w), dark, userId)), context)
  {
    var look := LookOf(w);
    UpdateKeepsRecord(look, dark, userId, context);
    SameRecordIsStored(look.params, UpdateDarkModeCallback(look, dark, userId).params, context);
    UpdateReachesTheAudience(look, dark, userId, context);
    assert userId in Audience(look.display, userId);
  }

  lemma ChangeKeepsRestorable(w: World, dark: bool, c: AccountContext, context: AccountContext)
    requires Restorable(w, context) && Alone(w.display, context) && c.userId == context.userId
    ensures Restorable(OnChangeDarkMode(w, dark, c), context)
  {
    LookKeepsRestorable(w, dark, c.userId, context);
    NormalKeepsRestorable(WithLook(w, UpdateDarkModeCallback(LookOf(w), dark, c.userId)), c, context);
  }

  /** A refused change writes no colour. */
  lemma RefusedChangeKeepsRestorable(w: World, dark: bool, c: AccountContext, context: AccountContext)
    requires Restorable(w, context) && !w.display.accepting
    ensures Restorable(OnChangeDarkMode(w, dark, c), context)
  {
    NormalKeepsRestorable(w, c, context);
  }

  lemma UpdateKeepsRestorable(
    w: World, dark: bool, context: AccountContext, reset: bool, boot: bool, now: Clock)
    requires Restorable(w, context) && (Alone(w.display, context) || !w.display.accepting)
    ensures Restorable(UpdateDarkModeSchedule(w, dark, context, reset, boot, now), context)
  {
    var w0 := ResetOperate(w);
    if w.display.accepting {
      ChangeKeepsRestorable(w0, dark, context, context);
    } else {
      RefusedChangeKeepsRestorable(w0, dark, context, context);
    }
  }

  // ---------- the events of a run ----------

  lemma UpdatedKeepsRestorable(m: Moment, p: Plan)
    requires Restorable(m.w, p.context) && (Alone(m.w.display, p.context) || !m.w.display.accepting)
    ensures Restorable(Updated(m, p), p.context)
  {
    var now := ClockAt(p.zone, m.t + 1);
    if p.Dark(m.t) != p.Dark(m.t + 1) {
      var v := UpdateDarkModeSchedule(m.w, p.Dark(m.t + 1), p.context, false, false, now);
      UpdateKeepsRestorable(m.w, p.Dark(m.t + 1), p.context, false, false, now);
      assert Updated(m, p) == v;
    } else {
      assert Updated(m, p) == m.w;
    }
  }

  lemma TickKeepsRestorable(m: Moment, p: Plan)
    requires p.Valid() && Scheduled(m, p)
    requires Restorable(m.w, p.context) && (Alone(m.w.display, p.context) || !m.w.display.accepting)
    ensures Restorable(Next(m, p, Tick).w, p.context)
  {
    UpdatedKeepsRestorable(m, p);
    TickUpdates(m, p);
  }

  lemma ScreenOffKeepsRestorable(w: World, context: AccountContext)
    requires Restorable(w, context) && (Alone(w.display, context) || !w.display.accepting)
    requires w.screen.operate != NONE ==> w.screen.userId == context.userId
    ensures Restorable(ScreenOff(w), context)
  {
    var off := w.(screen := w.screen.(on := false));
    var base := CreateBaseContext(w.screen.userId);
    if w.screen.operate != NONE {
      if w.display.accepting {
        ChangeKeepsRestorable(off, w.screen.operate == SWITCH_TO_DARK, base, context);
      } else {
        RefusedChangeKeepsRestorable(off, w.screen.operate == SWITCH_TO_DARK, base, context);
      }
    }
  }

  lemma SwitchTemporaryKeepsRecord(w: World, context: AccountContext, dark: bool, now: Clock)
    requires Keeps(w.temps.params, context) && Stored(w.temps.params, context) == InfoOf(w.temps.infos, context)
    ensures
      var v := DoSwitchTemporaryColorMode(w, context, dark, now);
      && v.temps.params.refused == w.temps.params.refused && v.display == w.display
      && Stored(v.temps.params, context) == InfoOf(v.temps.infos, context)
  {
    var state := StateOf(w, context);
    var window := GetTempColorModeTimeInfo(Effective(state).0, Effective(state).1, now);
    SaveEffect(w.temps.params, context, NORMAL, context);
    SaveEffect(w.temps.params, context, TempInfo(true, window.0, window.1), context);
  }

  lemma ChoiceKeepsRestorable(w: World, context: AccountContext, dark: bool, now: Clock, granted: PutReply)
    requires Keeps(w.temps.params, context) && Stored(w.temps.params, context) == InfoOf(w.temps.infos, context)
    ensures Restorable(ConfigurePersistence(w, context, dark, now, granted).0, context)
  {
    var switched := DoSwitchTemporaryColorMode(w, context, dark, now);
    SwitchTemporaryKeepsRecord(w, context, dark, now);
    ShowKeepsRecord(LookOf(switched), dark, context, context);
    SameRecordIsStored(switched.temps.params, Show(LookOf(switched), dark, context).params, context);
    var shown := WithLook(switched, Show(LookOf(switched), dark, context));
    assert Restorable(shown, context);
  }

  lemma ToggleKeepsRestorable(m: Moment, p: Plan, mode: ColorMode, granted: PutReply)
    requires Restorable(m.w, p.context) && (Alone(m.w.display, p.context) || !m.w.display.accepting)
    ensures Restorable(Next(m, p, Toggle(mode, granted)).w, p.context)
  {
    if mode != OTHER && m.w.display.accepting && (mode == DARK) != ShowsDark(m.w.display, p.context) {
      var w0 := WithLook(m.w, PersistColor(LookOf(m.w), mode == DARK));
      ShowKeepsRecord(LookOf(m.w), mode == DARK, p.context, p.context);
      SameRecordIsStored(m.w.temps.params, w0.temps.params, p.context);
      ChoiceKeepsRestorable(w0, p.context, mode == DARK, ClockAt(p.zone, m.t), granted);
    }
  }

  /** Every event of a guaranteed run, refused or not, keeps what a restart needs. */
  lemma EventKeepsRestorable(m: Moment, p: Plan, event: Event)
    requires p.Valid() && Scheduled(m, p) && Restorable(m.w, p.context)
    requires Alone(m.w.display, p.context) || !m.w.display.accepting
    requires m.w.screen.operate != NONE ==> m.w.screen.userId == p.context.userId
    ensures Restorable(Next(m, p, event).w, p.context)
  {
    match event
    case Tick =>
      TickKeepsRestorable(m, p);
      TickUpdates(m, p);
    case Toggle(mode, granted) => ToggleKeepsRestorable(m, p, mode, granted);
    case ScreenTurnsOn =>
    case ScreenTurnsOff => ScreenOffKeepsRestorable(m.w, p.context);
  }

  lemma RefusalKeepsRestorable(m: Moment, p: Plan, event: Event)
    requires Inv(m, p) && Restorable(m.w, p.context)
    ensures Restorable(NextRefused(m, p, event).w, p.context)
  {
    EventKeepsRestorable(m.(w := Accepting(m.w, false)), p, event);
  }

  lemma GuaranteedEventKeepsRestorable(m: Moment, p: Plan, event: Event)
    requires Inv(m, p) && Restorable(m.w, p.context)
    ensures Restorable(Next(m, p, event).w, p.context)
  {
    EventKeepsRestorable(m, p, event);
  }

  /** Along every run of ordinary events the parameters hold the override as it is in memory. */
  lemma {:induction false} EveryRunIsRestorable(m: Moment, p: Plan, events: seq<Event>)
    requires Inv(m, p) && NeverExcluded(m, p, events) && Restorable(m.w, p.context)
    ensures Restorable(After(m, p, events).w, p.context)
  {
    if events != [] {
      var n := |events| - 1;
      assert forall i :: 0 <= i <= n ==> events[..n][..i] == events[..i];
      EveryRunIsRestorable(m, p, events[..n]);
      EveryRunIsGuaranteed(m, p, events[..n]);
      GuaranteedEventKeepsRestorable(After(m, p, events[..n]), p, events[n]);
    }
  }
}

/** The whole of an account switch (AccountContextSwitchFunc of ui_appearance_ability.cpp): around the load it
    migrates and initializes once, and it tells the applications the colour in the end. */
module AccountSwitches {
  import opened Errors
  import opened Accounts
  import opened TemporaryColorMode
  import opened UiAppearance
  import opened Migration
  import opened ShownColours
  import opened Startup
  import opened DarkMode
  import opened ColourRun
  import opened PersistedRuns

  /** What is still to be done once, and for which contexts: the migration, and reading the parameters. */
  datatype Chores = Chores(migrate: bool, initialize: bool, contexts: seq<AccountContext>, valid: string -> bool)

  function DoChores(l: Look, chores: Chores): Look {
    var migrated :=
      if chores.migrate then l.(params := DoCompatibleProcess(l.params, chores.contexts, chores.valid)) else l;
    if chores.initialize then DoInitProcess(migrated, chores.contexts, chores.valid) else migrated
  }

  /** The loaded colour is remembered unless the load failed or an override runs. */
  function TakeLoadedColor(w: World, context: AccountContext, code: ErrCode, dark: bool): World {
    if code == ERR_OK && !IsColorModeTemporary(w.temps, context) then
      w.(display := Remember(w.display, dark, context))
    else w
  }

  /** UpdateCurrentUserConfiguration: the colour remembered for the context becomes the device's. */
  function UpdateCurrentUserConfiguration(l: Look, context: AccountContext, reachable: bool): Look {
    var dark := ShowsDark(l.display, context);
    var touched := l.(display := Remember(l.display, dark, context));
    if reachable then PersistColor(touched, dark) else touched
  }

  /** The switch after its load. */
  function FinishSwitch(
    loaded: World, context: AccountContext, code: ErrCode, dark: bool, chores: Chores, reachable: bool): World
  {
    var ready := WithLook(loaded, DoChores(LookOf(loaded), chores));
    var shown := TakeLoadedColor(ready, context, code, dark);
    WithLook(shown, UpdateCurrentUserConfiguration(LookOf(shown), context, reachable))
  }

  function SwitchAccount(
    w: World, context: AccountContext, reach: SwitchEnv, chores: Chores, reachable: bool, env: Env): World
  {
    var loaded := LoadUserSettingData(OnSwitchContext(w, context, reach).0, context, false, false, false, env);
    FinishSwitch(loaded.w, context, loaded.code, loaded.dark, chores, reachable)
  }

  /** The first switch after an upgrade shows every listed context that had no colour of its own the colour
      stored for the device before, or light: the migration comes before the parameters are read. */
  lemma FirstSwitchShowsLegacyColour(l: Look, chores: Chores, context: AccountContext)
    requires chores.migrate && chores.initialize && context in chores.contexts
    requires Empty(l.params, DarkModeKey(context)) && DarkModeKey(context) !in l.params.refused
    ensures
      var v := DoChores(l, chores);
      var legacy := if Empty(l.params, PERSIST_DARKMODE_KEY) then "light" else l.params.values[PERSIST_DARKMODE_KEY];
      && ShowsDark(v.display, context) == (legacy == "dark")
      && DarkModeKey(context) in v.params.values && v.params.values[DarkModeKey(context)] == legacy
  {
    MigratesStoredColour(l.params, chores.contexts, chores.valid, context);
    var migrated := l.(params := DoCompatibleProcess(l.params, chores.contexts, chores.valid));
    InitShowsEach(migrated, chores.contexts, chores.valid, context);
    OwnColourStays(migrated, chores, context);
  }

  /** A context with a colour of its own has it before and after the parameters are read. */
  lemma OwnColourStays(l: Look, chores: Chores, context: AccountContext)
    ensures
      var v := DoInitProcess(l, chores.contexts, chores.valid);
      !Empty(l.params, DarkModeKey(context)) ==>
        && StoredColour(l.params, context) == l.params.values[DarkModeKey(context)]
        && Unchanged(l.params, v.params, DarkModeKey(context))
  {
    InitKeepsColour(l, chores.contexts, chores.valid, context);
  }

  lemma SwitchInSteps(
    w: World, context: AccountContext, reach: SwitchEnv, chores: Chores, reachable: bool, env: Env, loaded: Changed)
    requires loaded == LoadUserSettingData(OnSwitchContext(w, context, reach).0, context, false, false, false, env)
    ensures SwitchAccount(w, context, reach, chores, reachable, env)
         == FinishSwitch(loaded.w, context, loaded.code, loaded.dark, chores, reachable)
  {
  }

  /** Once nothing is left to be done, a switch is the load followed by telling the applications. */
  lemma SteadySwitch(
    w: World, context: AccountContext, reach: SwitchEnv, chores: Chores, reachable: bool, env: Env)
    requires !chores.migrate && !chores.initialize
    ensures
      var v := SwitchAndLoad(w, context, reach, env);
      SwitchAccount(w, context, reach, chores, reachable, env)
      == WithLook(v, UpdateCurrentUserConfiguration(LookOf(v), context, reachable))
  {
    var loaded := LoadUserSettingData(OnSwitchContext(w, context, reach).0, context, false, false, false, env);
    assert WithLook(loaded.w, DoChores(LookOf(loaded.w), chores)) == loaded.w;
  }

  /** The effect of telling the applications, on any context c. */
  lemma TellingEffect(l: Look, context: AccountContext, reachable: bool, c: AccountContext)
    ensures
      var v := UpdateCurrentUserConfiguration(l, context, reachable);
      && ShowsDark(v.display, c) == ShowsDark(l.display, c)
      && v.display == l.display.(usersParam := v.display.usersParam)
      && SameRecord(l.params, v.params, c) && Unchanged(l.params, v.params, DarkModeKey(c))
      && v.params.refused == l.params.refused
      && (reachable && PERSIST_DARKMODE_KEY !in l.params.refused ==>
            Reads(v.params, PERSIST_DARKMODE_KEY, ShowsDark(l.display, context)))
      && (!reachable ==> v.params == l.params) && context in v.display.usersParam
  {
    var dark := ShowsDark(l.display, context);
    ShowKeepsRecord(l.(display := Remember(l.display, dark, context)), dark, context, c);
    OwnParameter(c, c);
  }

  lemma SameColourSameRun(w: World, p: Plan, t: int, look: Look)
    requires ShowsDark(look.display, p.context) == ShowsDark(w.display, p.context)
    requires look.display == w.display.(usersParam := look.display.usersParam)
    ensures Inv(Moment(WithLook(w, look), t), p) <==> Inv(Moment(w, t), p)
  {
  }

  /** Telling the applications matters neither to a guaranteed run nor to what a restart needs. */
  lemma TellingIsNoMatter(w: World, p: Plan, t: int, context: AccountContext, reachable: bool)
    ensures
      var v := WithLook(w, UpdateCurrentUserConfiguration(LookOf(w), context, reachable));
      && (Inv(Moment(v, t), p) <==> Inv(Moment(w, t), p))
      && (Restorable(w, p.context) ==> Restorable(v, p.context))
      && v.alarm == w.alarm && v.states == w.states && v.current == w.current
  {
    var look := UpdateCurrentUserConfiguration(LookOf(w), context, reachable);
    TellingEffect(LookOf(w), context, reachable, p.context);
    SameRecordIsStored(w.temps.params, look.params, p.context);
    SameColourSameRun(w, p, t, look);
  }
}

/** The service's colour setter, account switch and migration over the manager (ui_appearance_ability.cpp). */
module UiAppearanceAbilities {
  import opened Decimal
  import opened Errors
  import opened Accounts
  import opened Schedule
  import opened SettingData
  import opened TemporaryColorMode
  import opened UiAppearance
  import opened DarkMode
  import opened DarkModeManagers
  import opened Migration
  import opened Startup
  import opened AccountSwitches

  class UiAppearanceAbility {
    const manager: DarkModeManager
    var isNeedDoCompatibleProcess: bool
    var isInitializationFinished: bool

    ghost predicate Valid() { manager.Valid() }

    constructor (manager: DarkModeManager, firstUpgrade: bool)
      requires manager.Valid()
      ensures Valid() && this.manager == manager
      ensures isNeedDoCompatibleProcess == firstUpgrade && !isInitializationFinished
    {
      this.manager, isNeedDoCompatibleProcess, isInitializationFinished := manager, firstUpgrade, false;
    }

    method ConfigurePersistence(context: AccountContext, dark: bool, now: Clock, granted: PutReply) returns (ok: bool)
      requires Valid()
      modifies manager.Footprint()
      ensures (manager.World(), ok) == DarkMode.ConfigurePersistence(old(manager.World()), context, dark, now, granted)
    {
      manager.DoSwitchTemporaryColorMode(context, dark, now);
      ghost var switched := manager.World();
      SwitchKeepsRefused(old(manager.World()), context, dark, now);
      ok := manager.display.ConfigurePersistence(dark, context);
      assert manager.display.LookState() == Show(LookOf(switched), dark, context);
      if ok {
        manager.NotifyDarkModeUpdate(context, dark, granted);
      }
    }

    static lemma SwitchKeepsRefused(w: World, context: AccountContext, dark: bool, now: Clock)
      ensures DarkMode.DoSwitchTemporaryColorMode(w, context, dark, now).temps.params.refused == w.temps.params.refused
    {
    }

    method OnSetDarkMode(context: AccountContext, mode: ColorMode, now: Clock, granted: PutReply)
      returns (res: SetResult)
      requires Valid()
      modifies manager.Footprint()
      ensures (manager.World(), res) == DarkMode.OnSetDarkMode(old(manager.World()), context, mode, now, granted)
    {
      if mode == OTHER {
        return INVALID_ARG;
      }
      if !manager.display.accepting {
        return SYS_ERR;
      }
      var _ := manager.display.parameters.Set(PERSIST_DARKMODE_KEY, ColorName(mode == DARK));
      ghost var start := manager.World();
      assert start == WithLook(old(manager.World()), PersistColor(LookOf(old(manager.World())), mode == DARK));
      var ok;
      if |manager.display.foregroundUsers| > 1 {
        ok := ConfigureForegroundUsers(mode == DARK, now, granted);
      } else {
        ok := ConfigurePersistence(context, mode == DARK, now, granted);
      }
      return if ok then SUCCEEDED else SYS_ERR;
    }

    /** The loop of OnSetDarkMode, cut short by the first failure. */
    method ConfigureForegroundUsers(dark: bool, now: Clock, granted: PutReply) returns (ok: bool)
      requires Valid()
      modifies manager.Footprint()
      ensures (manager.World(), ok)
              == ConfigureAll(old(manager.World()), old(manager.display.foregroundUsers), dark, now, granted)
    {
      var users := manager.display.foregroundUsers;
      ghost var start := manager.World();
      for i := 0 to |users|
        invariant (manager.World(), true) == ConfigureAll(start, users[..i], dark, now, granted)
      {
        ok := ConfigureNextUser(start, users, i, dark, now, granted);
        if !ok {
          return;
        }
      }
      assert users[..|users|] == users;
      ok := true;
    }

    method ConfigureNextUser(ghost start: World, users: seq<int32>, i: nat, dark: bool, now: Clock, granted: PutReply)
      returns (ok: bool)
      requires Valid() && i < |users|
      requires (manager.World(), true) == ConfigureAll(start, users[..i], dark, now, granted)
      modifies manager.Footprint()
      ensures (manager.World(), ok) == ConfigureAll(start, users[..i + 1], dark, now, granted)
      ensures !ok ==> (manager.World(), false) == ConfigureAll(start, users, dark, now, granted)
    {
      assert users[..i + 1][..i] == users[..i];
      ok := ConfigurePersistence(ForegroundContext(manager.display.State(), users[i]), dark, now, granted);
      if !ok {
        StopsAtFailure(start, users, i + 1, dark, now, granted);
      }
    }

    /** Once one user fails the loop has its final result. */
    static lemma {:induction false} StopsAtFailure(
      w: World, users: seq<int32>, i: nat, dark: bool, now: Clock, granted: PutReply)
      requires i <= |users| && !ConfigureAll(w, users[..i], dark, now, granted).1
      ensures ConfigureAll(w, users, dark, now, granted) == ConfigureAll(w, users[..i], dark, now, granted)
      decreases |users|
    {
      if i == |users| {
        assert users[..i] == users;
      } else {
        var n := |users| - 1;
        assert users[..n][..i] == users[..i];
        StopsAtFailure(w, users[..n], i, dark, now, granted);
      }
    }

    method SetDarkMode(context: AccountContext, mode: ColorMode, now: Clock, granted: PutReply) returns (res: SetResult)
      requires Valid()
      modifies manager.Footprint()
      ensures (manager.World(), res) == DarkMode.SetDarkMode(old(manager.World()), context, mode, now, granted)
    {
      var currentDarkMode := LIGHT;
      if context in manager.display.usersParam && manager.display.usersParam[context] {
        currentDarkMode := DARK;
      }
      if mode != currentDarkMode {
        res := OnSetDarkMode(context, mode, now, granted);
      } else {
        res := SYS_ERR;
      }
    }

    /** `contexts` and `valid` are for the migration and the initialization, each still due or not;
        `reachable` tells whether there is an application manager to be told the colour. */
    method AccountContextSwitchFunc(
      context: AccountContext, reach: SwitchEnv, contexts: seq<AccountContext>, valid: string -> bool, reachable: bool,
      env: Env)
      requires Valid()
      modifies this, manager.Footprint()
      ensures manager.World()
              == SwitchAccount(
                old(manager.World()), context, reach,
                Chores(old(isNeedDoCompatibleProcess), old(!isInitializationFinished), contexts, valid), reachable, env)
      ensures !isNeedDoCompatibleProcess && isInitializationFinished
    {
      ghost var chores := Chores(isNeedDoCompatibleProcess, !isInitializationFinished, contexts, valid);
      ghost var target := SwitchAccount(manager.World(), context, reach, chores, reachable, env);
      var code, isDarkMode := SwitchThenLoad(context, reach, env, chores, reachable, target);
      FinishSwitch(context, code, isDarkMode, contexts, valid, reachable, chores, target);
    }

    /** The switch and its load, after which the rest of the switch leads to the target. */
    method SwitchThenLoad(
      context: AccountContext, reach: SwitchEnv, env: Env, ghost chores: Chores, ghost reachable: bool,
      ghost target: World)
      returns (code: ErrCode, dark: bool)
      requires Valid() && target == SwitchAccount(manager.World(), context, reach, chores, reachable, env)
      modifies manager.Footprint()
      ensures target == AccountSwitches.FinishSwitch(manager.World(), context, code, dark, chores, reachable)
    {
      ghost var before := manager.World();
      code, dark := SwitchAndLoad(context, reach, env);
      SwitchInSteps(before, context, reach, chores, reachable, env, Changed(manager.World(), code, dark));
    }

    method SwitchAndLoad(context: AccountContext, reach: SwitchEnv, env: Env) returns (code: ErrCode, dark: bool)
      requires Valid()
      modifies manager.Footprint()
      ensures Changed(manager.World(), code, dark)
              == DarkMode.LoadUserSettingData(
                DarkMode.OnSwitchContext(old(manager.World()), context, reach).0, context, false, false, false, env)
    {
      var _ := manager.OnSwitchContext(context, reach);
      code, dark := manager.LoadUserSettingData(context, false, false, false, env);
    }

    /** The switch after its load. */
    method FinishSwitch(
      context: AccountContext, code: ErrCode, dark: bool, contexts: seq<AccountContext>, valid: string -> bool,
      reachable: bool, ghost chores: Chores, ghost target: World)
      requires Valid() && chores == Chores(isNeedDoCompatibleProcess, !isInitializationFinished, contexts, valid)
      requires target == AccountSwitches.FinishSwitch(manager.World(), context, code, dark, chores, reachable)
      modifies this, manager.Footprint()
      ensures manager.World() == target
      ensures !isNeedDoCompatibleProcess && isInitializationFinished
    {
      if isNeedDoCompatibleProcess {
        DoCompatibleProcess(contexts, valid);
      }
      if !isInitializationFinished {
        DoInitProcess(contexts, valid);
      }
      ghost var ready := manager.World();
      TakeLoadedColor(context, code, dark);
      UpdateCurrentUserConfiguration(context, reachable);
    }

    method TakeLoadedColor(context: AccountContext, code: ErrCode, dark: bool)
      modifies manager.display`usersParam
      ensures manager.World() == AccountSwitches.TakeLoadedColor(old(manager.World()), context, code, dark)
    {
      var temporary := InfoOf(manager.temporary.multiUserTempColorModeMap, context).temporary;
      if code == ERR_OK && !temporary {
        manager.display.usersParam := manager.display.usersParam[context := dark];
      }
    }

    method UpdateCurrentUserConfiguration(context: AccountContext, reachable: bool)
      requires Valid()
      modifies manager.display`usersParam, manager.display.parameters
      ensures manager.World()
              == WithLook(
                old(manager.World()),
                AccountSwitches.UpdateCurrentUserConfiguration(LookOf(old(manager.World())), context, reachable))
    {
      if context !in manager.display.usersParam {
        manager.display.usersParam := manager.display.usersParam[context := false];
      }
      var dark := manager.display.usersParam[context];
      assert manager.display.usersParam == old(manager.display.usersParam)[context := dark];
      if reachable {
        var _ := manager.display.parameters.Set(PERSIST_DARKMODE_KEY, ColorName(dark));
      }
    }

    /** One parameter of one context at the start of the service. */
    method LoadContextParam(context: AccountContext, prefix: string, default: string) returns (value: string)
      modifies manager.display.parameters
      ensures (manager.display.parameters.State(), value)
              == Startup.LoadContextParam(old(manager.display.parameters.State()), context, prefix, default)
    {
      var name := BuildUserParamKey(prefix, context);
      var found;
      found, value := manager.display.parameters.Get(name, "");
      if found {
        return;
      }
      value := default;
      if context.IsSubProfile() {
        found, value := manager.display.parameters.Get(
          BuildUserParamKey(prefix, CreateBaseContext(context.userId)), default);
        if found {
          var _ := manager.display.parameters.Set(name, value);
        }
      }
    }

    method DoInitProcess(contexts: seq<AccountContext>, valid: string -> bool)
      modifies this`isInitializationFinished, manager.display`usersParam, manager.display.parameters
      ensures manager.display.LookState() == Startup.DoInitProcess(old(manager.display.LookState()), contexts, valid)
      ensures isInitializationFinished
    {
      for i := 0 to |contexts|
        invariant manager.display.LookState()
                  == Startup.DoInitProcess(old(manager.display.LookState()), contexts[..i], valid)
      {
        assert contexts[..i + 1][..i] == contexts[..i];
        InitContext(contexts[i], valid);
      }
      assert contexts[..|contexts|] == contexts;
      isInitializationFinished := true;
    }

    method InitContext(context: AccountContext, valid: string -> bool)
      modifies manager.display`usersParam, manager.display.parameters
      ensures manager.display.LookState() == Startup.InitContext(old(manager.display.LookState()), context, valid)
    {
      var darkValue := LoadContextParam(context, PERSIST_DARKMODE_KEY_FOR_NONE, ColorName(false));
      var _ := LoadContextParam(context, FONT_SCAL_FOR_NONE, BASE_SCALE);
      var found, weight := manager.display.parameters.Get(STANDARD_FONT_WEIGHT, BASE_SCALE);
      var _ := LoadContextParam(
        context, FONT_WEIGHT_SCAL_FOR_NONE, if found && valid(weight) then weight else BASE_SCALE);
      manager.display.usersParam := manager.display.usersParam[context := darkValue == ColorName(true)];
    }

    method BootCompletedCallback(context: AccountContext, reach: SwitchEnv, env: Env)
      requires Valid()
      modifies manager.Footprint()
      ensures manager.World() == BootLoad(old(manager.World()), context, reach, env)
    {
      var _ := manager.OnSwitchContext(context, reach);
      var _, _ := manager.LoadUserSettingData(context, true, false, true, env);
    }

    /** One loop of the migration. */
    method BackfillContexts(contexts: seq<AccountContext>, prefix: string, value: string)
      modifies manager.display.parameters
      ensures manager.display.parameters.State()
              == Backfill(old(manager.display.parameters.State()), contexts, prefix, value)
    {
      for i := 0 to |contexts|
        invariant manager.display.parameters.State()
                  == Backfill(old(manager.display.parameters.State()), contexts[..i], prefix, value)
      {
        assert contexts[..i + 1][..i] == contexts[..i];
        var name := BuildUserParamKey(prefix, contexts[i]);
        var set_, _ := manager.display.parameters.Get(name, "");
        if !set_ {
          var _ := manager.display.parameters.Set(name, value);
        }
      }
      assert contexts[..|contexts|] == contexts;
    }

    method DoCompatibleProcess(contexts: seq<AccountContext>, valid: string -> bool)
      modifies this`isNeedDoCompatibleProcess, manager.display.parameters
      ensures manager.display.parameters.State()
              == Migration.DoCompatibleProcess(old(manager.display.parameters.State()), contexts, valid)
      ensures !isNeedDoCompatibleProcess
    {
      var parameters := manager.display.parameters;
      var _, darkMode := parameters.Get(PERSIST_DARKMODE_KEY, Migration.LIGHT);
      BackfillContexts(contexts, PERSIST_DARKMODE_KEY_FOR_NONE, darkMode);
      var _, fontSize := parameters.Get(FONT_SCAL_FOR_USER0, BASE_SCALE);
      BackfillContexts(contexts, FONT_SCAL_FOR_NONE, fontSize);
      var _, legacyWeight := parameters.Get(FONT_Weight_SCAL_FOR_USER0, BASE_SCALE);
      var found, weight := parameters.Get(STANDARD_FONT_WEIGHT, legacyWeight);
      BackfillContexts(contexts, FONT_WEIGHT_SCAL_FOR_NONE, if found && valid(weight) then weight else legacyWeight);
      var _ := parameters.Set(FIRST_INITIALIZATION, "0");
      isNeedDoCompatibleProcess := false;
    }
  }
}

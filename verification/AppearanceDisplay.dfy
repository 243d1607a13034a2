/** The part of the service that shows a colour: the remembered colours and the update callback
    (ui_appearance_ability.cpp). */
module AppearanceDisplays {
  import opened Decimal
  import opened Accounts
  import opened SystemParameters
  import opened UiAppearance

  class AppearanceDisplay {
    const parameters: ParameterService
    var usersParam: map<AccountContext, bool>
    var foreground: map<int32, int32>
    var foregroundUsers: seq<int32>
    var accepting: bool

    function State(): Display
      reads this
    {
      Display(usersParam, foreground, foregroundUsers, accepting)
    }

    ghost function LookState(): Look
      reads this, parameters
    {
      Look(State(), parameters.State())
    }

    constructor (parameters: ParameterService)
      ensures this.parameters == parameters && State() == Display(map[], map[], [], true)
    {
      this.parameters := parameters;
      usersParam, foreground, foregroundUsers, accepting := map[], map[], [], true;
    }

    method ConfigurePersistence(dark: bool, context: AccountContext) returns (ok: bool)
      modifies this`usersParam, parameters
      ensures LookState() == Show(old(LookState()), dark, context)
      ensures ok == (DarkModeKey(context) !in old(parameters.refused))
    {
      usersParam := usersParam[context := dark];
      ok := parameters.Set(DarkModeKey(context), ColorName(dark));
    }

    method UpdateDarkModeCallback(dark: bool, userId: int32)
      modifies this`usersParam, parameters
      ensures LookState() == UiAppearance.UpdateDarkModeCallback(old(LookState()), dark, userId)
    {
      if !accepting {
        return;
      }
      var _ := parameters.Set(PERSIST_DARKMODE_KEY, ColorName(dark));
      if |foregroundUsers| > 1 {
        ghost var before := LookState();
        for i := 0 to |foregroundUsers|
          invariant LookState() == ShowAll(before, dark, foregroundUsers[..i])
        {
          ShowAllReachesEveryUser(before, dark, foregroundUsers[..i], CreateBaseContext(userId));
          var _ := ConfigurePersistence(dark, ForegroundContext(State(), foregroundUsers[i]));
          assert foregroundUsers[..i + 1][..i] == foregroundUsers[..i];
        }
        assert foregroundUsers[..|foregroundUsers|] == foregroundUsers;
        return;
      }
      var _ := ConfigurePersistence(dark, ForegroundContext(State(), userId));
    }
  }
}

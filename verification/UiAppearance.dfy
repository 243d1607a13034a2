/** The colour the service shows and persists for each context, as values (ui_appearance_ability.cpp). */
module UiAppearance {
  import opened Decimal
  import opened Accounts
  import opened SystemParameters

  const PERSIST_DARKMODE_KEY := "persist.ace.darkmode"

  /** The colour each context shows, and what the account and application services answer: the
      foreground sub-profile of a user, the foreground users, and whether updates are accepted. */
  datatype Display = Display(
    usersParam: map<AccountContext, bool>, foreground: map<int32, int32>, foregroundUsers: seq<int32>,
    accepting: bool)

  /** What a colour update changes: the display and the system parameters. */
  datatype Look = Look(display: Display, params: Params)

  function ForegroundContext(d: Display, userId: int32): AccountContext {
    if userId in d.foreground then AccountContext(userId, d.foreground[userId]) else CreateBaseContext(userId)
  }

  function ColorName(dark: bool): string { if dark then "dark" else "light" }

  function DarkModeKey(context: AccountContext): string {
    BuildUserParamKey(PERSIST_DARKMODE_KEY_FOR_NONE, context)
  }

  predicate ShowsDark(d: Display, context: AccountContext) { context in d.usersParam && d.usersParam[context] }

  function Remember(d: Display, dark: bool, context: AccountContext): Display {
    d.(usersParam := d.usersParam[context := dark])
  }

  /** Remembers and persists the colour of one context. */
  function Show(l: Look, dark: bool, context: AccountContext): Look {
    Look(Remember(l.display, dark, context), SetParameter(l.params, DarkModeKey(context), ColorName(dark)))
  }

  function ShowAll(l: Look, dark: bool, users: seq<int32>): Look {
    if users == [] then l
    else
      var n := |users| - 1;
      Show(ShowAll(l, dark, users[..n]), dark, ForegroundContext(l.display, users[n]))
  }

  function PersistColor(l: Look, dark: bool): Look {
    l.(params := SetParameter(l.params, PERSIST_DARKMODE_KEY, ColorName(dark)))
  }

  /** The update callback: every foreground user when there are several. */
  function UpdateDarkModeCallback(l: Look, dark: bool, userId: int32): Look {
    if !l.display.accepting then l
    else if |l.display.foregroundUsers| > 1 then
      ShowAll(PersistColor(l, dark), dark, l.display.foregroundUsers)
    else
      Show(PersistColor(l, dark), dark, ForegroundContext(l.display, userId))
  }

  /** The context is the foreground one of a listed user. */
  predicate Reached(d: Display, users: seq<int32>, context: AccountContext) {
    exists u :: u in users && context == ForegroundContext(d, u)
  }

  lemma OneMoreUser(d: Display, users: seq<int32>, context: AccountContext)
    requires users != []
    ensures
      var n := |users| - 1;
      Reached(d, users, context) <==> Reached(d, users[..n], context) || context == ForegroundContext(d, users[n])
  {
    var n := |users| - 1;
    assert forall u :: u in users <==> u in users[..n] || u == users[n];
  }

  lemma {:induction false} ShowAllReachesEveryUser(l: Look, dark: bool, users: seq<int32>, context: AccountContext)
    ensures
      var d := ShowAll(l, dark, users).display;
      && d == l.display.(usersParam := d.usersParam)
      && (if Reached(l.display, users, context)
          then context in d.usersParam && d.usersParam[context] == dark
          else (context in d.usersParam <==> context in l.display.usersParam)
               && (context in d.usersParam ==> d.usersParam[context] == l.display.usersParam[context]))
  {
    if users != [] {
      var n := |users| - 1;
      ShowAllReachesEveryUser(l, dark, users[..n], context);
      OneMoreUser(l.display, users, context);
    }
  }
}

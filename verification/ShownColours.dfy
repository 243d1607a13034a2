/** What the update callback leaves behind: the colour shown by every foreground context and the
    parameters a restart reads it from. */
module ShownColours {
  import opened Decimal
  import opened Accounts
  import opened SystemParameters
  import opened UiAppearance
  import opened Migration

  /** The parameter reads as the colour. */
  predicate Reads(p: Params, name: string, dark: bool) { name in p.values && p.values[name] == ColorName(dark) }

  lemma DarkModePrefix()
    ensures DottedPrefix(PERSIST_DARKMODE_KEY_FOR_NONE)
  {
    var prefixes := PARAM_PREFIXES;
    assert prefixes[0] in prefixes;
    PrefixShape(prefixes[0]);
  }

  /** Each context has a parameter of its own, and none is the one of the whole device. */
  lemma OwnParameter(a: AccountContext, b: AccountContext)
    ensures DarkModeKey(a) == DarkModeKey(b) <==> a == b
    ensures DarkModeKey(a) != PERSIST_DARKMODE_KEY
  {
    DarkModePrefix();
    if DarkModeKey(a) == DarkModeKey(b) {
      DottedKeyIsInjective(PERSIST_DARKMODE_KEY_FOR_NONE, a, PERSIST_DARKMODE_KEY_FOR_NONE, b);
    }
    var names := LEGACY_NAMES;
    assert names[0] in names;
    LegacyIsUndotted(names[0]);
    LegacyIsNoContextName(PERSIST_DARKMODE_KEY, PERSIST_DARKMODE_KEY_FOR_NONE, a);
  }

  /** Showing the colour to a list of users persists it for each of their contexts and no other. */
  lemma {:induction false} ShowAllPersists(l: Look, dark: bool, users: seq<int32>, context: AccountContext)
    ensures
      var p := ShowAll(l, dark, users).params;
      && p.refused == l.params.refused
      && (if Reached(l.display, users, context) && DarkModeKey(context) !in l.params.refused
          then Reads(p, DarkModeKey(context), dark)
          else Unchanged(l.params, p, DarkModeKey(context)))
      && Unchanged(l.params, p, PERSIST_DARKMODE_KEY)
  {
    if users != [] {
      var n := |users| - 1;
      var last := ForegroundContext(l.display, users[n]);
      ShowAllPersists(l, dark, users[..n], context);
      OneMoreUser(l.display, users, context);
      OwnParameter(context, last);
      OwnParameter(last, last);
    }
  }

  /** The users a scheduled colour is for. */
  function Audience(d: Display, userId: int32): seq<int32> {
    if |d.foregroundUsers| > 1 then d.foregroundUsers else [userId]
  }

  /** An accepted update shows the colour in the foreground context of every user it is for and stores it
      for that context and for the device, wherever the parameter can be written; no other context changes
      its colour or its parameter. A refused update changes nothing. */
  lemma UpdateReachesTheAudience(l: Look, dark: bool, userId: int32, context: AccountContext)
    ensures !l.display.accepting ==> UpdateDarkModeCallback(l, dark, userId) == l
    ensures l.display.accepting ==>
              var v := UpdateDarkModeCallback(l, dark, userId);
              var reached := Reached(l.display, Audience(l.display, userId), context);
              && (if reached then context in v.display.usersParam && v.display.usersParam[context] == dark
                  else (context in v.display.usersParam <==> context in l.display.usersParam)
                       && ShowsDark(v.display, context) == ShowsDark(l.display, context))
              && (if reached && DarkModeKey(context) !in l.params.refused
                  then Reads(v.params, DarkModeKey(context), dark)
                  else Unchanged(l.params, v.params, DarkModeKey(context)))
              && (PERSIST_DARKMODE_KEY !in l.params.refused ==> Reads(v.params, PERSIST_DARKMODE_KEY, dark))
  {
    var users := Audience(l.display, userId);
    var stored := PersistColor(l, dark);
    assert ShowAll(stored, dark, [userId]) == Show(stored, dark, ForegroundContext(l.display, userId)) by {
      assert [userId][..0] == [];
    }
    ShowAllReachesEveryUser(stored, dark, users, context);
    ShowAllPersists(stored, dark, users, context);
    OwnParameter(context, context);
  }

  /** A user with a sub-profile in the foreground is shown the colour there, and the user's base context keeps
      its own. */
  lemma ForegroundProfileIsReached(l: Look, dark: bool, userId: int32, profile: AccountContext)
    requires l.display.accepting && |l.display.foregroundUsers| <= 1
    requires userId in l.display.foreground && profile == AccountContext(userId, l.display.foreground[userId])
    ensures
      var v := UpdateDarkModeCallback(l, dark, userId);
      var base := CreateBaseContext(userId);
      && ShowsDark(v.display, profile) == dark
      && (profile.IsSubProfile() ==> ShowsDark(v.display, base) == ShowsDark(l.display, base))
  {
  }

  /** One without is shown it in the base context. */
  lemma BaseContextIsReached(l: Look, dark: bool, userId: int32)
    requires l.display.accepting && |l.display.foregroundUsers| <= 1 && userId !in l.display.foreground
    ensures ShowsDark(UpdateDarkModeCallback(l, dark, userId).display, CreateBaseContext(userId)) == dark
  {
  }
}

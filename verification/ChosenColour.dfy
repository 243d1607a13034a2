/** What the user's choice leaves in the parameters, context by context, also when it is cut short. */
module ChosenColours {
  import opened Decimal
  import opened Accounts
  import opened Schedule
  import opened SystemParameters
  import opened TemporaryColorMode
  import opened SettingData
  import opened UiAppearance
  import opened Migration
  import opened ShownColours
  import opened Startup
  import opened DarkMode
  import opened UserChoice

  // ---------- one context ----------

  lemma SavingKeepsOthers(p: Params, context: AccountContext, info: TempInfo, name: string)
    requires !RecordKey(name, context)
    ensures
      var q := SaveTempColorModeInfo(p, context, info);
      q.refused == p.refused && Unchanged(p, q, name)
  {
  }

  /** Recording an override touches no parameter but those of the record. */
  lemma SwitchKeepsOthers(w: World, context: AccountContext, dark: bool, now: Clock, name: string)
    requires !RecordKey(name, context)
    ensures
      var v := DoSwitchTemporaryColorMode(w, context, dark, now);
      v.temps.params.refused == w.temps.params.refused && Unchanged(w.temps.params, v.temps.params, name)
  {
  }

  lemma ColourKeysAreNoRecord(c: AccountContext, context: AccountContext)
    ensures !RecordKey(DarkModeKey(c), context) && !RecordKey(PERSIST_DARKMODE_KEY, context)
  {
    ContextKeyIsNoRecordKey(0, c, context);
    DeviceKeyIsNoRecordKey(context);
    assert DarkModeKey(c) == BuildUserParamKey(PARAM_PREFIXES[0], c);
  }

  /** The parameter of a context c after the choice for one context. */
  predicate Stores(p: Params, q: Params, chosen: bool, dark: bool, c: AccountContext) {
    if chosen && DarkModeKey(c) !in p.refused then Reads(q, DarkModeKey(c), dark)
    else Unchanged(p, q, DarkModeKey(c))
  }

  lemma ConfigureStores(
    w: World, context: AccountContext, dark: bool, now: Clock, granted: PutReply, c: AccountContext)
    ensures
      var v := ConfigurePersistence(w, context, dark, now, granted).0;
      && v.temps.params.refused == w.temps.params.refused
      && Stores(w.temps.params, v.temps.params, c == context, dark, c)
      && Unchanged(w.temps.params, v.temps.params, PERSIST_DARKMODE_KEY)
  {
    var switched := DoSwitchTemporaryColorMode(w, context, dark, now);
    var shown := WithLook(switched, Show(LookOf(switched), dark, context));
    ColourKeysAreNoRecord(c, context);
    SwitchKeepsOthers(w, context, dark, now, DarkModeKey(c));
    SwitchKeepsOthers(w, context, dark, now, PERSIST_DARKMODE_KEY);
    OwnParameter(c, context);
    OwnParameter(context, c);
    NotifySameGround(shown, context, dark, granted);
  }

  // ---------- the loop ----------

  /** The loop comes to the context: every user before it can be persisted. */
  predicate Attempted(w: World, users: seq<int32>, context: AccountContext) {
    exists i :: 0 <= i < |users| && ForegroundContext(w.display, users[i]) == context && Persistable(w, users[..i])
  }

  lemma OneMoreAttempt(w: World, users: seq<int32>, context: AccountContext)
    requires users != []
    ensures
      var n := |users| - 1;
      Attempted(w, users, context)
      <==> || Attempted(w, users[..n], context)
           || (Persistable(w, users[..n]) && ForegroundContext(w.display, users[n]) == context)
  {
    var n := |users| - 1;
    forall i | 0 <= i < n
      ensures users[..n][..i] == users[..i] && users[..n][i] == users[i]
    {
    }
    if i :| 0 <= i < |users| && ForegroundContext(w.display, users[i]) == context && Persistable(w, users[..i]) {
      if i < n {
        assert ForegroundContext(w.display, users[..n][i]) == context && Persistable(w, users[..n][..i]);
      }
    }
    if i :| 0 <= i < n && ForegroundContext(w.display, users[..n][i]) == context && Persistable(w, users[..n][..i]) {
      assert ForegroundContext(w.display, users[i]) == context && Persistable(w, users[..i]);
    }
  }

  /** What the choice makes of a context: chosen, it shows the colour, records it against its schedule and has
      it stored where it can be; otherwise all is as it was. */
  ghost predicate Takes(w: World, v: World, chosen: bool, dark: bool, now: Clock, c: AccountContext) {
    && SameGround(w, v)
    && (if chosen then
          ShowsDark(v.display, c) == dark && InfoOf(v.temps.infos, c) == RecordAfter(w, c, dark, now)
        else
          && ShowsDark(v.display, c) == ShowsDark(w.display, c)
          && InfoOf(v.temps.infos, c) == InfoOf(w.temps.infos, c))
    && Stores(w.temps.params, v.temps.params, chosen, dark, c)
  }

  lemma ConfigureTakes(
    w: World, context: AccountContext, dark: bool, now: Clock, granted: PutReply, c: AccountContext)
    ensures Takes(w, ConfigurePersistence(w, context, dark, now, granted).0, c == context, dark, now, c)
  {
    ConfigureRecords(w, context, dark, now, granted);
    ConfigureStores(w, context, dark, now, granted, c);
  }

  lemma TakesOn(w: World, u: World, v: World, first: bool, second: bool, dark: bool, now: Clock, c: AccountContext)
    requires Takes(w, u, first, dark, now, c) && Takes(u, v, second, dark, now, c)
    ensures Takes(w, v, first || second, dark, now, c)
  {
  }

  lemma {:induction false} LoopTakes(
    w: World, users: seq<int32>, dark: bool, now: Clock, granted: PutReply, c: AccountContext)
    ensures
      var (v, ok) := ConfigureAll(w, users, dark, now, granted);
      && Takes(w, v, Attempted(w, users, c), dark, now, c) && (ok <==> Persistable(w, users))
      && Unchanged(w.temps.params, v.temps.params, PERSIST_DARKMODE_KEY)
  {
    LoopReachesEveryUser(w, users, dark, now, granted, c);
    if users != [] {
      var n := |users| - 1;
      var (done, ok) := ConfigureAll(w, users[..n], dark, now, granted);
      LoopTakes(w, users[..n], dark, now, granted, c);
      OneMoreAttempt(w, users, c);
      if ok {
        var last := ForegroundContext(done.display, users[n]);
        ConfigureTakes(done, last, dark, now, granted, c);
        ConfigureStores(done, last, dark, now, granted, c);
        TakesOn(w, done, ConfigureAll(w, users, dark, now, granted).0, Attempted(w, users[..n], c), c == last, dark,
                now, c);
      }
    }
  }

  // ---------- the setter ----------

  /** The contexts the setter comes to: with several users in the foreground those of the loop, else its own. */
  predicate Chosen(w: World, context: AccountContext, c: AccountContext) {
    if |w.display.foregroundUsers| > 1 then Attempted(w, w.display.foregroundUsers, c) else c == context
  }

  /** A request that is taken stores the colour for the device and for every context the setter comes to, which
      shows it and records it against its schedule; no other context changes. It succeeds exactly when the
      parameter of each such context can be written. Any other request changes nothing. */
  lemma SetterStores(
    w: World, context: AccountContext, mode: ColorMode, now: Clock, granted: PutReply, c: AccountContext)
    ensures
      var (v, res) := OnSetDarkMode(w, context, mode, now, granted);
      var dark := mode == DARK;
      if mode == OTHER then v == w && res == INVALID_ARG
      else if !w.display.accepting then v == w && res == SYS_ERR
      else
        && Takes(w, v, Chosen(w, context, c), dark, now, c)
        && (PERSIST_DARKMODE_KEY !in w.temps.params.refused ==> Reads(v.temps.params, PERSIST_DARKMODE_KEY, dark))
        && (res == SUCCEEDED
            <==> if |w.display.foregroundUsers| > 1 then Persistable(w, w.display.foregroundUsers)
                 else DarkModeKey(context) !in w.temps.params.refused)
        && (res == SUCCEEDED || res == SYS_ERR)
  {
    if mode != OTHER && w.display.accepting {
      var w0 := WithLook(w, PersistColor(LookOf(w), mode == DARK));
      OwnParameter(c, c);
      assert Takes(w, w0, false, mode == DARK, now, c);
      if |w.display.foregroundUsers| > 1 {
        LoopTakes(w0, w.display.foregroundUsers, mode == DARK, now, granted, c);
        SameAttempts(w, w0, w.display.foregroundUsers, c);
        var v := ConfigureAll(w0, w.display.foregroundUsers, mode == DARK, now, granted).0;
        TakesOn(w, w0, v, false, Chosen(w, context, c), mode == DARK, now, c);
      } else {
        ConfigureTakes(w0, context, mode == DARK, now, granted, c);
        ConfigureStores(w0, context, mode == DARK, now, granted, c);
        var v := ConfigurePersistence(w0, context, mode == DARK, now, granted).0;
        TakesOn(w, w0, v, false, c == context, mode == DARK, now, c);
        ConfigureRecords(w0, context, mode == DARK, now, granted);
      }
    }
  }

  /** The request of the user succeeds exactly when it is for the other colour than the one shown, updates are
      accepted, and the parameter of every context it comes to can be written. */
  lemma RequestSucceedsExactly(w: World, context: AccountContext, mode: ColorMode, now: Clock, granted: PutReply)
    ensures
      var (v, res) := SetDarkMode(w, context, mode, now, granted);
      && (res == SUCCEEDED
          <==> && (mode == DARK || mode == LIGHT) && (mode == DARK) != ShowsDark(w.display, context)
               && w.display.accepting
               && (if |w.display.foregroundUsers| > 1 then Persistable(w, w.display.foregroundUsers)
                   else DarkModeKey(context) !in w.temps.params.refused))
      && (mode != OTHER && (mode == DARK) == ShowsDark(w.display, context) ==> v == w)
  {
    SetterStores(w, context, mode, now, granted, context);
  }

  lemma SameAttempts(w: World, v: World, users: seq<int32>, c: AccountContext)
    requires v.display == w.display && v.temps.params.refused == w.temps.params.refused
    ensures Attempted(v, users, c) <==> Attempted(w, users, c)
    ensures Persistable(v, users) <==> Persistable(w, users)
  {
    forall i | 0 <= i < |users|
      ensures Persistable(v, users[..i]) <==> Persistable(w, users[..i])
    {
    }
  }
}

/** The colours of all contexts read back when the service starts (DoInitProcess of ui_appearance_ability.cpp),
    and which parameters that and the colour writes leave alone. */
module Startup {
  import opened Decimal
  import opened Accounts
  import opened SystemParameters
  import opened TemporaryColorMode
  import opened UiAppearance
  import opened Migration
  import opened ShownColours

  /** The parameter of a context; a sub-profile without one falls back on its user's, which it takes over. */
  function LoadContextParam(p: Params, context: AccountContext, prefix: string, default: string): (Params, string) {
    var name := BuildUserParamKey(prefix, context);
    match GetParameter(p, name, "")
    case Some(v) => (p, v)
    case None =>
      if !context.IsSubProfile() then (p, default)
      else
        match GetParameter(p, BuildUserParamKey(prefix, CreateBaseContext(context.userId)), default)
        case Some(v) => (SetParameter(p, name, v), v)
        case None => (p, default)
  }

  /** The three parameters of one context, and the colour among them. */
  function LoadContext(p: Params, context: AccountContext, valid: string -> bool): (Params, string) {
    var (p1, color) := LoadContextParam(p, context, PERSIST_DARKMODE_KEY_FOR_NONE, ColorName(false));
    var p2 := LoadContextParam(p1, context, FONT_SCAL_FOR_NONE, BASE_SCALE).0;
    (LoadContextParam(p2, context, FONT_WEIGHT_SCAL_FOR_NONE, DefaultFontWeight(p2, BASE_SCALE, valid)).0, color)
  }

  function InitContext(l: Look, context: AccountContext, valid: string -> bool): Look {
    var (params, color) := LoadContext(l.params, context, valid);
    Look(Remember(l.display, color == ColorName(true), context), params)
  }

  function DoInitProcess(l: Look, contexts: seq<AccountContext>, valid: string -> bool): Look {
    if contexts == [] then l
    else
      var n := |contexts| - 1;
      InitContext(DoInitProcess(l, contexts[..n], valid), contexts[n], valid)
  }

  // ---------- names that are apart ----------

  predicate RecordKey(name: string, context: AccountContext) {
    name == FlagKey(context) || name == StartKey(context) || name == EndKey(context)
  }

  lemma PrefixesByLength()
    ensures forall i, j | 0 <= i < 3 <= j < 6 :: PARAM_PREFIXES[i] != PARAM_PREFIXES[j]
    ensures forall i | 0 <= i < 6 :: PARAM_PREFIXES[i] in PARAM_PREFIXES
  {
    var p := PARAM_PREFIXES;
    assert |p[0]| < |p[1]| < |p[2]| < |p[3]| < |p[5]| < |p[4]|;
  }

  /** No parameter of a colour or a font is one of an override's record, whatever the contexts. */
  lemma ContextKeyIsNoRecordKey(i: nat, c: AccountContext, context: AccountContext)
    requires i < 3
    ensures !RecordKey(BuildUserParamKey(PARAM_PREFIXES[i], c), context)
  {
    PrefixesByLength();
    var name := BuildUserParamKey(PARAM_PREFIXES[i], c);
    if j: nat :| 3 <= j < 6 && name == BuildUserParamKey(PARAM_PREFIXES[j], context) {
      ParamKeyIsInjective(PARAM_PREFIXES[i], c, PARAM_PREFIXES[j], context);
    }
    assert FlagKey(context) == BuildUserParamKey(PARAM_PREFIXES[3], context);
    assert StartKey(context) == BuildUserParamKey(PARAM_PREFIXES[4], context);
    assert EndKey(context) == BuildUserParamKey(PARAM_PREFIXES[5], context);
  }

  lemma DeviceKeyIsNoRecordKey(context: AccountContext)
    ensures !RecordKey(PERSIST_DARKMODE_KEY, context)
  {
    PrefixesByLength();
    var names := LEGACY_NAMES;
    assert names[0] in names;
    LegacyIsUndotted(names[0]);
    forall j: nat | 3 <= j < 6
      ensures PERSIST_DARKMODE_KEY != BuildUserParamKey(PARAM_PREFIXES[j], context)
    {
      PrefixShape(PARAM_PREFIXES[j]);
      LegacyIsNoContextName(PERSIST_DARKMODE_KEY, PARAM_PREFIXES[j], context);
    }
    assert FlagKey(context) == BuildUserParamKey(PARAM_PREFIXES[3], context);
    assert StartKey(context) == BuildUserParamKey(PARAM_PREFIXES[4], context);
    assert EndKey(context) == BuildUserParamKey(PARAM_PREFIXES[5], context);
  }

  /** The parameters of the record are as they were. */
  ghost predicate SameRecord(p: Params, q: Params, context: AccountContext) {
    q.refused == p.refused && forall name | RecordKey(name, context) :: Unchanged(p, q, name)
  }

  lemma SameRecordIsStored(p: Params, q: Params, context: AccountContext)
    requires SameRecord(p, q, context)
    ensures Stored(q, context) == Stored(p, context)
  {
    assert Unchanged(p, q, FlagKey(context)) && Unchanged(p, q, StartKey(context)) && Unchanged(p, q, EndKey(context));
  }

  // ---------- the colour writes ----------

  lemma ShowKeepsRecord(l: Look, dark: bool, c: AccountContext, context: AccountContext)
    ensures SameRecord(l.params, Show(l, dark, c).params, context)
    ensures SameRecord(l.params, PersistColor(l, dark).params, context)
  {
    ContextKeyIsNoRecordKey(0, c, context);
    DeviceKeyIsNoRecordKey(context);
  }

  lemma {:induction false} ShowAllKeepsRecord(l: Look, dark: bool, users: seq<int32>, context: AccountContext)
    ensures SameRecord(l.params, ShowAll(l, dark, users).params, context)
  {
    if users != [] {
      var n := |users| - 1;
      ShowAllKeepsRecord(l, dark, users[..n], context);
      ShowKeepsRecord(ShowAll(l, dark, users[..n]), dark, ForegroundContext(l.display, users[n]), context);
    }
  }

  /** A colour update touches no record of an override. */
  lemma UpdateKeepsRecord(l: Look, dark: bool, userId: int32, context: AccountContext)
    ensures SameRecord(l.params, UpdateDarkModeCallback(l, dark, userId).params, context)
  {
    var stored := PersistColor(l, dark);
    var c := ForegroundContext(l.display, userId);
    ShowKeepsRecord(l, dark, c, context);
    ShowKeepsRecord(stored, dark, c, context);
    ShowAllKeepsRecord(stored, dark, l.display.foregroundUsers, context);
  }

  // ---------- reading back ----------

  /** Reading one parameter back writes at most that one, and not when it is set. */
  lemma LoadParamEffect(p: Params, context: AccountContext, prefix: string, default: string)
    ensures
      var (q, v) := LoadContextParam(p, context, prefix, default);
      var own := BuildUserParamKey(prefix, context);
      && q.refused == p.refused
      && (forall name :: name != own ==> Unchanged(p, q, name))
      && (IsSet(p, own) ==> q == p && v == p.values[own])
  {
  }

  lemma LoadContextFrame(p: Params, c: AccountContext, valid: string -> bool, name: string)
    requires name != BuildUserParamKey(FONT_SCAL_FOR_NONE, c) && name != BuildUserParamKey(FONT_WEIGHT_SCAL_FOR_NONE, c)
    ensures
      var (q, color) := LoadContext(p, c, valid);
      && q.refused == p.refused
      && (name != DarkModeKey(c) ==> Unchanged(p, q, name))
      && (IsSet(p, DarkModeKey(c)) ==> Unchanged(p, q, name) && color == p.values[DarkModeKey(c)])
  {
    var p1 := LoadContextParam(p, c, PERSIST_DARKMODE_KEY_FOR_NONE, ColorName(false)).0;
    var p2 := LoadContextParam(p1, c, FONT_SCAL_FOR_NONE, BASE_SCALE).0;
    LoadParamEffect(p, c, PERSIST_DARKMODE_KEY_FOR_NONE, ColorName(false));
    LoadParamEffect(p1, c, FONT_SCAL_FOR_NONE, BASE_SCALE);
    LoadParamEffect(p2, c, FONT_WEIGHT_SCAL_FOR_NONE, DefaultFontWeight(p2, BASE_SCALE, valid));
    assert Unchanged(p1, p2, name);
  }

  lemma LoadContextEffect(p: Params, c: AccountContext, valid: string -> bool, context: AccountContext)
    ensures
      var (q, color) := LoadContext(p, c, valid);
      && SameRecord(p, q, context)
      && (IsSet(p, DarkModeKey(c)) ==> Unchanged(p, q, DarkModeKey(c)) && color == p.values[DarkModeKey(c)])
      && (c != context ==> Unchanged(p, q, DarkModeKey(context)))
  {
    var q := LoadContext(p, c, valid).0;
    forall name | RecordKey(name, context)
      ensures Unchanged(p, q, name)
    {
      ContextKeyIsNoRecordKey(0, c, context);
      ContextKeyIsNoRecordKey(1, c, context);
      ContextKeyIsNoRecordKey(2, c, context);
      LoadContextFrame(p, c, valid, name);
    }
    FontKeyIsNoColourKey(1, c, context);
    FontKeyIsNoColourKey(2, c, context);
    LoadContextFrame(p, c, valid, DarkModeKey(context));
    FontKeyIsNoColourKey(1, c, c);
    FontKeyIsNoColourKey(2, c, c);
    LoadContextFrame(p, c, valid, DarkModeKey(c));
    OwnParameter(context, c);
  }

  lemma InitContextEffect(l: Look, c: AccountContext, valid: string -> bool, context: AccountContext, dark: bool)
    requires Reads(l.params, DarkModeKey(context), dark)
    ensures
      var v := InitContext(l, c, valid);
      && SameRecord(l.params, v.params, context) && Reads(v.params, DarkModeKey(context), dark)
      && v.display == l.display.(usersParam := v.display.usersParam)
      && (c == context ==> context in v.display.usersParam && v.display.usersParam[context] == dark)
      && (c != context && context in l.display.usersParam ==>
            context in v.display.usersParam && v.display.usersParam[context] == l.display.usersParam[context])
  {
    LoadContextEffect(l.params, c, valid, context);
  }

  lemma FontKeyIsNoColourKey(i: nat, c: AccountContext, context: AccountContext)
    requires i == 1 || i == 2
    ensures BuildUserParamKey(PARAM_PREFIXES[i], c) != DarkModeKey(context)
  {
    PrefixesByLength();
    var p := PARAM_PREFIXES;
    assert |p[0]| < |p[i]|;
    if BuildUserParamKey(p[i], c) == BuildUserParamKey(p[0], context) {
      ParamKeyIsInjective(p[i], c, p[0], context);
    }
  }

  /** A start of the service over any list of contexts restores the stored colour of each of them and leaves
      the records of the overrides as they were. */
  lemma {:induction false} InitRestoresColour(
    l: Look, contexts: seq<AccountContext>, valid: string -> bool, context: AccountContext, dark: bool)
    requires Reads(l.params, DarkModeKey(context), dark)
    ensures
      var v := DoInitProcess(l, contexts, valid);
      && SameRecord(l.params, v.params, context) && Reads(v.params, DarkModeKey(context), dark)
      && v.display == l.display.(usersParam := v.display.usersParam)
      && (context in contexts ==> context in v.display.usersParam && v.display.usersParam[context] == dark)
  {
    if contexts != [] {
      var n := |contexts| - 1;
      InitRestoresColour(l, contexts[..n], valid, context, dark);
      InitContextEffect(DoInitProcess(l, contexts[..n], valid), contexts[n], valid, context, dark);
      assert forall c :: c in contexts <==> c in contexts[..n] || c == contexts[n];
    }
  }

  /** Even without a stored colour the records are left alone. */
  lemma {:induction false} InitKeepsRecords(
    l: Look, contexts: seq<AccountContext>, valid: string -> bool, context: AccountContext)
    ensures
      var v := DoInitProcess(l, contexts, valid);
      && SameRecord(l.params, v.params, context) && v.display == l.display.(usersParam := v.display.usersParam)
  {
    if contexts != [] {
      var n := |contexts| - 1;
      InitKeepsRecords(l, contexts[..n], valid, context);
      LoadContextEffect(DoInitProcess(l, contexts[..n], valid).params, contexts[n], valid, context);
    }
  }

  // ---------- the parameters of every context ----------

  /** What a context has under a prefix: its own parameter, else for a sub-profile its user's, else the default. */
  function StoredParam(p: Params, prefix: string, default: string, context: AccountContext): string {
    var own := BuildUserParamKey(prefix, context);
    var users := BuildUserParamKey(prefix, CreateBaseContext(context.userId));
    if !Empty(p, own) then p.values[own]
    else if context.IsSubProfile() && !Empty(p, users) then p.values[users]
    else default
  }

  /** A sub-profile whose parameter is taken over where it is missing. */
  predicate Backfilled(p: Params, prefix: string, context: AccountContext) {
    var own := BuildUserParamKey(prefix, context);
    context.IsSubProfile() && Empty(p, own) && own !in p.refused
  }

  /** From p to q the context has lost nothing under the prefix; `turn` says whether it has had its own turn, in which
      a sub-profile takes over what it had from elsewhere. */
  predicate KeepsParam(p: Params, q: Params, prefix: string, default: string, context: AccountContext, turn: bool) {
    var own := BuildUserParamKey(prefix, context);
    var users := BuildUserParamKey(prefix, CreateBaseContext(context.userId));
    && q.refused == p.refused
    && (context.IsSubProfile() ==> Unchanged(p, q, users))
    && (if Backfilled(p, prefix, context) && turn then
          own in q.values && q.values[own] == StoredParam(p, prefix, default, context)
        else Unchanged(p, q, own))
  }

  lemma KeptParam(
    p: Params, q: Params, r: Params, prefix: string, default: string, context: AccountContext, first: bool,
    second: bool)
    requires default != "" && KeepsParam(p, q, prefix, default, context, first)
    requires KeepsParam(q, r, prefix, default, context, second)
    ensures StoredParam(q, prefix, default, context) == StoredParam(p, prefix, default, context)
    ensures KeepsParam(p, r, prefix, default, context, first || second)
  {
  }

  /** Reading one parameter of the context c back, as any parameter of any context sees it. */
  lemma LoadParamKeeps(
    p: Params, c: AccountContext, loaded: string, its: string, prefix: string, default: string,
    context: AccountContext)
    requires DottedPrefix(loaded) && DottedPrefix(prefix) && default != "" && (loaded == prefix ==> its == default)
    ensures
      var (q, v) := LoadContextParam(p, c, loaded, its);
      && KeepsParam(p, q, prefix, default, context, loaded == prefix && c == context)
      && (loaded == prefix && c == context ==> v == StoredParam(p, prefix, default, context))
  {
    var users := CreateBaseContext(context.userId);
    if BuildUserParamKey(loaded, c) == BuildUserParamKey(prefix, context) {
      DottedKeyIsInjective(loaded, c, prefix, context);
    }
    if BuildUserParamKey(loaded, c) == BuildUserParamKey(prefix, users) {
      DottedKeyIsInjective(loaded, c, prefix, users);
    }
  }

  /** The default under each of the three prefixes: light, 1, and the device's standard weight where it is valid. */
  function DefaultOf(p: Params, prefix: string, valid: string -> bool): (default: string)
    ensures default != ""
  {
    if prefix == PERSIST_DARKMODE_KEY_FOR_NONE then "light"
    else if prefix == FONT_SCAL_FOR_NONE then "1"
    else if !Empty(p, STANDARD_FONT_WEIGHT) && valid(p.values[STANDARD_FONT_WEIGHT]) then p.values[STANDARD_FONT_WEIGHT]
    else "1"
  }

  lemma WeightDefault(p: Params, valid: string -> bool)
    ensures DefaultFontWeight(p, BASE_SCALE, valid) == DefaultOf(p, FONT_WEIGHT_SCAL_FOR_NONE, valid)
  {
    PrefixesDiffer();
  }

  /** No turn changes a name that is no parameter of a context. */
  lemma LoadParamKeepsStandard(p: Params, c: AccountContext, loaded: string, its: string)
    requires DottedPrefix(loaded)
    ensures Unchanged(p, LoadContextParam(p, c, loaded, its).0, STANDARD_FONT_WEIGHT)
  {
    LegacyNames();
    LegacyIsUndotted(STANDARD_FONT_WEIGHT);
    LegacyIsNoContextName(STANDARD_FONT_WEIGHT, loaded, c);
  }

  /** The turn of one context: its three parameters are read back, each with its default. */
  lemma LoadContextKeeps(
    p: Params, c: AccountContext, valid: string -> bool, prefix: string, default: string, context: AccountContext)
    requires prefix in MIGRATED_PREFIXES && default == DefaultOf(p, prefix, valid)
    ensures
      var (q, color) := LoadContext(p, c, valid);
      && KeepsParam(p, q, prefix, default, context, c == context)
      && Unchanged(p, q, STANDARD_FONT_WEIGHT)
  {
    var colour, size, weight := PERSIST_DARKMODE_KEY_FOR_NONE, FONT_SCAL_FOR_NONE, FONT_WEIGHT_SCAL_FOR_NONE;
    MigratedPrefixesAreDotted();
    var p1 := LoadContextParam(p, c, colour, ColorName(false)).0;
    LoadParamKeepsStandard(p, c, colour, ColorName(false));
    var p2 := LoadContextParam(p1, c, size, BASE_SCALE).0;
    LoadParamKeepsStandard(p1, c, size, BASE_SCALE);
    WeightDefault(p2, valid);
    var q := LoadContextParam(p2, c, weight, DefaultFontWeight(p2, BASE_SCALE, valid)).0;
    LoadParamKeepsStandard(p2, c, weight, DefaultFontWeight(p2, BASE_SCALE, valid));
    LoadParamKeeps(p, c, colour, ColorName(false), prefix, default, context);
    LoadParamKeeps(p1, c, size, BASE_SCALE, prefix, default, context);
    LoadParamKeeps(p2, c, weight, DefaultFontWeight(p2, BASE_SCALE, valid), prefix, default, context);
    KeptParam(p, p1, p2, prefix, default, context, colour == prefix && c == context, size == prefix && c == context);
    KeptParam(
      p, p2, q, prefix, default, context, (colour == prefix || size == prefix) && c == context,
      weight == prefix && c == context);
    OneOfThree(prefix);
  }

  lemma OneOfThree(prefix: string)
    requires prefix in MIGRATED_PREFIXES
    ensures prefix == PERSIST_DARKMODE_KEY_FOR_NONE || prefix == FONT_SCAL_FOR_NONE
            || prefix == FONT_WEIGHT_SCAL_FOR_NONE
  {
  }

  lemma MigratedPrefixesAreDotted()
    ensures DottedPrefix(PERSIST_DARKMODE_KEY_FOR_NONE) && DottedPrefix(FONT_SCAL_FOR_NONE)
    ensures DottedPrefix(FONT_WEIGHT_SCAL_FOR_NONE)
    ensures PERSIST_DARKMODE_KEY_FOR_NONE in MIGRATED_PREFIXES && FONT_SCAL_FOR_NONE in MIGRATED_PREFIXES
    ensures FONT_WEIGHT_SCAL_FOR_NONE in MIGRATED_PREFIXES
    ensures PERSIST_DARKMODE_KEY_FOR_NONE != FONT_SCAL_FOR_NONE
    ensures PERSIST_DARKMODE_KEY_FOR_NONE != FONT_WEIGHT_SCAL_FOR_NONE
    ensures FONT_SCAL_FOR_NONE != FONT_WEIGHT_SCAL_FOR_NONE
  {
    PrefixesDiffer();
    var prefixes := MIGRATED_PREFIXES;
    assert prefixes[0] in prefixes && prefixes[1] in prefixes && prefixes[2] in prefixes;
  }

  /** The start of the service over any list of contexts keeps every parameter that is set. A listed sub-profile
      without one of its own takes over its user's, or the default, under each of the three prefixes. */
  lemma {:induction false} InitTakesOver(
    l: Look, contexts: seq<AccountContext>, valid: string -> bool, prefix: string, context: AccountContext)
    requires prefix in MIGRATED_PREFIXES
    ensures
      var v := DoInitProcess(l, contexts, valid);
      && KeepsParam(
           l.params, v.params, prefix, DefaultOf(l.params, prefix, valid), context, context in contexts)
      && Unchanged(l.params, v.params, STANDARD_FONT_WEIGHT)
  {
    if contexts != [] {
      var n := |contexts| - 1;
      var before := DoInitProcess(l, contexts[..n], valid);
      var default := DefaultOf(l.params, prefix, valid);
      InitTakesOver(l, contexts[..n], valid, prefix, context);
      LoadContextKeeps(before.params, contexts[n], valid, prefix, default, context);
      KeptParam(
        l.params, before.params, DoInitProcess(l, contexts, valid).params, prefix, default, context,
        context in contexts[..n], contexts[n] == context);
      assert context in contexts <==> context in contexts[..n] || context == contexts[n];
    }
  }

  // ---------- the colour of every context ----------

  /** The colour a context has in the parameters, light where there is none. */
  function StoredColour(p: Params, context: AccountContext): string {
    StoredParam(p, PERSIST_DARKMODE_KEY_FOR_NONE, "light", context)
  }

  lemma LoadContextColour(p: Params, c: AccountContext, valid: string -> bool)
    ensures LoadContext(p, c, valid).1 == StoredColour(p, c)
  {
    MigratedPrefixesAreDotted();
    LoadParamKeeps(
      p, c, PERSIST_DARKMODE_KEY_FOR_NONE, ColorName(false), PERSIST_DARKMODE_KEY_FOR_NONE, "light", c);
  }

  lemma KeptColour(p: Params, q: Params, context: AccountContext, turn: bool)
    requires KeepsParam(p, q, PERSIST_DARKMODE_KEY_FOR_NONE, "light", context, turn)
    ensures StoredColour(q, context) == StoredColour(p, context)
  {
  }

  lemma InitKeepsColour(l: Look, contexts: seq<AccountContext>, valid: string -> bool, context: AccountContext)
    ensures
      var v := DoInitProcess(l, contexts, valid);
      && StoredColour(v.params, context) == StoredColour(l.params, context)
      && KeepsParam(l.params, v.params, PERSIST_DARKMODE_KEY_FOR_NONE, "light", context, context in contexts)
  {
    MigratedPrefixesAreDotted();
    InitTakesOver(l, contexts, valid, PERSIST_DARKMODE_KEY_FOR_NONE, context);
    KeptColour(l.params, DoInitProcess(l, contexts, valid).params, context, context in contexts);
  }

  lemma InitContextShows(l: Look, c: AccountContext, valid: string -> bool, context: AccountContext)
    ensures
      var v := InitContext(l, c, valid);
      if c == context then
        context in v.display.usersParam
        && v.display.usersParam[context] == (StoredColour(l.params, context) == "dark")
      else
        && (context in v.display.usersParam <==> context in l.display.usersParam)
        && (context in l.display.usersParam ==> v.display.usersParam[context] == l.display.usersParam[context])
  {
    LoadContextColour(l.params, c, valid);
  }

  /** After the start of the service every listed context is remembered with the colour stored for it: its own,
      a sub-profile's user's, or light where neither is set. Contexts that are not listed keep theirs. */
  lemma {:induction false} InitShowsEach(
    l: Look, contexts: seq<AccountContext>, valid: string -> bool, context: AccountContext)
    ensures
      var v := DoInitProcess(l, contexts, valid);
      && (context in contexts ==>
            context in v.display.usersParam
            && v.display.usersParam[context] == (StoredColour(l.params, context) == "dark"))
      && (context !in contexts ==> ShowsDark(v.display, context) == ShowsDark(l.display, context))
      && v.params.refused == l.params.refused
  {
    InitKeepsColour(l, contexts, valid, context);
    if contexts != [] {
      var n := |contexts| - 1;
      InitShowsEach(l, contexts[..n], valid, context);
      InitKeepsColour(l, contexts[..n], valid, context);
      InitContextShows(DoInitProcess(l, contexts[..n], valid), contexts[n], valid, context);
      assert context in contexts <==> context in contexts[..n] || context == contexts[n];
    }
  }

  /** A sub-profile without a colour of its own takes over its user's, shows it and stores it. */
  lemma InitTakesUsersColour(
    l: Look, contexts: seq<AccountContext>, valid: string -> bool, context: AccountContext, dark: bool)
    requires context.IsSubProfile() && Reads(l.params, DarkModeKey(CreateBaseContext(context.userId)), dark)
    requires Empty(l.params, DarkModeKey(context)) && DarkModeKey(context) !in l.params.refused
    ensures
      var v := DoInitProcess(l, contexts, valid);
      && Reads(v.params, DarkModeKey(CreateBaseContext(context.userId)), dark)
      && (if context in contexts then
            ShowsDark(v.display, context) == dark && Reads(v.params, DarkModeKey(context), dark)
          else Empty(v.params, DarkModeKey(context)))
  {
    InitShowsEach(l, contexts, valid, context);
    InitKeepsColour(l, contexts, valid, context);
  }
}

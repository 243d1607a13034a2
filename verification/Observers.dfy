/** Settings as they reach the memory: the sunset/sunrise pair through its two observers and the load
    of a context. */
module Observers {
  import opened Decimal
  import opened Errors
  import opened Accounts
  import opened Schedule
  import opened SettingData
  import opened DarkMode

  // ---------- the pair ----------

  /** Each observer leaves the sunset before the sunrise, whatever it found. */
  lemma ObserversKeepOrder(state: DarkModeState, value: int32)
    ensures TakeSunset(state, value).sunset < TakeSunset(state, value).sunrise
    ensures TakeSunrise(state, value).sunset < TakeSunrise(state, value).sunrise
  {
  }

  /** The pairs that survive the sunset observer followed by the sunrise observer. */
  predicate Survives(state: DarkModeState, sunset: int32, sunrise: int32) {
    sunset < sunrise && (sunset < state.sunrise || sunset == SUNSET_TIME_DEFAULT)
  }

  lemma PairSurvivesExactly(state: DarkModeState, sunset: int32, sunrise: int32)
    ensures
      var taken := TakeSunrise(TakeSunset(state, sunset), sunrise);
      && ((taken.sunset, taken.sunrise) == (sunset, sunrise) <==> Survives(state, sunset, sunrise))
      && taken == state.(sunset := taken.sunset, sunrise := taken.sunrise)
  {
  }

  /** With a sunrise at 5:00 in memory the stored pair 16:40 and 6:00 is lost: the sunset observer resets
      both times and the sunrise observer then replaces one of them. */
  lemma StoredPairIsLost(state: DarkModeState)
    requires state.sunset == 60 && state.sunrise == 300
    ensures
      var taken := TakeSunrise(TakeSunset(state, 1000), 1800);
      (taken.sunset, taken.sunrise) == (SUNSET_TIME_DEFAULT, 1800)
  {
  }

  lemma AutoChangeKeepsSettings(
    w: World, context: AccountContext, need: bool, dark: bool, reset: bool, boot: bool, env: Env)
    ensures
      var v := OnStateChangeToCustomAutoMode(w, context, need, dark, reset, boot, env).w;
      v.states == w.states && v.settings == w.settings
  {
    var times := Effective(StateOf(w, context));
    var timed := CreateOrUpdateTimers(w, times, context, env).0;
    ScheduleUpdateKeepsSettings(timed, Within(times, env.now), context, reset, boot, env.now);
  }

  lemma AllDayChangeKeepsSettings(
    w: World, context: AccountContext, dark: bool, need: bool, reset: bool, boot: bool, env: Env)
    ensures
      var v := OnStateChangeToAllDayMode(w, context, dark, need, reset, boot, env).w;
      v.states == w.states && v.settings == w.settings
  {
  }

  lemma ScheduleUpdateKeepsSettings(w: World, dark: bool, c: AccountContext, reset: bool, boot: bool, now: Clock)
    ensures
      var v := UpdateDarkModeSchedule(w, dark, c, reset, boot, now);
      v.states == w.states && v.settings == w.settings
  {
  }

  lemma StateChangeKeepsSettings(
    w: World, context: AccountContext, need: bool, dark: bool, reset: bool, boot: bool, env: Env)
    requires context in w.states
    ensures
      var v := OnStateChange(w, context, need, dark, reset, boot, env).w;
      v.states == w.states && v.settings == w.settings
  {
    assert w.states[context := w.states[context]] == w.states;
    AutoChangeKeepsSettings(w, context, need, dark, reset, boot, env);
    AllDayChangeKeepsSettings(w, context, false, need, reset, boot, env);
    AllDayChangeKeepsSettings(w, context, true, need, reset, boot, env);
  }

  /** The two observers one after the other take over what the store holds under the context's own keys. */
  lemma ObserversTakePair(w: World, context: AccountContext, sunset: int32, sunrise: int32, first: Env, second: Env)
    requires
      var key := BuildSettingKey(SETTING_DARK_MODE_SUN_SET, context);
      GetInt32ValueStrictly(w.settings, key, SUNSET_TIME_DEFAULT, context.userId).1 == sunset
    requires
      var key := BuildSettingKey(SETTING_DARK_MODE_SUN_RISE, context);
      GetInt32ValueStrictly(w.settings, key, SUNRISE_TIME_DEFAULT, context.userId).1 == sunrise
    ensures
      var sunsetKey := BuildSettingKey(SETTING_DARK_MODE_SUN_SET, context);
      var sunriseKey := BuildSettingKey(SETTING_DARK_MODE_SUN_RISE, context);
      var after := SunriseTimeUpdate(SunsetTimeUpdate(w, sunsetKey, context, first), sunriseKey, context, second);
      StateOf(after, context) == TakeSunrise(TakeSunset(StateOf(w, context), sunset), sunrise)
  {
    var state := StateOf(w, context);
    var w1 := WithState(w, context, TakeSunset(state, sunset));
    StateChangeKeepsSettings(w1, context, true, false, false, false, first);
    var w2 := SunsetTimeUpdate(w, BuildSettingKey(SETTING_DARK_MODE_SUN_SET, context), context, first);
    assert w2.settings == w.settings && StateOf(w2, context) == TakeSunset(state, sunset);
    var w3 := WithState(w2, context, TakeSunrise(TakeSunset(state, sunset), sunrise));
    StateChangeKeepsSettings(w3, context, true, false, false, false, second);
  }

  /** After a successful pair write its two notifications, delivered in order, bring the stored pair into
      memory exactly when it is ordered and its sunset precedes the sunrise in memory, or is the default. */
  lemma StoredPairReachesMemory(
    w: World, context: AccountContext, sunset: int32, sunrise: int32, reply: PairReply, first: Env, second: Env)
    requires SetInt32ValuePair(
               w.settings, BuildSettingKey(SETTING_DARK_MODE_SUN_SET, context), sunset,
               BuildSettingKey(SETTING_DARK_MODE_SUN_RISE, context), sunrise, context.userId, reply).1 == ERR_OK
    ensures
      var sunsetKey := BuildSettingKey(SETTING_DARK_MODE_SUN_SET, context);
      var sunriseKey := BuildSettingKey(SETTING_DARK_MODE_SUN_RISE, context);
      var stored := w.(settings := SetInt32ValuePair(
                         w.settings, sunsetKey, sunset, sunriseKey, sunrise, context.userId, reply).0);
      var after := SunriseTimeUpdate(SunsetTimeUpdate(stored, sunsetKey, context, first), sunriseKey, context, second);
      && ((StateOf(after, context).sunset, StateOf(after, context).sunrise) == (sunset, sunrise)
          <==> Survives(StateOf(w, context), sunset, sunrise))
      && StateOf(after, context).sunset < StateOf(after, context).sunrise
  {
    var sunsetKey := BuildSettingKey(SETTING_DARK_MODE_SUN_SET, context);
    var sunriseKey := BuildSettingKey(SETTING_DARK_MODE_SUN_RISE, context);
    SunKeysDiffer(context);
    SuccessfulPairNotifiesAfterBoth(
      w.settings, sunsetKey, sunset, sunriseKey, sunrise, context.userId, reply, SUNSET_TIME_DEFAULT);
    SuccessfulPairNotifiesAfterBoth(
      w.settings, sunsetKey, sunset, sunriseKey, sunrise, context.userId, reply, SUNRISE_TIME_DEFAULT);
    var stored := w.(settings := SetInt32ValuePair(
                       w.settings, sunsetKey, sunset, sunriseKey, sunrise, context.userId, reply).0);
    var state := StateOf(w, context);
    ObserversTakePair(stored, context, sunset, sunrise, first, second);
    PairSurvivesExactly(state, sunset, sunrise);
    ObserversKeepOrder(TakeSunset(state, sunset), sunrise);
  }

  lemma SunKeysDiffer(context: AccountContext)
    ensures BuildSettingKey(SETTING_DARK_MODE_SUN_SET, context) != BuildSettingKey(SETTING_DARK_MODE_SUN_RISE, context)
  {
    var sunset, sunrise := SETTING_KEYS[3], SETTING_KEYS[4];
    assert sunset in SETTING_KEYS && sunrise in SETTING_KEYS && |sunset| < |sunrise|;
    if BuildSettingKey(sunset, context) == BuildSettingKey(sunrise, context) {
      SettingKeyIsInjective(sunset, context, sunrise, context);
    }
  }

  // ---------- loading ----------

  /** The key a profile's setting is copied to is neither key of another setting. */
  lemma CopiedKeyIsApart(key: string, other: string, context: AccountContext)
    requires key in SETTING_KEYS && other in SETTING_KEYS && context.IsSubProfile()
    ensures BuildSettingKey(key, context) != other
    ensures key != other ==> BuildSettingKey(key, context) != BuildSettingKey(other, context)
  {
    var base := CreateBaseContext(context.userId);
    assert BuildSettingKey(other, base) == other;
    if BuildSettingKey(key, context) == BuildSettingKey(other, base) {
      SettingKeyIsInjective(key, context, other, base);
    }
    if BuildSettingKey(key, context) == BuildSettingKey(other, context) {
      SettingKeyIsInjective(key, context, other, context);
    }
  }

  /** Whether the copies of a load are stored does not matter for the value it reads. */
  lemma LoadedValueIgnoresReply(
    s: Settings, key: string, default: int32, context: AccountContext, granted: PutReply, again: PutReply)
    ensures LoadInt32(s, key, default, context, granted).1 == LoadInt32(s, key, default, context, again).1
    ensures granted != STORED ==> LoadInt32(s, key, default, context, granted).0 == s
  {
  }

  /** The copy made by loading one setting, and that loading it again finds nothing more to do. */
  lemma LoadingCopiesOnce(s: Settings, key: string, default: int32, context: AccountContext, granted: PutReply)
    ensures
      var (s', value) := LoadInt32(s, key, default, context, granted);
      && LoadInt32(s', key, default, context, granted) == (s', value)
      && (s' == s
          || (context.IsSubProfile()
              && s' == s.(data := s.data[(context.userId, BuildSettingKey(key, context)) := ToString(value)])))
  {
    LeadingIntegerInvertsToString(LoadInt32(s, key, default, context, granted).1);
  }

  /** Loading a setting is not affected by what is stored elsewhere. */
  lemma LoadingReadsTwoKeys(
    s: Settings, name: string, text: string, key: string, default: int32, context: AccountContext,
    granted: PutReply)
    requires name != key && name != BuildSettingKey(key, context)
    ensures
      var t := s.(data := s.data[(context.userId, name) := text]);
      && LoadInt32(t, key, default, context, granted).1 == LoadInt32(s, key, default, context, granted).1
      && (LoadInt32(s, key, default, context, granted).0 == s ==> LoadInt32(t, key, default, context, granted).0 == t)
  {
    var t := s.(data := s.data[(context.userId, name) := text]);
    var contextKey := BuildSettingKey(key, context);
    assert GetInt32ValueStrictly(t, contextKey, default, context.userId)
        == GetInt32ValueStrictly(s, contextKey, default, context.userId);
    assert GetInt32ValueStrictly(t, key, default, context.userId)
        == GetInt32ValueStrictly(s, key, default, context.userId);
  }

  /** Loading one setting leaves the outcome of loading another as it was. */
  lemma LoadsAreIndependent(
    s: Settings, key: string, default: int32, granted: PutReply, other: string, otherDefault: int32,
    otherGranted: PutReply, context: AccountContext)
    requires key in SETTING_KEYS && other in SETTING_KEYS && key != other
    ensures
      var t := LoadInt32(s, key, default, context, granted).0;
      && LoadInt32(t, other, otherDefault, context, otherGranted).1
         == LoadInt32(s, other, otherDefault, context, otherGranted).1
      && (LoadInt32(s, other, otherDefault, context, otherGranted).0 == s ==>
            LoadInt32(t, other, otherDefault, context, otherGranted).0 == t)
  {
    LoadingCopiesOnce(s, key, default, context, granted);
    if context.IsSubProfile() {
      CopiedKeyIsApart(key, other, context);
      LoadingReadsTwoKeys(
        s, BuildSettingKey(key, context), ToString(LoadInt32(s, key, default, context, granted).1),
        other, otherDefault, context, otherGranted);
    }
  }

  function DefaultOf(i: nat): int32
    requires i < 5
  {
    if i == 3 then SUNSET_TIME_DEFAULT else if i == 4 then SUNRISE_TIME_DEFAULT else -1
  }

  function CopyOf(copies: Copies, i: nat): PutReply
    requires i < 5
  {
    if i == 0 then copies.mode
    else if i == 1 then copies.start
    else if i == 2 then copies.end
    else if i == 3 then copies.sunset
    else copies.sunrise
  }

  /** Loading the i-th setting. */
  function LoadOne(s: Settings, context: AccountContext, copies: Copies, i: nat): (Settings, int32)
    requires i < 5
  {
    LoadInt32(s, SETTING_KEYS[i], DefaultOf(i), context, CopyOf(copies, i))
  }

  /** The store after loading the first n settings. */
  function AfterLoads(s: Settings, context: AccountContext, copies: Copies, n: nat): Settings
    requires n <= 5
  {
    if n == 0 then s
    else LoadOne(AfterLoads(s, context, copies, n - 1), context, copies, n - 1).0
  }

  lemma {:induction false} LoadsSettle(s: Settings, context: AccountContext, copies: Copies, n: nat, i: nat)
    requires n <= 5 && i < 5
    ensures
      var t := AfterLoads(s, context, copies, n);
      && LoadOne(t, context, copies, i).1
         == LoadOne(s, context, copies, i).1
      && (i < n ==> LoadOne(t, context, copies, i).0 == t)
  {
    if n > 0 {
      LoadsSettle(s, context, copies, n - 1, i);
      var t := AfterLoads(s, context, copies, n - 1);
      LoadingCopiesOnce(t, SETTING_KEYS[n - 1], DefaultOf(n - 1), context, CopyOf(copies, n - 1));
      if i != n - 1 {
        SettingKeysDiffer(n - 1, i);
        LoadsAreIndependent(
          t, SETTING_KEYS[n - 1], DefaultOf(n - 1), CopyOf(copies, n - 1), SETTING_KEYS[i], DefaultOf(i),
          CopyOf(copies, i), context);
      }
    }
  }

  lemma SettingKeysDiffer(i: nat, j: nat)
    requires i < 5 && j < 5 && i != j
    ensures SETTING_KEYS[i] != SETTING_KEYS[j] && SETTING_KEYS[i] in SETTING_KEYS && SETTING_KEYS[j] in SETTING_KEYS
  {
    SettingKeysAreDistinct();
  }

  lemma FiveLoads(s: Settings, context: AccountContext, copies: Copies)
    ensures
      var (s', state) := LoadState(s, context, copies);
      && s' == AfterLoads(s, context, copies, 5)
      && state == DarkModeState(
                    ModeOf(LoadOne(s, context, copies, 0).1),
                    LoadOne(AfterLoads(s, context, copies, 1), context, copies, 1).1,
                    LoadOne(AfterLoads(s, context, copies, 2), context, copies, 2).1,
                    LoadOne(AfterLoads(s, context, copies, 3), context, copies, 3).1,
                    LoadOne(AfterLoads(s, context, copies, 4), context, copies, 4).1)
  {
    var s1 := LoadInt32(s, SETTING_DARK_MODE_MODE, -1, context, copies.mode).0;
    var s2 := LoadInt32(s1, SETTING_DARK_MODE_START_TIME, -1, context, copies.start).0;
    var s3 := LoadInt32(s2, SETTING_DARK_MODE_END_TIME, -1, context, copies.end).0;
    var s4 := LoadInt32(s3, SETTING_DARK_MODE_SUN_SET, SUNSET_TIME_DEFAULT, context, copies.sunset).0;
    assert AfterLoads(s, context, copies, 0) == s;
    assert AfterLoads(s, context, copies, 1) == s1;
    assert AfterLoads(s, context, copies, 2) == s2;
    assert AfterLoads(s, context, copies, 3) == s3;
    assert AfterLoads(s, context, copies, 4) == s4;
  }

  lemma {:induction false} NothingLeftToLoad(t: Settings, context: AccountContext, copies: Copies, n: nat)
    requires n <= 5
    requires forall i: nat | i < 5 :: LoadOne(t, context, copies, i).0 == t
    ensures AfterLoads(t, context, copies, n) == t
  {
    if n > 0 {
      NothingLeftToLoad(t, context, copies, n - 1);
    }
  }

  /** The store holds the print of an integer under the key. */
  ghost predicate Holds(s: Settings, key: string, userId: int32, v: int32) {
    s.initialized && (userId, key) in s.data && s.data[(userId, key)] == ToString(v)
  }

  ghost predicate HoldsAny(s: Settings, key: string, userId: int32) { exists v: int32 :: Holds(s, key, userId, v) }

  /** The value a setting has for a context: the profile's own, else the user's, else the default. */
  ghost predicate Offers(s: Settings, key: string, default: int32, context: AccountContext, v: int32) {
    var own := BuildSettingKey(key, context);
    if HoldsAny(s, own, context.userId) then Holds(s, own, context.userId, v)
    else if HoldsAny(s, key, context.userId) then Holds(s, key, context.userId, v)
    else v == default
  }

  lemma StrictReadHolds(s: Settings, key: string, value: int32, userId: int32)
    ensures
      var (code, read) := GetInt32ValueStrictly(s, key, value, userId);
      && (code == ERR_OK <==> HoldsAny(s, key, userId))
      && (code == ERR_OK ==> Holds(s, key, userId, read))
      && (code != ERR_OK ==> read == value)
  {
    StrictReaderAcceptsPrintedIntegers(s, key, value, userId);
    if s.initialized && (userId, key) in s.data && exists v: int32 :: s.data[(userId, key)] == ToString(v) {
      var v: int32 :| s.data[(userId, key)] == ToString(v);
      assert Holds(s, key, userId, v);
    }
  }

  lemma LoadTakesOneSetting(s: Settings, key: string, default: int32, context: AccountContext, granted: PutReply)
    ensures Offers(s, key, default, context, LoadInt32(s, key, default, context, granted).1)
  {
    var own := BuildSettingKey(key, context);
    StrictReadHolds(s, own, default, context.userId);
    StrictReadHolds(s, key, GetInt32ValueStrictly(s, own, default, context.userId).1, context.userId);
  }

  /** The load takes each of the five settings from where it belongs; the copies it makes for a profile
      on the way do not disturb the settings it has yet to read. */
  lemma LoadTakesEachSetting(s: Settings, context: AccountContext, copies: Copies)
    ensures
      var state := LoadState(s, context, copies).1;
      && (exists v: int32 :: Offers(s, SETTING_DARK_MODE_MODE, -1, context, v) && state.mode == ModeOf(v))
      && Offers(s, SETTING_DARK_MODE_START_TIME, -1, context, state.start)
      && Offers(s, SETTING_DARK_MODE_END_TIME, -1, context, state.end)
      && Offers(s, SETTING_DARK_MODE_SUN_SET, SUNSET_TIME_DEFAULT, context, state.sunset)
      && Offers(s, SETTING_DARK_MODE_SUN_RISE, SUNRISE_TIME_DEFAULT, context, state.sunrise)
  {
    FiveLoads(s, context, copies);
    forall i: nat | i < 5
      ensures Offers(s, SETTING_KEYS[i], DefaultOf(i), context,
                     LoadOne(AfterLoads(s, context, copies, i), context, copies, i).1)
    {
      LoadsSettle(s, context, copies, i, i);
      LoadTakesOneSetting(s, SETTING_KEYS[i], DefaultOf(i), context, CopyOf(copies, i));
    }
  }

  /** No copy that the first load was refused is granted to the second. */
  predicate NoneGrantedLate(copies: Copies, again: Copies) {
    forall i: nat | i < 5 :: CopyOf(copies, i) == STORED || CopyOf(again, i) != STORED
  }

  lemma AfterLoadsStays(s: Settings, context: AccountContext, copies: Copies, again: Copies)
    requires NoneGrantedLate(copies, again)
    ensures
      var t := AfterLoads(s, context, copies, 5);
      forall i: nat | i < 5 :: LoadOne(t, context, again, i).0 == t
  {
    var t := AfterLoads(s, context, copies, 5);
    forall i: nat | i < 5
      ensures LoadOne(t, context, again, i).0 == t
    {
      LoadsSettle(s, context, copies, 5, i);
      LoadedValueIgnoresReply(t, SETTING_KEYS[i], DefaultOf(i), context, CopyOf(again, i), CopyOf(copies, i));
    }
  }

  lemma SecondLoadReads(s: Settings, context: AccountContext, copies: Copies, again: Copies, i: nat)
    requires i < 5
    ensures
      var t := AfterLoads(s, context, copies, 5);
      LoadOne(AfterLoads(t, context, again, i), context, again, i).1
      == LoadOne(AfterLoads(s, context, copies, i), context, copies, i).1
  {
    var t := AfterLoads(s, context, copies, 5);
    LoadsSettle(t, context, again, i, i);
    LoadedValueIgnoresReply(t, SETTING_KEYS[i], DefaultOf(i), context, CopyOf(again, i), CopyOf(copies, i));
    LoadsSettle(s, context, copies, 5, i);
    LoadsSettle(s, context, copies, i, i);
  }

  /** Loading the settings of a context a second time yields the same state, whatever becomes of the copies
      of either load, and copies nothing more unless it is granted a copy that the first was refused. */
  lemma SecondLoadChangesNothing(s: Settings, context: AccountContext, copies: Copies, again: Copies)
    ensures
      var (s', state) := LoadState(s, context, copies);
      && LoadState(s', context, again).1 == state
      && (NoneGrantedLate(copies, again) ==> LoadState(s', context, again).0 == s')
  {
    var s' := AfterLoads(s, context, copies, 5);
    FiveLoads(s, context, copies);
    FiveLoads(s', context, again);
    forall i: nat | i < 5
      ensures LoadOne(AfterLoads(s', context, again, i), context, again, i).1
           == LoadOne(AfterLoads(s, context, copies, i), context, copies, i).1
    {
      SecondLoadReads(s, context, copies, again, i);
    }
    if NoneGrantedLate(copies, again) {
      AfterLoadsStays(s, context, copies, again);
      NothingLeftToLoad(s', context, again, 5);
    }
  }

  // ---------- what the observers read after a load ----------

  /** The i-th setting under the context's own key, as its observer reads it. */
  function OwnRead(s: Settings, context: AccountContext, i: nat): (ErrCode, int32)
    requires i < 5
  {
    GetInt32ValueStrictly(s, BuildSettingKey(SETTING_KEYS[i], context), DefaultOf(i), context.userId)
  }

  function BaseRead(s: Settings, context: AccountContext, i: nat): (ErrCode, int32)
    requires i < 5
  {
    GetInt32ValueStrictly(s, SETTING_KEYS[i], DefaultOf(i), context.userId)
  }

  /** The load copies the i-th setting, if the store takes the copy. */
  predicate IsCopied(s: Settings, context: AccountContext, i: nat)
    requires i < 5
  {
    context.IsSubProfile() && OwnRead(s, context, i).0 != ERR_OK && BaseRead(s, context, i).0 == ERR_OK
  }

  lemma LoadInt32Own(s: Settings, key: string, default: int32, context: AccountContext, granted: PutReply)
    ensures
      var own := BuildSettingKey(key, context);
      var (t, value) := LoadInt32(s, key, default, context, granted);
      var before := GetInt32ValueStrictly(s, own, default, context.userId);
      var base := GetInt32ValueStrictly(s, key, default, context.userId);
      var copied := context.IsSubProfile() && before.0 != ERR_OK && base.0 == ERR_OK;
      && GetInt32ValueStrictly(t, own, default, context.userId)
         == (if copied && granted == STORED then (ERR_OK, value) else before)
      && value == (if copied then base.1 else before.1)
  {
    LeadingIntegerInvertsToString(LoadInt32(s, key, default, context, granted).1);
  }

  lemma LoadOneOwn(s: Settings, context: AccountContext, copies: Copies, i: nat)
    requires i < 5
    ensures
      var (t, value) := LoadOne(s, context, copies, i);
      && OwnRead(t, context, i)
         == (if IsCopied(s, context, i) && CopyOf(copies, i) == STORED then (ERR_OK, value)
             else OwnRead(s, context, i))
      && value == (if IsCopied(s, context, i) then BaseRead(s, context, i).1 else OwnRead(s, context, i).1)
      && (OwnRead(s, context, i).0 != ERR_OK ==> OwnRead(s, context, i).1 == DefaultOf(i))
  {
    LoadInt32Own(s, SETTING_KEYS[i], DefaultOf(i), context, CopyOf(copies, i));
  }

  lemma LoadAnother(s: Settings, context: AccountContext, copies: Copies, j: nat, i: nat)
    requires j < 5 && i < 5 && i != j
    ensures
      var t := LoadOne(s, context, copies, j).0;
      OwnRead(t, context, i) == OwnRead(s, context, i) && BaseRead(t, context, i) == BaseRead(s, context, i)
  {
    SettingKeysDiffer(j, i);
    LoadingCopiesOnce(s, SETTING_KEYS[j], DefaultOf(j), context, CopyOf(copies, j));
    if context.IsSubProfile() {
      CopiedKeyIsApart(SETTING_KEYS[j], SETTING_KEYS[i], context);
    }
  }

  lemma {:induction false} OwnReadStays(
    s: Settings, context: AccountContext, copies: Copies, from: nat, to: nat, i: nat)
    requires from <= to <= 5 && i < 5 && (to <= i || i < from)
    ensures
      var t, u := AfterLoads(s, context, copies, from), AfterLoads(s, context, copies, to);
      OwnRead(u, context, i) == OwnRead(t, context, i) && BaseRead(u, context, i) == BaseRead(t, context, i)
  {
    if from < to {
      OwnReadStays(s, context, copies, from, to - 1, i);
      LoadAnother(AfterLoads(s, context, copies, to - 1), context, copies, to - 1, i);
    }
  }

  function ValueOf(state: DarkModeState, i: nat): int32
    requires 1 <= i < 5
  {
    if i == 1 then state.start else if i == 2 then state.end else if i == 3 then state.sunset else state.sunrise
  }

  /** After a load the i-th setting reads back under the context's own key: there was nothing to copy, or the
      copy was stored, or the value is the default anyway. */
  predicate ReadsBack(s: Settings, context: AccountContext, copies: Copies, i: nat)
    requires i < 5
  {
    IsCopied(s, context, i) ==> CopyOf(copies, i) == STORED || BaseRead(s, context, i).1 == DefaultOf(i)
  }

  lemma OwnKeyAfterLoads(s: Settings, context: AccountContext, copies: Copies, i: nat)
    requires i < 5
    ensures
      var own := OwnRead(AfterLoads(s, context, copies, 5), context, i);
      var value := LoadOne(s, context, copies, i).1;
      && (own.1 == value <==> ReadsBack(s, context, copies, i))
      && (own.1 == value || own.1 == DefaultOf(i))
  {
    var before := AfterLoads(s, context, copies, i);
    OwnReadStays(s, context, copies, 0, i, i);
    OwnReadStays(s, context, copies, i + 1, 5, i);
    OwnKeyStep(s, before, context, copies, i);
    assert AfterLoads(s, context, copies, i + 1) == LoadOne(before, context, copies, i).0;
  }

  lemma OwnKeyStep(s: Settings, before: Settings, context: AccountContext, copies: Copies, i: nat)
    requires i < 5
    requires OwnRead(before, context, i) == OwnRead(s, context, i)
    requires BaseRead(before, context, i) == BaseRead(s, context, i)
    ensures
      var own := OwnRead(LoadOne(before, context, copies, i).0, context, i);
      var value := LoadOne(s, context, copies, i).1;
      && (own.1 == value <==> ReadsBack(s, context, copies, i))
      && (own.1 == value || own.1 == DefaultOf(i))
  {
    LoadOneOwn(before, context, copies, i);
    LoadOneOwn(s, context, copies, i);
  }

  /** What each observer reads after the load: the value in memory exactly when it reads back, and the default
      otherwise. */
  lemma LoadedValueReadsBack(s: Settings, context: AccountContext, copies: Copies, i: nat)
    requires 1 <= i < 5
    ensures
      var (s', state) := LoadState(s, context, copies);
      var own := OwnRead(s', context, i).1;
      && (own == ValueOf(state, i) <==> ReadsBack(s, context, copies, i))
      && (own == ValueOf(state, i) || own == DefaultOf(i))
  {
    FiveLoads(s, context, copies);
    LoadsSettle(s, context, copies, i, i);
    OwnKeyAfterLoads(s, context, copies, i);
  }

  /** And the mode: the one in memory, or INVALID. */
  lemma LoadedModeReadsBack(s: Settings, context: AccountContext, copies: Copies)
    ensures
      var (s', state) := LoadState(s, context, copies);
      var own := ModeOf(OwnRead(s', context, 0).1);
      && (own == state.mode <==> ReadsBack(s, context, copies, 0) || state.mode == INVALID)
      && (own == state.mode || own == INVALID)
  {
    FiveLoads(s, context, copies);
    OwnKeyAfterLoads(s, context, copies, 0);
    LoadOneOwn(s, context, copies, 0);
  }
}

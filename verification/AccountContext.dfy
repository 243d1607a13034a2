/** The account contexts and the keys under which everything is stored (account_context.cpp). */
module Accounts {
  import opened Decimal

  const INVALID_SUB_PROFILE_ID: int32 := -1
  const INVALID_USER_ID: int32 := -1

  datatype AccountContext = AccountContext(userId: int32, subProfileId: int32) {
    predicate IsSubProfile() { subProfileId != INVALID_SUB_PROFILE_ID }
  }

  function CreateBaseContext(userId: int32): AccountContext { AccountContext(userId, INVALID_SUB_PROFILE_ID) }

  function ContextString(context: AccountContext): string {
    if context.IsSubProfile() then
      ToString(context.userId) + "." + ToString(context.subProfileId)
    else
      ToString(context.userId)
  }

  function BuildUserParamKey(prefix: string, context: AccountContext): string { prefix + ContextString(context) }

  function BuildSettingKey(key: string, context: AccountContext): string {
    if context.IsSubProfile() then key + "." + ToString(context.subProfileId) else key
  }

  /** userId in the high 32 bits and subProfileId in the low 32; a base context keeps the sign-extended userId. */
  function BuildTimerKey(context: AccountContext): nat {
    if context.IsSubProfile() then
      (context.userId % U32) * U32 + context.subProfileId % U32
    else
      context.userId % U64
  }

  function GenerateObserverName(key: string, userId: int32): string { key + "::" + ToString(userId) }

  const PERSIST_DARKMODE_KEY_FOR_NONE := "persist.ace.darkmode."
  const FONT_SCAL_FOR_NONE := "persist.sys.font_scale_for_user."
  const FONT_WEIGHT_SCAL_FOR_NONE := "persist.sys.font_wght_scale_for_user."
  const TEMPORARY_COLOR_MODE := "persist.uiAppearance.dark_mode_temp_state_flag."
  const TEMPORARY_STATE_START_TIME := "persist.uiAppearance.dark_mode_temp_state_start_time."
  const TEMPORARY_STATE_END_TIME := "persist.uiAppearance.dark_mode_temp_state_end_time."

  const PARAM_PREFIXES := [
    PERSIST_DARKMODE_KEY_FOR_NONE, FONT_SCAL_FOR_NONE, FONT_WEIGHT_SCAL_FOR_NONE,
    TEMPORARY_COLOR_MODE, TEMPORARY_STATE_START_TIME, TEMPORARY_STATE_END_TIME]

  const SETTING_DARK_MODE_MODE := "settings.uiappearance.darkmode_mode"
  const SETTING_DARK_MODE_START_TIME := "settings.uiappearance.darkmode_starttime"
  const SETTING_DARK_MODE_END_TIME := "settings.uiappearance.darkmode_endtime"
  const SETTING_DARK_MODE_SUN_SET := "settings.display.sun_set"
  const SETTING_DARK_MODE_SUN_RISE := "settings.display.sun_rise"

  /** The keys DarkModeManager observes, in registration order. */
  const SETTING_KEYS := [
    SETTING_DARK_MODE_MODE, SETTING_DARK_MODE_START_TIME, SETTING_DARK_MODE_END_TIME,
    SETTING_DARK_MODE_SUN_SET, SETTING_DARK_MODE_SUN_RISE]

  // ---------- timer keys ----------

  /** The pairs of distinct contexts that share a timer key: user 0's sub-profiles against base
      users, and user -1's sub-profiles against negative base users. */
  predicate SharesTimerKey(base: AccountContext, sub: AccountContext) {
    && !base.IsSubProfile() && sub.IsSubProfile() && base.userId == sub.subProfileId
    && sub.userId == if base.userId >= 0 then 0 else -1
  }

  lemma TimerKeyCollidesExactly(a: AccountContext, b: AccountContext)
    ensures BuildTimerKey(a) == BuildTimerKey(b) <==> a == b || SharesTimerKey(a, b) || SharesTimerKey(b, a)
  {
    TimerKeyParts(a);
    TimerKeyParts(b);
  }

  lemma TimerKeyParts(a: AccountContext)
    ensures a.IsSubProfile() ==>
              && BuildTimerKey(a) / U32 == (if a.userId < 0 then a.userId + U32 else a.userId)
              && BuildTimerKey(a) % U32 == (if a.subProfileId < 0 then a.subProfileId + U32 else a.subProfileId)
    ensures !a.IsSubProfile() ==>
              && BuildTimerKey(a) / U32 == (if a.userId < 0 then U32 - 1 else 0)
              && BuildTimerKey(a) % U32 == (if a.userId < 0 then a.userId + U32 else a.userId)
  {
    assert BuildTimerKey(a) == U32 * (BuildTimerKey(a) / U32) + BuildTimerKey(a) % U32;
  }

  /** Sub-profile 100 of user 0 and user 100 himself. */
  lemma TimerKeysMeet()
    ensures BuildTimerKey(AccountContext(0, 100)) == BuildTimerKey(CreateBaseContext(100))
  {
  }

  lemma TimerKeyIsInjective(a: AccountContext, b: AccountContext)
    requires a.userId >= 1 && b.userId >= 1 && BuildTimerKey(a) == BuildTimerKey(b)
    ensures a == b
  {
    TimerKeyCollidesExactly(a, b);
  }

  // ---------- string keys ----------

  /** The characters a printed context is made of. */
  predicate Numeric(c: char) { IsDigit(c) || c == '-' || c == '.' }

  predicate AllNumeric(s: string) { forall i :: 0 <= i < |s| ==> Numeric(s[i]) }

  predicate EndsPlain(s: string) { s != [] && !Numeric(s[|s| - 1]) }

  /** In head + tail the last character of head is the last one that is not numeric. */
  lemma NumericFrom(head: string, tail: string, k: nat)
    requires EndsPlain(head) && AllNumeric(tail) && k <= |head + tail|
    ensures AllNumeric((head + tail)[k..]) <==> |head| <= k
  {
    var rest := (head + tail)[k..];
    if k < |head| {
      assert rest[|head| - 1 - k] == head[|head| - 1];
    } else {
      assert rest == tail[k - |head|..];
    }
  }

  /** A string splits in one way into a part ending in another character and a numeric tail. */
  lemma NumericTailIsUnique(head1: string, tail1: string, head2: string, tail2: string)
    requires EndsPlain(head1) && EndsPlain(head2) && AllNumeric(tail1) && AllNumeric(tail2)
    requires head1 + tail1 == head2 + tail2
    ensures head1 == head2 && tail1 == tail2
  {
    var whole := head1 + tail1;
    NumericFrom(head1, tail1, |head1|);
    NumericFrom(head1, tail1, |head2|);
    NumericFrom(head2, tail2, |head1|);
    NumericFrom(head2, tail2, |head2|);
    assert |head1| == |head2|;
    assert whole[..|head1|] == head1 && whole[..|head2|] == head2;
    assert whole[|head1|..] == tail1 && whole[|head2|..] == tail2;
  }

  lemma PrintedIsNumeric(n: int)
    ensures AllNumeric(ToString(n)) && ToString(n) != [] && '.' !in ToString(n)
  {
  }

  lemma ContextIsNumeric(context: AccountContext)
    ensures AllNumeric(ContextString(context))
  {
    PrintedIsNumeric(context.userId);
    PrintedIsNumeric(context.subProfileId);
  }

  lemma DotSplitIsUnique(a1: string, b1: string, a2: string, b2: string)
    requires '.' !in a1 && '.' !in a2 && '.' !in b1 && '.' !in b2
    requires a1 + "." + b1 == a2 + "." + b2
    ensures a1 == a2 && b1 == b2
  {
    var whole := a1 + "." + b1;
    assert whole[|a1|] == '.' && whole[|a2|] == '.';
    assert forall i :: 0 <= i < |whole| && whole[i] == '.' ==> i == |a1| by {
      assert forall i :: 0 <= i < |a1| ==> whole[i] == a1[i];
      assert forall i :: |a1| < i < |whole| ==> whole[i] == b1[i - |a1| - 1];
    }
    assert whole[..|a1|] == a1 && whole[..|a2|] == a2;
    assert whole[|a1| + 1..] == b1 && whole[|a2| + 1..] == b2;
  }

  lemma ContextStringIsInjective(a: AccountContext, b: AccountContext)
    requires ContextString(a) == ContextString(b)
    ensures a == b
  {
    PrintedIsNumeric(a.userId);
    PrintedIsNumeric(b.userId);
    PrintedIsNumeric(a.subProfileId);
    PrintedIsNumeric(b.subProfileId);
    if a.IsSubProfile() {
      assert ContextString(a)[|ToString(a.userId)|] == '.';
      assert '.' in ContextString(a);
    }
    if b.IsSubProfile() {
      assert ContextString(b)[|ToString(b.userId)|] == '.';
      assert '.' in ContextString(b);
    }
    if a.IsSubProfile() && b.IsSubProfile() {
      DotSplitIsUnique(ToString(a.userId), ToString(a.subProfileId), ToString(b.userId), ToString(b.subProfileId));
      ToStringIsInjective(a.subProfileId, b.subProfileId);
    }
    ToStringIsInjective(a.userId, b.userId);
  }

  /** Every prefix is text ending in a letter followed by one dot. */
  lemma PrefixShape(prefix: string)
    requires prefix in PARAM_PREFIXES
    ensures DottedPrefix(prefix)
  {
    var i :| 0 <= i < |PARAM_PREFIXES| && PARAM_PREFIXES[i] == prefix;
  }

  predicate DottedPrefix(prefix: string) {
    |prefix| > 1 && prefix[|prefix| - 1] == '.' && EndsPlain(prefix[..|prefix| - 1])
  }

  /** A dotted prefix and the numeric text that follows it determine each other's extent. */
  lemma DottedSplitIsUnique(p: string, s: string, q: string, t: string)
    requires DottedPrefix(p) && DottedPrefix(q) && AllNumeric(s) && AllNumeric(t) && p + s == q + t
    ensures p == q && s == t
  {
    var ph, qh := p[..|p| - 1], q[..|q| - 1];
    var pt, qt := "." + s, "." + t;
    assert p == ph + "." && q == qh + ".";
    assert ph + pt == p + s && qh + qt == q + t;
    NumericTailIsUnique(ph, pt, qh, qt);
    assert pt[1..] == s && qt[1..] == t;
  }

  lemma DottedKeyIsInjective(p: string, a: AccountContext, q: string, b: AccountContext)
    requires DottedPrefix(p) && DottedPrefix(q)
    requires BuildUserParamKey(p, a) == BuildUserParamKey(q, b)
    ensures p == q && a == b
  {
    ContextIsNumeric(a);
    ContextIsNumeric(b);
    DottedSplitIsUnique(p, ContextString(a), q, ContextString(b));
    ContextStringIsInjective(a, b);
  }

  /** No two of the six parameter prefixes with any two contexts name the same system parameter. */
  lemma ParamKeyIsInjective(p: string, a: AccountContext, q: string, b: AccountContext)
    requires p in PARAM_PREFIXES && q in PARAM_PREFIXES
    requires BuildUserParamKey(p, a) == BuildUserParamKey(q, b)
    ensures p == q && a == b
  {
    PrefixShape(p);
    PrefixShape(q);
    DottedKeyIsInjective(p, a, q, b);
  }

  lemma SettingKeysAreDistinct()
    ensures forall i, j :: 0 <= i < j < |SETTING_KEYS| ==> SETTING_KEYS[i] != SETTING_KEYS[j]
  {
    assert |SETTING_KEYS[0]| == 35 && |SETTING_KEYS[1]| == 40 && |SETTING_KEYS[2]| == 38;
    assert |SETTING_KEYS[3]| == 24 && |SETTING_KEYS[4]| == 25;
  }

  lemma SettingKeyShape(key: string)
    requires key in SETTING_KEYS
    ensures EndsPlain(key)
  {
    var i :| 0 <= i < |SETTING_KEYS| && SETTING_KEYS[i] == key;
  }

  /** An observer name determines its key and its user, whatever the key. */
  lemma ObserverNameIsInjective(key1: string, user1: int32, key2: string, user2: int32)
    requires GenerateObserverName(key1, user1) == GenerateObserverName(key2, user2)
    ensures key1 == key2 && user1 == user2
  {
    PrintedIsNumeric(user1);
    PrintedIsNumeric(user2);
    NumericTailIsUnique(key1 + "::", ToString(user1), key2 + "::", ToString(user2));
    ToStringIsInjective(user1, user2);
    assert key1 == (key1 + "::")[..|key1|] && key2 == (key2 + "::")[..|key2|];
  }

  function ObserverName(key: string, context: AccountContext): string {
    GenerateObserverName(BuildSettingKey(key, context), context.userId)
  }

  /** Two contexts never observe the same setting under one name. */
  lemma SettingObserverIsInjective(p: string, a: AccountContext, q: string, b: AccountContext)
    requires p in SETTING_KEYS && q in SETTING_KEYS && ObserverName(p, a) == ObserverName(q, b)
    ensures p == q && a == b
  {
    ObserverNameIsInjective(BuildSettingKey(p, a), a.userId, BuildSettingKey(q, b), b.userId);
    SettingKeyIsInjective(p, a, q, b);
  }

  function SubProfileTail(context: AccountContext): string {
    if context.IsSubProfile() then "." + ToString(context.subProfileId) else ""
  }

  lemma SettingKeySplit(key: string, context: AccountContext)
    ensures BuildSettingKey(key, context) == key + SubProfileTail(context)
    ensures AllNumeric(SubProfileTail(context))
  {
    PrintedIsNumeric(context.subProfileId);
    assert key + "." + ToString(context.subProfileId) == key + ("." + ToString(context.subProfileId));
  }

  /** Inside one user's store, a dark mode setting of one profile is not a setting of another. */
  lemma SettingKeyIsInjective(p: string, a: AccountContext, q: string, b: AccountContext)
    requires p in SETTING_KEYS && q in SETTING_KEYS && BuildSettingKey(p, a) == BuildSettingKey(q, b)
    ensures p == q && a.subProfileId == b.subProfileId
  {
    SettingKeyShape(p);
    SettingKeyShape(q);
    SettingKeySplit(p, a);
    SettingKeySplit(q, b);
    var at, bt := SubProfileTail(a), SubProfileTail(b);
    NumericTailIsUnique(p, at, q, bt);
    if a.IsSubProfile() && b.IsSubProfile() {
      assert at[1..] == ToString(a.subProfileId) && bt[1..] == ToString(b.subProfileId);
      ToStringIsInjective(a.subProfileId, b.subProfileId);
    }
  }
}

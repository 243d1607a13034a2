/** The temporary override of each context and its persistence, as values
    (dark_mode_temp_state_manager.cpp). */
module TemporaryColorMode {
  import opened Decimal
  import opened Accounts
  import opened Schedule
  import opened SystemParameters
  import opened TemporaryWindow

  const TEMPORARY_STRING := "1"
  const NORMAL_STRING := "0"

  datatype TempInfo = TempInfo(temporary: bool, start: int, end: int)

  const NORMAL := TempInfo(false, 0, 0)

  /** The records in memory and the system parameters they are saved in. */
  datatype Temps = Temps(infos: map<AccountContext, TempInfo>, params: Params)

  function InfoOf(infos: map<AccountContext, TempInfo>, context: AccountContext): TempInfo {
    if context in infos then infos[context] else NORMAL
  }

  function FlagKey(context: AccountContext): string { BuildUserParamKey(TEMPORARY_COLOR_MODE, context) }

  function StartKey(context: AccountContext): string { BuildUserParamKey(TEMPORARY_STATE_START_TIME, context) }

  function EndKey(context: AccountContext): string { BuildUserParamKey(TEMPORARY_STATE_END_TIME, context) }

  function ReadOr(p: Params, name: string, default: string): string {
    match GetParameter(p, name, default)
    case Some(v) => v
    case None => default
  }

  /** The record InitData rebuilds from the parameters. */
  function Stored(p: Params, context: AccountContext): TempInfo {
    if ReadOr(p, FlagKey(context), NORMAL_STRING) == NORMAL_STRING then
      NORMAL
    else
      TempInfo(true, Atoll(ReadOr(p, StartKey(context), "0")), Atoll(ReadOr(p, EndKey(context), "0")))
  }

  function InitData(t: Temps, context: AccountContext): Temps {
    t.(infos := t.infos[context := Stored(t.params, context)])
  }

  function SaveTempColorModeInfo(p: Params, context: AccountContext, info: TempInfo): Params {
    var flagged := SetParameter(p, FlagKey(context), if info.temporary then TEMPORARY_STRING else NORMAL_STRING);
    if info.temporary then
      SetParameter(
        SetParameter(flagged, StartKey(context), ToString(info.start)), EndKey(context), ToString(info.end))
    else
      flagged
  }

  /** Records the override against the current setting times; without them only the flag in memory changes. */
  function SetColorModeTemporary(t: Temps, context: AccountContext, setting: Option<(int, int)>, now: Clock)
    : (Temps, bool)
  {
    match setting
    case None => (t.(infos := t.infos[context := InfoOf(t.infos, context).(temporary := true)]), false)
    case Some((start, end)) =>
      var (from, to) := GetTempColorModeTimeInfo(start, end, now);
      var info := TempInfo(true, from, to);
      (Temps(t.infos[context := info], SaveTempColorModeInfo(t.params, context, info)), true)
  }

  function SetColorModeNormal(t: Temps, context: AccountContext): Temps {
    Temps(t.infos[context := NORMAL], SaveTempColorModeInfo(t.params, context, NORMAL))
  }

  predicate IsColorModeTemporary(t: Temps, context: AccountContext) { InfoOf(t.infos, context).temporary }

  predicate CheckTemporaryStateEffective(t: Temps, context: AccountContext, now: Clock) {
    var info := InfoOf(t.infos, context);
    info.temporary && InWindow(info.start, info.end, now.Time())
  }

  // ---------- restart ----------

  /** The service writes the three parameters of the context. */
  predicate Writable(p: Params, context: AccountContext) {
    FlagKey(context) !in p.refused && StartKey(context) !in p.refused && EndKey(context) !in p.refused
  }

  lemma ThreeKeys(a: AccountContext, b: AccountContext)
    ensures FlagKey(a) != StartKey(b) && FlagKey(a) != EndKey(b) && StartKey(a) != EndKey(b)
    ensures a != b ==> FlagKey(a) != FlagKey(b) && StartKey(a) != StartKey(b) && EndKey(a) != EndKey(b)
  {
    var f, s, e := PARAM_PREFIXES[3], PARAM_PREFIXES[4], PARAM_PREFIXES[5];
    assert |f| < |e| < |s|;
    if FlagKey(a) == StartKey(b) { ParamKeyIsInjective(f, a, s, b); }
    if FlagKey(a) == EndKey(b) { ParamKeyIsInjective(f, a, e, b); }
    if StartKey(a) == EndKey(b) { ParamKeyIsInjective(s, a, e, b); }
    if FlagKey(a) == FlagKey(b) { ParamKeyIsInjective(f, a, f, b); }
    if StartKey(a) == StartKey(b) { ParamKeyIsInjective(s, a, s, b); }
    if EndKey(a) == EndKey(b) { ParamKeyIsInjective(e, a, e, b); }
  }

  lemma PrintedIsNotEmpty(n: int)
    ensures ToString(n) != ""
  {
  }

  /** What saving leaves under the three names of the context. */
  lemma SavedValues(p: Params, context: AccountContext, info: TempInfo)
    requires Writable(p, context)
    ensures
      var q := SaveTempColorModeInfo(p, context, info);
      && q.refused == p.refused
      && ReadOr(q, FlagKey(context), NORMAL_STRING) == (if info.temporary then TEMPORARY_STRING else NORMAL_STRING)
      && (info.temporary ==>
            && ReadOr(q, StartKey(context), "0") == ToString(info.start)
            && ReadOr(q, EndKey(context), "0") == ToString(info.end))
  {
    ThreeKeys(context, context);
    PrintedIsNotEmpty(info.start);
    PrintedIsNotEmpty(info.end);
  }

  lemma OtherContextsKeepTheirs(p: Params, context: AccountContext, info: TempInfo, other: AccountContext)
    requires other != context
    ensures Stored(SaveTempColorModeInfo(p, context, info), other) == Stored(p, other)
  {
    ThreeKeys(context, other);
    ThreeKeys(other, context);
    var q := SaveTempColorModeInfo(p, context, info);
    forall name | name in {FlagKey(other), StartKey(other), EndKey(other)}
      ensures name in q.values <==> name in p.values
      ensures name in q.values ==> q.values[name] == p.values[name]
    {
      assert name !in {FlagKey(context), StartKey(context), EndKey(context)};
    }
  }

  /** A saved record is rebuilt exactly when a Normal record has both times zero; no other context's
      record is touched. */
  lemma SavedRecordIsRebuilt(p: Params, context: AccountContext, info: TempInfo, other: AccountContext)
    requires Writable(p, context)
    ensures Stored(SaveTempColorModeInfo(p, context, info), context) == info
            <==> (info.temporary || (info.start == 0 && info.end == 0))
    ensures other != context ==> Stored(SaveTempColorModeInfo(p, context, info), other) == Stored(p, other)
    ensures SaveTempColorModeInfo(p, context, info).refused == p.refused
  {
    SavedValues(p, context, info);
    AtollInvertsToString(info.start);
    AtollInvertsToString(info.end);
    if other != context {
      OtherContextsKeepTheirs(p, context, info, other);
    }
  }

  datatype Operation =
    | Init(context: AccountContext)
    | Temporary(context: AccountContext, start: int, end: int, now: Clock)
    | Normal(context: AccountContext)

  function Apply(t: Temps, op: Operation): Temps {
    match op
    case Init(c) => InitData(t, c)
    case Temporary(c, s, e, now) => SetColorModeTemporary(t, c, Some((s, e)), now).0
    case Normal(c) => SetColorModeNormal(t, c)
  }

  function Run(t: Temps, ops: seq<Operation>): Temps {
    if ops == [] then t else Apply(Run(t, ops[..|ops| - 1]), ops[|ops| - 1])
  }

  /** Every record in memory is what a restart would rebuild. */
  ghost predicate InStep(t: Temps) { forall c :: c in t.infos ==> Stored(t.params, c) == t.infos[c] }

  lemma StepKeepsInStep(t: Temps, op: Operation)
    requires InStep(t) && Writable(t.params, op.context)
    ensures InStep(Apply(t, op)) && Apply(t, op).params.refused == t.params.refused
  {
    forall c | c in Apply(t, op).infos
      ensures Stored(Apply(t, op).params, c) == Apply(t, op).infos[c]
    {
      match op
      case Init(_) =>
      case Temporary(d, s, e, now) =>
        var (from, to) := GetTempColorModeTimeInfo(s, e, now);
        SavedRecordIsRebuilt(t.params, d, TempInfo(true, from, to), c);
      case Normal(d) => SavedRecordIsRebuilt(t.params, d, NORMAL, c);
    }
  }

  /** After any run whose writes succeed, a restart rebuilds every record held in memory, so the start
      and end of an override survive it. */
  lemma {:induction false} RestartRebuildsEveryRecord(t: Temps, ops: seq<Operation>, context: AccountContext)
    requires t.infos == map[] && forall c :: Writable(t.params, c)
    ensures InStep(Run(t, ops)) && Run(t, ops).params.refused == t.params.refused
    ensures context in Run(t, ops).infos ==>
              InitData(Temps(map[], Run(t, ops).params), context).infos[context] == Run(t, ops).infos[context]
  {
    if ops != [] {
      var n := |ops| - 1;
      RestartRebuildsEveryRecord(t, ops[..n], context);
      assert Writable(t.params, ops[n].context);
      StepKeepsInStep(Run(t, ops[..n]), ops[n]);
    }
  }

  // ---------- other records ----------

  /** Any flag but an empty one and 0 makes the stored record a temporary one; its times are read by atoll, and are 0
      where they are missing. */
  lemma StoredFlagDecides(p: Params, context: AccountContext)
    ensures
      var info := Stored(p, context);
      var flag := FlagKey(context);
      && (info.temporary <==> flag in p.values && p.values[flag] != "" && p.values[flag] != "0")
      && (!info.temporary ==> info == NORMAL)
      && (info.temporary ==>
            && info.start == TimeAt(p, StartKey(context))
            && info.end == TimeAt(p, EndKey(context)))
  {
    AtollInvertsToString(0);
  }

  function TimeAt(p: Params, name: string): int {
    if name in p.values && p.values[name] != "" then Atoll(p.values[name]) else 0
  }

  /** Without setting times only the flag in memory changes. */
  lemma WithoutTimesOnlyTheFlag(t: Temps, context: AccountContext, now: Clock)
    ensures
      var (u, ok) := SetColorModeTemporary(t, context, None, now);
      && !ok && u.params == t.params && IsColorModeTemporary(u, context)
      && InfoOf(u.infos, context).start == InfoOf(t.infos, context).start
      && InfoOf(u.infos, context).end == InfoOf(t.infos, context).end
      && forall c :: c != context ==> InfoOf(u.infos, c) == InfoOf(t.infos, c)
    ensures forall setting: (int, int) :: SetColorModeTemporary(t, context, Some(setting), now).1
  {
  }
}

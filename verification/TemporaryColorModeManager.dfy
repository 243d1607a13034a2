/** The manager of the temporary overrides (dark_mode_temp_state_manager.cpp). */
module TemporaryColorModes {
  import opened Decimal
  import opened Accounts
  import opened Schedule
  import opened SystemParameters
  import opened TemporaryWindow
  import opened TemporaryColorMode

  class TemporaryColorModeManager {
    const parameters: ParameterService
    var multiUserTempColorModeMap: map<AccountContext, TempInfo>

    ghost function State(): Temps
      reads this, parameters
    {
      Temps(multiUserTempColorModeMap, parameters.State())
    }

    constructor (parameters: ParameterService)
      ensures this.parameters == parameters && State() == Temps(map[], parameters.State())
    {
      this.parameters := parameters;
      multiUserTempColorModeMap := map[];
    }

    method IsEffective(context: AccountContext, now: Clock) returns (effective: bool)
      ensures effective == CheckTemporaryStateEffective(State(), context, now)
    {
      if context in multiUserTempColorModeMap {
        var info := multiUserTempColorModeMap[context];
        return info.temporary && InWindow(info.start, info.end, now.Time());
      }
      return false;
    }

    method InitData(context: AccountContext)
      modifies this
      ensures State() == TemporaryColorMode.InitData(old(State()), context)
    {
      var _, flag := parameters.Get(FlagKey(context), NORMAL_STRING);
      var info := NORMAL;
      if flag != NORMAL_STRING {
        var _, startTime := parameters.Get(StartKey(context), "0");
        var _, endTime := parameters.Get(EndKey(context), "0");
        info := TempInfo(true, Atoll(startTime), Atoll(endTime));
      }
      multiUserTempColorModeMap := multiUserTempColorModeMap[context := info];
    }

    method SetColorModeTemporary(context: AccountContext, setting: Option<(int, int)>, now: Clock) returns (ok: bool)
      modifies this, parameters
      ensures (State(), ok) == TemporaryColorMode.SetColorModeTemporary(old(State()), context, setting, now)
    {
      var info := InfoOf(multiUserTempColorModeMap, context).(temporary := true);
      multiUserTempColorModeMap := multiUserTempColorModeMap[context := info];
      match setting {
        case None => return false;
        case Some((start, end)) =>
          var (from, to) := GetTempColorModeTimeInfo(start, end, now);
          multiUserTempColorModeMap := multiUserTempColorModeMap[context := info.(start := from, end := to)];
          assert multiUserTempColorModeMap == old(multiUserTempColorModeMap)[context := TempInfo(true, from, to)];
          SaveTempColorModeInfo(context);
          return true;
      }
    }

    method SetColorModeNormal(context: AccountContext)
      modifies this, parameters
      ensures State() == TemporaryColorMode.SetColorModeNormal(old(State()), context)
    {
      multiUserTempColorModeMap := multiUserTempColorModeMap[context := NORMAL];
      SaveTempColorModeInfo(context);
    }

    method SaveTempColorModeInfo(context: AccountContext)
      requires context in multiUserTempColorModeMap
      modifies parameters
      ensures parameters.State()
              == TemporaryColorMode.SaveTempColorModeInfo(
                old(parameters.State()), context, multiUserTempColorModeMap[context])
    {
      var info := multiUserTempColorModeMap[context];
      var _ := parameters.Set(FlagKey(context), if info.temporary then TEMPORARY_STRING else NORMAL_STRING);
      if info.temporary {
        var _ := parameters.Set(StartKey(context), ToString(info.start));
        var _ := parameters.Set(EndKey(context), ToString(info.end));
      }
    }
  }
}

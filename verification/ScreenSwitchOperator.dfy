/** The screen state and the one pending screen-off operation (screen_switch_operator_manager.cpp). */
module ScreenSwitchOperator {
  import opened Decimal

  const USER100: int32 := 100

  datatype Operate = NONE | SWITCH_TO_LIGHT | SWITCH_TO_DARK

  datatype Screen = Screen(on: bool, operate: Operate, userId: int32)

  class ScreenSwitchOperatorManager {
    var screenOn: bool
    var screenOffOperator: Operate
    var operateUserId: int32

    ghost function State(): Screen
      reads this
    {
      Screen(screenOn, screenOffOperator, operateUserId)
    }

    constructor ()
      ensures State() == Screen(false, NONE, 0)
    {
      screenOn, screenOffOperator, operateUserId := false, NONE, 0;
    }

    method SetScreenOn()
      modifies this
      ensures State() == old(State()).(on := true)
    {
      screenOn := true;
    }

    method SetScreenOff()
      modifies this
      ensures State() == old(State()).(on := false)
    {
      screenOn := false;
    }

    method ResetScreenOffOperateInfo()
      modifies this
      ensures State() == old(State()).(operate := NONE, userId := USER100)
    {
      screenOffOperator, operateUserId := NONE, USER100;
    }

    method SetScreenOffOperateInfo(switchToDark: bool, userId: int32)
      modifies this
      ensures State()
              == old(State()).(operate := if switchToDark then SWITCH_TO_DARK else SWITCH_TO_LIGHT, userId := userId)
    {
      screenOffOperator := if switchToDark then SWITCH_TO_DARK else SWITCH_TO_LIGHT;
      operateUserId := userId;
    }
  }
}

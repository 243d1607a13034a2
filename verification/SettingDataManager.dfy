/** The setting data manager over the settings store (setting_data_manager.cpp). */
module SettingDataManagers {
  import opened Decimal
  import opened Errors
  import opened Accounts
  import opened SettingData

  class SettingDataManager {
    var isInitialized: bool
    var data: map<(int32, string), string>
    var observers: map<string, Observer>
    var registered: map<string, Observer>
    var notified: seq<Notification>

    ghost function State(): Settings
      reads this
    {
      Settings(isInitialized, data, observers, registered, notified)
    }

    constructor (data: map<(int32, string), string>)
      ensures State() == Settings(false, data, map[], map[], [])
    {
      isInitialized, this.data, observers, registered, notified := false, data, map[], map[], [];
    }

    method Initialize(available: bool) returns (code: ErrCode)
      modifies this
      ensures State() == old(State()).(initialized := old(isInitialized) || available)
      ensures code == if isInitialized then ERR_OK else ERR_NO_INIT
    {
      isInitialized := isInitialized || available;
      code := if isInitialized then ERR_OK else ERR_NO_INIT;
    }

    method RegisterObserver(o: Observer, helper: bool) returns (code: ErrCode)
      modifies this
      ensures (State(), code) == SettingData.RegisterObserver(old(State()), o, helper)
    {
      if !isInitialized {
        return ERR_NO_INIT;
      }
      var observerName := GenerateObserverName(o.key, o.userId);
      if observerName in observers {
        return ERR_OK;
      }
      if !helper {
        return ERR_NO_INIT;
      }
      registered := registered[observerName := o];
      NotifyChange(o.key, o.userId);
      observers := observers[observerName := o];
      return ERR_OK;
    }

    method UnregisterObserver(key: string, userId: int32, helper: bool) returns (code: ErrCode)
      modifies this
      ensures (State(), code) == SettingData.UnregisterObserver(old(State()), key, userId, helper)
    {
      var observerName := GenerateObserverName(key, userId);
      if observerName !in observers {
        return ERR_INVALID_VALUE;
      }
      if helper {
        registered := registered - {observerName};
      }
      observers := observers - {observerName};
      return if helper then ERR_OK else ERR_NO_INIT;
    }

    method GetStringValue(key: string, userId: int32) returns (code: ErrCode, value: string)
      ensures (code, value) == SettingData.GetStringValue(State(), key, userId)
    {
      if !isInitialized {
        return ERR_NO_INIT, "";
      }
      if (userId, key) in data {
        return ERR_OK, data[(userId, key)];
      }
      return ERR_NAME_NOT_FOUND, "";
    }

    /** `value` is the caller's variable before the call, `read` after it. */
    method GetInt32Value(key: string, value: int32, userId: int32) returns (code: ErrCode, read: int32)
      ensures (code, read) == SettingData.GetInt32Value(State(), key, value, userId)
    {
      var valueString;
      code, valueString := GetStringValue(key, userId);
      if code != ERR_OK {
        return code, value;
      }
      var res := FromChars(valueString);
      if res == None {
        return ERR_INVALID_VALUE, value;
      }
      return ERR_OK, res.value;
    }

    method GetInt32ValueStrictly(key: string, value: int32, userId: int32) returns (code: ErrCode, read: int32)
      ensures (code, read) == SettingData.GetInt32ValueStrictly(State(), key, value, userId)
    {
      var valueString;
      code, valueString := GetStringValue(key, userId);
      if code != ERR_OK {
        return code, value;
      }
      var res := FromChars(valueString);
      if res == None {
        return ERR_INVALID_VALUE, value;
      }
      if ToString(res.value) != valueString {
        return ERR_INVALID_VALUE, value;
      }
      return ERR_OK, res.value;
    }

    method Write(key: string, value: string, userId: int32, granted: bool) returns (ok: bool)
      modifies this
      ensures State() == SettingData.Write(old(State()), key, value, userId, granted) && ok == granted
    {
      if granted {
        data := data[(userId, key) := value];
      }
      ok := granted;
    }

    method NotifyChange(key: string, userId: int32)
      modifies this
      ensures State() == old(State()).(notified := old(notified) + [Notification(userId, key, old(data))])
    {
      notified := notified + [Notification(userId, key, data)];
    }

    method SetStringValue(key: string, value: string, userId: int32, needNotify: bool, reply: PutReply)
      returns (code: ErrCode)
      modifies this
      ensures (State(), code) == SettingData.SetStringValue(old(State()), key, value, userId, needNotify, reply)
    {
      if !isInitialized || reply == NO_HELPER {
        return ERR_NO_INIT;
      }
      var ok := Write(key, value, userId, reply == STORED);
      if !ok {
        return ERR_INVALID_OPERATION;
      }
      if needNotify {
        NotifyChange(key, userId);
      }
      return ERR_OK;
    }

    method SetInt32ValuePair(
      firstKey: string, firstValue: int32, secondKey: string, secondValue: int32, userId: int32, reply: PairReply)
      returns (code: ErrCode)
      modifies this
      ensures (State(), code)
              == SettingData.SetInt32ValuePair(
                old(State()), firstKey, firstValue, secondKey, secondValue, userId, reply)
    {
      var readCode, oldFirstValue := GetInt32Value(firstKey, 0, userId);
      var canRollbackFirst := readCode == ERR_OK;
      if !isInitialized || !reply.helpers {
        return ERR_NO_INIT;
      }
      var firstUpdated := Write(firstKey, ToString(firstValue), userId, reply.first);
      var secondUpdated := false;
      if firstUpdated {
        secondUpdated := Write(secondKey, ToString(secondValue), userId, reply.second);
      }
      if !secondUpdated {
        if firstUpdated && canRollbackFirst {
          var _ := Write(firstKey, ToString(oldFirstValue), userId, reply.rollback);
        }
        return ERR_INVALID_OPERATION;
      }
      NotifyChange(firstKey, userId);
      NotifyChange(secondKey, userId);
      return ERR_OK;
    }
  }
}

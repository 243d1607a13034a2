/** The settings store, its strict and lenient integer readers, the pair write with rollback and the
    observer registry, as values (setting_data_manager.cpp). */
module SettingData {
  import opened Decimal
  import opened Errors
  import opened Accounts

  /** An observer: its key and user, and the setting and context its update function was built for. */
  datatype Observer = Observer(key: string, userId: int32, setting: string, context: AccountContext)

  /** A change notification and the store content the notified observers will read. */
  datatype Notification = Notification(userId: int32, key: string, data: map<(int32, string), string>)

  /** Whether the manager is initialized, the store of every user, the registry (observers_), the
      observers the store knows, and the notifications sent. */
  datatype Settings = Settings(
    initialized: bool,
    data: map<(int32, string), string>,
    observers: map<string, Observer>,
    registered: map<string, Observer>,
    notified: seq<Notification>)

  /** Without the remote object that initialization provides no helper can be created. */
  function GetStringValue(s: Settings, key: string, userId: int32): (ErrCode, string) {
    if !s.initialized then (ERR_NO_INIT, "")
    else if (userId, key) in s.data then (ERR_OK, s.data[(userId, key)]) else (ERR_NAME_NOT_FOUND, "")
  }

  function GetInt32Value(s: Settings, key: string, value: int32, userId: int32): (ErrCode, int32) {
    var (code, text) := GetStringValue(s, key, userId);
    if code != ERR_OK then (code, value)
    else
      match FromChars(text)
      case Some(v) => (ERR_OK, v)
      case None => (ERR_INVALID_VALUE, value)
  }

  function GetInt32ValueStrictly(s: Settings, key: string, value: int32, userId: int32): (ErrCode, int32) {
    var (code, text) := GetStringValue(s, key, userId);
    if code != ERR_OK then (code, value)
    else
      match FromChars(text)
      case Some(v) => if ToString(v) != text then (ERR_INVALID_VALUE, value) else (ERR_OK, v)
      case None => (ERR_INVALID_VALUE, value)
  }

  /** One write: an update, or an insert when there is nothing to update; `granted` when either succeeds. */
  function Write(s: Settings, key: string, value: string, userId: int32, granted: bool): Settings {
    if granted then s.(data := s.data[(userId, key) := value]) else s
  }

  function Notify(s: Settings, key: string, userId: int32): Settings {
    s.(notified := s.notified + [Notification(userId, key, s.data)])
  }

  /** What becomes of a write: no helper for the store, a refusal, or success. */
  datatype PutReply = NO_HELPER | REFUSED | STORED

  function SetStringValue(s: Settings, key: string, value: string, userId: int32, notify: bool, reply: PutReply)
    : (Settings, ErrCode)
  {
    if !s.initialized || reply == NO_HELPER then (s, ERR_NO_INIT)
    else if reply == REFUSED then (s, ERR_INVALID_OPERATION)
    else
      var written := Write(s, key, value, userId, true);
      (if notify then Notify(written, key, userId) else written, ERR_OK)
  }

  /** What the store answers during a pair write. */
  datatype PairReply = PairReply(helpers: bool, first: bool, second: bool, rollback: bool)

  function SetInt32ValuePair(
    s: Settings, firstKey: string, firstValue: int32, secondKey: string, secondValue: int32, userId: int32,
    reply: PairReply)
    : (Settings, ErrCode)
  {
    var (code, oldFirst) := GetInt32Value(s, firstKey, 0, userId);
    if !s.initialized || !reply.helpers then (s, ERR_NO_INIT)
    else if !reply.first then (s, ERR_INVALID_OPERATION)
    else
      var s1 := Write(s, firstKey, ToString(firstValue), userId, true);
      if !reply.second then
        (if code == ERR_OK then Write(s1, firstKey, ToString(oldFirst), userId, reply.rollback) else s1,
         ERR_INVALID_OPERATION)
      else
        var s2 := Write(s1, secondKey, ToString(secondValue), userId, true);
        (Notify(Notify(s2, firstKey, userId), secondKey, userId), ERR_OK)
  }

  // ---------- the readers ----------

  /** The strict reader accepts exactly the printed int32 values and yields the printed value. */
  lemma StrictReaderAcceptsPrintedIntegers(s: Settings, key: string, value: int32, userId: int32)
    ensures
      var (code, read) := GetInt32ValueStrictly(s, key, value, userId);
      && (code == ERR_OK <==>
          s.initialized && (userId, key) in s.data && exists v: int32 :: s.data[(userId, key)] == ToString(v))
      && (code == ERR_OK ==> s.data[(userId, key)] == ToString(read))
      && (code != ERR_OK ==> read == value)
  {
    if (userId, key) in s.data {
      var text := s.data[(userId, key)];
      if v: int32 :| text == ToString(v) {
        LeadingIntegerInvertsToString(v);
      }
    }
  }

  /** Whenever the strict reader succeeds the lenient one returns the same value. */
  lemma LenientReaderAgrees(s: Settings, key: string, value: int32, other: int32, userId: int32)
    requires GetInt32ValueStrictly(s, key, value, userId).0 == ERR_OK
    ensures GetInt32Value(s, key, other, userId) == GetInt32ValueStrictly(s, key, value, userId)
  {
  }

  /** The lenient reader takes an integer whatever follows it; the strict one only if nothing does. */
  lemma LenientReaderTakesPrefix(s: Settings, key: string, value: int32, userId: int32, v: int32, rest: string)
    requires s.initialized && (userId, key) in s.data && s.data[(userId, key)] == ToString(v) + rest && Ends(rest)
    ensures GetInt32Value(s, key, value, userId) == (ERR_OK, v)
    ensures GetInt32ValueStrictly(s, key, value, userId)
         == if rest == "" then (ERR_OK, v) else (ERR_INVALID_VALUE, value)
  {
    LeadingIntegerTakesPrefix(v, rest);
    assert rest == "" ==> ToString(v) + rest == ToString(v);
    assert rest != "" ==> |ToString(v) + rest| > |ToString(v)|;
  }

  /** What a failed read or write tells: no store, no such key, or a text or a write that was refused. */
  lemma ErrorsTellApart(
    s: Settings, key: string, value: int32, text: string, userId: int32, notify: bool, reply: PutReply)
    ensures
      var (code, read) := GetInt32ValueStrictly(s, key, value, userId);
      && (code == ERR_NO_INIT <==> !s.initialized)
      && (code == ERR_NAME_NOT_FOUND <==> s.initialized && (userId, key) !in s.data)
      && (code != ERR_OK ==> read == value)
    ensures
      var code := SetStringValue(s, key, text, userId, notify, reply).1;
      && (code == ERR_NO_INIT <==> !s.initialized || reply == NO_HELPER)
      && (code == ERR_INVALID_OPERATION <==> s.initialized && reply == REFUSED)
      && (code == ERR_OK <==> s.initialized && reply == STORED)
  {
  }

  /** Reading strictly after a successful write of an integer yields it, under that key and no other; a
      failed write leaves everything as it was. */
  lemma ReadAfterWrite(s: Settings, key: string, written: int32, userId: int32, notify: bool, reply: PutReply,
                       value: int32, otherKey: string, otherUser: int32)
    ensures
      var (s', code) := SetStringValue(s, key, ToString(written), userId, notify, reply);
      && (code == ERR_OK <==> s.initialized && reply == STORED)
      && (code != ERR_OK ==> s' == s)
      && (code == ERR_OK ==> GetInt32ValueStrictly(s', key, value, userId) == (ERR_OK, written))
      && ((otherUser, otherKey) != (userId, key) ==>
            GetInt32ValueStrictly(s', otherKey, value, otherUser)
            == GetInt32ValueStrictly(s, otherKey, value, otherUser))
  {
    LeadingIntegerInvertsToString(written);
  }

  // ---------- the pair write ----------

  /** A failed pair write sends no notification, leaves the second key alone, and leaves the integer
      under the first key unchanged if it was readable and the rollback is granted. */
  lemma FailedPairIsRolledBack(
    s: Settings, firstKey: string, firstValue: int32, secondKey: string, secondValue: int32, userId: int32,
    reply: PairReply, fallback: int32)
    requires firstKey != secondKey
    requires SetInt32ValuePair(s, firstKey, firstValue, secondKey, secondValue, userId, reply).1 != ERR_OK
    ensures
      var s' := SetInt32ValuePair(s, firstKey, firstValue, secondKey, secondValue, userId, reply).0;
      && s'.notified == s.notified
      && (forall k | k != (userId, firstKey) ::
            (k in s'.data <==> k in s.data) && (k in s.data ==> s'.data[k] == s.data[k]))
      && (GetInt32Value(s, firstKey, fallback, userId).0 == ERR_OK && reply.rollback ==>
            GetInt32Value(s', firstKey, fallback, userId) == GetInt32Value(s, firstKey, fallback, userId))
  {
    LeadingIntegerInvertsToString(GetInt32Value(s, firstKey, 0, userId).1);
  }

  /** What is left under the first key when the second write fails: the integer that was readable there, if the rollback
      is granted, else the new one. Without helpers, or when the first write fails, nothing is written at all. */
  lemma FailedPairLeaves(
    s: Settings, firstKey: string, firstValue: int32, secondKey: string, secondValue: int32, userId: int32,
    reply: PairReply)
    requires SetInt32ValuePair(s, firstKey, firstValue, secondKey, secondValue, userId, reply).1 != ERR_OK
    ensures
      var (s', code) := SetInt32ValuePair(s, firstKey, firstValue, secondKey, secondValue, userId, reply);
      var (readable, old_) := GetInt32Value(s, firstKey, 0, userId);
      && (code == ERR_NO_INIT <==> !s.initialized || !reply.helpers)
      && (if code == ERR_NO_INIT || !reply.first then s' == s
          else
            && (userId, firstKey) in s'.data
            && s'.data[(userId, firstKey)]
               == ToString(if readable == ERR_OK && reply.rollback then old_ else firstValue))
  {
  }

  /** What a successful pair write stores and sends. */
  lemma PairIsStored(
    s: Settings, firstKey: string, firstValue: int32, secondKey: string, secondValue: int32, userId: int32,
    reply: PairReply)
    requires SetInt32ValuePair(s, firstKey, firstValue, secondKey, secondValue, userId, reply).1 == ERR_OK
    ensures
      var s' := SetInt32ValuePair(s, firstKey, firstValue, secondKey, secondValue, userId, reply).0;
      && s'.initialized
      && s'.data == s.data[(userId, firstKey) := ToString(firstValue)][(userId, secondKey) := ToString(secondValue)]
      && s'.notified
         == s.notified + [Notification(userId, firstKey, s'.data), Notification(userId, secondKey, s'.data)]
  {
  }

  lemma PrintIsRead(s: Settings, key: string, v: int32, userId: int32, fallback: int32)
    requires s.initialized && (userId, key) in s.data && s.data[(userId, key)] == ToString(v)
    ensures GetInt32ValueStrictly(s, key, fallback, userId) == (ERR_OK, v)
  {
    LeadingIntegerInvertsToString(v);
  }

  /** A successful one has stored both values before it sends either of its two notifications. */
  lemma SuccessfulPairNotifiesAfterBoth(
    s: Settings, firstKey: string, firstValue: int32, secondKey: string, secondValue: int32, userId: int32,
    reply: PairReply, fallback: int32)
    requires firstKey != secondKey
    requires SetInt32ValuePair(s, firstKey, firstValue, secondKey, secondValue, userId, reply).1 == ERR_OK
    ensures
      var s' := SetInt32ValuePair(s, firstKey, firstValue, secondKey, secondValue, userId, reply).0;
      && s'.notified
         == s.notified + [Notification(userId, firstKey, s'.data), Notification(userId, secondKey, s'.data)]
      && GetInt32ValueStrictly(s', firstKey, fallback, userId) == (ERR_OK, firstValue)
      && GetInt32ValueStrictly(s', secondKey, fallback, userId) == (ERR_OK, secondValue)
      && forall k | k != (userId, firstKey) && k != (userId, secondKey) ::
           (k in s'.data <==> k in s.data) && (k in s.data ==> s'.data[k] == s.data[k])
  {
    var s' := SetInt32ValuePair(s, firstKey, firstValue, secondKey, secondValue, userId, reply).0;
    PairIsStored(s, firstKey, firstValue, secondKey, secondValue, userId, reply);
    PrintIsRead(s', firstKey, firstValue, userId, fallback);
    PrintIsRead(s', secondKey, secondValue, userId, fallback);
  }

  // ---------- the registry ----------

  /** RegisterObserver: nothing to do for a known name; `helper` when the store can be reached. */
  function RegisterObserver(s: Settings, o: Observer, helper: bool): (Settings, ErrCode) {
    var name := GenerateObserverName(o.key, o.userId);
    if !s.initialized then (s, ERR_NO_INIT)
    else if name in s.observers then (s, ERR_OK)
    else if !helper then (s, ERR_NO_INIT)
    else
      (Notify(s.(observers := s.observers[name := o], registered := s.registered[name := o]), o.key, o.userId), ERR_OK)
  }

  /** UnregisterObserver forgets the observer even when the store cannot be reached. */
  function UnregisterObserver(s: Settings, key: string, userId: int32, helper: bool): (Settings, ErrCode) {
    var name := GenerateObserverName(key, userId);
    if name !in s.observers then (s, ERR_INVALID_VALUE)
    else
      (s.(observers := s.observers - {name}, registered := if helper then s.registered - {name} else s.registered),
       if helper then ERR_OK else ERR_NO_INIT)
  }

  /** An observer that is known stays the one that was registered first, and hears of nothing more. */
  lemma RegisteringTwiceIsOnce(s: Settings, o: Observer, helper: bool, again: Observer, helperAgain: bool)
    requires GenerateObserverName(again.key, again.userId) == GenerateObserverName(o.key, o.userId)
    requires RegisterObserver(s, o, helper).1 == ERR_OK
    ensures
      var t := RegisterObserver(s, o, helper).0;
      RegisterObserver(t, again, helperAgain) == (t, ERR_OK)
  {
  }

  /** Unregistering forgets a known observer whatever becomes of the store, which keeps it if it cannot be reached, and
      tells these cases and an unknown observer apart. */
  lemma UnregisteringForgets(s: Settings, key: string, userId: int32, helper: bool)
    ensures
      var (t, code) := UnregisterObserver(s, key, userId, helper);
      var name := GenerateObserverName(key, userId);
      && name !in t.observers
      && (code == ERR_INVALID_VALUE <==> name !in s.observers) && (code == ERR_INVALID_VALUE ==> t == s)
      && (code == ERR_NO_INIT <==> name in s.observers && !helper) && (!helper ==> t.registered == s.registered)
      && (code == ERR_OK ==> name !in t.registered)
      && t.notified == s.notified && t.data == s.data
  {
  }

  function ObserverOf(setting: string, context: AccountContext): Observer {
    Observer(BuildSettingKey(setting, context), context.userId, setting, context)
  }

  /** Registers the observers of a context; `helpers` are the settings whose registration reaches the
      store. The count is of the failures. */
  function RegisterAll(s: Settings, settings: seq<string>, context: AccountContext, helpers: set<string>)
    : (Settings, nat)
  {
    if settings == [] then (s, 0)
    else
      var n := |settings| - 1;
      var (s1, count) := RegisterAll(s, settings[..n], context, helpers);
      var (s2, code) := RegisterObserver(s1, ObserverOf(settings[n], context), settings[n] in helpers);
      (s2, if code == ERR_OK then count else count + 1)
  }

  function UnregisterAll(s: Settings, settings: seq<string>, context: AccountContext, helpers: set<string>)
    : Settings
  {
    if settings == [] then s
    else
      var n := |settings| - 1;
      UnregisterObserver(
        UnregisterAll(s, settings[..n], context, helpers),
        BuildSettingKey(settings[n], context), context.userId, settings[n] in helpers).0
  }

  /** The store knows exactly the observers of the registry, and those with a dark mode name belong to
      the current context and carry that context. */
  ghost predicate RegistrySound(s: Settings, current: AccountContext) {
    && s.registered == s.observers
    && (forall k, c: AccountContext | k in SETTING_KEYS && ObserverName(k, c) in s.observers ::
          c == current && s.observers[ObserverName(k, c)] == ObserverOf(k, c))
  }

  ghost predicate AllFive(s: Settings, context: AccountContext) {
    forall k | k in SETTING_KEYS :: ObserverName(k, context) in s.observers
  }

  lemma {:induction false} RegisterAllSound(
    s: Settings, settings: seq<string>, context: AccountContext, helpers: set<string>)
    requires forall k :: k in settings ==> k in SETTING_KEYS
    requires RegistrySound(s, context)
    ensures RegistrySound(RegisterAll(s, settings, context, helpers).0, context)
    ensures RegisterAll(s, settings, context, helpers).1 == 0 ==>
              forall k | k in settings ::
                ObserverName(k, context) in RegisterAll(s, settings, context, helpers).0.observers
    ensures RegisterAll(s, settings, context, helpers).0.data == s.data
    ensures RegisterAll(s, settings, context, helpers).0.initialized == s.initialized
  {
    if settings != [] {
      var n := |settings| - 1;
      RegisterAllSound(s, settings[..n], context, helpers);
      var s1 := RegisterAll(s, settings[..n], context, helpers).0;
      var s2 := RegisterObserver(s1, ObserverOf(settings[n], context), settings[n] in helpers).0;
      forall k, c: AccountContext | k in SETTING_KEYS && ObserverName(k, c) in s2.observers
        ensures c == context && s2.observers[ObserverName(k, c)] == ObserverOf(k, c)
      {
        if ObserverName(k, c) == ObserverName(settings[n], context) {
          SettingObserverIsInjective(k, c, settings[n], context);
        }
      }
      forall k | k in settings && RegisterAll(s, settings, context, helpers).1 == 0
        ensures ObserverName(k, context) in s2.observers
      {
        assert k == settings[n] || k in settings[..n];
      }
    }
  }

  /** What is left of a name, which only the setting k can give, after unregistering a list of settings. */
  lemma {:induction false} UnregisterAllNames(
    s: Settings, settings: seq<string>, context: AccountContext, helpers: set<string>, name: string, k: string)
    requires forall i :: i in settings && ObserverName(i, context) == name ==> i == k
    ensures
      var t := UnregisterAll(s, settings, context, helpers);
      var listed := k in settings && ObserverName(k, context) == name;
      && (name in t.observers <==> name in s.observers && !listed)
      && (name in t.registered <==> name in s.registered && !(listed && name in s.observers && k in helpers))
  {
    if settings != [] {
      var n := |settings| - 1;
      assert forall i :: i in settings <==> i in settings[..n] || i == settings[n];
      UnregisterAllNames(s, settings[..n], context, helpers, name, k);
      assert settings[n] in settings;
      assert ObserverName(settings[n], context) == name <==> settings[n] == k && ObserverName(k, context) == name;
    }
  }

  lemma {:induction false} UnregisterAllElsewhere(
    s: Settings, settings: seq<string>, context: AccountContext, helpers: set<string>)
    requires forall i :: i in settings ==> i in SETTING_KEYS
    ensures
      var t := UnregisterAll(s, settings, context, helpers);
      && t == s.(observers := t.observers, registered := t.registered)
      && (forall name :: name in t.observers ==> name in s.observers && t.observers[name] == s.observers[name])
      && (forall name :: name in t.registered ==> name in s.registered && t.registered[name] == s.registered[name])
      && (forall name | (forall k | k in SETTING_KEYS :: name != ObserverName(k, context)) ::
            (name in s.observers ==> name in t.observers) && (name in s.registered ==> name in t.registered))
  {
    if settings != [] {
      UnregisterAllElsewhere(s, settings[..|settings| - 1], context, helpers);
      assert settings[|settings| - 1] in SETTING_KEYS;
    }
  }

  /** Every observer the registry has for the context can be taken out of the store. */
  ghost predicate Reaches(s: Settings, context: AccountContext, helpers: set<string>) {
    forall k | k in SETTING_KEYS && ObserverName(k, context) in s.observers :: k in helpers
  }

  /** Unregistering the five observers of a context takes them out of the registry, and out of the store as
      well exactly when the store can be reached for each that is there. */
  lemma UnregisterAllSound(s: Settings, context: AccountContext, helpers: set<string>)
    requires RegistrySound(s, context)
    ensures
      var t := UnregisterAll(s, SETTING_KEYS, context, helpers);
      && (t.registered == t.observers <==> Reaches(s, context, helpers))
      && (forall k, c: AccountContext | k in SETTING_KEYS :: ObserverName(k, c) !in t.observers)
      && t == s.(observers := t.observers, registered := t.registered)
  {
    var t := UnregisterAll(s, SETTING_KEYS, context, helpers);
    UnregisterAllElsewhere(s, SETTING_KEYS, context, helpers);
    forall k, c: AccountContext | k in SETTING_KEYS
      ensures ObserverName(k, c) !in t.observers
      ensures ObserverName(k, c) in t.registered <==> ObserverName(k, c) in s.observers && k !in helpers
    {
      forall i | i in SETTING_KEYS && ObserverName(i, context) == ObserverName(k, c)
        ensures i == k && c == context
      {
        SettingObserverIsInjective(k, c, i, context);
      }
      UnregisterAllNames(s, SETTING_KEYS, context, helpers, ObserverName(k, c), k);
    }
    if Reaches(s, context, helpers) {
      forall name
        ensures name in t.registered <==> name in t.observers
        ensures name in t.registered ==> t.registered[name] == t.observers[name]
      {
        if k :| k in SETTING_KEYS && name == ObserverName(k, context) {
          assert name !in t.observers && name !in t.registered;
        }
      }
      assert t.registered == t.observers;
    } else {
      var k :| k in SETTING_KEYS && ObserverName(k, context) in s.observers && k !in helpers;
      assert ObserverName(k, context) in t.registered && ObserverName(k, context) !in t.observers;
    }
  }

  lemma {:induction false} RegisterAllNames(
    s: Settings, settings: seq<string>, context: AccountContext, helpers: set<string>, name: string)
    requires forall k :: k in settings ==> name != ObserverName(k, context)
    ensures name in RegisterAll(s, settings, context, helpers).0.observers <==> name in s.observers
    ensures RegisterAll(s, settings, context, helpers).0.data == s.data
  {
    if settings != [] {
      var n := |settings| - 1;
      RegisterAllNames(s, settings[..n], context, helpers, name);
      assert settings[n] in settings;
    }
  }

  function FirstNotifications(s: Settings, settings: seq<string>, context: AccountContext): seq<Notification> {
    if settings == [] then []
    else
      var n := |settings| - 1;
      FirstNotifications(s, settings[..n], context)
      + [Notification(context.userId, BuildSettingKey(settings[n], context), s.data)]
  }

  /** Registering a list of observers that are not known yet sends each its first notification, in order. */
  lemma {:induction false} FreshObserversAreNotified(
    s: Settings, settings: seq<string>, context: AccountContext, helpers: set<string>)
    requires forall k :: k in settings ==> ObserverName(k, context) !in s.observers
    requires forall i, j :: 0 <= i < j < |settings| ==>
                              ObserverName(settings[i], context) != ObserverName(settings[j], context)
    requires RegisterAll(s, settings, context, helpers).1 == 0
    ensures RegisterAll(s, settings, context, helpers).0.notified
         == s.notified + FirstNotifications(s, settings, context)
  {
    if settings != [] {
      var n := |settings| - 1;
      forall k | k in settings[..n]
        ensures ObserverName(settings[n], context) != ObserverName(k, context) && k in settings
      {
      }
      FreshObserversAreNotified(s, settings[..n], context, helpers);
      RegisterAllNames(s, settings[..n], context, helpers, ObserverName(settings[n], context));
      assert settings[n] in settings;
    }
  }
}

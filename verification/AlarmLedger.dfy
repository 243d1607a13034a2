/** The timer bookkeeping as values: what each AlarmTimerManager operation does to the three maps and
    to the timers alive in the time service, and what every run of them keeps. */
module AlarmLedger {
  import opened Errors
  import opened Accounts
  import opened Schedule

  /** What a timer does when it fires: the two lambdas of DarkModeManager with their captures. */
  datatype Callback =
    | SwitchColor(start: int, end: int, context: AccountContext)
    | Recalculate(context: AccountContext)

  /** A timer alive in the time service: its next trigger in milliseconds, repeating daily. */
  datatype Timer = Timer(trigger: nat, running: bool, callback: Callback)

  /** The answers of the time service to one creation: the id on offer (0: refused) and whether the
      start succeeds. An id still in use is never handed out again. */
  datatype Reply = Reply(id: nat, started: bool)

  datatype Pair = Pair(start: nat, end: nat)

  datatype Alarm = Alarm(
    timerIds: map<nat, Pair>, setupTimes: map<nat, Pair>, recalculationIds: map<nat, nat>, timers: map<nat, Timer>)

  const NO_TIMERS := Alarm(map[], map[], map[], map[])

  function ClearTimer(timers: map<nat, Timer>, id: nat): map<nat, Timer> {
    if id == 0 then timers else timers - {id}
  }

  function InitTimer(timers: map<nat, Timer>, trigger: nat, callback: Callback, reply: Reply)
    : (map<nat, Timer>, nat)
  {
    if reply.id == 0 || reply.id in timers || !reply.started then
      (timers, 0)
    else
      (timers[reply.id := Timer(trigger, true, callback)], reply.id)
  }

  function IdsOf(a: Alarm, key: nat): Pair { if key in a.timerIds then a.timerIds[key] else Pair(0, 0) }

  function SetTimer(a: Alarm, isStart: bool, key: nat, trigger: nat, callback: Callback, reply: Reply): Alarm {
    var ids := IdsOf(a, key);
    var cleared := ClearTimer(a.timers, if isStart then ids.start else ids.end);
    var (timers, id) := InitTimer(cleared, trigger, callback, reply);
    a.(timerIds := a.timerIds[key := if isStart then ids.(start := id) else ids.(end := id)], timers := timers)
  }

  function SetScheduleTime(
    a: Alarm, start: nat, end: nat, key: nat, callback: Callback, now: Clock, first: Reply, second: Reply)
    : (Alarm, ErrCode)
  {
    if !IsValidScheduleTime(start, end) then
      (a, ERR_INVALID_VALUE)
    else
      var trigger := TriggerTimes(start, end, now);
      var a1 := a.(setupTimes := a.setupTimes[key := Pair(start, end)]);
      var a2 := SetTimer(a1, true, key, trigger.0, callback, first);
      var a3 := SetTimer(a2, false, key, trigger.1, callback, second);
      (a3, if a3.timerIds[key].start == 0 || a3.timerIds[key].end == 0 then ERR_INVALID_OPERATION else ERR_OK)
  }

  function ClearTimerByUserId(a: Alarm, key: nat): Alarm {
    var timers := ClearTimer(ClearTimer(a.timers, IdsOf(a, key).start), IdsOf(a, key).end);
    Alarm(
      a.timerIds - {key},
      a.setupTimes - {key},
      a.recalculationIds - {key},
      if key in a.recalculationIds then ClearTimer(timers, a.recalculationIds[key]) else timers)
  }

  function SetRecalculationTimer(a: Alarm, key: nat, callback: Callback, now: Clock, reply: Reply): Alarm {
    if key in a.recalculationIds && a.recalculationIds[key] > 0 then
      a
    else
      var (timers, id) := InitTimer(a.timers, ToU64(now.Time() * SECOND_TO_MILLI + STEP), callback, reply);
      if id == 0 then a else a.(recalculationIds := a.recalculationIds[key := id], timers := timers)
  }

  function ClearRecalculationTimer(a: Alarm, key: nat): Alarm {
    if key in a.recalculationIds then
      a.(recalculationIds := a.recalculationIds - {key}, timers := ClearTimer(a.timers, a.recalculationIds[key]))
    else
      a
  }

  // ---------- the ledger ----------

  datatype Kind = START | END | RECALCULATION

  /** A place where a timer id can be recorded. */
  datatype Slot = Slot(key: nat, kind: Kind)

  /** The id recorded in a slot; 0 when there is none. */
  function IdAt(a: Alarm, p: Slot): nat {
    match p.kind
    case START => IdsOf(a, p.key).start
    case END => IdsOf(a, p.key).end
    case RECALCULATION => if p.key in a.recalculationIds then a.recalculationIds[p.key] else 0
  }

  /** The timers alive are exactly the recorded ids, each recorded in one slot. */
  ghost predicate Ledger(a: Alarm) {
    && 0 !in a.timers
    && (forall p :: IdAt(a, p) != 0 ==> IdAt(a, p) in a.timers)
    && (forall p, q :: IdAt(a, p) != 0 && IdAt(a, p) == IdAt(a, q) ==> p == q)
    && (forall i :: i in a.timers ==> exists p :: IdAt(a, p) == i)
  }

  /** Ids and setup times have the same keys, every setup time is a valid schedule, and no
      recalculation entry is zero. */
  ghost predicate Books(a: Alarm) {
    && a.timerIds.Keys == a.setupTimes.Keys
    && (forall k :: k in a.setupTimes ==> IsValidScheduleTime(a.setupTimes[k].start, a.setupTimes[k].end))
    && (forall k :: k in a.recalculationIds ==> a.recalculationIds[k] != 0)
  }

  ghost predicate Sound(a: Alarm) { Ledger(a) && Books(a) }

  /** Exchanging the timer of one slot for a fresh one, or for none, keeps the ledger. */
  lemma ExchangeKeepsLedger(a: Alarm, b: Alarm, p: Slot)
    requires Ledger(a)
    requires forall q :: q != p ==> IdAt(b, q) == IdAt(a, q)
    requires IdAt(b, p) !in a.timers.Keys - {IdAt(a, p)}
    requires b.timers.Keys == (a.timers.Keys - {IdAt(a, p)}) + ({IdAt(b, p)} - {0})
    ensures Ledger(b)
  {
    forall i | i in b.timers
      ensures exists q :: IdAt(b, q) == i
    {
      if i != IdAt(b, p) {
        var q :| IdAt(a, q) == i;
        assert IdAt(b, q) == i;
      }
    }
    forall q | IdAt(b, q) != 0
      ensures IdAt(b, q) in b.timers
    {
      if q != p {
        assert IdAt(a, q) != IdAt(a, p);
      }
    }
    forall q, r | IdAt(b, q) != 0 && IdAt(b, q) == IdAt(b, r)
      ensures q == r
    {
      if q != p && r != p {
        assert IdAt(a, q) == IdAt(a, r);
      }
    }
  }

  lemma SetTimerExchangesOneSlot(
    a: Alarm, isStart: bool, key: nat, trigger: nat, callback: Callback, reply: Reply)
    requires 0 !in a.timers
    ensures
      var b := SetTimer(a, isStart, key, trigger, callback, reply);
      var p := Slot(key, if isStart then START else END);
      && (forall q :: q != p ==> IdAt(b, q) == IdAt(a, q))
      && IdAt(b, p) !in a.timers.Keys - {IdAt(a, p)}
      && b.timers.Keys == (a.timers.Keys - {IdAt(a, p)}) + ({IdAt(b, p)} - {0})
  {
  }

  lemma SetTimerKeepsLedger(a: Alarm, isStart: bool, key: nat, trigger: nat, callback: Callback, reply: Reply)
    requires Ledger(a)
    ensures Ledger(SetTimer(a, isStart, key, trigger, callback, reply))
  {
    SetTimerExchangesOneSlot(a, isStart, key, trigger, callback, reply);
    ExchangeKeepsLedger(
      a, SetTimer(a, isStart, key, trigger, callback, reply), Slot(key, if isStart then START else END));
  }

  lemma ScheduleKeepsLedger(
    a: Alarm, start: nat, end: nat, key: nat, callback: Callback, now: Clock, first: Reply, second: Reply)
    requires Ledger(a)
    ensures Ledger(SetScheduleTime(a, start, end, key, callback, now, first, second).0)
  {
    if IsValidScheduleTime(start, end) {
      var trigger := TriggerTimes(start, end, now);
      var a1 := a.(setupTimes := a.setupTimes[key := Pair(start, end)]);
      assert Ledger(a1) by {
        SetupTimesAreNotInTheLedger(a, a1);
      }
      SetTimerKeepsLedger(a1, true, key, trigger.0, callback, first);
      SetTimerKeepsLedger(SetTimer(a1, true, key, trigger.0, callback, first), false, key, trigger.1, callback, second);
    }
  }

  lemma SetupTimesAreNotInTheLedger(a: Alarm, b: Alarm)
    requires Ledger(a) && b == a.(setupTimes := b.setupTimes)
    ensures Ledger(b)
  {
    assert forall p :: IdAt(b, p) == IdAt(a, p);
  }

  lemma ScheduleKeepsBooks(
    a: Alarm, start: nat, end: nat, key: nat, callback: Callback, now: Clock, first: Reply, second: Reply)
    requires Books(a)
    ensures Books(SetScheduleTime(a, start, end, key, callback, now, first, second).0)
  {
  }

  /** A schedule call that succeeds leaves both timers running for their triggers. */
  lemma ScheduleArms(
    a: Alarm, start: nat, end: nat, key: nat, callback: Callback, now: Clock, first: Reply, second: Reply)
    requires Sound(a) && SetScheduleTime(a, start, end, key, callback, now, first, second).1 == ERR_OK
    ensures
      var b := SetScheduleTime(a, start, end, key, callback, now, first, second).0;
      var trigger := TriggerTimes(start, end, now);
      var ids := IdsOf(b, key);
      && ids.start in b.timers && b.timers[ids.start] == Timer(trigger.0, true, callback)
      && ids.end in b.timers && b.timers[ids.end] == Timer(trigger.1, true, callback)
      && Sound(b)
  {
    ScheduleKeepsLedger(a, start, end, key, callback, now, first, second);
    ScheduleKeepsBooks(a, start, end, key, callback, now, first, second);
    var s, e := Slot(key, START), Slot(key, END);
    var b := SetScheduleTime(a, start, end, key, callback, now, first, second).0;
    assert IdAt(b, s) != 0 && IdAt(b, e) != 0;
    assert IdAt(b, s) != IdAt(b, e);
  }

  /** The time service offers a key two timers it can start: distinct ids, each free once the timer it
      replaces is destroyed. */
  predicate Offered(a: Alarm, key: nat, first: Reply, second: Reply) {
    var ids := IdsOf(a, key);
    && first.started && second.started && first.id != 0 && second.id != 0 && first.id != second.id
    && first.id !in a.timers.Keys - {ids.start} && second.id !in a.timers.Keys - {ids.start, ids.end}
  }

  /** One timer is set exactly when it is on offer. */
  lemma TimerIsSetExactly(a: Alarm, isStart: bool, key: nat, trigger: nat, callback: Callback, reply: Reply)
    requires 0 !in a.timers
    ensures
      var b := SetTimer(a, isStart, key, trigger, callback, reply);
      var ids := IdsOf(a, key);
      var was := if isStart then ids.start else ids.end;
      var is_ := if isStart then IdsOf(b, key).start else IdsOf(b, key).end;
      var set_ := reply.started && reply.id != 0 && reply.id !in a.timers.Keys - {was};
      && is_ == (if set_ then reply.id else 0)
      && b.timers.Keys == (a.timers.Keys - {was}) + (if set_ then {reply.id} else {})
      && (if isStart then IdsOf(b, key).end == ids.end else IdsOf(b, key).start == ids.start)
  {
  }

  /** A schedule call succeeds exactly when the schedule is valid and two such timers are on offer; then no
      other timer appears. */
  lemma ScheduleSucceedsExactly(
    a: Alarm, start: nat, end: nat, key: nat, callback: Callback, now: Clock, first: Reply, second: Reply)
    requires Ledger(a)
    ensures
      var (b, code) := SetScheduleTime(a, start, end, key, callback, now, first, second);
      && (code == ERR_OK <==> IsValidScheduleTime(start, end) && Offered(a, key, first, second))
      && (code == ERR_INVALID_VALUE <==> !IsValidScheduleTime(start, end))
      && (code == ERR_INVALID_VALUE ==> b == a)
      && b.timers.Keys <= a.timers.Keys + {first.id, second.id}
  {
    if IsValidScheduleTime(start, end) {
      var trigger := TriggerTimes(start, end, now);
      var a1 := a.(setupTimes := a.setupTimes[key := Pair(start, end)]);
      var a2 := SetTimer(a1, true, key, trigger.0, callback, first);
      var a3 := SetTimer(a2, false, key, trigger.1, callback, second);
      TimerIsSetExactly(a1, true, key, trigger.0, callback, first);
      TimerIsSetExactly(a2, false, key, trigger.1, callback, second);
      assert IdAt(a, Slot(key, START)) == IdsOf(a, key).start && IdAt(a, Slot(key, END)) == IdsOf(a, key).end;
      TwoOnOffer(a, key, first, second, a2.timers.Keys, a3.timers.Keys);
      assert IdsOf(a3, key) == a3.timerIds[key];
    }
  }

  /** The two offers one after the other: a second id equal to the first is in use by then. */
  lemma TwoOnOffer(a: Alarm, key: nat, first: Reply, second: Reply, between: set<nat>, after: set<nat>)
    requires
      var ids := IdsOf(a, key);
      var set1 := first.started && first.id != 0 && first.id !in a.timers.Keys - {ids.start};
      var set2 := second.started && second.id != 0 && second.id !in between - {ids.end};
      && between == (a.timers.Keys - {ids.start}) + (if set1 then {first.id} else {})
      && after == (between - {ids.end}) + (if set2 then {second.id} else {})
    requires IdsOf(a, key).end != 0 ==> IdsOf(a, key).end in a.timers && IdsOf(a, key).end != IdsOf(a, key).start
    ensures
      var ids := IdsOf(a, key);
      && (Offered(a, key, first, second)
          <==> && first.started && first.id != 0 && first.id !in a.timers.Keys - {ids.start}
               && second.started && second.id != 0 && second.id !in between - {ids.end})
      && after <= a.timers.Keys + {first.id, second.id}
  {
  }

  /** Destroying the timers of every slot of a key keeps the ledger. */
  lemma ReleaseKeepsLedger(a: Alarm, b: Alarm, key: nat)
    requires Ledger(a)
    requires forall q :: IdAt(b, q) == if q.key == key then 0 else IdAt(a, q)
    requires forall i :: i in b.timers <==>
                         && i in a.timers && i != IdAt(a, Slot(key, START)) && i != IdAt(a, Slot(key, END))
                         && i != IdAt(a, Slot(key, RECALCULATION))
    ensures Ledger(b)
  {
    forall i | i in b.timers
      ensures exists q :: IdAt(b, q) == i
    {
      var q :| IdAt(a, q) == i;
      assert q == Slot(q.key, q.kind);
      assert IdAt(b, q) == i;
    }
    forall q | IdAt(b, q) != 0
      ensures IdAt(b, q) in b.timers
    {
      assert IdAt(a, q) == IdAt(b, q) && q.key != key;
    }
  }

  lemma ClearReleasesTheKey(a: Alarm, key: nat)
    ensures
      var b := ClearTimerByUserId(a, key);
      && (forall q :: IdAt(b, q) == if q.key == key then 0 else IdAt(a, q))
      && (forall i :: i in b.timers <==>
                      && i in a.timers
                      && (i == 0 || (i != IdAt(a, Slot(key, START)) && i != IdAt(a, Slot(key, END))
                                     && i != IdAt(a, Slot(key, RECALCULATION)))))
  {
  }

  lemma ClearKeepsSound(a: Alarm, key: nat)
    requires Sound(a)
    ensures Sound(ClearTimerByUserId(a, key))
  {
    ClearReleasesTheKey(a, key);
    ReleaseKeepsLedger(a, ClearTimerByUserId(a, key), key);
  }

  lemma SetRecalculationKeepsSound(a: Alarm, key: nat, callback: Callback, now: Clock, reply: Reply)
    requires Sound(a)
    ensures Sound(SetRecalculationTimer(a, key, callback, now, reply))
  {
    var b := SetRecalculationTimer(a, key, callback, now, reply);
    if b != a {
      var p := Slot(key, RECALCULATION);
      assert forall q :: q != p ==> IdAt(b, q) == IdAt(a, q);
      ExchangeKeepsLedger(a, b, p);
    }
  }

  lemma ClearRecalculationKeepsSound(a: Alarm, key: nat)
    requires Sound(a)
    ensures Sound(ClearRecalculationTimer(a, key))
  {
    var b := ClearRecalculationTimer(a, key);
    if b != a {
      var p := Slot(key, RECALCULATION);
      assert forall q :: q != p ==> IdAt(b, q) == IdAt(a, q);
      ExchangeKeepsLedger(a, b, p);
    }
  }

  // ---------- restarting ----------

  /** Stopped and started again for `trigger`; a refused start leaves it stopped. */
  function Restart(t: Timer, trigger: nat, started: bool): Timer {
    if started then t.(trigger := trigger, running := true) else t.(running := false)
  }

  /** The slots RestartAllTimer restarts: both schedule timers of every key but 0. */
  predicate Restarts(p: Slot) { p.kind != RECALCULATION && p.key != 0 }

  function NextTrigger(a: Alarm, p: Slot, now: Clock): nat
    requires p.key in a.setupTimes
  {
    var trigger := TriggerTimes(a.setupTimes[p.key].start, a.setupTimes[p.key].end, now);
    if p.kind == START then trigger.0 else trigger.1
  }

  /** b is a after restarting the slots with keys in `done`, where the service refuses to start `refused`. */
  ghost predicate RestartedKeys(a: Alarm, b: Alarm, now: Clock, refused: set<nat>, done: set<nat>)
    requires Books(a)
  {
    && b == a.(timers := b.timers)
    && b.timers.Keys == a.timers.Keys
    && (forall p | IdAt(a, p) != 0 && IdAt(a, p) in a.timers ::
          b.timers[IdAt(a, p)] ==
          if Restarts(p) && p.key in done then
            Restart(a.timers[IdAt(a, p)], NextTrigger(a, p, now), IdAt(a, p) !in refused)
          else
            a.timers[IdAt(a, p)])
  }

  ghost predicate Restarted(a: Alarm, b: Alarm, now: Clock, refused: set<nat>)
    requires Books(a)
  {
    RestartedKeys(a, b, now, refused, a.timerIds.Keys)
  }

  lemma RestartKeepsSound(a: Alarm, b: Alarm, now: Clock, refused: set<nat>)
    requires Sound(a) && Restarted(a, b, now, refused)
    ensures Sound(b)
  {
    assert forall p :: IdAt(b, p) == IdAt(a, p);
  }

  /** A restart changes when a timer fires and whether it runs, never what it does. */
  lemma RestartKeepsCallbacks(a: Alarm, b: Alarm, now: Clock, refused: set<nat>)
    requires Sound(a) && Restarted(a, b, now, refused)
    ensures forall i :: i in a.timers ==> i in b.timers && b.timers[i].callback == a.timers[i].callback
  {
    forall i | i in a.timers
      ensures b.timers[i].callback == a.timers[i].callback
    {
      var p :| IdAt(a, p) == i;
    }
  }

  /** After a restart every schedule timer of a non-zero key that the service lets start is armed for
      the next daily occurrence of its recorded minute. */
  lemma RestartArmsNextOccurrences(a: Alarm, b: Alarm, now: Clock, refused: set<nat>, p: Slot)
    requires Sound(a) && Restarted(a, b, now, refused) && now.Representable() && now.midnight >= DAY_TO_SECOND
    requires Restarts(p) && IdAt(a, p) != 0 && IdAt(a, p) !in refused
    ensures IdAt(a, p) in b.timers && b.timers[IdAt(a, p)].running && p.key in a.setupTimes
    ensures p.kind == START ==> NextFrom(now, a.setupTimes[p.key].start, b.timers[IdAt(a, p)].trigger)
    ensures p.kind == END ==> NextAfter(now, a.setupTimes[p.key].end, b.timers[IdAt(a, p)].trigger)
  {
    assert p.key in a.timerIds;
    TriggersAreNextOccurrences(a.setupTimes[p.key].start, a.setupTimes[p.key].end, now);
  }

  // ---------- runs ----------

  datatype Operation =
    | Schedule(start: nat, end: nat, key: nat, callback: Callback, now: Clock, first: Reply, second: Reply)
    | Clear(key: nat)
    | SetRecalculation(key: nat, callback: Callback, now: Clock, reply: Reply)
    | ClearRecalculation(key: nat)
    | RestartAll(now: Clock, refused: set<nat>)

  ghost predicate Step(a: Alarm, op: Operation, b: Alarm) {
    match op
    case Schedule(s, e, k, c, n, r1, r2) => b == SetScheduleTime(a, s, e, k, c, n, r1, r2).0
    case Clear(k) => b == ClearTimerByUserId(a, k)
    case SetRecalculation(k, c, n, r) => b == SetRecalculationTimer(a, k, c, n, r)
    case ClearRecalculation(k) => b == ClearRecalculationTimer(a, k)
    case RestartAll(n, f) => Books(a) && Restarted(a, b, n, f)
  }

  ghost predicate IsRun(states: seq<Alarm>, ops: seq<Operation>) {
    && |states| == |ops| + 1
    && states[0] == NO_TIMERS
    && forall i :: 0 <= i < |ops| ==> Step(states[i], ops[i], states[i + 1])
  }

  lemma StepKeepsSound(a: Alarm, op: Operation, b: Alarm)
    requires Sound(a) && Step(a, op, b)
    ensures Sound(b)
  {
    match op
    case Schedule(s, e, k, c, n, r1, r2) =>
      ScheduleKeepsLedger(a, s, e, k, c, n, r1, r2);
      ScheduleKeepsBooks(a, s, e, k, c, n, r1, r2);
    case Clear(k) => ClearKeepsSound(a, k);
    case SetRecalculation(k, c, n, r) => SetRecalculationKeepsSound(a, k, c, n, r);
    case ClearRecalculation(k) => ClearRecalculationKeepsSound(a, k);
    case RestartAll(n, f) => RestartKeepsSound(a, b, n, f);
  }

  /** Whatever the service refuses along a run, no timer leaks and none is shared. */
  lemma {:induction false} EveryRunKeepsTheLedger(states: seq<Alarm>, ops: seq<Operation>)
    requires IsRun(states, ops)
    ensures Sound(states[|ops|])
    decreases |ops|
  {
    if ops != [] {
      var n := |ops| - 1;
      EveryRunKeepsTheLedger(states[..n + 1], ops[..n]);
      StepKeepsSound(states[n], ops[n], states[n + 1]);
    }
  }
}

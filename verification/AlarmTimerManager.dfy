/** The alarm timer manager over the time service (alarm_timer_manager.cpp). */
module AlarmTimers {
  import opened Errors
  import opened Schedule
  import opened AlarmLedger

  /** The system time service as far as this manager uses it: the timers alive under their ids. */
  class TimeServiceClient {
    var timers: map<nat, Timer>

    constructor ()
      ensures timers == map[]
    {
      timers := map[];
    }

    /** Hands out the offered id, or 0 when creation is refused; an id in use is never offered again. */
    method CreateTimer(callback: Callback, offer: nat) returns (id: nat)
      modifies this
      ensures id == if offer in old(timers) then 0 else offer
      ensures timers == if id == 0 then old(timers) else old(timers)[id := Timer(0, false, callback)]
    {
      if offer == 0 || offer in timers {
        return 0;
      }
      timers := timers[offer := Timer(0, false, callback)];
      return offer;
    }

    method StartTimer(id: nat, time: nat, granted: bool) returns (ok: bool)
      modifies this
      ensures ok == (granted && id in old(timers))
      ensures timers
              == if ok then old(timers)[id := old(timers)[id].(trigger := time, running := true)] else old(timers)
    {
      ok := granted && id in timers;
      if ok {
        timers := timers[id := timers[id].(trigger := time, running := true)];
      }
    }

    method StopTimer(id: nat)
      modifies this
      ensures timers == if id in old(timers) then old(timers)[id := old(timers)[id].(running := false)] else old(timers)
    {
      if id in timers {
        timers := timers[id := timers[id].(running := false)];
      }
    }

    method DestroyTimer(id: nat) returns (ok: bool)
      modifies this
      ensures timers == old(timers) - {id}
      ensures ok == (id in old(timers))
    {
      ok := id in timers;
      timers := timers - {id};
    }
  }

  class AlarmTimerManager {
    const service: TimeServiceClient
    var timerIdMap: map<nat, Pair>
    var initialSetupTimeMap: map<nat, Pair>
    var recalculationTimerIdMap: map<nat, nat>

    ghost function State(): Alarm
      reads this, service
    {
      Alarm(timerIdMap, initialSetupTimeMap, recalculationTimerIdMap, service.timers)
    }

    constructor (service: TimeServiceClient)
      ensures this.service == service
      ensures State() == Alarm(map[], map[], map[], service.timers)
    {
      this.service := service;
      timerIdMap, initialSetupTimeMap, recalculationTimerIdMap := map[], map[], map[];
    }

    method SetScheduleTime(
      startTime: nat, endTime: nat, userId: nat, callback: Callback, now: Clock, first: Reply, second: Reply)
      returns (code: ErrCode)
      modifies this, service
      ensures (State(), code)
              == AlarmLedger.SetScheduleTime(old(State()), startTime, endTime, userId, callback, now, first, second)
    {
      if !IsValidScheduleTime(startTime, endTime) {
        return ERR_INVALID_VALUE;
      }
      RecordInitialSetupTime(startTime, endTime, userId);
      var triggerTimeInterval := TriggerTimes(startTime, endTime, now);
      SetTimer(true, userId, triggerTimeInterval.0, callback, first);
      SetTimer(false, userId, triggerTimeInterval.1, callback, second);
      if timerIdMap[userId].start == 0 || timerIdMap[userId].end == 0 {
        return ERR_INVALID_OPERATION;
      }
      return ERR_OK;
    }

    method RecordInitialSetupTime(startTime: nat, endTime: nat, userId: nat)
      modifies this
      ensures State() == old(State()).(setupTimes := old(initialSetupTimeMap)[userId := Pair(startTime, endTime)])
    {
      initialSetupTimeMap := initialSetupTimeMap[userId := Pair(startTime, endTime)];
    }

    method SetTimer(isStart: bool, userId: nat, time: nat, callback: Callback, reply: Reply)
      modifies this, service
      ensures State() == AlarmLedger.SetTimer(old(State()), isStart, userId, time, callback, reply)
    {
      if userId !in timerIdMap {
        timerIdMap := timerIdMap[userId := Pair(0, 0)];
      }
      var ids := timerIdMap[userId];
      var current := if isStart then ids.start else ids.end;
      var id;
      if current > 0 {
        id := UpdateTimer(current, time, callback, reply);
      } else {
        id := InitTimer(time, callback, reply);
      }
      timerIdMap := timerIdMap[userId := if isStart then ids.(start := id) else ids.(end := id)];
    }

    method InitTimer(time: nat, callback: Callback, reply: Reply) returns (id: nat)
      modifies service
      ensures (service.timers, id) == AlarmLedger.InitTimer(old(service.timers), time, callback, reply)
    {
      id := service.CreateTimer(callback, reply.id);
      if id == 0 {
        return 0;
      }
      var ok := service.StartTimer(id, time, reply.started);
      if !ok {
        ClearTimer(id);
        assert service.timers == old(service.timers);
        return 0;
      }
      assert service.timers == old(service.timers)[id := Timer(time, true, callback)];
    }

    method UpdateTimer(id: nat, time: nat, callback: Callback, reply: Reply) returns (newId: nat)
      modifies service
      ensures (service.timers, newId)
              == AlarmLedger.InitTimer(AlarmLedger.ClearTimer(old(service.timers), id), time, callback, reply)
    {
      ClearTimer(id);
      newId := InitTimer(time, callback, reply);
    }

    method ClearTimer(id: nat)
      modifies service
      ensures service.timers == AlarmLedger.ClearTimer(old(service.timers), id)
    {
      if id == 0 {
        return;
      }
      var _ := service.DestroyTimer(id);
    }

    method ClearTimerByUserId(userId: nat)
      modifies this, service
      ensures State() == AlarmLedger.ClearTimerByUserId(old(State()), userId)
    {
      if userId in timerIdMap {
        ClearTimer(timerIdMap[userId].start);
        ClearTimer(timerIdMap[userId].end);
        timerIdMap := timerIdMap - {userId};
      }
      assert timerIdMap == old(timerIdMap) - {userId};
      if userId in recalculationTimerIdMap {
        ClearTimer(recalculationTimerIdMap[userId]);
        recalculationTimerIdMap := recalculationTimerIdMap - {userId};
      }
      assert recalculationTimerIdMap == old(recalculationTimerIdMap) - {userId};
      initialSetupTimeMap := initialSetupTimeMap - {userId};
    }

    /** False for key 0 and for a key missing from either map. */
    method RestartTimerByUserId(userId: nat, now: Clock, refused: set<nat>) returns (ok: bool)
      modifies service
      ensures ok == (userId != 0 && userId in timerIdMap && userId in initialSetupTimeMap)
      ensures !ok ==> service.timers == old(service.timers)
      ensures ok ==>
                var trigger :=
                  TriggerTimes(initialSetupTimeMap[userId].start, initialSetupTimeMap[userId].end, now);
                service.timers ==
                RestartOne(
                  RestartOne(old(service.timers), timerIdMap[userId].start, trigger.0, refused),
                  timerIdMap[userId].end, trigger.1, refused)
    {
      if userId == 0 || userId !in timerIdMap || userId !in initialSetupTimeMap {
        return false;
      }
      var trigger := TriggerTimes(initialSetupTimeMap[userId].start, initialSetupTimeMap[userId].end, now);
      RestartTimerByTimerId(timerIdMap[userId].start, trigger.0, refused);
      RestartTimerByTimerId(timerIdMap[userId].end, trigger.1, refused);
      return true;
    }

    static function RestartOne(timers: map<nat, Timer>, id: nat, time: nat, refused: set<nat>): map<nat, Timer> {
      if id in timers then timers[id := Restart(timers[id], time, id !in refused)] else timers
    }

    method RestartTimerByTimerId(timerId: nat, time: nat, refused: set<nat>)
      modifies service
      ensures service.timers == RestartOne(old(service.timers), timerId, time, refused)
    {
      service.StopTimer(timerId);
      var _ := service.StartTimer(timerId, time, timerId !in refused);
    }

    /** Never cut short: with sound books it restarts both timers of every non-zero key. */
    method RestartAllTimer(now: Clock, refused: set<nat>) returns (res: bool)
      requires Sound(State())
      modifies service
      ensures res
      ensures Restarted(old(State()), State(), now, refused)
    {
      res := true;
      var todo := timerIdMap.Keys;
      while todo != {}
        invariant todo <= timerIdMap.Keys && res
        invariant RestartedKeys(old(State()), State(), now, refused, timerIdMap.Keys - todo)
        decreases |todo|
      {
        var userId :| userId in todo;
        ghost var before := State();
        if userId != 0 {
          var ok := RestartTimerByUserId(userId, now, refused);
          res := res && ok;
        }
        OneMoreKey(old(State()), before, State(), now, refused, timerIdMap.Keys - todo, userId);
        assert timerIdMap.Keys - todo + {userId} == timerIdMap.Keys - (todo - {userId});
        todo := todo - {userId};
      }
    }

    static lemma TwoRestarts(timers: map<nat, Timer>, s: nat, e: nat, first: nat, second: nat, refused: set<nat>)
      ensures
        var after := RestartOne(RestartOne(timers, s, first, refused), e, second, refused);
        && after.Keys == timers.Keys
        && forall i :: i in timers && (s != e || i != s) ==>
                         after[i] == if i == s then Restart(timers[i], first, i !in refused)
                                     else if i == e then Restart(timers[i], second, i !in refused)
                                     else timers[i]
    {
    }

    static lemma OneMoreKey(
      a: Alarm, b: Alarm, c: Alarm, now: Clock, refused: set<nat>, done: set<nat>, key: nat)
      requires Sound(a) && key in a.timerIds && key !in done
      requires RestartedKeys(a, b, now, refused, done)
      requires c == b.(timers := c.timers)
      requires key == 0 ==> c == b
      requires key != 0 ==>
                 var trigger := TriggerTimes(a.setupTimes[key].start, a.setupTimes[key].end, now);
                 c.timers == RestartOne(RestartOne(b.timers, a.timerIds[key].start, trigger.0, refused),
                                        a.timerIds[key].end, trigger.1, refused)
      ensures RestartedKeys(a, c, now, refused, done + {key})
    {
      var s, e := Slot(key, START), Slot(key, END);
      assert IdAt(a, s) == a.timerIds[key].start && IdAt(a, e) == a.timerIds[key].end;
      if key != 0 {
        TwoRestarts(b.timers, IdAt(a, s), IdAt(a, e), NextTrigger(a, s, now), NextTrigger(a, e, now), refused);
      }
      forall p | IdAt(a, p) != 0 && IdAt(a, p) in a.timers
        ensures c.timers[IdAt(a, p)] ==
                if Restarts(p) && p.key in done + {key} then
                  Restart(a.timers[IdAt(a, p)], NextTrigger(a, p, now), IdAt(a, p) !in refused)
                else
                  a.timers[IdAt(a, p)]
      {
        if p.key == key && p.kind != RECALCULATION {
          assert p == s || p == e;
        } else {
          assert IdAt(a, p) != IdAt(a, s) && IdAt(a, p) != IdAt(a, e);
        }
      }
    }

    method SetRecalculationTimer(userId: nat, callback: Callback, now: Clock, reply: Reply)
      modifies this, service
      ensures State() == AlarmLedger.SetRecalculationTimer(old(State()), userId, callback, now, reply)
    {
      if userId in recalculationTimerIdMap && recalculationTimerIdMap[userId] > 0 {
        return;
      }
      var triggerTime := ToU64(now.Time() * SECOND_TO_MILLI + STEP);
      var timerId := InitTimer(triggerTime, callback, reply);
      if timerId == 0 {
        return;
      }
      recalculationTimerIdMap := recalculationTimerIdMap[userId := timerId];
    }

    method ClearRecalculationTimer(userId: nat)
      modifies this, service
      ensures State() == AlarmLedger.ClearRecalculationTimer(old(State()), userId)
    {
      if userId in recalculationTimerIdMap {
        ClearTimer(recalculationTimerIdMap[userId]);
        recalculationTimerIdMap := recalculationTimerIdMap - {userId};
      }
    }
  }
}

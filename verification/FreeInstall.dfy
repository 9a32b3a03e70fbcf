/** The table of pending free-install tasks.  A task leaves it through a remote completion, a
    timeout, a failed start or the loss of its device, and these race: each pops its entry under
    the lock and reports its result afterwards.  The class is the table itself; the step system of
    module FreeInstallProtocol interleaves the lock sections of all the threads involved. */
module FreeInstall {
  import opened Common

  type Device = string
  type TaskId = int

  datatype LaunchType = FreeInstallStart | FreeInstallContinue

  datatype Item = Item(hasCallback: bool, taskId: TaskId, launchType: LaunchType, deviceId: Device)

  /** What popping a missing task yields. */
  const NO_ITEM := Item(false, -1, FreeInstallStart, "")

  // ---------------------------------------------------------------- the table

  predicate TableOk(table: map<TaskId, Item>) {
    forall id :: id in table ==>
      id > 0 && table[id].taskId == id && (table[id].launchType == FreeInstallStart ==> table[id].hasCallback)
  }

  function OnDevice(table: map<TaskId, Item>, d: Device): set<TaskId> {
    set id | id in table && table[id].deviceId == d
  }

  /** The launch type that a completion acts on; a missing task counts as a plain start. */
  function TypeIn(table: map<TaskId, Item>, id: TaskId): LaunchType {
    if id > 0 && id in table then table[id].launchType else FreeInstallStart
  }

  /** The reports made after visiting the entries of `visited`: one per entry of the device. */
  ghost predicate Reported(reported: seq<Item>, table: map<TaskId, Item>, visited: set<TaskId>, d: Device) {
    && (forall i, j :: 0 <= i < j < |reported| ==> reported[i] != reported[j])
    && (forall item :: item in reported <==>
          item.taskId in visited && item.taskId in table && item == table[item.taskId] && item.deviceId == d)
  }

  lemma ReportedStep(reported: seq<Item>, table: map<TaskId, Item>, visited: set<TaskId>, d: Device, it: TaskId)
    requires Reported(reported, table, visited, d) && it in table && it !in visited && table[it].taskId == it
    ensures Reported(reported + if table[it].deviceId == d then [table[it]] else [], table, visited + {it}, d)
  {
    if table[it].deviceId != d {
      assert reported + [] == reported;
    }
  }

  /** Visiting one more task, in terms of what has been removed so far. */
  lemma VisitStep(table: map<TaskId, Item>, armed: set<TaskId>, gone: set<TaskId>, todo: set<TaskId>, it: TaskId)
    requires it in todo && todo <= table.Keys
    ensures var more := if it in gone then {it} else {};
            && table - (gone - (todo - {it})) == (table - (gone - todo)) - more
            && armed - (gone - (todo - {it})) == (armed - (gone - todo)) - more
    ensures table.Keys - (todo - {it}) == (table.Keys - todo) + {it}
  {
    assert gone - (todo - {it}) == (gone - todo) + if it in gone then {it} else {};
  }

  /** The erasing loop of an offline device while it still has `todo` to visit. */
  ghost predicate OfflineLoop(table: map<TaskId, Item>, armed: set<TaskId>, d: Device, todo: set<TaskId>,
                              reported: seq<Item>, now: map<TaskId, Item>, nowArmed: set<TaskId>) {
    && todo <= table.Keys
    && now == table - (OnDevice(table, d) - todo)
    && nowArmed == armed - (OnDevice(table, d) - todo)
    && Reported(reported, table, table.Keys - todo, d)
  }

  lemma NothingVisited(table: map<TaskId, Item>, armed: set<TaskId>, d: Device)
    ensures OfflineLoop(table, armed, d, table.Keys, [], table, armed)
  {
    assert OnDevice(table, d) - table.Keys == {} && table.Keys - table.Keys == {};
  }

  lemma AllVisited(table: map<TaskId, Item>, armed: set<TaskId>, d: Device,
                   reported: seq<Item>, now: map<TaskId, Item>, nowArmed: set<TaskId>)
    requires OfflineLoop(table, armed, d, {}, reported, now, nowArmed)
    ensures now == table - OnDevice(table, d) && nowArmed == armed - OnDevice(table, d)
    ensures Reported(reported, table, table.Keys, d)
  {
    assert OnDevice(table, d) - {} == OnDevice(table, d) && table.Keys - {} == table.Keys;
  }

  lemma OnDeviceHas(table: map<TaskId, Item>, d: Device, id: TaskId)
    requires id in table
    ensures id in OnDevice(table, d) <==> table[id].deviceId == d
  {
  }

  class DmsCallbackTask {
    var callbackMap: map<TaskId, Item>
    var timers: set<TaskId>
    var initialized: bool

    ghost predicate Valid()
      reads this
    {
      TableOk(callbackMap) && timers <= callbackMap.Keys && (callbackMap != map[] ==> initialized)
    }

    constructor ()
      ensures Valid() && !initialized && callbackMap == map[] && timers == {}
    {
      callbackMap, timers, initialized := map[], {}, false;
    }

    method Init()
      requires Valid()
      modifies this`initialized
      ensures Valid() && initialized
    {
      initialized := true;
    }

    /** Arms the timer and stores the entry, or refuses and changes nothing. */
    method PushCallback(taskId: TaskId, hasCallback: bool, deviceId: Device, launchType: LaunchType, sendOk: bool)
      returns (result: int)
      requires Valid()
      modifies this`callbackMap, this`timers
      ensures Valid()
      ensures result == ERR_OK <==>
                && taskId > 0 && (launchType == FreeInstallStart ==> hasCallback)
                && initialized && taskId !in old(callbackMap) && sendOk
      ensures result != ERR_OK ==> result == INVALID_PARAMETERS_ERR
      ensures result == ERR_OK ==>
                && callbackMap == old(callbackMap)[taskId := Item(hasCallback, taskId, launchType, deviceId)]
                && timers == old(timers) + {taskId}
      ensures result != ERR_OK ==> callbackMap == old(callbackMap) && timers == old(timers)
    {
      if taskId <= 0 {
        return INVALID_PARAMETERS_ERR;
      }
      if launchType == FreeInstallStart {
        if !hasCallback {
          return INVALID_PARAMETERS_ERR;
        }
      }
      if !initialized {
        return INVALID_PARAMETERS_ERR;
      }
      if taskId in callbackMap {
        return INVALID_PARAMETERS_ERR;
      }
      if !sendOk {
        return INVALID_PARAMETERS_ERR;
      }
      timers := timers + {taskId};
      callbackMap := callbackMap[taskId := Item(hasCallback, taskId, launchType, deviceId)];
      return ERR_OK;
    }

    /** Takes an entry out and disarms its timer; an entry can be taken once. */
    method PopCallback(taskId: TaskId) returns (item: Item)
      requires Valid()
      modifies this`callbackMap, this`timers
      ensures Valid()
      ensures item == if taskId in old(callbackMap) then old(callbackMap)[taskId] else NO_ITEM
      ensures callbackMap == old(callbackMap) - {taskId} && timers == old(timers) - {taskId}
    {
      if taskId !in callbackMap {
        return NO_ITEM;
      }
      item := callbackMap[taskId];
      callbackMap := callbackMap - {taskId};
      if initialized {
        timers := timers - {taskId};
      }
    }

    method GetLaunchType(taskId: TaskId) returns (launchType: LaunchType)
      ensures launchType == TypeIn(callbackMap, taskId)
      ensures launchType == if taskId > 0 && taskId in callbackMap then callbackMap[taskId].launchType
                            else FreeInstallStart
    {
      if taskId <= 0 {
        return FreeInstallStart;
      }
      if taskId !in callbackMap {
        return FreeInstallStart;
      }
      return callbackMap[taskId].launchType;
    }

    /** Every task of a lost device is reported and erased, by a loop that erases as it goes. */
    method NotifyDeviceOffline(deviceId: Device) returns (reported: seq<Item>)
      requires Valid()
      modifies this`callbackMap, this`timers
      ensures Valid()
      ensures callbackMap == old(callbackMap) - OnDevice(old(callbackMap), deviceId)
      ensures timers == old(timers) - OnDevice(old(callbackMap), deviceId)
      ensures Reported(reported, old(callbackMap), old(callbackMap).Keys, deviceId)
      ensures forall id :: id in callbackMap <==> id in old(callbackMap) && old(callbackMap)[id].deviceId != deviceId
      ensures forall id :: id in callbackMap ==> callbackMap[id] == old(callbackMap)[id]
      ensures forall id :: id in timers <==>
                id in old(timers) && !(id in old(callbackMap) && old(callbackMap)[id].deviceId == deviceId)
      ensures Distinct(reported)
      ensures forall item :: item in reported <==>
                item.deviceId == deviceId && exists id :: id in old(callbackMap) && old(callbackMap)[id] == item
    {
      reported := [];
      ghost var table, armed := callbackMap, timers;
      var todo := callbackMap.Keys;
      NothingVisited(table, armed, deviceId);
      hide OfflineLoop;
      while todo != {}
        invariant Valid() && OfflineLoop(table, armed, deviceId, todo, reported, callbackMap, timers)
        decreases |todo|
      {
        todo, reported := VisitNext(todo, deviceId, reported, table, armed);
      }
      AllVisited(table, armed, deviceId, reported, callbackMap, timers);
    }

    /** One turn of the loop above. */
    method VisitNext(todo: set<TaskId>, deviceId: Device, reported: seq<Item>,
                     ghost table: map<TaskId, Item>, ghost armed: set<TaskId>)
      returns (rest: set<TaskId>, longer: seq<Item>)
      requires Valid() && todo != {}
      requires OfflineLoop(table, armed, deviceId, todo, reported, callbackMap, timers)
      modifies this`callbackMap, this`timers
      ensures Valid()
      ensures OfflineLoop(table, armed, deviceId, rest, longer, callbackMap, timers)
      ensures |rest| < |todo|
    {
      assert (forall id :: id !in todo) ==> todo == {};
      var it :| it in todo;
      OnDeviceHas(table, deviceId, it);
      hide OnDevice, TableOk, Reported;
      assert it in callbackMap;
      var found := ReportIfOn(it, deviceId);
      ReportedStep(reported, table, table.Keys - todo, deviceId, it);
      VisitStep(table, armed, OnDevice(table, deviceId), todo, it);
      rest, longer := todo - {it}, reported + found;
    }

    /** Reports and erases one task if it belongs to the device. */
    method ReportIfOn(it: TaskId, deviceId: Device) returns (found: seq<Item>)
      requires Valid() && it in callbackMap
      modifies this`callbackMap, this`timers
      ensures Valid()
      ensures found == if old(callbackMap)[it].deviceId == deviceId then [old(callbackMap)[it]] else []
      ensures callbackMap == old(callbackMap) - (if found == [] then {} else {it})
      ensures timers == old(timers) - (if found == [] then {} else {it})
      ensures old(callbackMap)[it].taskId == it
    {
      found := [];
      if callbackMap[it].deviceId == deviceId {
        if initialized {
          timers := timers - {callbackMap[it].taskId};
        }
        found := [callbackMap[it]];
        callbackMap := callbackMap - {it};
      }
    }
  }
}

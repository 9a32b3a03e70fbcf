/** One device of the connection protocol: its two tables, its per-uid counters and the
    operations that change them, with the loops that erase while they iterate.  Each method
    is proved to perform the change that module ConnectTable defines, and to keep the
    counters equal to the table. */
module ConnectDevice {
  import opened Common
  import opened ConnectTable

  const ERR_CAPABILITY_NOT_SUPPORT := 16300509
  const NO_CONNECT_CALLBACK_ERR := 29360130
  const INVALID_REMOTE_PARAMETERS_ERR := 29360131
  const REMOTE_DEVICE_BIND_ABILITY_ERR := 29360132
  const BIND_ABILITY_UID_INVALID_ERR := 29360159
  const BIND_ABILITY_LEAK_ERR := 29360160
  const DMS_NOT_FOREGROUND_USER := 29360236
  const INVALID_CALLER_UID := -1

  datatype ProcessDiedNotifyInfo =
    ProcessDiedNotifyInfo(remoteDeviceId: Device, caller: CallerInfo, target: TargetComponent)

  function ComponentNumber(target: TargetComponent): string {
    match target
    case HarmonyComponent => "0"
  }

  /** The key under which a notified device is remembered: its id and the component number. */
  function NotifyKey(d: Device, target: TargetComponent): string {
    d + ComponentNumber(target)
  }

  lemma NotifyKeyInjective(d: Device, e: Device)
    ensures NotifyKey(d, HarmonyComponent) == NotifyKey(e, HarmonyComponent) <==> d == e
  {
    if NotifyKey(d, HarmonyComponent) == NotifyKey(e, HarmonyComponent) {
      assert d == NotifyKey(d, HarmonyComponent)[..|d|];
      assert e == NotifyKey(e, HarmonyComponent)[..|e|];
    }
  }

  /** Adds an element to a session, at the end, unless it is already there. */
  method AddElement(session: Session, element: Element) returns (longer: Session)
    ensures element in session.elements ==> longer == session
    ensures element !in session.elements ==> longer == session.(elements := session.elements + [element])
  {
    for i := 0 to |session.elements|
      invariant element !in session.elements[..i]
    {
      if session.elements[i] == element {
        return session;
      }
    }
    return session.(elements := session.elements + [element]);
  }

  /** Adds an element to the session towards a device, opening one if there is none. */
  method ExtendSessions(list: seq<Session>, start: Session, element: Element) returns (longer: seq<Session>)
    requires start.elements == []
    ensures longer == Extended(list, start, element)
    ensures Towards(list, start.destination) ==>
              exists i :: 0 <= i < |list| && list[i].destination == start.destination
                          && (forall j :: 0 <= j < i ==> list[j].destination != start.destination)
                          && |longer| == |list| && longer[..i] == list[..i] && longer[i + 1..] == list[i + 1..]
                          && longer[i] == list[i].(elements := longer[i].elements)
                          && longer[i].elements == if element in list[i].elements then list[i].elements
                                                   else list[i].elements + [element]
    ensures !Towards(list, start.destination) ==> longer == list + [start.(elements := [element])]
  {
    for i := 0 to |list|
      invariant forall j :: 0 <= j < i ==> list[j].destination != start.destination
    {
      if start.destination == list[i].destination {
        ExtendedAt(list, start, element, i);
        var session := AddElement(list[i], element);
        return list[..i] + [session] + list[i + 1..];
      }
    }
    ExtendedAt(list, start, element, |list|);
    var session := AddElement(start, element);
    assert session.elements == [element] && list[..|list|] == list;
    longer := list + [session];
  }

  /** Erases the first session towards a device. */
  method EraseSession(list: seq<Session>, deviceId: Device) returns (shorter: seq<Session>, erased: seq<Session>)
    requires DistinctDestinations(list)
    ensures shorter == Without(list, deviceId)
    ensures |erased| <= 1
    ensures forall s :: s in erased <==> s in list && s.destination == deviceId
    ensures erased == [] ==> shorter == list
    ensures erased != [] ==> exists i :: 0 <= i < |list| && erased[0] == list[i] && shorter == list[..i] + list[i + 1..]
  {
    for i := 0 to |list|
      invariant forall j :: 0 <= j < i ==> list[j].destination != deviceId
    {
      if list[i].destination == deviceId {
        WithoutErases(list, deviceId, i);
        return list[..i] + list[i + 1..], [list[i]];
      }
    }
    WithoutNothing(list, deviceId);
    return list, [];
  }

  /** The devices that a dead caller had reached through the connects of `visited`. */
  ghost predicate Reached(t: Table, visited: set<Connect>, caller: CallerInfo, d: Device) {
    exists c :: c in visited && c in t && c.Connect? && c.owner == caller && Towards(t[c], d)
  }

  /** A list of notices and the set of keys that filters it. */
  ghost predicate NotedOk(notifyList: seq<ProcessDiedNotifyInfo>, processed: set<string>, caller: CallerInfo) {
    && Distinct(notifyList)
    && (forall n :: n in notifyList ==> n.caller == caller)
    && (forall d :: NotifyKey(d, HarmonyComponent) in processed <==>
          ProcessDiedNotifyInfo(d, caller, HarmonyComponent) in notifyList)
  }

  /** Adds a notice for every device of a session list that has none yet. */
  method CollectNotices(sessions: seq<Session>, caller: CallerInfo,
                        notifyList: seq<ProcessDiedNotifyInfo>, processed: set<string>)
    returns (longer: seq<ProcessDiedNotifyInfo>, larger: set<string>)
    requires NotedOk(notifyList, processed, caller)
    ensures NotedOk(longer, larger, caller)
    ensures forall d :: ProcessDiedNotifyInfo(d, caller, HarmonyComponent) in longer <==>
              ProcessDiedNotifyInfo(d, caller, HarmonyComponent) in notifyList
              || exists i :: 0 <= i < |sessions| && sessions[i].destination == d
  {
    longer, larger := notifyList, processed;
    for i := 0 to |sessions|
      invariant NotedOk(longer, larger, caller)
      invariant forall d :: ProcessDiedNotifyInfo(d, caller, HarmonyComponent) in longer <==>
                  ProcessDiedNotifyInfo(d, caller, HarmonyComponent) in notifyList || Towards(sessions[..i], d)
    {
      longer, larger := AddNotice(sessions[i].destination, caller, longer, larger);
      assert sessions[..i + 1][i] == sessions[i];
      assert forall j :: 0 <= j < i ==> sessions[..i + 1][j] == sessions[..i][j];
    }
    assert sessions[..|sessions|] == sessions;
  }

  /** Adds a notice for one device unless it has one. */
  method AddNotice(remoteDeviceId: Device, caller: CallerInfo,
                   notifyList: seq<ProcessDiedNotifyInfo>, processed: set<string>)
    returns (longer: seq<ProcessDiedNotifyInfo>, larger: set<string>)
    requires NotedOk(notifyList, processed, caller)
    ensures NotedOk(longer, larger, caller)
    ensures forall d :: ProcessDiedNotifyInfo(d, caller, HarmonyComponent) in longer <==>
              ProcessDiedNotifyInfo(d, caller, HarmonyComponent) in notifyList || d == remoteDeviceId
  {
    longer, larger := notifyList, processed;
    var key := NotifyKey(remoteDeviceId, HarmonyComponent);
    if key !in processed {
      larger := larger + {key};
      longer := longer + [ProcessDiedNotifyInfo(remoteDeviceId, caller, HarmonyComponent)];
      forall d ensures NotifyKey(d, HarmonyComponent) == key <==> d == remoteDeviceId {
        NotifyKeyInjective(d, remoteDeviceId);
      }
    }
  }

  class DmsDevice {
    const localDeviceId: Device
    var distributedConnectAbilityMap: Table
    var trackingUidMap: map<int, nat>
    var connectAbilityMap: Bindings

    ghost predicate Valid()
      reads this
    {
      && TableOk(distributedConnectAbilityMap)
      && CountsOk(distributedConnectAbilityMap, trackingUidMap)
      && BindingsOk(connectAbilityMap)
    }

    constructor (deviceId: Device)
      ensures Valid() && localDeviceId == deviceId
      ensures distributedConnectAbilityMap == map[] && trackingUidMap == map[] && connectAbilityMap == map[]
    {
      localDeviceId := deviceId;
      distributedConnectAbilityMap, trackingUidMap, connectAbilityMap := map[], map[], map[];
    }

    // -------------------------------------------------------------- connecting

    /** Records an answered connect. */
    method RemoteConnectAbilityMappingLocked(connect: Connect, remoteDeviceId: Device,
                                             element: Element, callerInfo: CallerInfo)
      requires Valid()
      requires connect.Connect? ==>
                 callerInfo == connect.owner && callerInfo.uid >= 0 && callerInfo.sourceDeviceId == localDeviceId
      modifies this`distributedConnectAbilityMap, this`trackingUidMap
      ensures Valid()
      ensures distributedConnectAbilityMap
              == Mapped(old(distributedConnectAbilityMap), connect,
                        Session(localDeviceId, remoteDeviceId, callerInfo, HarmonyComponent, []), element)
      ensures distributedConnectAbilityMap.Keys
              == old(distributedConnectAbilityMap).Keys + (if connect == Null then {} else {connect})
      ensures forall c :: c in old(distributedConnectAbilityMap) && c != connect ==>
                distributedConnectAbilityMap[c] == old(distributedConnectAbilityMap)[c]
      ensures forall c, d :: var before := ElementsOn(SessionsOf(old(distributedConnectAbilityMap), c), d);
                ElementsOn(SessionsOf(distributedConnectAbilityMap, c), d)
                == if connect != Null && c == connect && d == remoteDeviceId && element !in before
                   then before + [element] else before
    {
      MappedElements(distributedConnectAbilityMap, connect,
                     Session(localDeviceId, remoteDeviceId, callerInfo, HarmonyComponent, []), element);
      if connect == Null {
        return;
      }
      var start := Session(localDeviceId, remoteDeviceId, callerInfo, HarmonyComponent, []);
      ghost var t, counts := distributedConnectAbilityMap, trackingUidMap;
      var sessions := [];
      if connect !in distributedConnectAbilityMap {
        trackingUidMap := Increased(trackingUidMap, callerInfo.uid);
      } else {
        sessions := distributedConnectAbilityMap[connect];
      }
      var longer := ExtendSessions(sessions, start, element);
      distributedConnectAbilityMap := distributedConnectAbilityMap[connect := longer];
      ExtendedOk(sessions, start, element, connect.owner);
      if connect in t {
        ReplacementKeepsCounts(t, counts, connect, longer);
      } else {
        InsertionIncreases(t, counts, connect, longer);
      }
    }

    /** The quota check that precedes a connect. */
    method CheckDistributedConnectLocked(callerInfo: CallerInfo) returns (result: int)
      requires Valid()
      ensures result == ERR_OK <==>
                callerInfo.uid >= 0
                && |Owned(distributedConnectAbilityMap, callerInfo.uid)| < MAX_DISTRIBUTED_CONNECT_NUM
      ensures result in {ERR_OK, BIND_ABILITY_UID_INVALID_ERR, BIND_ABILITY_LEAK_ERR}
      ensures result == BIND_ABILITY_UID_INVALID_ERR <==> callerInfo.uid < 0
    {
      if callerInfo.uid < 0 {
        return BIND_ABILITY_UID_INVALID_ERR;
      }
      if callerInfo.uid in trackingUidMap
         && trackingUidMap[callerInfo.uid] >= MAX_DISTRIBUTED_CONNECT_NUM {
        return BIND_ABILITY_LEAK_ERR;
      }
      return ERR_OK;
    }

    /** Up to three attempts; the connect is recorded exactly when the last reply is success.
        `replies` and `slow` are what the remote device answers and whether it took too long. */
    method TryConnectRemoteAbility(connect: Connect, remoteDeviceId: Device, element: Element,
                                   callerInfo: CallerInfo, reachable: bool, accountResult: int,
                                   replies: seq<int>, slow: seq<bool>)
      returns (result: int, attempts: nat)
      requires Valid()
      requires connect.Connect? ==>
                 callerInfo == connect.owner && callerInfo.uid >= 0 && callerInfo.sourceDeviceId == localDeviceId
      requires |replies| == BIND_CONNECT_RETRY_TIMES && |slow| == BIND_CONNECT_RETRY_TIMES
      modifies this`distributedConnectAbilityMap, this`trackingUidMap
      ensures Valid()
      ensures !reachable || connect == Null ==> attempts == 0 && result == INVALID_PARAMETERS_ERR
      ensures reachable && connect != Null && accountResult != ERR_OK ==> attempts == 0 && result == accountResult
      ensures reachable && connect != Null && accountResult == ERR_OK ==> attempts > 0
      ensures attempts <= BIND_CONNECT_RETRY_TIMES
      ensures attempts > 0 ==>
                && result == replies[attempts - 1]
                && (forall k :: 0 <= k < attempts - 1 ==>
                      !slow[k] && replies[k] != ERR_OK && replies[k] != INVALID_REMOTE_PARAMETERS_ERR
                      && replies[k] != REMOTE_DEVICE_BIND_ABILITY_ERR)
                && (attempts < BIND_CONNECT_RETRY_TIMES ==>
                      slow[attempts - 1] || result == ERR_OK || result == INVALID_REMOTE_PARAMETERS_ERR
                      || result == REMOTE_DEVICE_BIND_ABILITY_ERR)
      ensures distributedConnectAbilityMap
              == if attempts > 0 && result == ERR_OK
                 then Mapped(old(distributedConnectAbilityMap), connect,
                             Session(localDeviceId, remoteDeviceId, callerInfo, HarmonyComponent, []), element)
                 else old(distributedConnectAbilityMap)
    {
      attempts := 0;
      if !reachable || connect == Null {
        return INVALID_PARAMETERS_ERR, attempts;
      }
      if accountResult != ERR_OK {
        return accountResult, attempts;
      }
      var retryTimes := BIND_CONNECT_RETRY_TIMES;
      result := REMOTE_DEVICE_BIND_ABILITY_ERR;
      while retryTimes > 0
        invariant 0 <= retryTimes == BIND_CONNECT_RETRY_TIMES - attempts
        invariant attempts > 0 ==> result == replies[attempts - 1] && result != ERR_OK
        invariant forall k :: 0 <= k < attempts ==>
                    !slow[k] && replies[k] != ERR_OK && replies[k] != INVALID_REMOTE_PARAMETERS_ERR
                    && replies[k] != REMOTE_DEVICE_BIND_ABILITY_ERR
        invariant Valid() && distributedConnectAbilityMap == old(distributedConnectAbilityMap)
      {
        retryTimes := retryTimes - 1;
        result := replies[attempts];
        attempts := attempts + 1;
        if result == ERR_OK {
          RemoteConnectAbilityMappingLocked(connect, remoteDeviceId, element, callerInfo);
          break;
        }
        if result == INVALID_REMOTE_PARAMETERS_ERR || result == REMOTE_DEVICE_BIND_ABILITY_ERR {
          break;
        }
        if slow[attempts - 1] {
          break;
        }
      }
    }

    /** Checks, lookups and attempts in a row: used serially, no uid ever stores more than 600
        connections.  `permitted` is the answer of device management. */
    method ConnectRemoteAbility(connect: Connect, remoteDeviceId: Device, element: Element, callerInfo: CallerInfo,
                                permitted: bool, foreground: bool, deviceIdsOk: bool, bundleInfoOk: bool,
                                reachable: bool, accountResult: int, replies: seq<int>, slow: seq<bool>)
      returns (result: int, attempts: nat)
      requires Valid()
      requires connect.Connect? ==> callerInfo == connect.owner && callerInfo.sourceDeviceId == localDeviceId
      requires |replies| == BIND_CONNECT_RETRY_TIMES && |slow| == BIND_CONNECT_RETRY_TIMES
      modifies this`distributedConnectAbilityMap, this`trackingUidMap
      ensures Valid()
      ensures attempts > 0 <==>
                && permitted && foreground && deviceIdsOk && bundleInfoOk && reachable && connect != Null
                && accountResult == ERR_OK && callerInfo.uid >= 0
                && |Owned(old(distributedConnectAbilityMap), callerInfo.uid)| < MAX_DISTRIBUTED_CONNECT_NUM
      ensures attempts <= BIND_CONNECT_RETRY_TIMES
      ensures forall k :: 0 <= k < attempts - 1 ==>
                !slow[k] && replies[k] != ERR_OK && replies[k] != INVALID_REMOTE_PARAMETERS_ERR
                && replies[k] != REMOTE_DEVICE_BIND_ABILITY_ERR
      ensures 0 < attempts < BIND_CONNECT_RETRY_TIMES ==>
                slow[attempts - 1] || result == ERR_OK || result == INVALID_REMOTE_PARAMETERS_ERR
                || result == REMOTE_DEVICE_BIND_ABILITY_ERR
      ensures result == if attempts > 0 then replies[attempts - 1]
                        else if !permitted then ERR_CAPABILITY_NOT_SUPPORT
                        else if !foreground then DMS_NOT_FOREGROUND_USER
                        else if !deviceIdsOk then INVALID_PARAMETERS_ERR
                        else if callerInfo.uid < 0 then BIND_ABILITY_UID_INVALID_ERR
                        else if |Owned(old(distributedConnectAbilityMap), callerInfo.uid)|
                                >= MAX_DISTRIBUTED_CONNECT_NUM
                        then BIND_ABILITY_LEAK_ERR
                        else if !bundleInfoOk || !reachable || connect == Null then INVALID_PARAMETERS_ERR
                        else accountResult
      ensures distributedConnectAbilityMap
              == if attempts > 0 && result == ERR_OK
                 then Mapped(old(distributedConnectAbilityMap), connect,
                             Session(localDeviceId, remoteDeviceId, callerInfo, HarmonyComponent, []), element)
                 else old(distributedConnectAbilityMap)
      ensures forall uid :: |Owned(distributedConnectAbilityMap, uid)| > |Owned(old(distributedConnectAbilityMap), uid)|
                            ==> |Owned(distributedConnectAbilityMap, uid)| <= MAX_DISTRIBUTED_CONNECT_NUM
    {
      attempts := 0;
      if !permitted {
        return ERR_CAPABILITY_NOT_SUPPORT, attempts;
      }
      if !foreground {
        return DMS_NOT_FOREGROUND_USER, attempts;
      }
      if !deviceIdsOk {
        return INVALID_PARAMETERS_ERR, attempts;
      }
      var checkResult := CheckDistributedConnectLocked(callerInfo);
      if checkResult != ERR_OK {
        return checkResult, attempts;
      }
      if !bundleInfoOk {
        return INVALID_PARAMETERS_ERR, attempts;
      }
      result, attempts := TryConnectRemoteAbility(connect, remoteDeviceId, element, callerInfo, reachable,
                                                  accountResult, replies, slow);
      if attempts > 0 && result == ERR_OK {
        MappedGrowsByOne(old(distributedConnectAbilityMap), connect,
                         Session(localDeviceId, remoteDeviceId, callerInfo, HarmonyComponent, []), element);
      }
    }

    /** The accepting side of a connect.  `checkResult` stands for the device-id and permission
        checks and `amsResult` for the ability manager's answer. */
    method ConnectAbilityFromRemote(connect: Connect, callerInfo: CallerInfo, element: Element,
                                    checkResult: int, amsResult: int)
      returns (result: int)
      requires Valid()
      requires connect.Connect? ==> callerInfo == connect.owner
      modifies this`connectAbilityMap
      ensures Valid()
      ensures result == if connect == Null then INVALID_REMOTE_PARAMETERS_ERR
                        else if checkResult != ERR_OK then checkResult else amsResult
      ensures connectAbilityMap
              == if result == ERR_OK then Bound(old(connectAbilityMap), connect, ConnectInfo(callerInfo, element))
                 else old(connectAbilityMap)
      ensures connectAbilityMap
              == if connect != Null && checkResult == ERR_OK && amsResult == ERR_OK
                    && connect !in old(connectAbilityMap)
                 then old(connectAbilityMap)[connect := ConnectInfo(callerInfo, element)]
                 else old(connectAbilityMap)
    {
      if connect == Null {
        return INVALID_REMOTE_PARAMETERS_ERR;
      }
      if checkResult != ERR_OK {
        return checkResult;
      }
      if amsResult == ERR_OK {
        if connect !in connectAbilityMap {
          connectAbilityMap := connectAbilityMap[connect := ConnectInfo(callerInfo, element)];
        }
      }
      return amsResult;
    }

    // -------------------------------------------------------------- removing one connection

    method DecreaseConnectLocked(uid: int)
      modifies this`trackingUidMap
      ensures trackingUidMap == Decreased(old(trackingUidMap), uid)
      ensures uid < 0 || uid !in old(trackingUidMap) ==> trackingUidMap == old(trackingUidMap)
      ensures uid >= 0 && uid in old(trackingUidMap) ==>
                trackingUidMap == if old(trackingUidMap)[uid] > 1
                                  then old(trackingUidMap)[uid := old(trackingUidMap)[uid] - 1]
                                  else old(trackingUidMap) - {uid}
    {
      if uid < 0 {
        return;
      }
      if uid in trackingUidMap {
        if trackingUidMap[uid] > 0 {
          trackingUidMap := trackingUidMap[uid := trackingUidMap[uid] - 1];
        }
        if trackingUidMap[uid] == 0 {
          trackingUidMap := trackingUidMap - {uid};
        }
      }
    }

    static function GetUidLocked(sessions: seq<Session>): int {
      if sessions != [] then sessions[0].caller.uid else INVALID_CALLER_UID
    }

    /** Forgets a connect and reports the devices that are to be told, in session order.  `permitted`
        is the answer of device management. */
    method DisconnectRemoteAbility(connect: Connect, permitted: bool) returns (result: int, told: seq<Device>)
      requires Valid()
      modifies this`distributedConnectAbilityMap, this`trackingUidMap
      ensures Valid()
      ensures distributedConnectAbilityMap
              == if permitted then old(distributedConnectAbilityMap) - {connect}
                 else old(distributedConnectAbilityMap)
      ensures result == if !permitted then ERR_CAPABILITY_NOT_SUPPORT
                        else if connect == Null then INVALID_PARAMETERS_ERR
                        else if connect in old(distributedConnectAbilityMap) then ERR_OK
                        else NO_CONNECT_CALLBACK_ERR
      ensures Distinct(told)
      ensures forall d :: d in told <==> permitted && Live(old(distributedConnectAbilityMap), connect, d)
      ensures permitted && connect in old(distributedConnectAbilityMap) ==>
                var sessions := old(distributedConnectAbilityMap)[connect];
                |told| == |sessions| && forall j :: 0 <= j < |told| ==> told[j] == sessions[j].destination
    {
      told := [];
      if !permitted {
        return ERR_CAPABILITY_NOT_SUPPORT, told;
      }
      if connect == Null {
        return INVALID_PARAMETERS_ERR, told;
      }
      var sessions := [];
      if connect in distributedConnectAbilityMap {
        sessions := distributedConnectAbilityMap[connect];
        RemovalDecreases(distributedConnectAbilityMap, trackingUidMap, connect);
        DecreaseConnectLocked(GetUidLocked(sessions));
        distributedConnectAbilityMap := distributedConnectAbilityMap - {connect};
      }
      if sessions != [] {
        for i := 0 to |sessions|
          invariant |told| == i && forall j :: 0 <= j < i ==> told[j] == sessions[j].destination
        {
          told := told + [sessions[i].destination];
        }
        return ERR_OK, told;
      }
      return NO_CONNECT_CALLBACK_ERR, told;
    }

    /** The accepting side of a disconnect. */
    method DisconnectAbilityFromRemote(connect: Connect, deviceIdsOk: bool, isLocalCalling: bool, amsResult: int)
      returns (result: int)
      requires Valid()
      modifies this`connectAbilityMap
      ensures Valid()
      ensures connect != Null && deviceIdsOk ==> connectAbilityMap == old(connectAbilityMap) - {connect}
      ensures !(connect != Null && deviceIdsOk) ==>
                connectAbilityMap == old(connectAbilityMap) && result == INVALID_REMOTE_PARAMETERS_ERR
      ensures connect != Null && deviceIdsOk ==>
                result == if connect in old(connectAbilityMap) || isLocalCalling then amsResult
                          else INVALID_REMOTE_PARAMETERS_ERR
    {
      if connect == Null {
        return INVALID_REMOTE_PARAMETERS_ERR;
      }
      if !deviceIdsOk {
        return INVALID_REMOTE_PARAMETERS_ERR;
      }
      if connect in connectAbilityMap {
        connectAbilityMap := connectAbilityMap - {connect};
      } else if !isLocalCalling {
        return INVALID_REMOTE_PARAMETERS_ERR;
      }
      return amsResult;
    }

    // -------------------------------------------------------------- a caller died

    /** The accepting side: every binding of the dead caller goes, by an erasing loop.  `amsResults`
        are the ability manager's answers; one that is not a success is handed on. */
    method NotifyProcessDiedFromRemote(callerInfo: CallerInfo, amsResults: map<Connect, int>) returns (errCode: int)
      requires Valid() && connectAbilityMap.Keys <= amsResults.Keys
      modifies this`connectAbilityMap
      ensures Valid()
      ensures connectAbilityMap == UnboundCaller(old(connectAbilityMap), callerInfo)
      ensures forall c :: c in connectAbilityMap <==>
                c in old(connectAbilityMap) && old(connectAbilityMap)[c].caller != callerInfo
      ensures forall c :: c in connectAbilityMap ==> connectAbilityMap[c] == old(connectAbilityMap)[c]
      ensures errCode == ERR_OK <==>
                forall c :: c in old(connectAbilityMap) && old(connectAbilityMap)[c].caller == callerInfo ==>
                  amsResults[c] == ERR_OK
      ensures errCode != ERR_OK ==>
                exists c :: c in old(connectAbilityMap) && old(connectAbilityMap)[c].caller == callerInfo
                            && amsResults[c] == errCode
    {
      errCode := ERR_OK;
      ghost var b := connectAbilityMap;
      var todo := connectAbilityMap.Keys;
      while todo != {}
        invariant todo <= b.Keys
        invariant errCode == ERR_OK ==>
                    forall c :: c in b && c !in todo && b[c].caller == callerInfo ==> amsResults[c] == ERR_OK
        invariant errCode != ERR_OK ==> exists c :: c in b && b[c].caller == callerInfo && amsResults[c] == errCode
        invariant connectAbilityMap == map c | c in b && (c in todo || b[c].caller != callerInfo) :: b[c]
        decreases |todo|
      {
        var iter :| iter in todo;
        if connectAbilityMap[iter].caller == callerInfo {
          if amsResults[iter] != ERR_OK {
            errCode := amsResults[iter];
          }
          connectAbilityMap := connectAbilityMap - {iter};
        }
        todo := todo - {iter};
      }
    }

    /** The opening side: every connect of the dead caller goes, and each device they reached is
        listed once. */
    method ProcessConnectDied(connect: Connect) returns (notifyList: seq<ProcessDiedNotifyInfo>)
      requires Valid()
      modifies this`distributedConnectAbilityMap, this`trackingUidMap
      ensures Valid()
      ensures connect !in old(distributedConnectAbilityMap) ==>
                notifyList == [] && distributedConnectAbilityMap == old(distributedConnectAbilityMap)
      ensures connect in old(distributedConnectAbilityMap) ==>
                && distributedConnectAbilityMap == WithoutCaller(old(distributedConnectAbilityMap), connect.owner)
                && (forall c :: c in distributedConnectAbilityMap <==>
                      c in old(distributedConnectAbilityMap) && c.owner != connect.owner)
                && (forall c :: c in distributedConnectAbilityMap ==>
                      distributedConnectAbilityMap[c] == old(distributedConnectAbilityMap)[c])
      ensures Distinct(notifyList)
      ensures connect in old(distributedConnectAbilityMap) ==>
                && (forall n :: n in notifyList ==> n.caller == connect.owner)
                && (forall d :: ProcessDiedNotifyInfo(d, connect.owner, HarmonyComponent) in notifyList <==>
                      exists c :: c in old(distributedConnectAbilityMap) && c.Connect? && c.owner == connect.owner
                                  && Towards(old(distributedConnectAbilityMap)[c], d))
    {
      notifyList := [];
      if connect == Null {
        return;
      }
      if connect !in distributedConnectAbilityMap {
        return;
      }
      if distributedConnectAbilityMap[connect] == [] {
        return;
      }
      var callerInfo := distributedConnectAbilityMap[connect][0].caller;
      var processed := {};
      ghost var t := distributedConnectAbilityMap;
      var todo := distributedConnectAbilityMap.Keys;
      PartlyWithoutCallerEnds(t, callerInfo);
      while todo != {}
        invariant todo <= t.Keys
        invariant distributedConnectAbilityMap == PartlyWithoutCaller(t, callerInfo, todo)
        invariant TableOk(distributedConnectAbilityMap) && CountsOk(distributedConnectAbilityMap, trackingUidMap)
        invariant NotedOk(notifyList, processed, callerInfo)
        invariant forall d :: ProcessDiedNotifyInfo(d, callerInfo, HarmonyComponent) in notifyList <==>
                    Reached(t, t.Keys - todo, callerInfo, d)
        decreases |todo|
      {
        hide TableOk, CountsOk, NotedOk, Reached, PartlyWithoutCaller;
        var iter :| iter in todo;
        PartlyWithoutCallerStep(t, callerInfo, todo, iter);
        notifyList, processed := ForgetIfCaller(iter, callerInfo, notifyList, processed);
        ReachedStep(t, todo, iter, callerInfo);
        todo := todo - {iter};
      }
      assert t.Keys - todo == t.Keys;
      WithoutCallerOk(t, callerInfo);
      hide Towards;
      assert forall d :: Reached(t, t.Keys, callerInfo, d) <==>
        exists c :: c in t && c.Connect? && c.owner == callerInfo && Towards(t[c], d);
    }

    /** One turn of the loop above. */
    method ForgetIfCaller(iter: Connect, callerInfo: CallerInfo,
                          notifyList: seq<ProcessDiedNotifyInfo>, processed: set<string>)
      returns (longer: seq<ProcessDiedNotifyInfo>, larger: set<string>)
      requires TableOk(distributedConnectAbilityMap) && CountsOk(distributedConnectAbilityMap, trackingUidMap)
      requires iter in distributedConnectAbilityMap && NotedOk(notifyList, processed, callerInfo)
      modifies this`distributedConnectAbilityMap, this`trackingUidMap
      ensures TableOk(distributedConnectAbilityMap) && CountsOk(distributedConnectAbilityMap, trackingUidMap)
      ensures iter.Connect? && NotedOk(longer, larger, callerInfo)
      ensures distributedConnectAbilityMap
              == if iter.owner == callerInfo then old(distributedConnectAbilityMap) - {iter}
                 else old(distributedConnectAbilityMap)
      ensures forall d :: ProcessDiedNotifyInfo(d, callerInfo, HarmonyComponent) in longer <==>
                ProcessDiedNotifyInfo(d, callerInfo, HarmonyComponent) in notifyList
                || (iter.owner == callerInfo && Towards(old(distributedConnectAbilityMap)[iter], d))
    {
      longer, larger := notifyList, processed;
      FrontCaller(distributedConnectAbilityMap, iter);
      hide TableOk, CountsOk, NotedOk, Towards;
      var sessions := distributedConnectAbilityMap[iter];
      if sessions != [] && sessions[0].caller == callerInfo {
        longer, larger := CollectNotices(sessions, callerInfo, notifyList, processed);
        RemovalDecreases(distributedConnectAbilityMap, trackingUidMap, iter);
        DecreaseConnectLocked(callerInfo.uid);
        distributedConnectAbilityMap := distributedConnectAbilityMap - {iter};
      }
    }

    // -------------------------------------------------------------- a device went offline

    /** The opening side: the sessions towards the device go, and connects left without any.
        `notices` is what the applications are told. */
    method RemoveSessionsTowards(deviceId: Device) returns (notices: seq<(Connect, Session)>)
      requires Valid()
      modifies this`distributedConnectAbilityMap, this`trackingUidMap
      ensures Valid()
      ensures distributedConnectAbilityMap == WithoutDevice(old(distributedConnectAbilityMap), deviceId)
      ensures forall c :: c in distributedConnectAbilityMap <==>
                c in old(distributedConnectAbilityMap)
                && exists s :: s in old(distributedConnectAbilityMap)[c] && s.destination != deviceId
      ensures forall c, s :: c in distributedConnectAbilityMap ==>
                (s in distributedConnectAbilityMap[c] <==>
                   s in old(distributedConnectAbilityMap)[c] && s.destination != deviceId)
      ensures Distinct(notices)
      ensures forall n :: n in notices <==>
                n.0 in old(distributedConnectAbilityMap)
                && n.1 in old(distributedConnectAbilityMap)[n.0] && n.1.destination == deviceId
    {
      hide TableOk, CountsOk, Without, PartlyWithoutDevice, WithoutDevice;
      notices := [];
      ghost var t := distributedConnectAbilityMap;
      PartlyWithoutDeviceEnds(t, deviceId);
      WithoutDeviceOk(t, deviceId);
      var todo := distributedConnectAbilityMap.Keys;
      while todo != {}
        invariant todo <= t.Keys
        invariant distributedConnectAbilityMap == PartlyWithoutDevice(t, deviceId, todo)
        invariant TableOk(distributedConnectAbilityMap) && CountsOk(distributedConnectAbilityMap, trackingUidMap)
        invariant Distinct(notices)
        invariant forall n :: n in notices <==>
                    n.0 in t && n.0 !in todo && n.1 in t[n.0] && n.1.destination == deviceId
        decreases |todo|
      {
        var iter :| iter in todo;
        PartlyWithoutDeviceStep(t, deviceId, todo, iter);
        var erased := DropSession(iter, deviceId);
        if erased != [] {
          notices := notices + [(iter, erased[0])];
        }
        todo := todo - {iter};
      }
      assert distributedConnectAbilityMap == WithoutDevice(t, deviceId);
      forall c | c in distributedConnectAbilityMap
        ensures forall s :: s in distributedConnectAbilityMap[c] <==> s in t[c] && s.destination != deviceId
      {
        SessionsLeft(t, deviceId, c);
      }
    }

    /** One turn of the loop above. */
    method DropSession(iter: Connect, deviceId: Device) returns (erased: seq<Session>)
      requires TableOk(distributedConnectAbilityMap) && CountsOk(distributedConnectAbilityMap, trackingUidMap)
      requires iter in distributedConnectAbilityMap
      modifies this`distributedConnectAbilityMap, this`trackingUidMap
      ensures TableOk(distributedConnectAbilityMap) && CountsOk(distributedConnectAbilityMap, trackingUidMap)
      ensures distributedConnectAbilityMap
              == var rest := Without(old(distributedConnectAbilityMap)[iter], deviceId);
                 if rest == [] then old(distributedConnectAbilityMap) - {iter}
                 else old(distributedConnectAbilityMap)[iter := rest]
      ensures |erased| <= 1
      ensures forall s :: s in erased <==>
                s in old(distributedConnectAbilityMap)[iter] && s.destination == deviceId
    {
      var sessions := distributedConnectAbilityMap[iter];
      var uid := GetUidLocked(sessions);
      var shorter;
      shorter, erased := EraseSession(sessions, deviceId);
      WithoutOk(sessions, deviceId, iter.owner);
      if shorter == [] {
        RemovalDecreases(distributedConnectAbilityMap, trackingUidMap, iter);
        DecreaseConnectLocked(uid);
        distributedConnectAbilityMap := distributedConnectAbilityMap - {iter};
      } else {
        ReplacementKeepsCounts(distributedConnectAbilityMap, trackingUidMap, iter, shorter);
        distributedConnectAbilityMap := distributedConnectAbilityMap[iter := shorter];
      }
    }

    /** The accepting side: every binding of the lost device goes. */
    method RemoveBindingsFrom(deviceId: Device)
      requires Valid()
      modifies this`connectAbilityMap
      ensures Valid()
      ensures connectAbilityMap == UnboundDevice(old(connectAbilityMap), deviceId)
      ensures forall c :: c in connectAbilityMap <==>
                c in old(connectAbilityMap) && old(connectAbilityMap)[c].caller.sourceDeviceId != deviceId
      ensures forall c :: c in connectAbilityMap ==> connectAbilityMap[c] == old(connectAbilityMap)[c]
    {
      ghost var b := connectAbilityMap;
      var todo := connectAbilityMap.Keys;
      while todo != {}
        invariant todo <= b.Keys
        invariant connectAbilityMap
                  == map c | c in b && (c in todo || b[c].caller.sourceDeviceId != deviceId) :: b[c]
        decreases |todo|
      {
        var iter :| iter in todo;
        if deviceId == connectAbilityMap[iter].caller.sourceDeviceId {
          connectAbilityMap := connectAbilityMap - {iter};
        }
        todo := todo - {iter};
      }
    }

    /** Both halves, under one lock each. */
    method RemoveConnectAbilityInfo(deviceId: Device) returns (notices: seq<(Connect, Session)>)
      requires Valid()
      modifies this`distributedConnectAbilityMap, this`trackingUidMap, this`connectAbilityMap
      ensures Valid()
      ensures distributedConnectAbilityMap == WithoutDevice(old(distributedConnectAbilityMap), deviceId)
      ensures forall c :: c in distributedConnectAbilityMap <==>
                c in old(distributedConnectAbilityMap)
                && exists s :: s in old(distributedConnectAbilityMap)[c] && s.destination != deviceId
      ensures forall c, s :: c in distributedConnectAbilityMap ==>
                (s in distributedConnectAbilityMap[c] <==>
                   s in old(distributedConnectAbilityMap)[c] && s.destination != deviceId)
      ensures connectAbilityMap == UnboundDevice(old(connectAbilityMap), deviceId)
      ensures forall c :: c in connectAbilityMap <==>
                c in old(connectAbilityMap) && old(connectAbilityMap)[c].caller.sourceDeviceId != deviceId
      ensures forall c :: c in connectAbilityMap ==> connectAbilityMap[c] == old(connectAbilityMap)[c]
      ensures Distinct(notices)
      ensures forall n :: n in notices <==>
                n.0 in old(distributedConnectAbilityMap)
                && n.1 in old(distributedConnectAbilityMap)[n.0] && n.1.destination == deviceId
    {
      notices := RemoveSessionsTowards(deviceId);
      RemoveBindingsFrom(deviceId);
    }
  }

  /** The first session of a stored connect carries its caller. */
  lemma FrontCaller(t: Table, c: Connect)
    requires TableOk(t) && c in t
    ensures c.Connect? && t[c] != [] && t[c][0].caller == c.owner
  {
  }

  lemma ReachedStep(t: Table, todo: set<Connect>, iter: Connect, caller: CallerInfo)
    requires iter in todo && iter in t && iter.Connect?
    ensures forall d :: Reached(t, t.Keys - (todo - {iter}), caller, d) <==>
              Reached(t, t.Keys - todo, caller, d) || (iter.owner == caller && Towards(t[iter], d))
  {
  }

  /** The table while the erasing loop of a dead caller still has `todo` to visit. */
  function PartlyWithoutCaller(t: Table, caller: CallerInfo, todo: set<Connect>): Table {
    map c | c in t && c.Connect? && (c in todo || c.owner != caller) :: t[c]
  }

  lemma PartlyWithoutCallerStep(t: Table, caller: CallerInfo, todo: set<Connect>, iter: Connect)
    requires TableOk(t) && iter in todo && todo <= t.Keys
    ensures iter.Connect? && iter in PartlyWithoutCaller(t, caller, todo)
    ensures PartlyWithoutCaller(t, caller, todo)[iter] == t[iter]
    ensures PartlyWithoutCaller(t, caller, todo - {iter})
            == if iter.owner == caller then PartlyWithoutCaller(t, caller, todo) - {iter}
               else PartlyWithoutCaller(t, caller, todo)
  {
  }

  lemma PartlyWithoutCallerEnds(t: Table, caller: CallerInfo)
    requires TableOk(t)
    ensures PartlyWithoutCaller(t, caller, t.Keys) == t
    ensures PartlyWithoutCaller(t, caller, {}) == WithoutCaller(t, caller)
  {
  }

  /** The table while the erasing loop of an offline device still has `todo` to visit. */
  function PartlyWithoutDevice(t: Table, d: Device, todo: set<Connect>): Table {
    map c | c in t && (c in todo || Without(t[c], d) != []) :: if c in todo then t[c] else Without(t[c], d)
  }

  lemma PartlyWithoutDeviceStep(t: Table, d: Device, todo: set<Connect>, iter: Connect)
    requires TableOk(t) && iter in todo && todo <= t.Keys
    ensures iter in PartlyWithoutDevice(t, d, todo) && PartlyWithoutDevice(t, d, todo)[iter] == t[iter]
    ensures PartlyWithoutDevice(t, d, todo - {iter})
            == if Without(t[iter], d) == [] then PartlyWithoutDevice(t, d, todo) - {iter}
               else PartlyWithoutDevice(t, d, todo)[iter := Without(t[iter], d)]
  {
    hide Without, TableOk;
  }

  lemma PartlyWithoutDeviceEnds(t: Table, d: Device)
    ensures PartlyWithoutDevice(t, d, t.Keys) == t
    ensures PartlyWithoutDevice(t, d, {}) == WithoutDevice(t, d)
  {
    hide Without;
  }
}

/** The table of missions that are being continued on another device. */
module Continuation {
  import opened Common

  type Mission = int
  type Device = string
  type Callback = nat

  class DSchedContinuation {
    var initialized: bool
    var callbackMap: map<Mission, Callback>
    var continuationDevices: map<Mission, Device>
    var freeInstall: map<Mission, bool>
    var cleanMission: map<Mission, bool>
    var timers: multiset<Mission>

    /** The device map mirrors the callback map; free-install flags exist only for pending missions
        and are always set. */
    ghost predicate Valid()
      reads this
    {
      && continuationDevices.Keys == callbackMap.Keys
      && freeInstall.Keys <= callbackMap.Keys
      && (forall m :: m in freeInstall ==> freeInstall[m])
      && (callbackMap != map[] || timers != multiset{} ==> initialized)
    }

    constructor ()
      ensures Valid() && !initialized && callbackMap == map[] && cleanMission == map[] && timers == multiset{}
    {
      initialized := false;
      callbackMap, continuationDevices, freeInstall, cleanMission := map[], map[], map[], map[];
      timers := multiset{};
    }

    method Init()
      requires Valid()
      modifies this`initialized
      ensures Valid() && initialized
    {
      initialized := true;
    }

    method PushCallback(missionId: Mission, callback: Option<Callback>, deviceId: Device, isFreeInstall: bool)
      returns (ok: bool)
      requires Valid()
      modifies this`callbackMap, this`continuationDevices, this`freeInstall
      ensures Valid()
      ensures ok <==> callback.Some? && initialized && missionId !in old(callbackMap)
      ensures ok ==>
                && callbackMap == old(callbackMap)[missionId := callback.value]
                && continuationDevices == old(continuationDevices)[missionId := deviceId]
                && freeInstall == if isFreeInstall then old(freeInstall)[missionId := true] else old(freeInstall)
      ensures !ok ==>
                && callbackMap == old(callbackMap) && continuationDevices == old(continuationDevices)
                && freeInstall == old(freeInstall)
    {
      if callback.None? {
        return false;
      }
      if !initialized {
        return false;
      }
      if missionId in callbackMap {
        return false;
      }
      callbackMap := callbackMap[missionId := callback.value];
      continuationDevices := continuationDevices[missionId := deviceId];
      if isFreeInstall {
        freeInstall := freeInstall[missionId := isFreeInstall];
      }
      return true;
    }

    /** Takes a mission out of all tables at once; a callback can be taken once.  A clean-mission
        flag without a pending mission stays. */
    method PopCallback(missionId: Mission) returns (callback: Option<Callback>)
      requires Valid()
      modifies this`callbackMap, this`continuationDevices, this`freeInstall, this`cleanMission
      ensures Valid()
      ensures callback == if missionId in old(callbackMap) then Some(old(callbackMap)[missionId]) else None
      ensures callbackMap == old(callbackMap) - {missionId}
      ensures continuationDevices == old(continuationDevices) - {missionId}
      ensures freeInstall == old(freeInstall) - {missionId}
      ensures cleanMission == if callback.Some? then old(cleanMission) - {missionId} else old(cleanMission)
    {
      if missionId !in callbackMap {
        return None;
      }
      callback := Some(callbackMap[missionId]);
      if missionId in continuationDevices {
        continuationDevices := continuationDevices - {missionId};
      }
      if missionId in freeInstall {
        freeInstall := freeInstall - {missionId};
      }
      cleanMission := cleanMission - {missionId};
      callbackMap := callbackMap - {missionId};
    }

    method SetTimeOut(missionId: Mission)
      requires Valid()
      modifies this`timers
      ensures Valid()
      ensures timers == if initialized then old(timers) + multiset{missionId} else old(timers)
    {
      if !initialized {
        return;
      }
      timers := timers + multiset{missionId};
    }

    /** All timers of the mission are removed. */
    method RemoveTimeOut(missionId: Mission)
      requires Valid()
      modifies this`timers
      ensures Valid()
      ensures timers == old(timers)[missionId := 0]
    {
      if !initialized {
        return;
      }
      timers := timers[missionId := 0];
    }

    method IsInContinuationProgress(missionId: Mission) returns (pending: bool)
      ensures pending <==> missionId in callbackMap
    {
      return missionId in callbackMap;
    }

    /** Only a mission pushed with the free-install flag and still pending counts. */
    method IsFreeInstall(missionId: Mission) returns (flag: bool)
      requires Valid()
      ensures flag <==> missionId in freeInstall
      ensures flag ==> missionId in callbackMap
    {
      if missionId in freeInstall {
        return freeInstall[missionId];
      }
      return false;
    }

    /** The flag of the first setting counts; later ones do not overwrite it. */
    method SetCleanMissionFlag(missionId: Mission, isCleanMission: bool)
      requires Valid()
      modifies this`cleanMission
      ensures Valid()
      ensures cleanMission == if missionId in old(cleanMission) then old(cleanMission)
                              else old(cleanMission)[missionId := isCleanMission]
    {
      if missionId !in cleanMission {
        cleanMission := cleanMission[missionId := isCleanMission];
      }
    }

    /** Pops, disarms and sends: the result goes to the callback that was pending, if any. */
    method NotifyMissionCenterResult(missionId: Mission, sendResult: int)
      returns (result: int, sentTo: Option<Callback>)
      requires Valid()
      modifies this`callbackMap, this`continuationDevices, this`freeInstall, this`cleanMission, this`timers
      ensures Valid() && missionId !in callbackMap && timers[missionId] == 0
      ensures sentTo == if missionId in old(callbackMap) then Some(old(callbackMap)[missionId]) else None
      ensures result == if sentTo.Some? then sendResult else INVALID_PARAMETERS_ERR
      ensures callbackMap == old(callbackMap) - {missionId} && timers == old(timers)[missionId := 0]
      ensures continuationDevices == old(continuationDevices) - {missionId}
      ensures freeInstall == old(freeInstall) - {missionId}
      ensures cleanMission == if sentTo.Some? then old(cleanMission) - {missionId} else old(cleanMission)
    {
      var callback := PopCallback(missionId);
      RemoveTimeOut(missionId);
      if callback.None? {
        return INVALID_PARAMETERS_ERR, None;
      }
      return sendResult, callback;
    }
  }
}

/** Every interleaving of the lock sections that end a continuation: each pushed callback is sent
    at most one result. */
module ContinuationDelivery {
  import opened Continuation

  /** A thread that ends a continuation. */
  datatype Thread =
    | Notifying(mission: Mission)       // about to check whether the mission is pending
    | Confirmed(mission: Mission)       // it was; about to pop
    | Abandoning(mission: Mission)      // the install check failed; about to pop without a result
    | Holding(serial: nat, send: bool)

  /** Pushed callbacks are numbered: `pending` says which one a mission waits with. */
  datatype System = System(
    pending: map<Mission, nat>, threads: map<nat, Thread>, pushed: nat,
    sent: map<nat, nat>, dropped: map<nat, nat>)

  datatype Event =
    | Push(mission: Mission)
    | Notify(k: nat, mission: Mission)
    | Abandon(k: nat, mission: Mission)
    | Check(k: nat)
    | Pop(k: nat)
    | Finish(k: nat)

  const INITIAL := System(map[], map[], 0, map[], map[])

  function Times(m: map<nat, nat>, serial: nat): nat {
    if serial in m then m[serial] else 0
  }

  predicate Enabled(st: System, ev: Event) {
    match ev
    case Push(m) => m !in st.pending
    case Notify(k, m) => k !in st.threads
    case Abandon(k, m) => k !in st.threads
    case Check(k) => k in st.threads && st.threads[k].Notifying?
    case Pop(k) => k in st.threads && (st.threads[k].Confirmed? || st.threads[k].Abandoning?)
    case Finish(k) => k in st.threads && st.threads[k].Holding?
  }

  function DoPop(st: System, k: nat): System
    requires k in st.threads && (st.threads[k].Confirmed? || st.threads[k].Abandoning?)
  {
    var m := st.threads[k].mission;
    if m in st.pending then
      st.(pending := st.pending - {m},
          threads := st.threads[k := Holding(st.pending[m], st.threads[k].Confirmed?)])
    else st.(threads := st.threads - {k})
  }

  function DoFinish(st: System, k: nat): System
    requires k in st.threads && st.threads[k].Holding?
  {
    var t := st.threads[k];
    if t.send then st.(threads := st.threads - {k}, sent := st.sent[t.serial := Times(st.sent, t.serial) + 1])
    else st.(threads := st.threads - {k}, dropped := st.dropped[t.serial := Times(st.dropped, t.serial) + 1])
  }

  function Apply(st: System, ev: Event): System
    requires Enabled(st, ev)
  {
    match ev
    case Push(m) => st.(pending := st.pending[m := st.pushed], pushed := st.pushed + 1)
    case Notify(k, m) => st.(threads := st.threads[k := Notifying(m)])
    case Abandon(k, m) => st.(threads := st.threads[k := Abandoning(m)])
    case Check(k) =>
      st.(threads := if st.threads[k].mission in st.pending
                     then st.threads[k := Confirmed(st.threads[k].mission)] else st.threads - {k})
    case Pop(k) => DoPop(st, k)
    case Finish(k) => DoFinish(st, k)
  }

  ghost predicate Runs(st: System, run: seq<Event>, last: System)
    decreases |run|
  {
    if run == [] then last == st
    else Enabled(st, run[0]) && Runs(Apply(st, run[0]), run[1..], last)
  }

  // ---------------------------------------------------------------- the invariant

  function Waiting(pending: map<Mission, nat>, serial: nat): set<Mission> {
    set m | m in pending && pending[m] == serial
  }

  function Holders(threads: map<nat, Thread>, serial: nat): set<nat> {
    set k | k in threads && threads[k].Holding? && threads[k].serial == serial
  }

  /** How many places a pushed callback is in. */
  function Places(st: System, serial: nat): nat {
    |Waiting(st.pending, serial)| + |Holders(st.threads, serial)|
    + Times(st.sent, serial) + Times(st.dropped, serial)
  }

  ghost predicate Inv(st: System) {
    forall serial: nat :: Places(st, serial) == if serial < st.pushed then 1 else 0
  }

  lemma PushPlaces(st: System, m: Mission, serial: nat)
    requires m !in st.pending
    ensures Places(Apply(st, Push(m)), serial) == Places(st, serial) + if serial == st.pushed then 1 else 0
  {
    var after := Apply(st, Push(m));
    assert Waiting(after.pending, serial)
        == Waiting(st.pending, serial) + if serial == st.pushed then {m} else {};
  }

  lemma PushKeepsInv(st: System, m: Mission)
    requires Inv(st) && m !in st.pending
    ensures Inv(Apply(st, Push(m)))
  {
    hide Places;
    var after := Apply(st, Push(m));
    forall serial: nat ensures Places(after, serial) == if serial < after.pushed then 1 else 0 {
      PushPlaces(st, m, serial);
    }
  }

  /** A thread that holds nothing comes, moves or goes. */
  lemma ThreadStepKeepsInv(st: System, threads: map<nat, Thread>, k: nat)
    requires Inv(st)
    requires k in st.threads ==> !st.threads[k].Holding?
    requires k in threads ==> !threads[k].Holding?
    requires forall j :: j != k ==> (j in st.threads <==> j in threads)
    requires forall j :: j in st.threads && j != k ==> threads[j] == st.threads[j]
    ensures Inv(st.(threads := threads))
  {
    forall serial: nat ensures Places(st.(threads := threads), serial) == if serial < st.pushed then 1 else 0 {
      assert Places(st, serial) == if serial < st.pushed then 1 else 0;
      assert Holders(threads, serial) == Holders(st.threads, serial);
    }
  }

  lemma WaitingWithout(pending: map<Mission, nat>, m: Mission, serial: nat)
    requires m in pending
    ensures |Waiting(pending - {m}, serial)| == |Waiting(pending, serial)| - if pending[m] == serial then 1 else 0
  {
    var now, before := Waiting(pending - {m}, serial), Waiting(pending, serial);
    assert now == before - {m};
    assert m in before <==> pending[m] == serial;
  }

  lemma HoldersWith(threads: map<nat, Thread>, k: nat, t: Thread, serial: nat)
    requires k in threads && !threads[k].Holding? && t.Holding?
    ensures |Holders(threads[k := t], serial)| == |Holders(threads, serial)| + if t.serial == serial then 1 else 0
  {
    var now, before := Holders(threads[k := t], serial), Holders(threads, serial);
    assert k !in before;
    assert now == if t.serial == serial then before + {k} else before;
  }

  lemma HoldersWithout(threads: map<nat, Thread>, k: nat, serial: nat)
    requires k in threads && threads[k].Holding?
    ensures |Holders(threads - {k}, serial)|
            == |Holders(threads, serial)| - if threads[k].serial == serial then 1 else 0
  {
    var now, before := Holders(threads - {k}, serial), Holders(threads, serial);
    assert now == before - {k};
    assert k in before <==> threads[k].serial == serial;
  }

  /** A pop moves a callback from its mission to the thread. */
  lemma PopPlaces(st: System, k: nat, serial: nat)
    requires Enabled(st, Pop(k)) && st.threads[k].mission in st.pending
    ensures Places(DoPop(st, k), serial) == Places(st, serial)
  {
    var m := st.threads[k].mission;
    WaitingWithout(st.pending, m, serial);
    HoldersWith(st.threads, k, Holding(st.pending[m], st.threads[k].Confirmed?), serial);
    hide Waiting, Holders;
  }

  lemma PopKeepsInv(st: System, k: nat)
    requires Inv(st) && Enabled(st, Pop(k)) && st.threads[k].mission in st.pending
    ensures Inv(DoPop(st, k))
  {
    hide Places;
    forall serial: nat ensures Places(DoPop(st, k), serial) == if serial < st.pushed then 1 else 0 {
      PopPlaces(st, k, serial);
    }
  }

  /** Finishing moves it from the thread to the answered or the abandoned ones. */
  lemma FinishPlaces(st: System, k: nat, serial: nat)
    requires Enabled(st, Finish(k))
    ensures Places(DoFinish(st, k), serial) == Places(st, serial)
  {
    HoldersWithout(st.threads, k, serial);
    hide Waiting, Holders;
  }

  lemma FinishKeepsInv(st: System, k: nat)
    requires Inv(st) && Enabled(st, Finish(k))
    ensures Inv(DoFinish(st, k))
  {
    hide Places;
    forall serial: nat ensures Places(DoFinish(st, k), serial) == if serial < st.pushed then 1 else 0 {
      FinishPlaces(st, k, serial);
    }
  }

  lemma StepKeepsInv(st: System, ev: Event)
    requires Inv(st) && Enabled(st, ev)
    ensures Inv(Apply(st, ev))
  {
    hide Inv, Places;
    match ev {
      case Push(m) => PushKeepsInv(st, m);
      case Pop(k) =>
        if st.threads[k].mission in st.pending { PopKeepsInv(st, k); }
        else { ThreadStepKeepsInv(st, st.threads - {k}, k); }
      case Finish(k) => FinishKeepsInv(st, k);
      case _ => ThreadStepKeepsInv(st, Apply(st, ev).threads, ev.k);
    }
  }

  lemma {:induction false} RunKeepsInv(st: System, run: seq<Event>, last: System)
    requires Inv(st) && Runs(st, run, last)
    ensures Inv(last)
    decreases |run|
  {
    hide Inv, Enabled, Apply;
    if run != [] {
      StepKeepsInv(st, run[0]);
      RunKeepsInv(Apply(st, run[0]), run[1..], last);
    }
  }

  /** Each pushed callback is in exactly one place: waiting, held by one thread, answered once, or
      abandoned once.  So it is sent at most one result, and if it is sent one it was not
      abandoned. */
  lemma AtMostOneResult(run: seq<Event>, last: System, serial: nat)
    requires Runs(INITIAL, run, last)
    ensures Places(last, serial) == if serial < last.pushed then 1 else 0
    ensures Times(last.sent, serial) <= 1
    ensures Times(last.sent, serial) == 1 ==> Times(last.dropped, serial) == 0 && Waiting(last.pending, serial) == {}
  {
    assert Inv(INITIAL) by {
      forall s: nat ensures Places(INITIAL, s) == 0 {
        assert Waiting(map[], s) == {} && Holders(map[], s) == {};
      }
    }
    RunKeepsInv(INITIAL, run, last);
    assert Places(last, serial) == if serial < last.pushed then 1 else 0;
  }

  // ---------------------------------------------------------------- answered or abandoned

  ghost predicate NothingAbandoned(st: System) {
    && st.dropped == map[]
    && forall k :: k in st.threads ==>
         !st.threads[k].Abandoning? && (st.threads[k].Holding? ==> st.threads[k].send)
  }

  ghost predicate NothingAnswered(st: System) {
    && st.sent == map[]
    && forall k :: k in st.threads ==>
         !st.threads[k].Notifying? && !st.threads[k].Confirmed? && (st.threads[k].Holding? ==> !st.threads[k].send)
  }

  lemma {:induction false} RunAbandonsNothing(st: System, run: seq<Event>, last: System)
    requires NothingAbandoned(st) && Runs(st, run, last) && forall i :: 0 <= i < |run| ==> !run[i].Abandon?
    ensures NothingAbandoned(last)
    decreases |run|
  {
    if run != [] {
      RunAbandonsNothing(Apply(st, run[0]), run[1..], last);
    }
  }

  lemma {:induction false} RunAnswersNothing(st: System, run: seq<Event>, last: System)
    requires NothingAnswered(st) && Runs(st, run, last) && forall i :: 0 <= i < |run| ==> !run[i].Notify?
    ensures NothingAnswered(last)
    decreases |run|
  {
    if run != [] {
      RunAnswersNothing(Apply(st, run[0]), run[1..], last);
    }
  }

  /** Only abandoned continuations go without a result, and only notified ones get one: in a run without
      a failed install check every pushed callback that is not waiting any more when the threads are
      done has been sent its result; in a run without a notification none has. */
  lemma AnsweredUnlessAbandoned(run: seq<Event>, last: System, serial: nat)
    requires Runs(INITIAL, run, last) && last.threads == map[] && serial < last.pushed
    ensures (forall i :: 0 <= i < |run| ==> !run[i].Abandon?) ==>
              Times(last.sent, serial) == if Waiting(last.pending, serial) == {} then 1 else 0
    ensures (forall i :: 0 <= i < |run| ==> !run[i].Notify?) ==> Times(last.sent, serial) == 0
  {
    AtMostOneResult(run, last, serial);
    assert Holders(last.threads, serial) == {};
    if forall i :: 0 <= i < |run| ==> !run[i].Abandon? {
      RunAbandonsNothing(INITIAL, run, last);
    }
    if forall i :: 0 <= i < |run| ==> !run[i].Notify? {
      RunAnswersNothing(INITIAL, run, last);
    }
  }

  lemma RunsFirst(st: System, ev: Event, run: seq<Event>, last: System)
    requires Enabled(st, ev) && Runs(Apply(st, ev), run, last)
    ensures Runs(st, [ev] + run, last)
  {
    hide Enabled, Apply;
    assert ([ev] + run)[1..] == run;
  }

  /** A notification on its own takes the pending callback of its mission and sends it the result. */
  lemma NotifyInARow(st: System, k: nat, m: Mission) returns (run: seq<Event>, last: System)
    requires k !in st.threads && m in st.pending
    ensures Runs(st, run, last)
    ensures last == st.(pending := st.pending - {m},
                        sent := st.sent[st.pending[m] := Times(st.sent, st.pending[m]) + 1])
  {
    var s1 := Apply(st, Notify(k, m));
    var s2 := Apply(s1, Check(k));
    var s3 := Apply(s2, Pop(k));
    last := Apply(s3, Finish(k));
    assert last.threads == st.threads;
    assert Runs(last, [], last);
    hide Runs, Apply;
    RunsFirst(s3, Finish(k), [], last);
    run := [Finish(k)] + [];
    RunsFirst(s2, Pop(k), run, last);
    run := [Pop(k)] + run;
    RunsFirst(s1, Check(k), run, last);
    run := [Check(k)] + run;
    RunsFirst(st, Notify(k, m), run, last);
    run := [Notify(k, m)] + run;
  }
}

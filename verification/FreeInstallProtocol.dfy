/** Every interleaving of the threads that end a free-install task: remote completions, the
    timer, failed starts and the loss of the device.  One step is one lock section.  Each plain
    start is conserved: it is in the table, in the hands of exactly one thread, or its result has
    been delivered exactly once. */
module FreeInstallProtocol {
  import opened FreeInstall

  /** A thread on its way to end a task. */
  datatype Thread =
    | Completing(taskId: TaskId, timer: bool)                          // about to read the launch type
    | Typed(taskId: TaskId, launchType: LaunchType, timer: bool)       // about to pop
    | StartFailed(taskId: TaskId)                                      // about to pop
    | Holding(item: Item, notify: bool)                                // popped, about to report

  datatype System = System(
    table: map<TaskId, Item>,
    armed: set<TaskId>,
    threads: map<nat, Thread>,
    types: map<TaskId, LaunchType>,     // the launch type of every task pushed so far
    delivered: map<TaskId, nat>)        // results sent to the callback of a task

  datatype Event =
    | Push(item: Item)
    | Complete(k: nat, taskId: TaskId)
    | Fire(k: nat, taskId: TaskId)
    | FailStart(k: nat, taskId: TaskId)
    | ReadType(k: nat)
    | Pop(k: nat)
    | Report(k: nat)
    | Offline(deviceId: Device)

  const INITIAL := System(map[], {}, map[], map[], map[])

  // ---------------------------------------------------------------- steps

  function Deliveries(delivered: map<TaskId, nat>, id: TaskId): nat {
    if id in delivered then delivered[id] else 0
  }

  /** The result is sent only if there is a callback to send it to. */
  function Deliver(delivered: map<TaskId, nat>, item: Item): map<TaskId, nat> {
    if item.hasCallback then delivered[item.taskId := Deliveries(delivered, item.taskId) + 1] else delivered
  }

  /** The results sent when a device is lost. */
  function DeliverAll(delivered: map<TaskId, nat>, table: map<TaskId, Item>, d: Device): map<TaskId, nat> {
    map id | id in delivered.Keys + OnDevice(table, d) ::
      Deliveries(delivered, id)
      + if id in table && table[id].deviceId == d && table[id].hasCallback then 1 else 0
  }

  /** The id a thread is about to pop. */
  predicate WillPop(t: Thread) {
    t.Typed? || t.StartFailed?
  }

  function PopId(t: Thread): TaskId
    requires WillPop(t)
  {
    t.taskId
  }

  /** A completion reports plain starts; a failed start always reports. */
  predicate Notifies(t: Thread)
    requires WillPop(t)
  {
    t.StartFailed? || t.launchType == FreeInstallStart
  }

  predicate Enabled(st: System, ev: Event) {
    match ev
    case Push(item) =>
      && item.taskId > 0 && item.taskId !in st.types
      && (item.launchType == FreeInstallStart ==> item.hasCallback)
    case Complete(k, id) => k !in st.threads
    case Fire(k, id) => k !in st.threads && id in st.armed
    case FailStart(k, id) => k !in st.threads
    case ReadType(k) => k in st.threads && st.threads[k].Completing?
    case Pop(k) => k in st.threads && WillPop(st.threads[k])
    case Report(k) => k in st.threads && st.threads[k].Holding?
    case Offline(d) => true
  }

  function DoPush(st: System, item: Item): System {
    st.(table := st.table[item.taskId := item], armed := st.armed + {item.taskId},
        types := st.types[item.taskId := item.launchType])
  }

  function DoPop(st: System, k: nat): System
    requires k in st.threads && WillPop(st.threads[k])
  {
    var id := PopId(st.threads[k]);
    if id in st.table then
      st.(table := st.table - {id}, armed := st.armed - {id},
          threads := st.threads[k := Holding(st.table[id], Notifies(st.threads[k]))])
    else st.(threads := st.threads - {k})
  }

  function DoReport(st: System, k: nat): System
    requires k in st.threads && st.threads[k].Holding?
  {
    var t := st.threads[k];
    st.(threads := st.threads - {k},
        delivered := if t.notify then Deliver(st.delivered, t.item) else st.delivered)
  }

  function DoOffline(st: System, d: Device): System {
    st.(table := st.table - OnDevice(st.table, d), armed := st.armed - OnDevice(st.table, d),
        delivered := DeliverAll(st.delivered, st.table, d))
  }

  function Apply(st: System, ev: Event): System
    requires Enabled(st, ev)
  {
    match ev
    case Push(item) => DoPush(st, item)
    case Complete(k, id) => st.(threads := st.threads[k := Completing(id, false)])
    case Fire(k, id) => st.(armed := st.armed - {id}, threads := st.threads[k := Completing(id, true)])
    case FailStart(k, id) => st.(threads := st.threads[k := StartFailed(id)])
    case ReadType(k) =>
      var t := st.threads[k];
      st.(threads := st.threads[k := Typed(t.taskId, TypeIn(st.table, t.taskId), t.timer)])
    case Pop(k) => DoPop(st, k)
    case Report(k) => DoReport(st, k)
    case Offline(d) => DoOffline(st, d)
  }

  ghost predicate Runs(st: System, run: seq<Event>, last: System)
    decreases |run|
  {
    if run == [] then last == st
    else Enabled(st, run[0]) && Runs(Apply(st, run[0]), run[1..], last)
  }

  // ---------------------------------------------------------------- the invariant

  /** The threads that hold an entry after popping it. */
  function Holders(threads: map<nat, Thread>, id: TaskId): set<nat> {
    set k | k in threads && threads[k].Holding? && threads[k].item.taskId == id
  }

  /** A plain start is in exactly one place. */
  ghost predicate Conserved(st: System, id: TaskId) {
    (if id in st.table then 1 else 0) + |Holders(st.threads, id)| + Deliveries(st.delivered, id) == 1
  }

  predicate ThreadOk(types: map<TaskId, LaunchType>, t: Thread) {
    match t
    case Completing(_, _) => true
    case Typed(id, lt, _) => lt == FreeInstallContinue ==> id in types && types[id] == FreeInstallContinue
    case StartFailed(_) => true
    case Holding(item, notify) =>
      && item.taskId in types && types[item.taskId] == item.launchType
      && (item.launchType == FreeInstallStart ==> notify && item.hasCallback)
  }

  /** The entries whose timer has gone off and is about to pop them. */
  predicate Fired(t: Thread, id: TaskId) {
    (t.Completing? || t.Typed?) && t.timer && t.taskId == id
  }

  ghost predicate HasTimer(st: System, id: TaskId) {
    id in st.armed || exists k :: k in st.threads && Fired(st.threads[k], id)
  }

  ghost predicate TypesOk(st: System) {
    && TableOk(st.table)
    && (forall id :: id in st.table ==> id in st.types && st.types[id] == st.table[id].launchType)
    && (forall k :: k in st.threads ==> ThreadOk(st.types, st.threads[k]))
    && (forall id :: id in st.delivered && st.delivered[id] > 0 ==> id in st.types)
  }

  ghost predicate TimersOk(st: System) {
    st.armed <= st.table.Keys && forall id :: id in st.table ==> HasTimer(st, id)
  }

  ghost predicate StartsConserved(st: System) {
    forall id :: id in st.types && st.types[id] == FreeInstallStart ==> Conserved(st, id)
  }

  ghost predicate Inv(st: System) {
    TypesOk(st) && TimersOk(st) && StartsConserved(st)
  }

  // ---------------------------------------------------------------- every step keeps it

  lemma PushKeepsInv(st: System, item: Item)
    requires Inv(st) && Enabled(st, Push(item))
    ensures Inv(DoPush(st, item))
  {
    var after := DoPush(st, item);
    var id := item.taskId;
    assert Holders(st.threads, id) == {};
    assert Conserved(after, id) by { assert Deliveries(st.delivered, id) == 0; }
    forall x | x in after.types && x != id && after.types[x] == FreeInstallStart ensures Conserved(after, x) {
      assert Conserved(st, x);
    }
    forall x | x in after.table && x != id ensures HasTimer(after, x) {
      assert HasTimer(st, x);
    }
  }

  /** A thread that holds nothing comes, moves or goes. */
  lemma ThreadStepKeepsInv(st: System, after: System, k: nat)
    requires Inv(st)
    requires after == st.(threads := after.threads, armed := after.armed) && after.armed <= st.armed
    requires k in st.threads ==> !st.threads[k].Holding?
    requires k in after.threads ==> !after.threads[k].Holding? && ThreadOk(st.types, after.threads[k])
    requires forall j :: j != k ==> (j in st.threads <==> j in after.threads)
    requires forall j :: j in st.threads && j != k ==> after.threads[j] == st.threads[j]
    requires forall id :: id in st.table && HasTimer(st, id) ==> HasTimer(after, id)
    ensures Inv(after)
  {
    forall id | id in st.types && st.types[id] == FreeInstallStart ensures Conserved(after, id) {
      assert Conserved(st, id);
      assert Holders(after.threads, id) == Holders(st.threads, id);
    }
  }

  /** A timer that has gone off stays on its way as long as its thread is not removed. */
  lemma TimersSurvive(st: System, after: System, k: nat)
    requires forall j :: j in st.threads && j != k ==> j in after.threads && after.threads[j] == st.threads[j]
    requires k in st.threads ==>
               forall id :: Fired(st.threads[k], id) ==> k in after.threads && Fired(after.threads[k], id)
    requires forall id :: id in st.armed && id !in after.armed ==> k in after.threads && Fired(after.threads[k], id)
    ensures forall id :: HasTimer(st, id) ==> HasTimer(after, id)
  {
    forall id | HasTimer(st, id) ensures HasTimer(after, id) {
      if id !in st.armed {
        var j :| j in st.threads && Fired(st.threads[j], id);
        assert j in after.threads && Fired(after.threads[j], id);
      }
    }
  }

  lemma ArrivalKeepsInv(st: System, ev: Event)
    requires Inv(st) && Enabled(st, ev) && (ev.Complete? || ev.Fire? || ev.FailStart? || ev.ReadType?)
    ensures Inv(Apply(st, ev))
  {
    TimersSurvive(st, Apply(st, ev), ev.k);
    hide HasTimer, Conserved, TableOk;
    ThreadStepKeepsInv(st, Apply(st, ev), ev.k);
  }

  lemma MissedPopKeepsInv(st: System, k: nat)
    requires Inv(st) && k in st.threads && WillPop(st.threads[k]) && PopId(st.threads[k]) !in st.table
    ensures Inv(DoPop(st, k))
  {
    var after := DoPop(st, k);
    forall id | id in st.table && HasTimer(st, id) ensures HasTimer(after, id) {
      if id !in st.armed {
        var j :| j in st.threads && Fired(st.threads[j], id);
        assert j in after.threads && Fired(after.threads[j], id);
      }
    }
    ThreadStepKeepsInv(st, after, k);
  }

  /** The one successful pop moves an entry from the table into the hands of its thread. */
  lemma PopKeepsInv(st: System, k: nat)
    requires Inv(st) && k in st.threads && WillPop(st.threads[k]) && PopId(st.threads[k]) in st.table
    ensures Inv(DoPop(st, k))
  {
    var after, popped := DoPop(st, k), PopId(st.threads[k]);
    forall id | id in after.table ensures HasTimer(after, id) {
      assert HasTimer(st, id);
      if id !in st.armed {
        var j :| j in st.threads && Fired(st.threads[j], id);
        assert j in after.threads && Fired(after.threads[j], id);
      }
    }
    forall id | id in st.types && st.types[id] == FreeInstallStart ensures Conserved(after, id) {
      assert Conserved(st, id);
      if id == popped {
        assert Holders(after.threads, id) == Holders(st.threads, id) + {k};
      } else {
        assert Holders(after.threads, id) == Holders(st.threads, id);
      }
    }
  }

  lemma ReportConserves(st: System, k: nat, id: TaskId)
    requires k in st.threads && st.threads[k].Holding? && ThreadOk(st.types, st.threads[k])
    requires id in st.types && st.types[id] == FreeInstallStart && Conserved(st, id)
    ensures Conserved(DoReport(st, k), id)
  {
    var after := DoReport(st, k);
    if id == st.threads[k].item.taskId {
      assert Holders(after.threads, id) == Holders(st.threads, id) - {k};
      assert k in Holders(st.threads, id);
    } else {
      assert Holders(after.threads, id) == Holders(st.threads, id);
    }
  }

  lemma ReportKeepsInv(st: System, k: nat)
    requires Inv(st) && k in st.threads && st.threads[k].Holding?
    ensures Inv(DoReport(st, k))
  {
    var after := DoReport(st, k);
    TimersSurvive(st, after, k);
    hide Conserved, HasTimer, TableOk;
    forall id | id in st.types && st.types[id] == FreeInstallStart ensures Conserved(after, id) {
      ReportConserves(st, k, id);
    }
  }

  lemma OfflineKeepsInv(st: System, d: Device)
    requires Inv(st)
    ensures Inv(DoOffline(st, d))
  {
    var after := DoOffline(st, d);
    forall id | id in after.table ensures HasTimer(after, id) {
      assert HasTimer(st, id);
    }
    forall id | id in st.types && st.types[id] == FreeInstallStart ensures Conserved(after, id) {
      assert Conserved(st, id);
    }
  }

  lemma StepKeepsInv(st: System, ev: Event)
    requires Inv(st) && Enabled(st, ev)
    ensures Inv(Apply(st, ev))
  {
    hide Inv, DoPush, DoPop, DoReport, DoOffline;
    match ev {
      case Push(item) => PushKeepsInv(st, item);
      case Pop(k) =>
        if PopId(st.threads[k]) in st.table { PopKeepsInv(st, k); } else { MissedPopKeepsInv(st, k); }
      case Report(k) => ReportKeepsInv(st, k);
      case Offline(d) => OfflineKeepsInv(st, d);
      case _ => ArrivalKeepsInv(st, ev);
    }
  }

  lemma {:induction false} RunKeepsInv(st: System, run: seq<Event>, last: System)
    requires Inv(st) && Runs(st, run, last)
    ensures Inv(last)
    decreases |run|
  {
    hide Inv, Enabled, Apply;
    if run != [] {
      StepKeepsInv(st, run[0]);
      RunKeepsInv(Apply(st, run[0]), run[1..], last);
    }
  }

  /** In every reachable state a plain start is in exactly one place, so its result is delivered
      at most once; and once every timer has fired and every thread has finished, the table is
      empty and each plain start has been delivered exactly once. */
  lemma DeliveredExactlyOnce(run: seq<Event>, last: System, id: TaskId)
    requires Runs(INITIAL, run, last)
    requires id in last.types && last.types[id] == FreeInstallStart
    ensures Conserved(last, id) && Deliveries(last.delivered, id) <= 1
    ensures last.armed == {} && last.threads == map[] ==>
              last.table == map[] && Deliveries(last.delivered, id) == 1
  {
    RunKeepsInv(INITIAL, run, last);
    assert Conserved(last, id);
    if last.armed == {} && last.threads == map[] {
      assert forall x :: x in last.table ==> HasTimer(last, x);
      assert forall x :: x !in last.table;
      assert last.table == map[];
      assert Holders(last.threads, id) == {};
    }
  }

  /** A timer is armed only while its task is in the table, and a task in the table always has a
      timer that is armed or has gone off. */
  lemma TimersMatchTable(run: seq<Event>, last: System)
    requires Runs(INITIAL, run, last)
    ensures last.armed <= last.table.Keys
    ensures forall id :: id in last.table ==> HasTimer(last, id)
  {
    RunKeepsInv(INITIAL, run, last);
  }

  // ---------------------------------------------------------------- what the threads do

  lemma RunsFirst(st: System, ev: Event, run: seq<Event>, last: System)
    requires Enabled(st, ev) && Runs(Apply(st, ev), run, last)
    ensures Runs(st, [ev] + run, last)
  {
    hide Enabled, Apply;
    assert ([ev] + run)[1..] == run;
  }

  /** A completion on its own takes the entry and its timer away and reports it exactly if it is a plain
      start with a callback; a completion of an unknown task changes nothing. */
  lemma CompletionInARow(st: System, k: nat, id: TaskId) returns (run: seq<Event>, last: System)
    requires k !in st.threads && TableOk(st.table)
    ensures Runs(st, run, last) && last.threads == st.threads && last.types == st.types
    ensures last.table == st.table - {id}
    ensures last.armed == if id in st.table then st.armed - {id} else st.armed
    ensures forall x :: Deliveries(last.delivered, x)
                        == Deliveries(st.delivered, x)
                           + if x == id && id in st.table && st.table[id].launchType == FreeInstallStart
                                && st.table[id].hasCallback then 1 else 0
  {
    var s1 := Apply(st, Complete(k, id));
    var s2 := Apply(s1, ReadType(k));
    var s3 := Apply(s2, Pop(k));
    if id in st.table {
      last := Apply(s3, Report(k));
      assert last.threads == st.threads;
      assert Runs(last, [], last);
      RunsFirst(s3, Report(k), [], last);
      run := [Report(k)] + [];
    } else {
      last := s3;
      assert last.threads == st.threads && st.table - {id} == st.table;
      assert Runs(last, [], last);
      run := [];
    }
    hide Runs, Apply;
    RunsFirst(s2, Pop(k), run, last);
    run := [Pop(k)] + run;
    RunsFirst(s1, ReadType(k), run, last);
    run := [ReadType(k)] + run;
    RunsFirst(st, Complete(k, id), run, last);
    run := [Complete(k, id)] + run;
  }

  /** A failed start on its own takes its entry and its timer away and reports it whatever its type. */
  lemma FailedStartInARow(st: System, k: nat, id: TaskId) returns (run: seq<Event>, last: System)
    requires k !in st.threads && TableOk(st.table) && id in st.table
    ensures Runs(st, run, last) && last.threads == st.threads && last.types == st.types
    ensures last.table == st.table - {id} && last.armed == st.armed - {id}
    ensures forall x :: Deliveries(last.delivered, x)
                        == Deliveries(st.delivered, x) + if x == id && st.table[id].hasCallback then 1 else 0
  {
    var s1 := Apply(st, FailStart(k, id));
    var s2 := Apply(s1, Pop(k));
    last := Apply(s2, Report(k));
    assert last.threads == st.threads;
    assert Runs(last, [], last);
    hide Runs, Apply;
    RunsFirst(s2, Report(k), [], last);
    run := [Report(k)] + [];
    RunsFirst(s1, Pop(k), run, last);
    run := [Pop(k)] + run;
    RunsFirst(st, FailStart(k, id), run, last);
    run := [FailStart(k, id)] + run;
  }

  /** Losing a device takes exactly its entries and timers away and reports each that has a callback. */
  lemma OfflineMeans(st: System, d: Device)
    ensures var after := DoOffline(st, d);
            && after.threads == st.threads && after.types == st.types
            && (forall id :: id in after.table <==> id in st.table && st.table[id].deviceId != d)
            && (forall id :: id in after.table ==> after.table[id] == st.table[id])
            && (forall id :: id in after.armed <==> id in st.armed && !(id in st.table && st.table[id].deviceId == d))
            && (forall id :: Deliveries(after.delivered, id)
                             == Deliveries(st.delivered, id)
                                + if id in st.table && st.table[id].deviceId == d && st.table[id].hasCallback
                                  then 1 else 0)
  {
  }

  // ---------------------------------------------------------------- timers go off once

  function Fires(run: seq<Event>, id: TaskId): nat {
    if run == [] then 0 else (if run[0].Fire? && run[0].taskId == id then 1 else 0) + Fires(run[1..], id)
  }

  lemma {:induction false} RunFires(st: System, run: seq<Event>, last: System, id: TaskId, before: nat)
    requires Runs(st, run, last) && (id in st.armed ==> id in st.types)
    requires before + (if id in st.armed then 1 else 0) <= if id in st.types then 1 else 0
    ensures before + Fires(run, id) + (if id in last.armed then 1 else 0) <= if id in last.types then 1 else 0
    decreases |run|
  {
    if run != [] {
      RunFires(Apply(st, run[0]), run[1..], last, id, before + if run[0].Fire? && run[0].taskId == id then 1 else 0);
    }
  }

  /** Over every run the timer of a task goes off at most once, and not before the task is pushed. */
  lemma TimerFiresOnce(run: seq<Event>, last: System, id: TaskId)
    requires Runs(INITIAL, run, last)
    ensures Fires(run, id) <= if id in last.types then 1 else 0
  {
    RunFires(INITIAL, run, last, id, 0);
  }

  // ---------------------------------------------------------------- continuations are not reported

  /** No thread will report the continuation id. */
  ghost predicate Silent(st: System, id: TaskId) {
    && id in st.types && (id in st.table ==> id > 0 && st.table[id].launchType == FreeInstallContinue)
    && (forall x :: x in st.table ==> st.table[x].taskId == x)
    && Deliveries(st.delivered, id) == 0
    && forall k :: k in st.threads ==>
         match st.threads[k]
         case Completing(_, _) => true
         case Typed(x, lt, _) => x == id ==> lt == FreeInstallContinue || id !in st.table
         case StartFailed(x) => x == id ==> id !in st.table
         case Holding(item, notify) => item.taskId == id ==> !notify
  }

  lemma StepKeepsSilence(st: System, ev: Event, id: TaskId)
    requires Silent(st, id) && Enabled(st, ev)
    requires !ev.Offline? && (ev.FailStart? ==> ev.taskId != id)
    ensures Silent(Apply(st, ev), id)
  {
  }

  lemma {:induction false} RunKeepsSilence(st: System, run: seq<Event>, last: System, id: TaskId)
    requires Silent(st, id) && Runs(st, run, last)
    requires forall i :: 0 <= i < |run| ==> !run[i].Offline? && (run[i].FailStart? ==> run[i].taskId != id)
    ensures Silent(last, id)
    decreases |run|
  {
    hide Silent, Enabled, Apply;
    if run != [] {
      StepKeepsSilence(st, run[0], id);
      RunKeepsSilence(Apply(st, run[0]), run[1..], last, id);
    }
  }

  /** A task pushed as a continuation is read back as one: unless its start fails or a device is lost, no
      interleaving of completions and timeouts ever reports it as a plain start. */
  lemma ContinuationNotReported(before: seq<Event>, st: System, item: Item, run: seq<Event>, last: System)
    requires Runs(INITIAL, before, st) && Enabled(st, Push(item)) && item.launchType == FreeInstallContinue
    requires forall k :: k in st.threads && (st.threads[k].Typed? || st.threads[k].StartFailed?) ==>
               st.threads[k].taskId != item.taskId
    requires Runs(DoPush(st, item), run, last)
    requires forall i :: 0 <= i < |run| ==> !run[i].Offline? && (run[i].FailStart? ==> run[i].taskId != item.taskId)
    ensures Deliveries(last.delivered, item.taskId) == 0
  {
    RunKeepsInv(INITIAL, before, st);
    assert Deliveries(st.delivered, item.taskId) == 0;
    assert Silent(DoPush(st, item), item.taskId);
    RunKeepsSilence(DoPush(st, item), run, last, item.taskId);
  }
}

/** Timeouts of pending missions, one step per lock section or timer operation.  A continuation is
    pushed in one section and its timer set in another; it is popped in one section and its timer
    removed in another.  A mission that is pushed again in between loses its new timer.  This
    module says exactly from which states a mission can be left pending without a timeout, and
    exactly which events lead into them. */
module ContinuationTimers {
  import opened Common
  import opened Continuation

  /** What a thread does next. */
  datatype Point =
    | Arming          // set the timer
    | ArmingInstall   // set the timer, then ask whether the remote device can install
    | Installing      // wait for the answer; if it is no, remove the timers
    | Dropping        // pop the callback without a result
    | Resetting       // remove the timers, then set a new one
    | Notifying       // check whether the mission is pending
    | Confirmed       // it was: pop the callback
    | Disarming       // remove the timers

  datatype Thread = Thread(mission: Mission, at: Point)

  datatype System = System(pending: set<Mission>, armed: multiset<Mission>, threads: map<nat, Thread>)

  datatype Event =
    | Continue(k: nat, mission: Mission)                     // push; refused if pending
    | Install(k: nat, mission: Mission, hasCallback: bool)   // push for a free install; goes on if refused
    | InstallChecked(k: nat, mission: Mission)               // the remote device can install
    | StartContinuation(k: nat, mission: Mission)            // check; sets a timer if not pending
    | Notify(k: nat, mission: Mission)                       // a result of any kind
    | Fire(k: nat, mission: Mission)                         // the event loop takes a due timer
    | Step(k: nat, ok: bool)                                 // thread k goes on

  const INITIAL := System({}, multiset{}, map[])

  // ---------------------------------------------------------------- steps

  predicate Enabled(st: System, ev: Event) {
    match ev
    case Step(k, ok) => k in st.threads
    case Fire(k, m) => k !in st.threads && m in st.armed
    case _ => ev.k !in st.threads
  }

  function At(st: System, k: nat, m: Mission, at: Point): System {
    st.(threads := st.threads[k := Thread(m, at)])
  }

  function Done(st: System, k: nat): System {
    st.(threads := st.threads - {k})
  }

  function Armed(st: System, m: Mission): System {
    st.(armed := st.armed + multiset{m})
  }

  function Disarmed(st: System, m: Mission): System {
    st.(armed := st.armed[m := 0])
  }

  function Pushed(st: System, m: Mission): System {
    st.(pending := st.pending + {m})
  }

  function Popped(st: System, m: Mission): System {
    st.(pending := st.pending - {m})
  }

  function DoStep(st: System, k: nat, ok: bool): System
    requires k in st.threads
  {
    var m := st.threads[k].mission;
    match st.threads[k].at
    case Arming => Done(Armed(st, m), k)
    case ArmingInstall => At(Armed(st, m), k, m, Installing)
    case Installing => if ok then Done(st, k) else At(Disarmed(st, m), k, m, Dropping)
    case Dropping => Done(Popped(st, m), k)
    case Resetting => At(Disarmed(st, m), k, m, Arming)
    case Notifying => At(st, k, m, if m in st.pending then Confirmed else Disarming)
    case Confirmed => At(Popped(st, m), k, m, Disarming)
    case Disarming => Done(Disarmed(st, m), k)
  }

  function Apply(st: System, ev: Event): System
    requires Enabled(st, ev)
  {
    match ev
    case Continue(k, m) => if m in st.pending then st else At(Pushed(st, m), k, m, Arming)
    case Install(k, m, hasCallback) => At(if hasCallback then Pushed(st, m) else st, k, m, ArmingInstall)
    case InstallChecked(k, m) => At(st, k, m, Resetting)
    case StartContinuation(k, m) => if m in st.pending then st else At(st, k, m, Arming)
    case Notify(k, m) => At(st, k, m, Notifying)
    case Fire(k, m) =>
      // the handler ignores ids that are not positive
      var taken := st.(armed := st.armed - multiset{m});
      if m > 0 then At(taken, k, m, Notifying) else taken
    case Step(k, ok) => DoStep(st, k, ok)
  }

  ghost predicate Runs(st: System, run: seq<Event>, last: System)
    decreases |run|
  {
    if run == [] then last == st
    else Enabled(st, run[0]) && Runs(Apply(st, run[0]), run[1..], last)
  }

  // ---------------------------------------------------------------- what becomes of a mission

  predicate Ends(at: Point) {
    at.Dropping? || at.Notifying? || at.Confirmed?
  }

  predicate Arms(at: Point) {
    at.Arming? || at.ArmingInstall? || at.Resetting?
  }

  /** A thread that will pop the mission if nobody else does. */
  ghost predicate Ending(threads: map<nat, Thread>, m: Mission) {
    exists k :: k in threads && threads[k].mission == m && Ends(threads[k].at)
  }

  /** A thread that will set a timer for the mission. */
  ghost predicate BeingArmed(threads: map<nat, Thread>, m: Mission) {
    exists k :: k in threads && threads[k].mission == m && Arms(threads[k].at)
  }

  /** A thread between the pop of the mission and the removal of its timers. */
  ghost predicate BeingDisarmed(threads: map<nat, Thread>, m: Mission) {
    exists k :: k in threads && threads[k].mission == m && threads[k].at == Disarming
  }

  /** A pending mission has a timer, or a thread that will set one, or one that will end it. */
  ghost predicate HasTimeout(st: System, m: Mission) {
    m in st.armed || BeingArmed(st.threads, m) || Ending(st.threads, m)
  }

  /** The mission is pending, nobody will end it, and its timers are gone, will be removed, or go
      off unheard. */
  ghost predicate Doomed(st: System, m: Mission) {
    && m in st.pending && !Ending(st.threads, m)
    && (m <= 0 || BeingDisarmed(st.threads, m) || (m !in st.armed && !BeingArmed(st.threads, m)))
  }

  /** The mission is pending with no timer and no thread concerned with it. */
  ghost predicate Stranded(st: System, m: Mission) {
    && m in st.pending && m !in st.armed
    && forall k :: k in st.threads ==> st.threads[k].mission != m
  }

  predicate Pushes(st: System, ev: Event, m: Mission) {
    m !in st.pending && (ev == Continue(ev.k, m) || ev == Install(ev.k, m, true))
  }

  /** The event pushes the mission while a thread is about to remove its timers and none will end it;
      or its id is not positive. */
  ghost predicate Endangers(st: System, ev: Event, m: Mission) {
    Pushes(st, ev, m) && !Ending(st.threads, m) && (m <= 0 || BeingDisarmed(st.threads, m))
  }

  // ---------------------------------------------------------------- which events endanger a mission

  /** Changing one thread changes what the threads will do by that thread alone. */
  lemma OneThread(threads: map<nat, Thread>, after: map<nat, Thread>, k: nat, m: Mission)
    requires forall j :: j != k ==> (j in threads <==> j in after)
    requires forall j :: j in threads && j != k ==> after[j] == threads[j]
    ensures Ending(threads, m) ==>
              Ending(after, m) || (k in threads && threads[k].mission == m && Ends(threads[k].at))
    ensures BeingArmed(threads, m) ==>
              BeingArmed(after, m) || (k in threads && threads[k].mission == m && Arms(threads[k].at))
    ensures BeingDisarmed(threads, m) ==>
              BeingDisarmed(after, m) || (k in threads && threads[k].mission == m && threads[k].at == Disarming)
    ensures k in after && after[k].mission == m && Ends(after[k].at) ==> Ending(after, m)
    ensures k in after && after[k].mission == m && Arms(after[k].at) ==> BeingArmed(after, m)
    ensures k in after && after[k].mission == m && after[k].at == Disarming ==> BeingDisarmed(after, m)
  {
    if Ending(threads, m) {
      var j :| j in threads && threads[j].mission == m && Ends(threads[j].at);
      assert j != k ==> j in after && after[j] == threads[j];
    }
    if BeingArmed(threads, m) {
      var j :| j in threads && threads[j].mission == m && Arms(threads[j].at);
      assert j != k ==> j in after && after[j] == threads[j];
    }
    if BeingDisarmed(threads, m) {
      var j :| j in threads && threads[j].mission == m && threads[j].at == Disarming;
      assert j != k ==> j in after && after[j] == threads[j];
    }
  }

  /** A state that differs for other missions only dooms the same missions. */
  lemma OthersDoNotMatter(st: System, after: System, k: nat, m: Mission)
    requires forall j :: j != k ==> (j in st.threads <==> j in after.threads)
    requires forall j :: j in st.threads && j != k ==> after.threads[j] == st.threads[j]
    requires (k in st.threads ==> st.threads[k].mission != m) && (k in after.threads ==> after.threads[k].mission != m)
    requires (m in after.pending <==> m in st.pending) && (m in after.armed <==> m in st.armed)
    ensures Doomed(after, m) <==> Doomed(st, m)
  {
    OneThread(st.threads, after.threads, k, m);
    OneThread(after.threads, st.threads, k, m);
    hide Ending, BeingArmed, BeingDisarmed;
  }

  /** A thread that goes on dooms nothing. */
  lemma GoingOnDoomsNothing(st: System, k: nat, ok: bool, m: Mission)
    requires k in st.threads && !Doomed(st, m)
    ensures !Doomed(DoStep(st, k, ok), m)
  {
    var after := DoStep(st, k, ok);
    if st.threads[k].mission != m {
      OthersDoNotMatter(st, after, k, m);
    } else {
      OneThread(st.threads, after.threads, k, m);
      OneThread(after.threads, st.threads, k, m);
      hide Ending, BeingArmed, BeingDisarmed;
    }
  }

  /** What a new thread adds. */
  lemma AddedThread(threads: map<nat, Thread>, k: nat, m: Mission, at: Point)
    requires k !in threads
    ensures Ending(threads[k := Thread(m, at)], m) <==> Ending(threads, m) || Ends(at)
    ensures BeingArmed(threads[k := Thread(m, at)], m) <==> BeingArmed(threads, m) || Arms(at)
    ensures BeingDisarmed(threads[k := Thread(m, at)], m) <==> BeingDisarmed(threads, m) || at == Disarming
  {
    OneThread(threads, threads[k := Thread(m, at)], k, m);
    OneThread(threads[k := Thread(m, at)], threads, k, m);
    hide Ending, BeingArmed, BeingDisarmed;
  }

  lemma PushDoomsIff(st: System, k: nat, m: Mission, at: Point)
    requires k !in st.threads && Arms(at)
    ensures Doomed(At(Pushed(st, m), k, m, at), m)
            <==> !Ending(st.threads, m) && (m <= 0 || BeingDisarmed(st.threads, m))
  {
    AddedThread(st.threads, k, m, at);
    hide Ending, BeingArmed, BeingDisarmed;
  }

  lemma ThreadDoomsNothing(st: System, k: nat, m: Mission, at: Point)
    requires k !in st.threads && at != Disarming && !Doomed(st, m)
    ensures !Doomed(At(st, k, m, at), m)
  {
    AddedThread(st.threads, k, m, at);
    hide Ending, BeingArmed, BeingDisarmed;
  }

  lemma FireDoomsNothing(st: System, k: nat, m: Mission)
    requires Enabled(st, Fire(k, m)) && !Doomed(st, m)
    ensures !Doomed(Apply(st, Fire(k, m)), m)
  {
    AddedThread(st.threads, k, m, Notifying);
    hide Ending, BeingArmed, BeingDisarmed;
  }

  /** A new thread dooms a mission exactly if it pushes it at the wrong moment. */
  lemma EntryDoomsIff(st: System, ev: Event, m: Mission)
    requires Enabled(st, ev) && !ev.Step? && !Doomed(st, m)
    ensures Doomed(Apply(st, ev), m) <==> Endangers(st, ev, m)
  {
    hide Doomed, Ending, BeingDisarmed;
    if ev.mission != m {
      OthersDoNotMatter(st, Apply(st, ev), ev.k, m);
    } else if Pushes(st, ev, m) {
      PushDoomsIff(st, ev.k, m, if ev.Continue? then Arming else ArmingInstall);
    } else if ev.Fire? {
      FireDoomsNothing(st, ev.k, m);
    } else {
      ThreadDoomsNothing(st, ev.k, m, if ev.Install? then ArmingInstall else if ev.InstallChecked? then Resetting
                                      else if ev.Notify? then Notifying else Arming);
      assert ev.Install? && ev.hasCallback ==> Pushed(st, m) == st;
    }
  }

  /** From a state in which the mission is not doomed, an event dooms it if and only if it endangers it. */
  lemma StepDoomsIff(st: System, ev: Event, m: Mission)
    requires Enabled(st, ev) && !Doomed(st, m)
    ensures Doomed(Apply(st, ev), m) <==> Endangers(st, ev, m)
  {
    if ev.Step? {
      GoingOnDoomsNothing(st, ev.k, ev.ok, m);
      hide Doomed, DoStep;
    } else {
      EntryDoomsIff(st, ev, m);
      hide *;
    }
  }

  // ---------------------------------------------------------------- what a doomed mission comes to

  /** Threads go on and due timers go off; no new entry point is called. */
  predicate Settling(run: seq<Event>) {
    forall i :: 0 <= i < |run| ==> run[i].Step? || run[i].Fire?
  }

  lemma {:induction false} SettlingDoomsNothing(st: System, run: seq<Event>, last: System, m: Mission)
    requires Runs(st, run, last) && Settling(run) && !Doomed(st, m)
    ensures !Doomed(last, m)
    decreases |run|
  {
    hide Doomed, Enabled, Apply;
    if run != [] {
      assert !Endangers(st, run[0], m);
      StepDoomsIff(st, run[0], m);
      SettlingDoomsNothing(Apply(st, run[0]), run[1..], last, m);
    }
  }

  function Mine(threads: map<nat, Thread>, m: Mission): set<nat> {
    set k | k in threads && threads[k].mission == m
  }

  function Early(threads: map<nat, Thread>, m: Mission): set<nat> {
    set k | k in threads && threads[k].mission == m && (threads[k].at.ArmingInstall? || threads[k].at.Resetting?)
  }

  /** How much the threads of a mission that ends nothing have still to do. */
  function Work(threads: map<nat, Thread>, m: Mission): nat {
    |Mine(threads, m)| + |Early(threads, m)|
  }

  lemma DoneWorks(threads: map<nat, Thread>, k: nat, m: Mission)
    requires k in threads && threads[k].mission == m
    ensures Work(threads - {k}, m) < Work(threads, m)
  {
    var after := threads - {k};
    assert Mine(after, m) == Mine(threads, m) - {k};
    assert Early(after, m) == Early(threads, m) - {k};
  }

  lemma AtWorks(threads: map<nat, Thread>, k: nat, m: Mission, at: Point)
    requires k in threads && k in Early(threads, m) && !at.ArmingInstall? && !at.Resetting?
    ensures Work(threads[k := Thread(m, at)], m) < Work(threads, m)
  {
    var after := threads[k := Thread(m, at)];
    assert Mine(after, m) == Mine(threads, m);
    assert Early(after, m) == Early(threads, m) - {k};
  }

  /** The threads of a doomed mission go on, those that remove timers last, and leave it doomed. */
  lemma DoomedStep(st: System, m: Mission, k: nat)
    requires Doomed(st, m) && k in st.threads && st.threads[k].mission == m
    requires st.threads[k].at != Disarming
             || forall j :: j in st.threads && st.threads[j].mission == m ==> st.threads[j].at == Disarming
    ensures Doomed(DoStep(st, k, true), m)
    ensures Work(DoStep(st, k, true).threads, m) < Work(st.threads, m)
  {
    var after := DoStep(st, k, true);
    assert !Ends(st.threads[k].at);
    if st.threads[k].at.ArmingInstall? || st.threads[k].at.Resetting? {
      AtWorks(st.threads, k, m, after.threads[k].at);
    } else {
      DoneWorks(st.threads, k, m);
    }
    OneThread(st.threads, after.threads, k, m);
    OneThread(after.threads, st.threads, k, m);
    assert st.threads[k].at == Disarming ==> !BeingArmed(st.threads, m);
    hide Ending, BeingArmed, BeingDisarmed, Work;
  }

  lemma RunsFirst(st: System, ev: Event, run: seq<Event>, last: System)
    requires Enabled(st, ev) && Runs(Apply(st, ev), run, last)
    ensures Runs(st, [ev] + run, last)
  {
    hide Enabled, Apply;
    assert ([ev] + run)[1..] == run;
  }

  /** The thread of a doomed mission that goes on next. */
  lemma NextThread(st: System, m: Mission) returns (k: nat)
    requires exists j :: j in st.threads && st.threads[j].mission == m
    ensures k in st.threads && st.threads[k].mission == m
    ensures st.threads[k].at != Disarming
            || forall j :: j in st.threads && st.threads[j].mission == m ==> st.threads[j].at == Disarming
  {
    if j :| j in st.threads && st.threads[j].mission == m && st.threads[j].at != Disarming {
      k := j;
    } else {
      k :| k in st.threads && st.threads[k].mission == m;
    }
  }

  /** A doomed mission can be left pending for good. */
  lemma {:induction false} DoomedIsStranded(st: System, m: Mission) returns (run: seq<Event>, last: System)
    requires Doomed(st, m)
    ensures Runs(st, run, last) && Settling(run) && Stranded(last, m)
    decreases Work(st.threads, m), st.armed[m]
  {
    if exists j :: j in st.threads && st.threads[j].mission == m {
      var k := NextThread(st, m);
      DoomedStep(st, m, k);
      hide Doomed, Work, Runs, DoStep, Stranded;
      run, last := DoomedIsStranded(DoStep(st, k, true), m);
      RunsFirst(st, Step(k, true), run, last);
      run := [Step(k, true)] + run;
    } else if m in st.armed {
      var k := Fresh(st.threads.Keys);
      assert Apply(st, Fire(k, m)) == st.(armed := st.armed - multiset{m});
      hide Runs, Stranded, Work;
      run, last := DoomedIsStranded(st.(armed := st.armed - multiset{m}), m);
      RunsFirst(st, Fire(k, m), run, last);
      run := [Fire(k, m)] + run;
    } else {
      run, last := [], st;
    }
  }

  /** However the threads go on, the mission is not left pending without a timeout. */
  ghost predicate SettlesTimed(st: System, m: Mission) {
    forall run, last :: Runs(st, run, last) && Settling(run) ==> !Stranded(last, m)
  }

  lemma StrandedIsDoomed(st: System, m: Mission)
    requires Stranded(st, m)
    ensures Doomed(st, m)
  {
  }

  /** Exactly the doomed missions can be left pending without a timeout. */
  lemma SettlesTimedIffNotDoomed(st: System, m: Mission)
    ensures SettlesTimed(st, m) <==> !Doomed(st, m)
  {
    hide Doomed, Stranded, Runs;
    if Doomed(st, m) {
      var run, last := DoomedIsStranded(st, m);
    } else {
      forall run, last | Runs(st, run, last) && Settling(run) ensures !Stranded(last, m) {
        SettlingDoomsNothing(st, run, last, m);
        if Stranded(last, m) { StrandedIsDoomed(last, m); }
      }
    }
  }

  /** So an event puts the timeout of a mission at risk if and only if it pushes the mission while a
      thread is between its pop and the removal of its timers, and no thread is about to end it. */
  lemma EventKeepsTimeoutIff(st: System, ev: Event, m: Mission)
    requires Enabled(st, ev) && SettlesTimed(st, m)
    ensures SettlesTimed(Apply(st, ev), m) <==> !Endangers(st, ev, m)
  {
    hide Doomed, SettlesTimed, Enabled, Apply, Endangers;
    SettlesTimedIffNotDoomed(st, m);
    StepDoomsIff(st, ev, m);
    SettlesTimedIffNotDoomed(Apply(st, ev), m);
  }

  // ---------------------------------------------------------------- over all runs

  /** A run in which the mission is never pushed while a thread is about to remove its timers. */
  ghost predicate RunsApart(st: System, run: seq<Event>, last: System, m: Mission)
    decreases |run|
  {
    if run == [] then last == st
    else && Enabled(st, run[0]) && !(Pushes(st, run[0], m) && BeingDisarmed(st.threads, m))
         && RunsApart(Apply(st, run[0]), run[1..], last, m)
  }

  lemma {:induction false} ApartIsNotDoomed(st: System, run: seq<Event>, last: System, m: Mission)
    requires m > 0 && !Doomed(st, m) && RunsApart(st, run, last, m)
    ensures !Doomed(last, m)
    decreases |run|
  {
    hide Doomed, Enabled, Apply, BeingDisarmed, Ending;
    if run != [] {
      StepDoomsIff(st, run[0], m);
      ApartIsNotDoomed(Apply(st, run[0]), run[1..], last, m);
    }
  }

  /** Whenever the mission is pending in such a run, it has a timeout. */
  ghost predicate TimeoutGuaranteed(m: Mission) {
    forall run, last :: RunsApart(INITIAL, run, last, m) && m in last.pending ==> HasTimeout(last, m)
  }

  /** In those runs the guarantee holds exactly for positive ids: the timer of any other mission goes
      off unheard. */
  lemma TimeoutGuaranteedIffPositive(m: Mission)
    ensures TimeoutGuaranteed(m) <==> m > 0
  {
    if m > 0 {
      forall run, last | RunsApart(INITIAL, run, last, m) && m in last.pending ensures HasTimeout(last, m) {
        ApartIsNotDoomed(INITIAL, run, last, m);
      }
    } else {
      var run, last := UnheardTimer(m);
    }
  }

  lemma UnheardTimer(m: Mission) returns (run: seq<Event>, last: System)
    requires m <= 0
    ensures RunsApart(INITIAL, run, last, m) && m in last.pending && !HasTimeout(last, m)
  {
    var s1 := System({m}, multiset{}, map[0 := Thread(m, Arming)]);
    var s2 := System({m}, multiset{m}, map[]);
    last := System({m}, multiset{}, map[]);
    assert Apply(INITIAL, Continue(0, m)) == s1 && Apply(s1, Step(0, true)) == s2 && Apply(s2, Fire(0, m)) == last;
    run := [Continue(0, m), Step(0, true), Fire(0, m)];
    assert RunsApart(last, [], last, m);
    assert run[2..] == [Fire(0, m)] && [Fire(0, m)][1..] == [];
    assert RunsApart(s2, run[2..], last, m);
    assert run[1..][1..] == run[2..] && RunsApart(s1, run[1..], last, m);
  }

  // ---------------------------------------------------------------- a timeout that gets lost

  /** A mission is answered; before the timers are removed it is continued again, and the removal takes
      the new timer: it stays pending without a timeout, and no thread is left. */
  lemma LostTimeout(m: Mission) returns (run: seq<Event>, last: System)
    ensures Runs(INITIAL, run, last) && last == System({m}, multiset{}, map[]) && Stranded(last, m)
  {
    var answered := System({}, multiset{m}, map[1 := Thread(m, Disarming)]);
    var again := System({m}, multiset{m, m}, map[1 := Thread(m, Disarming)]);
    var first := Answers(m);
    var second := ContinuesAgain(m);
    last := System({m}, multiset{}, map[]);
    assert Apply(again, Step(1, true)) == last;
    assert Runs(last, [], last);
    RunsFirst(again, Step(1, true), [], last);
    JoinRuns(answered, second, again, [Step(1, true)] + [], last);
    JoinRuns(INITIAL, first, answered, second + ([Step(1, true)] + []), last);
    run := first + (second + ([Step(1, true)] + []));
  }

  lemma {:induction false} JoinRuns(st: System, first: seq<Event>, mid: System, second: seq<Event>, last: System)
    requires Runs(st, first, mid) && Runs(mid, second, last)
    ensures Runs(st, first + second, last)
    decreases |first|
  {
    hide Enabled, Apply;
    if first == [] {
      assert first + second == second;
    } else {
      JoinRuns(Apply(st, first[0]), first[1..], mid, second, last);
      assert (first + second)[1..] == first[1..] + second;
    }
  }

  /** Continued once and answered up to the pop. */
  lemma Answers(m: Mission) returns (run: seq<Event>)
    ensures Runs(INITIAL, run, System({}, multiset{m}, map[1 := Thread(m, Disarming)]))
  {
    var s1 := System({m}, multiset{}, map[0 := Thread(m, Arming)]);
    var s2 := System({m}, multiset{m}, map[]);
    var s3 := System({m}, multiset{m}, map[1 := Thread(m, Notifying)]);
    var s4 := System({m}, multiset{m}, map[1 := Thread(m, Confirmed)]);
    var last := System({}, multiset{m}, map[1 := Thread(m, Disarming)]);
    assert Apply(INITIAL, Continue(0, m)) == s1 && Apply(s1, Step(0, true)) == s2 && Apply(s2, Notify(1, m)) == s3;
    assert Apply(s3, Step(1, true)) == s4 && Apply(s4, Step(1, true)) == last;
    assert Runs(last, [], last);
    hide Apply, Runs;
    RunsFirst(s4, Step(1, true), [], last);
    run := [Step(1, true)] + [];
    RunsFirst(s3, Step(1, true), run, last);
    run := [Step(1, true)] + run;
    RunsFirst(s2, Notify(1, m), run, last);
    run := [Notify(1, m)] + run;
    RunsFirst(s1, Step(0, true), run, last);
    run := [Step(0, true)] + run;
    RunsFirst(INITIAL, Continue(0, m), run, last);
    run := [Continue(0, m)] + run;
  }

  /** Pushed and armed a second time. */
  lemma ContinuesAgain(m: Mission) returns (run: seq<Event>)
    ensures Runs(System({}, multiset{m}, map[1 := Thread(m, Disarming)]), run,
                 System({m}, multiset{m, m}, map[1 := Thread(m, Disarming)]))
  {
    var s0 := System({}, multiset{m}, map[1 := Thread(m, Disarming)]);
    var s1 := System({m}, multiset{m}, map[1 := Thread(m, Disarming), 2 := Thread(m, Arming)]);
    var last := System({m}, multiset{m, m}, map[1 := Thread(m, Disarming)]);
    assert Apply(s0, Continue(2, m)) == s1 && Apply(s1, Step(2, true)) == last;
    assert Runs(last, [], last);
    hide Apply, Runs;
    RunsFirst(s1, Step(2, true), [], last);
    run := [Step(2, true)] + [];
    RunsFirst(s0, Continue(2, m), run, last);
    run := [Continue(2, m)] + run;
  }

  // ---------------------------------------------------------------- entry points on their own

  lemma TwoInARow(s0: System, first: Event, s1: System, ok: bool, last: System)
    requires Enabled(s0, first) && Apply(s0, first) == s1 && Enabled(s1, Step(first.k, ok))
    requires Apply(s1, Step(first.k, ok)) == last
    ensures Runs(s0, [first] + ([Step(first.k, ok)] + []), last)
  {
    assert Runs(last, [], last);
    hide Enabled, Apply;
    RunsFirst(s1, Step(first.k, ok), [], last);
    RunsFirst(s0, first, [Step(first.k, ok)] + [], last);
  }

  /** Continuing a mission that is not pending makes it pending with one more timer. */
  lemma ContinueInARow(st: System, k: nat, m: Mission)
    requires k !in st.threads && m !in st.pending
    ensures Runs(st, [Continue(k, m)] + ([Step(k, true)] + []),
                 st.(pending := st.pending + {m}, armed := st.armed + multiset{m}))
  {
    var s1 := Apply(st, Continue(k, m));
    assert Apply(s1, Step(k, true)) == st.(pending := st.pending + {m}, armed := st.armed + multiset{m});
    TwoInARow(st, Continue(k, m), s1, true, st.(pending := st.pending + {m}, armed := st.armed + multiset{m}));
  }

  /** A result ends the mission and leaves it no timer. */
  lemma NotifyInARow(st: System, k: nat, m: Mission) returns (run: seq<Event>)
    requires k !in st.threads
    ensures Runs(st, run, st.(pending := st.pending - {m}, armed := st.armed[m := 0]))
  {
    run := FromNotified(st, k, m);
    hide Runs, Apply;
    RunsFirst(st, Notify(k, m), run, st.(pending := st.pending - {m}, armed := st.armed[m := 0]));
    run := [Notify(k, m)] + run;
  }

  /** A free install whose check fails ends the mission and leaves it no timer; otherwise it is pending
      with one more timer. */
  lemma InstallInARow(st: System, k: nat, m: Mission, can: bool) returns (run: seq<Event>)
    requires k !in st.threads
    ensures Runs(st, run, if can then st.(pending := st.pending + {m}, armed := st.armed + multiset{m})
                          else st.(pending := st.pending - {m}, armed := st.armed[m := 0]))
  {
    var last := if can then st.(pending := st.pending + {m}, armed := st.armed + multiset{m})
                else st.(pending := st.pending - {m}, armed := st.armed[m := 0]);
    var s1 := Apply(st, Install(k, m, true));
    var s2 := Apply(s1, Step(k, true));
    var s3 := Apply(s2, Step(k, can));
    assert s2.threads == st.threads[k := Thread(m, Installing)];
    assert Runs(last, [], last);
    run := [];
    if !can {
      assert s3.threads == st.threads[k := Thread(m, Dropping)];
      assert Apply(s3, Step(k, true)) == last;
      RunsFirst(s3, Step(k, true), [], last);
      run := [Step(k, true)] + [];
    } else {
      assert s3 == last;
    }
    hide Runs, Apply;
    RunsFirst(s2, Step(k, can), run, last);
    run := [Step(k, can)] + run;
    RunsFirst(s1, Step(k, true), run, last);
    run := [Step(k, true)] + run;
    RunsFirst(st, Install(k, m, true), run, last);
    run := [Install(k, m, true)] + run;
  }

  /** A positive install check gives the mission exactly one timer. */
  lemma InstallCheckedInARow(st: System, k: nat, m: Mission) returns (run: seq<Event>)
    requires k !in st.threads
    ensures Runs(st, run, st.(armed := st.armed[m := 1]))
  {
    var last := st.(armed := st.armed[m := 1]);
    var s1 := Apply(st, InstallChecked(k, m));
    var s2 := Apply(s1, Step(k, true));
    assert s2.threads == st.threads[k := Thread(m, Arming)];
    assert Apply(s2, Step(k, true)) == last;
    assert Runs(last, [], last);
    hide Runs, Apply;
    RunsFirst(s2, Step(k, true), [], last);
    run := [Step(k, true)] + [];
    RunsFirst(s1, Step(k, true), run, last);
    run := [Step(k, true)] + run;
    RunsFirst(st, InstallChecked(k, m), run, last);
    run := [InstallChecked(k, m)] + run;
  }

  /** Starting a continuation that is not pending sets one more timer; a pending one has its timer. */
  lemma StartInARow(st: System, k: nat, m: Mission) returns (run: seq<Event>)
    requires k !in st.threads
    ensures Runs(st, run, if m in st.pending then st else st.(armed := st.armed + multiset{m}))
  {
    var last := if m in st.pending then st else st.(armed := st.armed + multiset{m});
    var s1 := Apply(st, StartContinuation(k, m));
    assert Runs(last, [], last);
    run := [];
    if m !in st.pending {
      assert Apply(s1, Step(k, true)) == last;
      RunsFirst(s1, Step(k, true), [], last);
      run := [Step(k, true)] + [];
    }
    hide Runs, Apply;
    RunsFirst(st, StartContinuation(k, m), run, last);
    run := [StartContinuation(k, m)] + run;
  }

  /** A timer that goes off ends its mission, if its id is positive, and is ignored otherwise. */
  lemma FireInARow(st: System, k: nat, m: Mission) returns (run: seq<Event>)
    requires k !in st.threads && m in st.armed
    ensures Runs(st, run, if m > 0 then st.(pending := st.pending - {m}, armed := st.armed[m := 0])
                          else st.(armed := st.armed - multiset{m}))
  {
    var s1 := Apply(st, Fire(k, m));
    if m > 0 {
      var taken := st.(armed := st.armed - multiset{m});
      var last := st.(pending := st.pending - {m}, armed := st.armed[m := 0]);
      assert taken.armed[m := 0] == st.armed[m := 0];
      assert s1 == Apply(taken, Notify(k, m));
      run := FromNotified(taken, k, m);
      RunsFirst(st, Fire(k, m), run, last);
      run := [Fire(k, m)] + run;
    } else {
      assert Runs(s1, [], s1);
      RunsFirst(st, Fire(k, m), [], s1);
      run := [Fire(k, m)] + [];
    }
  }

  /** The rest of a notification. */
  lemma FromNotified(st: System, k: nat, m: Mission) returns (run: seq<Event>)
    requires k !in st.threads
    ensures Runs(Apply(st, Notify(k, m)), run, st.(pending := st.pending - {m}, armed := st.armed[m := 0]))
  {
    var last := st.(pending := st.pending - {m}, armed := st.armed[m := 0]);
    var s1 := Apply(st, Notify(k, m));
    var s2 := Apply(s1, Step(k, true));
    var s3 := if m in st.pending then Apply(s2, Step(k, true)) else s2;
    assert s3.threads == st.threads[k := Thread(m, Disarming)];
    assert Apply(s3, Step(k, true)) == last;
    assert Runs(last, [], last);
    hide Runs, Apply;
    RunsFirst(s3, Step(k, true), [], last);
    run := [Step(k, true)] + [];
    if m in st.pending {
      RunsFirst(s2, Step(k, true), run, last);
      run := [Step(k, true)] + run;
    }
    RunsFirst(s1, Step(k, true), run, last);
    run := [Step(k, true)] + run;
  }
}

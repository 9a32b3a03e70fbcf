/** Registering and unregistering observers, one step per lock section.  Registering finds or makes
    the bundle's slot under one lock and stores its entry under another; unregistering takes the two
    locks in the other order.  This module says exactly which sections must not overlap for every
    entry to keep the observer of its bundle's slot. */
module ObserverSections {
  import opened ObserverSharing

  /** A call between its sections. */
  datatype Thread =
    | Joining(w: Wrapper, b: Bundle, token: int, observer: Observer)   // has the slot; will store its entry
    | Dropping(b: Bundle, observer: Observer)                          // took the last entry; will drop the slot
    | Leaving(observer: Observer)                                      // will have the observer deregistered

  datatype System = System(state: State, threads: map<nat, Thread>)

  datatype Event =
    | Begin(k: nat, w: Wrapper, b: Bundle, token: int, accepted: bool)
    | Remove(k: nat, w: Wrapper)
    | Step(k: nat, ok: bool)

  const INITIAL := System(EMPTY, map[])

  // ---------------------------------------------------------------- steps

  predicate Enabled(st: System, ev: Event) {
    match ev
    case Begin(k, w, b, token, accepted) => k !in st.threads
    case Remove(k, w) => k !in st.threads && w in st.state.entries
    case Step(k, ok) => k in st.threads
  }

  /** The first section of a registration: a refused new slot ends it. */
  function DoBegin(st: System, k: nat, w: Wrapper, b: Bundle, token: int, accepted: bool): System {
    var made := SlotMade(st.state, b, accepted);
    if b !in st.state.slots && !accepted then st.(state := made)
    else System(made, st.threads[k := Joining(w, b, token, made.slots[b])])
  }

  /** The first section of an unregistration: unless the bundle has other entries, its slot goes next. */
  function DoRemove(st: System, k: nat, w: Wrapper): System
    requires w in st.state.entries
  {
    var e := st.state.entries[w];
    System(st.state.(entries := st.state.entries - {w}),
           if Shared(st.state, e.bundle, w) then st.threads else st.threads[k := Dropping(e.bundle, e.observer)])
  }

  function DoStep(st: System, k: nat, ok: bool): System
    requires k in st.threads
  {
    match st.threads[k]
    case Joining(w, b, token, o) =>
      System(st.state.(entries := st.state.entries[w := Entry(o, b, token)]), st.threads - {k})
    case Dropping(b, o) => System(st.state.(slots := st.state.slots - {b}), st.threads[k := Leaving(o)])
    case Leaving(o) =>
      System(if ok then st.state.(registered := st.state.registered - {o}) else st.state, st.threads - {k})
  }

  function Apply(st: System, ev: Event): System
    requires Enabled(st, ev)
  {
    match ev
    case Begin(k, w, b, token, accepted) => DoBegin(st, k, w, b, token, accepted)
    case Remove(k, w) => DoRemove(st, k, w)
    case Step(k, ok) => DoStep(st, k, ok)
  }

  ghost predicate Runs(st: System, run: seq<Event>, last: System)
    decreases |run|
  {
    if run == [] then last == st
    else Enabled(st, run[0]) && Runs(Apply(st, run[0]), run[1..], last)
  }

  // ---------------------------------------------------------------- undisturbed states

  predicate IsJoining(threads: map<nat, Thread>, k: nat, b: Bundle) {
    k in threads && threads[k].Joining? && threads[k].b == b
  }

  predicate IsDropping(threads: map<nat, Thread>, k: nat, b: Bundle) {
    k in threads && threads[k].Dropping? && threads[k].b == b
  }

  predicate Carries(st: State, b: Bundle, o: Observer) {
    b in st.slots && st.slots[b] == o
  }

  /** A call that has a slot carries its observer; a slot that will be dropped has no entry, and an
      observer that will be deregistered has no slot. */
  ghost predicate ThreadOk(st: State, t: Thread) {
    match t
    case Joining(w, b, token, o) => Carries(st, b, o)
    case Dropping(b, o) => Carries(st, b, o) && forall w :: w in st.entries ==> st.entries[w].bundle != b
    case Leaving(o) => o < st.created && forall b :: b in st.slots ==> st.slots[b] != o
  }

  /** A slot that will be dropped is used by no other call. */
  predicate Compatible(s: Thread, t: Thread) {
    s.Dropping? && !t.Leaving? ==> s.b != t.b
  }

  ghost predicate ThreadsOk(st: System) {
    && (forall k :: k in st.threads ==> ThreadOk(st.state, st.threads[k]))
    && (forall j, k :: j in st.threads && k in st.threads && j != k ==> Compatible(st.threads[j], st.threads[k]))
  }

  ghost predicate Good(st: System) {
    Inv(st.state) && ThreadsOk(st)
  }

  /** The sections of a registration and of an unregistration of one bundle get between each other. */
  ghost predicate Clashes(st: System, ev: Event)
    requires Enabled(st, ev)
  {
    match ev
    case Begin(k, w, b, token, accepted) => exists j :: IsDropping(st.threads, j, b)
    case Remove(k, w) =>
      var b := st.state.entries[w].bundle;
      !Shared(st.state, b, w) && exists j :: IsJoining(st.threads, j, b)
    case Step(k, ok) => false
  }

  /** A new or changed thread k fits in if the others stay as they are. */
  lemma OneThreadChanges(st: System, after: System, k: nat)
    requires ThreadsOk(st)
    requires forall j :: j in after.threads && j != k ==> j in st.threads && after.threads[j] == st.threads[j]
    requires forall j :: j in st.threads && j != k ==> ThreadOk(after.state, st.threads[j])
    requires k in after.threads ==>
               && ThreadOk(after.state, after.threads[k])
               && forall j :: j in st.threads && j != k ==>
                    Compatible(st.threads[j], after.threads[k]) && Compatible(after.threads[k], st.threads[j])
    ensures ThreadsOk(after)
  {
    hide ThreadOk, Compatible;
  }

  /** Making a slot changes nothing for the calls under way. */
  lemma SlotMadeThreadOk(st: State, b: Bundle, accepted: bool, t: Thread)
    requires Inv(st) && ThreadOk(st, t)
    ensures ThreadOk(SlotMade(st, b, accepted), t)
  {
  }

  lemma BeginKeepsGood(st: System, k: nat, w: Wrapper, b: Bundle, token: int, accepted: bool)
    requires Good(st) && k !in st.threads && !exists j :: IsDropping(st.threads, j, b)
    ensures Good(DoBegin(st, k, w, b, token, accepted))
  {
    SlotMadeKeepsInv(st.state, b, accepted);
    forall j | j in st.threads
      ensures ThreadOk(SlotMade(st.state, b, accepted), st.threads[j])
      ensures !IsDropping(st.threads, j, b)
    {
      SlotMadeThreadOk(st.state, b, accepted, st.threads[j]);
    }
    hide Inv, SlotMade;
    OneThreadChanges(st, DoBegin(st, k, w, b, token, accepted), k);
  }

  lemma RemoveKeepsGood(st: System, k: nat, w: Wrapper)
    requires Good(st) && Enabled(st, Remove(k, w)) && !Clashes(st, Remove(k, w))
    ensures Good(DoRemove(st, k, w))
  {
    var e, after := st.state.entries[w], DoRemove(st, k, w);
    assert Inv(after.state) && Carries(st.state, e.bundle, e.observer);
    hide Inv;
    forall j | j in st.threads
      ensures ThreadOk(after.state, st.threads[j]) && !IsDropping(st.threads, j, e.bundle)
    {
      assert ThreadOk(st.state, st.threads[j]);
    }
    assert !Shared(st.state, e.bundle, w) ==>
      forall v :: v in after.state.entries ==> after.state.entries[v].bundle != e.bundle;
    hide Shared;
    assert k in after.threads ==> forall j :: j in st.threads ==> !IsJoining(st.threads, j, e.bundle);
    OneThreadChanges(st, after, k);
  }

  lemma JoinKeepsGood(st: System, k: nat, ok: bool)
    requires Good(st) && k in st.threads && st.threads[k].Joining?
    ensures Good(DoStep(st, k, ok))
  {
    var t, after := st.threads[k], DoStep(st, k, ok);
    assert ThreadOk(st.state, t);
    assert Inv(after.state);
    hide Inv;
    forall j | j in st.threads && j != k ensures ThreadOk(after.state, st.threads[j]) {
      assert ThreadOk(st.state, st.threads[j]) && Compatible(st.threads[j], t);
    }
    OneThreadChanges(st, after, k);
  }

  lemma DropKeepsGood(st: System, k: nat, ok: bool)
    requires Good(st) && k in st.threads && st.threads[k].Dropping?
    ensures Good(DoStep(st, k, ok))
  {
    var t, after := st.threads[k], DoStep(st, k, ok);
    assert ThreadOk(st.state, t);
    assert Inv(after.state) && t.observer < st.state.created;
    assert ThreadOk(after.state, Leaving(t.observer));
    hide Inv;
    forall j | j in st.threads && j != k ensures ThreadOk(after.state, st.threads[j]) {
      assert ThreadOk(st.state, st.threads[j]) && Compatible(t, st.threads[j]);
    }
    OneThreadChanges(st, after, k);
  }

  lemma LeaveKeepsGood(st: System, k: nat, ok: bool)
    requires Good(st) && k in st.threads && st.threads[k].Leaving?
    ensures Good(DoStep(st, k, ok))
  {
    var t, after := st.threads[k], DoStep(st, k, ok);
    assert ThreadOk(st.state, t);
    assert Inv(after.state);
    hide Inv;
    forall j | j in st.threads && j != k ensures ThreadOk(after.state, st.threads[j]) {
      assert ThreadOk(st.state, st.threads[j]);
    }
    OneThreadChanges(st, after, k);
  }

  /** From an undisturbed state a section leads to a disturbed one exactly if it clashes. */
  lemma StepGoodIff(st: System, ev: Event)
    requires Good(st) && Enabled(st, ev)
    ensures Good(Apply(st, ev)) <==> !Clashes(st, ev)
  {
    hide Inv;
    match ev {
      case Begin(k, w, b, token, accepted) =>
        if j :| IsDropping(st.threads, j, b) {
          BeginClashes(st, ev, j);
        } else {
          BeginKeepsGood(st, k, w, b, token, accepted);
        }
      case Remove(k, w) =>
        if Clashes(st, ev) {
          var j := RemoveClashes(st, ev);
        } else {
          RemoveKeepsGood(st, k, w);
        }
      case Step(k, ok) =>
        if st.threads[k].Joining? { JoinKeepsGood(st, k, ok); }
        else if st.threads[k].Dropping? { DropKeepsGood(st, k, ok); }
        else { LeaveKeepsGood(st, k, ok); }
    }
  }

  /** A registration and an unregistration of one bundle are both between their sections. */
  predicate Crossing(threads: map<nat, Thread>, j: nat, k: nat, b: Bundle) {
    IsDropping(threads, j, b) && IsJoining(threads, k, b)
  }

  lemma BeginClashes(st: System, ev: Event, j: nat)
    requires Good(st) && Enabled(st, ev) && ev.Begin? && IsDropping(st.threads, j, ev.b)
    ensures Crossing(Apply(st, ev).threads, j, ev.k, ev.b) && !Good(Apply(st, ev))
  {
    var after := Apply(st, ev);
    assert ThreadOk(st.state, st.threads[j]);
    hide Inv, ThreadOk;
    assert !Compatible(after.threads[j], after.threads[ev.k]);
  }

  lemma RemoveClashes(st: System, ev: Event) returns (k: nat)
    requires Good(st) && Enabled(st, ev) && ev.Remove? && Clashes(st, ev)
    ensures Crossing(Apply(st, ev).threads, ev.k, k, st.state.entries[ev.w].bundle) && !Good(Apply(st, ev))
  {
    var after, b := Apply(st, ev), st.state.entries[ev.w].bundle;
    k :| IsJoining(st.threads, k, b);
    hide Inv, ThreadOk;
    assert IsDropping(after.threads, ev.k, b) && IsJoining(after.threads, k, b);
    assert !Compatible(after.threads[ev.k], after.threads[k]);
  }

  // ---------------------------------------------------------------- what a clash comes to

  /** Calls under way go on; no new call begins. */
  predicate Settling(run: seq<Event>) {
    forall i :: 0 <= i < |run| ==> run[i].Step?
  }

  /** Every entry carries the observer of its bundle's slot, which is observed exactly if it was
      accepted. */
  ghost predicate Backed(st: State) {
    forall w :: w in st.entries ==>
      && Carries(st, st.entries[w].bundle, st.entries[w].observer)
      && (st.entries[w].observer in st.registered <==> st.entries[w].observer in st.accepted)
  }

  /** However the calls under way finish, every entry is backed at the end. */
  ghost predicate SettlesBacked(st: System) {
    forall run, last :: Runs(st, run, last) && Settling(run) && last.threads == map[] ==> Backed(last.state)
  }

  lemma GoodIsBacked(st: System)
    requires Good(st)
    ensures Backed(st.state)
  {
  }

  lemma {:induction false} SettlingKeepsGood(st: System, run: seq<Event>, last: System)
    requires Good(st) && Runs(st, run, last) && Settling(run)
    ensures Good(last)
    decreases |run|
  {
    hide Good, Enabled, Apply;
    if run != [] {
      StepGoodIff(st, run[0]);
      SettlingKeepsGood(Apply(st, run[0]), run[1..], last);
    }
  }

  lemma RunsFirst(st: System, ev: Event, run: seq<Event>, last: System)
    requires Enabled(st, ev) && Runs(Apply(st, ev), run, last)
    ensures Runs(st, [ev] + run, last)
  {
    hide Enabled, Apply;
    assert ([ev] + run)[1..] == run;
  }

  lemma {:induction false} JoinRuns(st: System, first: seq<Event>, mid: System, second: seq<Event>, last: System)
    requires Runs(st, first, mid) && Runs(mid, second, last)
    ensures Runs(st, first + second, last)
    decreases |first|
  {
    hide Enabled, Apply;
    if first == [] {
      assert first + second == second;
    } else {
      JoinRuns(Apply(st, first[0]), first[1..], mid, second, last);
      assert (first + second)[1..] == first[1..] + second;
    }
  }

  /** A call finishes. */
  lemma Finish(st: System, k: nat) returns (run: seq<Event>, last: System)
    requires k in st.threads
    ensures Runs(st, run, last) && Settling(run) && last.threads == st.threads - {k}
    ensures !st.threads[k].Dropping? ==> last.state.slots == st.state.slots
    ensures st.threads[k].Dropping? ==>
              last.state.slots == st.state.slots - {st.threads[k].b} && st.threads[k].observer !in last.state.registered
    ensures st.threads[k].Joining? ==>
              && last.state.registered == st.state.registered && st.threads[k].w in last.state.entries
              && last.state.entries[st.threads[k].w].bundle == st.threads[k].b
              && last.state.entries[st.threads[k].w].observer == st.threads[k].observer
  {
    var next := DoStep(st, k, true);
    if st.threads[k].Dropping? {
      last := DoStep(next, k, true);
      assert Runs(last, [], last);
      RunsFirst(next, Step(k, true), [], last);
      RunsFirst(st, Step(k, true), [Step(k, true)] + [], last);
      run := [Step(k, true)] + ([Step(k, true)] + []);
      assert last.threads == st.threads - {k};
    } else {
      last := next;
      assert Runs(last, [], last);
      RunsFirst(st, Step(k, true), [], last);
      run := [Step(k, true)] + [];
    }
  }

  /** All calls but two finish. */
  lemma {:induction false} FinishOthers(st: System, j: nat, k: nat) returns (run: seq<Event>, last: System)
    requires j in st.threads && k in st.threads && j != k
    ensures Runs(st, run, last) && Settling(run)
    ensures last.threads == map[j := st.threads[j], k := st.threads[k]]
    decreases |st.threads.Keys|
  {
    if st.threads.Keys == {j, k} {
      run, last := [], st;
    } else {
      var i :| i in st.threads && i != j && i != k;
      var first, mid := Finish(st, i);
      assert mid.threads.Keys == st.threads.Keys - {i};
      hide Runs;
      run, last := FinishOthers(mid, j, k);
      JoinRuns(st, first, mid, run, last);
      run := first + run;
    }
  }

  /** Where a registration crosses an unregistration, an entry can be left whose slot is gone and whose
      observer is deregistered. */
  lemma CrossingStrands(st: System, j: nat, k: nat, b: Bundle) returns (run: seq<Event>, last: System)
    requires Crossing(st.threads, j, k, b)
    ensures Runs(st, run, last) && Settling(run) && last.threads == map[] && !Backed(last.state)
    ensures var w := st.threads[k].w;
            && w in last.state.entries && last.state.entries[w].bundle == b && b !in last.state.slots
            && st.threads[j].observer !in last.state.registered
  {
    hide Runs;
    var first, s1 := FinishOthers(st, j, k);
    var second, s2 := Finish(s1, j);
    assert s2.threads == map[k := st.threads[k]];
    var third, s3 := Finish(s2, k);
    JoinRuns(s1, second, s2, third, s3);
    JoinRuns(st, first, s1, second + third, s3);
    run, last := first + (second + third), s3;
    var w := st.threads[k].w;
    assert !Carries(last.state, last.state.entries[w].bundle, last.state.entries[w].observer);
  }

  /** In an undisturbed state a section endangers an entry if and only if it clashes: a registration
      that finds the slot while an unregistration is about to drop it, or an unregistration that takes
      the last entry while a registration has the slot and has not stored its entry. */
  lemma EventHarmlessIff(st: System, ev: Event)
    requires Good(st) && Enabled(st, ev)
    ensures SettlesBacked(Apply(st, ev)) <==> !Clashes(st, ev)
  {
    var after := Apply(st, ev);
    hide Good, Runs, Apply, Enabled, Backed;
    if Clashes(st, ev) {
      var j, k, b := FindCrossing(st, ev);
      var run, last := CrossingStrands(after, j, k, b);
    } else {
      StepGoodIff(st, ev);
      forall run, last | Runs(after, run, last) && Settling(run) && last.threads == map[] ensures Backed(last.state) {
        SettlingKeepsGood(after, run, last);
        GoodIsBacked(last);
      }
    }
  }

  lemma FindCrossing(st: System, ev: Event) returns (j: nat, k: nat, b: Bundle)
    requires Good(st) && Enabled(st, ev) && Clashes(st, ev)
    ensures Crossing(Apply(st, ev).threads, j, k, b)
  {
    hide Good, Apply;
    if ev.Begin? {
      j :| IsDropping(st.threads, j, ev.b);
      k, b := ev.k, ev.b;
      BeginClashes(st, ev, j);
    } else {
      j, b := ev.k, st.state.entries[ev.w].bundle;
      k := RemoveClashes(st, ev);
    }
  }

  // ---------------------------------------------------------------- over all runs

  ghost predicate RunsApart(st: System, run: seq<Event>, last: System)
    decreases |run|
  {
    if run == [] then last == st
    else Enabled(st, run[0]) && !Clashes(st, run[0]) && RunsApart(Apply(st, run[0]), run[1..], last)
  }

  lemma {:induction false} ApartIsGood(st: System, run: seq<Event>, last: System)
    requires Good(st) && RunsApart(st, run, last)
    ensures Good(last)
    decreases |run|
  {
    hide Good, Enabled, Apply, Clashes;
    if run != [] {
      StepGoodIff(st, run[0]);
      ApartIsGood(Apply(st, run[0]), run[1..], last);
    }
  }

  /** In every state of every run without clashing sections the entries of a bundle share the observer
      of its slot, and they are observed exactly if it was accepted. */
  lemma EntriesShareObserver(run: seq<Event>, last: System, v: Wrapper, w: Wrapper)
    requires RunsApart(INITIAL, run, last) && v in last.state.entries && w in last.state.entries
    requires last.state.entries[v].bundle == last.state.entries[w].bundle
    ensures last.state.entries[v].observer == last.state.entries[w].observer
    ensures Carries(last.state, last.state.entries[v].bundle, last.state.entries[v].observer)
    ensures last.state.entries[v].observer in last.state.registered
            <==> last.state.entries[v].observer in last.state.accepted
  {
    ApartIsGood(INITIAL, run, last);
    GoodIsBacked(last);
  }

  // ---------------------------------------------------------------- serial calls and a clash

  /** The calls of module ObserverSharing are their sections in a row. */
  lemma SerialCallIsRun(st: State, op: Op) returns (run: seq<Event>)
    ensures Runs(System(st, map[]), run, System(ObserverSharing.Apply(st, op), map[]))
  {
    var s0, last := System(st, map[]), System(ObserverSharing.Apply(st, op), map[]);
    assert Runs(last, [], last);
    run := [];
    if op.Register? && op.token != DEFAULT_DMS_CONNECT_TOKEN && op.managerOk {
      var begin := Begin(0, op.w, op.b, op.token, op.accepted);
      if op.b in st.slots || op.accepted {
        assert Apply(Apply(s0, begin), Step(0, true)) == last;
        RunsFirst(Apply(s0, begin), Step(0, true), run, last);
        run := [Step(0, true)] + run;
      }
      RunsFirst(s0, begin, run, last);
      run := [begin] + run;
    } else if op.Unregister? && op.w in st.entries {
      var next := Apply(s0, Remove(0, op.w));
      if !Shared(st, st.entries[op.w].bundle, op.w) {
        var dropped := Apply(next, Step(0, true));
        assert Apply(dropped, Step(0, op.managerOk)) == last;
        RunsFirst(dropped, Step(0, op.managerOk), run, last);
        run := [Step(0, op.managerOk)] + run;
        RunsFirst(next, Step(0, true), run, last);
        run := [Step(0, true)] + run;
      }
      RunsFirst(s0, Remove(0, op.w), run, last);
      run := [Remove(0, op.w)] + run;
    }
  }

  /** The last entry of a bundle is being unregistered; a registration joins its slot before it is
      dropped.  The new entry keeps an accepted observer that is no longer registered, and the next
      registration gets the bundle a second one. */
  lemma LostObserver(b: Bundle, u: Wrapper, v: Wrapper, w: Wrapper) returns (run: seq<Event>, last: System)
    requires u != v
    ensures Runs(INITIAL, run, last) && last.threads == map[]
    ensures u in last.state.entries && v in last.state.entries
    ensures last.state.entries[u].bundle == b && last.state.entries[v].bundle == b
    ensures last.state.entries[u].observer != last.state.entries[v].observer
    ensures last.state.entries[v].observer in last.state.accepted
    ensures last.state.entries[v].observer !in last.state.registered
  {
    var s4, first := JoinsLate(b, v, w);
    var s5 := DoStep(s4, 1, true);
    var s6 := DoStep(s5, 1, true);
    var s7 := DoStep(s6, 2, true);
    var s8 := DoBegin(s7, 3, u, b, 3, true);
    last := DoStep(s8, 3, true);
    assert s5.state.slots == map[] && 1 in s5.threads && s5.threads[1] == Leaving(0);
    assert s6.threads == map[2 := Joining(v, b, 2, 0)] && s6.state.registered == {};
    assert s7.threads == map[] && s7.state.slots == map[];
    assert s8.threads == map[3 := Joining(u, b, 3, 1)];
    assert last.threads == map[];
    assert Runs(last, [], last);
    hide Runs, DoStep, DoBegin;
    RunsFirst(s8, Step(3, true), [], last);
    run := [Step(3, true)] + [];
    RunsFirst(s7, Begin(3, u, b, 3, true), run, last);
    run := [Begin(3, u, b, 3, true)] + run;
    RunsFirst(s6, Step(2, true), run, last);
    run := [Step(2, true)] + run;
    RunsFirst(s5, Step(1, true), run, last);
    run := [Step(1, true)] + run;
    RunsFirst(s4, Step(1, true), run, last);
    run := [Step(1, true)] + run;
    JoinRuns(INITIAL, first, s4, run, last);
    run := first + run;
  }

  lemma JoinsLate(b: Bundle, v: Wrapper, w: Wrapper) returns (last: System, run: seq<Event>)
    ensures Runs(INITIAL, run, last)
    ensures last.threads == map[1 := Dropping(b, 0), 2 := Joining(v, b, 2, 0)]
    ensures last.state == State(map[], map[b := 0], 1, {0}, {0})
  {
    var s1 := DoBegin(INITIAL, 0, w, b, 1, true);
    var s2 := DoStep(s1, 0, true);
    var s3 := DoRemove(s2, 1, w);
    last := DoBegin(s3, 2, v, b, 2, true);
    assert s1 == System(State(map[], map[b := 0], 1, {0}, {0}), map[0 := Joining(w, b, 1, 0)]);
    assert s2 == System(State(map[w := Entry(0, b, 1)], map[b := 0], 1, {0}, {0}), map[]);
    assert !Shared(s2.state, b, w);
    assert s3 == System(State(map[], map[b := 0], 1, {0}, {0}), map[1 := Dropping(b, 0)]);
    assert Runs(last, [], last);
    hide Runs, DoStep, DoBegin, DoRemove;
    RunsFirst(s3, Begin(2, v, b, 2, true), [], last);
    run := [Begin(2, v, b, 2, true)] + [];
    RunsFirst(s2, Remove(1, w), run, last);
    run := [Remove(1, w)] + run;
    RunsFirst(s1, Step(0, true), run, last);
    run := [Step(0, true)] + run;
    RunsFirst(INITIAL, Begin(0, w, b, 1, true), run, last);
    run := [Begin(0, w, b, 1, true)] + run;
  }
}

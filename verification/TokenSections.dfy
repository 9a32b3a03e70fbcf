/** The registry of continuation tokens, one step per lock section.  Check and commit of a
    registration are sections of their own, so the limit per caller can be overshot; a notifier is
    attached in a later section than the check of its token, so the token may be gone by then.  This
    module says by how much the limit is exceeded, and exactly which sections must not overlap. */
module TokenSections {
  import opened Common
  import opened IdAllocators
  import opened TokenRegistry

  /** Where the token counter stands. */
  type Position = p: nat | p <= MAX_TOKEN_NUM

  /** A call between its sections. */
  datatype Thread =
    | Checked(a: AccessToken)                                // below the limit; will take a token
    | Issued(a: AccessToken, t: Token)                       // will append it to the caller's list
    | Unhooking(t: Token)                                    // will forget the notifiers, then the token
    | Erasing(t: Token)                                      // will forget the token
    | Attaching(t: Token, cb: CbType, n: Notifier, sure: bool)   // sure: has seen that the type is free
    | Detaching(t: Token, cb: CbType, sure: bool)                // sure: has seen that it is attached

  datatype System = System(tokenMap: TokenMap, callbackMap: CallbackMap, counter: Position, threads: map<nat, Thread>)

  datatype Event =
    | BeginRegister(k: nat, a: AccessToken)
    | BeginUnregister(k: nat, a: AccessToken, t: Token)
    | BeginDeath(k: nat, n: Notifier, t: Token)
    | BeginAttach(k: nat, a: AccessToken, t: Token, cb: CbType, n: Notifier)
    | BeginDetach(k: nat, a: AccessToken, t: Token, cb: CbType)
    | Step(k: nat)

  function Initial(savedToken: Position): System {
    System(map[], map[], savedToken, map[])
  }

  // ---------------------------------------------------------------- steps

  predicate Holds(m: TokenMap, a: AccessToken, t: Token) {
    a in m && t in m[a]
  }

  /** The thread concerns the token. */
  predicate Concerns(th: Thread, t: Token) {
    !th.Checked? && th.t == t
  }

  ghost predicate InUse(st: System, t: Token) {
    Live(st.tokenMap, t) || exists k :: k in st.threads && Concerns(st.threads[k], t)
  }

  /** First sections run if they find what they look for. */
  predicate CanRun(st: System, ev: Event) {
    match ev
    case BeginRegister(k, a) => k !in st.threads && |ListOf(st.tokenMap, a)| < MAX_REGISTER_NUM
    case BeginUnregister(k, a, t) => k !in st.threads && Holds(st.tokenMap, a, t)
    case BeginDeath(k, n, t) => k !in st.threads && n in NotifiersOf(st.callbackMap, t).Values
    case BeginAttach(k, a, t, cb, n) => k !in st.threads && Holds(st.tokenMap, a, t) && cb != OtherEvent
    case BeginDetach(k, a, t, cb) => k !in st.threads && Holds(st.tokenMap, a, t) && cb != OtherEvent
    case Step(k) => k in st.threads
  }

  /** The token that is issued is not in use, which module TokenRegistry traces back to whole rounds of
      the counter. */
  ghost predicate Enabled(st: System, ev: Event) {
    && CanRun(st, ev)
    && (ev.Step? && st.threads[ev.k].Checked? ==> !InUse(st, Next(st.counter, MAX_TOKEN_NUM)))
  }

  function With(st: System, k: nat, th: Thread): System {
    st.(threads := st.threads[k := th])
  }

  function Done(st: System, k: nat): System {
    st.(threads := st.threads - {k})
  }

  /** The notifiers after one type is taken away; an empty entry goes. */
  function Without(m: CallbackMap, t: Token, cb: CbType): CallbackMap {
    if t !in m then m else if m[t] - {cb} == map[] then m - {t} else m[t := m[t] - {cb}]
  }

  function DoStep(st: System, k: nat): System
    requires k in st.threads
  {
    match st.threads[k]
    case Checked(a) =>
      var t := Next(st.counter, MAX_TOKEN_NUM);
      With(st, k, Issued(a, t)).(counter := t)
    case Issued(a, t) => Done(st.(tokenMap := st.tokenMap[a := ListOf(st.tokenMap, a) + [t]]), k)
    case Unhooking(t) => With(st.(callbackMap := st.callbackMap - {t}), k, Erasing(t))
    case Erasing(t) => Done(st.(tokenMap := Removed(st.tokenMap, t)), k)
    case Attaching(t, cb, n, sure) =>
      if sure then Done(st.(callbackMap := st.callbackMap[t := NotifiersOf(st.callbackMap, t)[cb := n]]), k)
      else if cb in NotifiersOf(st.callbackMap, t) then Done(st, k)
      else With(st, k, Attaching(t, cb, n, true))
    case Detaching(t, cb, sure) =>
      if sure then Done(st.(callbackMap := Without(st.callbackMap, t, cb)), k)
      else if cb !in NotifiersOf(st.callbackMap, t) then Done(st, k)
      else With(st, k, Detaching(t, cb, true))
  }

  function Apply(st: System, ev: Event): System
    requires CanRun(st, ev)
  {
    match ev
    case BeginRegister(k, a) => With(st, k, Checked(a))
    case BeginUnregister(k, a, t) => With(st, k, Unhooking(t))
    case BeginDeath(k, n, t) => With(st, k, Unhooking(t))
    case BeginAttach(k, a, t, cb, n) => With(st, k, Attaching(t, cb, n, false))
    case BeginDetach(k, a, t, cb) => With(st, k, Detaching(t, cb, false))
    case Step(k) => DoStep(st, k)
  }

  ghost predicate Runs(st: System, run: seq<Event>, last: System)
    decreases |run|
  {
    if run == [] then last == st
    else Enabled(st, run[0]) && Runs(Apply(st, run[0]), run[1..], last)
  }

  // ---------------------------------------------------------------- the limit per caller

  /** The registrations of a caller between check and commit. */
  function InFlight(threads: map<nat, Thread>, a: AccessToken): set<nat> {
    set k | k in threads && (threads[k].Checked? || threads[k].Issued?) && threads[k].a == a
  }

  ghost predicate WithinLimit(st: System, a: AccessToken, bound: nat) {
    |ListOf(st.tokenMap, a)| + |InFlight(st.threads, a)| <= MAX_REGISTER_NUM - 1 + bound
  }

  /** A run during which never more than `bound` registrations of the caller are in flight. */
  ghost predicate RunsWithin(st: System, run: seq<Event>, last: System, a: AccessToken, bound: nat)
    decreases |run|
  {
    && |InFlight(st.threads, a)| <= bound
    && if run == [] then last == st
       else CanRun(st, run[0]) && RunsWithin(Apply(st, run[0]), run[1..], last, a, bound)
  }

  lemma FlightStays(threads: map<nat, Thread>, after: map<nat, Thread>, k: nat, a: AccessToken)
    requires forall j :: j != k ==> (j in threads <==> j in after)
    requires forall j :: j in threads && j != k ==> after[j] == threads[j]
    ensures (k in InFlight(threads, a) <==> k in InFlight(after, a)) ==> InFlight(after, a) == InFlight(threads, a)
    ensures k !in InFlight(threads, a) && k in InFlight(after, a) ==> |InFlight(after, a)| == |InFlight(threads, a)| + 1
    ensures k in InFlight(threads, a) && k !in InFlight(after, a) ==> |InFlight(after, a)| == |InFlight(threads, a)| - 1
  {
    var before, now := InFlight(threads, a), InFlight(after, a);
    assert forall j :: j != k ==> (j in before <==> j in now);
    hide InFlight;
    if k in before && k !in now {
      assert now == before - {k};
    } else if k !in before && k in now {
      assert now == before + {k};
    } else {
      assert now == before;
    }
  }

  /** A step other than a new registration adds nothing to list and flight together. */
  lemma StepAddsNothing(st: System, ev: Event, a: AccessToken)
    requires CanRun(st, ev) && !(ev.BeginRegister? && ev.a == a)
    ensures |ListOf(Apply(st, ev).tokenMap, a)| + |InFlight(Apply(st, ev).threads, a)|
            <= |ListOf(st.tokenMap, a)| + |InFlight(st.threads, a)|
  {
    FlightStays(st.threads, Apply(st, ev).threads, ev.k, a);
  }

  lemma StepKeepsLimit(st: System, ev: Event, a: AccessToken, bound: nat)
    requires CanRun(st, ev) && WithinLimit(st, a, bound) && |InFlight(Apply(st, ev).threads, a)| <= bound
    ensures WithinLimit(Apply(st, ev), a, bound)
  {
    if !(ev.BeginRegister? && ev.a == a) {
      StepAddsNothing(st, ev, a);
      hide CanRun, Apply, InFlight;
    }
  }

  /** If at most `bound` registrations of a caller are ever between check and commit, its tokens and
      pending registrations together never exceed 599 + bound. */
  lemma {:induction false} LimitHolds(st: System, run: seq<Event>, last: System, a: AccessToken, bound: nat)
    requires WithinLimit(st, a, bound) && RunsWithin(st, run, last, a, bound)
    ensures WithinLimit(last, a, bound)
    decreases |run|
  {
    hide WithinLimit, CanRun, Apply, InFlight;
    if run != [] {
      StepKeepsLimit(st, run[0], a, bound);
      LimitHolds(Apply(st, run[0]), run[1..], last, a, bound);
    }
  }

  // ---------------------------------------------------------------- the limit is overshot exactly so far

  lemma RunsFirst(st: System, ev: Event, run: seq<Event>, last: System, a: AccessToken, bound: nat)
    requires |InFlight(st.threads, a)| <= bound && CanRun(st, ev)
    requires RunsWithin(Apply(st, ev), run, last, a, bound)
    ensures RunsWithin(st, [ev] + run, last, a, bound)
  {
    hide CanRun, Apply, InFlight;
    assert ([ev] + run)[1..] == run;
  }

  /** Registrations of one caller only, none of which has a token yet. */
  predicate AllChecked(st: System, a: AccessToken) {
    forall k :: k in st.threads ==> st.threads[k] == Checked(a)
  }

  lemma AllInFlight(st: System, a: AccessToken)
    requires AllChecked(st, a)
    ensures InFlight(st.threads, a) == st.threads.Keys
  {
  }

  /** One of the registrations takes its token and stores it. */
  lemma CommitOne(st: System, a: AccessToken, k: nat, bound: nat) returns (next: System)
    requires AllChecked(st, a) && k in st.threads && |st.threads.Keys| <= bound
    ensures AllChecked(next, a) && next.threads == st.threads - {k} && |next.threads.Keys| == |st.threads.Keys| - 1
    ensures |ListOf(next.tokenMap, a)| == |ListOf(st.tokenMap, a)| + 1
    ensures forall run, last :: RunsWithin(next, run, last, a, bound)
                                ==> RunsWithin(st, [Step(k)] + ([Step(k)] + run), last, a, bound)
  {
    var mid := DoStep(st, k);
    next := DoStep(mid, k);
    assert next.threads == st.threads - {k} && next.threads.Keys == st.threads.Keys - {k};
    AllInFlight(st, a);
    FlightStays(st.threads, mid.threads, k, a);
    forall run, last | RunsWithin(next, run, last, a, bound)
      ensures RunsWithin(st, [Step(k)] + ([Step(k)] + run), last, a, bound)
    {
      RunsFirst(mid, Step(k), run, last, a, bound);
      RunsFirst(st, Step(k), [Step(k)] + run, last, a, bound);
    }
  }

  /** All registrations under way are committed. */
  lemma {:induction false} CommitAll(st: System, a: AccessToken, bound: nat) returns (run: seq<Event>, last: System)
    requires AllChecked(st, a) && |st.threads.Keys| <= bound
    ensures RunsWithin(st, run, last, a, bound) && last.threads == map[]
    ensures |ListOf(last.tokenMap, a)| == |ListOf(st.tokenMap, a)| + |st.threads.Keys|
    decreases |st.threads.Keys|
  {
    if st.threads == map[] {
      run, last := [], st;
      AllInFlight(st, a);
    } else {
      assert (forall k :: k !in st.threads) ==> st.threads == map[];
      var k :| k in st.threads;
      assert k in st.threads.Keys;
      var next := CommitOne(st, a, k, bound);
      hide RunsWithin, AllChecked, ListOf;
      run, last := CommitAll(next, a, bound);
      run := [Step(k)] + ([Step(k)] + run);
    }
  }

  /** n more registrations pass the check before all of them are committed. */
  lemma {:induction false} CheckThenCommit(st: System, a: AccessToken, n: nat, bound: nat)
    returns (run: seq<Event>, last: System)
    requires AllChecked(st, a) && |st.threads.Keys| + n <= bound && |ListOf(st.tokenMap, a)| < MAX_REGISTER_NUM
    ensures RunsWithin(st, run, last, a, bound) && last.threads == map[]
    ensures |ListOf(last.tokenMap, a)| == |ListOf(st.tokenMap, a)| + |st.threads.Keys| + n
    decreases n
  {
    if n == 0 {
      run, last := CommitAll(st, a, bound);
    } else {
      var k := Fresh(st.threads.Keys);
      var next := With(st, k, Checked(a));
      assert next.threads.Keys == st.threads.Keys + {k};
      AllInFlight(st, a);
      hide RunsWithin;
      run, last := CheckThenCommit(next, a, n - 1, bound);
      RunsFirst(st, BeginRegister(k, a), run, last, a, bound);
      run := [BeginRegister(k, a)] + run;
    }
  }

  lemma {:induction false} JoinWithin(st: System, first: seq<Event>, mid: System, second: seq<Event>, last: System,
                                      a: AccessToken, bound: nat)
    requires RunsWithin(st, first, mid, a, bound) && RunsWithin(mid, second, last, a, bound)
    ensures RunsWithin(st, first + second, last, a, bound)
    decreases |first|
  {
    hide CanRun, Apply, InFlight;
    if first == [] {
      assert first + second == second;
    } else {
      JoinWithin(Apply(st, first[0]), first[1..], mid, second, last, a, bound);
      assert (first + second)[1..] == first[1..] + second;
    }
  }

  /** One registration after the other fills the list. */
  lemma {:induction false} Serially(savedToken: Position, a: AccessToken, n: nat, bound: nat)
    returns (run: seq<Event>, last: System)
    requires bound >= 1 && n <= MAX_REGISTER_NUM
    ensures RunsWithin(Initial(savedToken), run, last, a, bound) && last.threads == map[]
    ensures |ListOf(last.tokenMap, a)| == n
  {
    if n == 0 {
      run, last := [], Initial(savedToken);
      assert InFlight(last.threads, a) == {};
    } else {
      var mid, more;
      run, mid := Serially(savedToken, a, n - 1, bound);
      assert |mid.threads.Keys| == 0;
      hide RunsWithin;
      more, last := CheckThenCommit(mid, a, 1, bound);
      JoinWithin(Initial(savedToken), run, mid, more, last, a, bound);
      run := run + more;
    }
  }

  /** The bound is exact: a run with at most `bound` registrations in flight ends with 599 + bound tokens
      of one caller. */
  lemma LimitAttained(savedToken: Position, a: AccessToken, bound: nat) returns (run: seq<Event>, last: System)
    requires bound >= 1
    ensures RunsWithin(Initial(savedToken), run, last, a, bound)
    ensures |ListOf(last.tokenMap, a)| == MAX_REGISTER_NUM - 1 + bound
  {
    var mid, more;
    run, mid := Serially(savedToken, a, MAX_REGISTER_NUM - 1, bound);
    assert |mid.threads.Keys| == 0;
    hide RunsWithin;
    more, last := CheckThenCommit(mid, a, bound, bound);
    JoinWithin(Initial(savedToken), run, mid, more, last, a, bound);
    run := run + more;
  }

  // ---------------------------------------------------------------- what every state keeps

  /** Tokens that are issued but not stored yet are new and differ. */
  ghost predicate IssuedOk(st: System) {
    && (forall k :: k in st.threads && st.threads[k].Issued? ==> !Live(st.tokenMap, st.threads[k].t))
    && (forall j, k :: j in st.threads && k in st.threads && j != k && st.threads[j].Issued? && st.threads[k].Issued?
                       ==> st.threads[j].t != st.threads[k].t)
  }

  /** What the early-breaking loop needs. */
  ghost predicate Base(st: System) {
    Unique(st.tokenMap) && NoEmptyList(st.tokenMap) && IssuedOk(st)
  }

  lemma AppendKeepsBase(st: System, k: nat)
    requires Base(st) && k in st.threads && st.threads[k].Issued?
    ensures Base(DoStep(st, k))
    ensures forall t :: Live(DoStep(st, k).tokenMap, t) <==> Live(st.tokenMap, t) || t == st.threads[k].t
  {
    AddedUnique(st.tokenMap, st.threads[k].a, st.threads[k].t);
    hide Unique, Live;
  }

  lemma EraseKeepsBase(st: System, k: nat)
    requires Base(st) && k in st.threads && st.threads[k].Erasing?
    ensures Base(DoStep(st, k))
    ensures forall t :: Live(DoStep(st, k).tokenMap, t) <==> Live(st.tokenMap, t) && t != st.threads[k].t
  {
    RemovedExactly(st.tokenMap, st.threads[k].t);
    hide Unique, Live, Removed;
  }

  lemma IssueKeepsBase(st: System, k: nat)
    requires Base(st) && Enabled(st, Step(k)) && st.threads[k].Checked?
    ensures Base(DoStep(st, k))
  {
    hide Live, Unique;
    assert forall j :: j in st.threads && st.threads[j].Issued? ==> Concerns(st.threads[j], st.threads[j].t);
  }

  /** Every section keeps it, whatever overlaps. */
  lemma StepKeepsBase(st: System, ev: Event)
    requires Base(st) && Enabled(st, ev)
    ensures Base(Apply(st, ev))
  {
    if ev.Step? && st.threads[ev.k].Issued? {
      AppendKeepsBase(st, ev.k);
    } else if ev.Step? && st.threads[ev.k].Erasing? {
      EraseKeepsBase(st, ev.k);
    } else if ev.Step? && st.threads[ev.k].Checked? {
      IssueKeepsBase(st, ev.k);
    } else {
      hide Live, Unique, NoEmptyList, InUse;
      assert Apply(st, ev).tokenMap == st.tokenMap;
    }
  }

  // ---------------------------------------------------------------- undisturbed states

  predicate Removing(th: Thread) {
    th.Unhooking? || th.Erasing?
  }

  ghost predicate BeingAttached(threads: map<nat, Thread>, t: Token) {
    exists k :: k in threads && threads[k].Attaching? && threads[k].t == t
  }

  ghost predicate BeingRemoved(threads: map<nat, Thread>, t: Token) {
    exists k :: k in threads && Removing(threads[k]) && threads[k].t == t
  }

  ghost predicate BeingErased(threads: map<nat, Thread>, t: Token) {
    exists k :: k in threads && threads[k].Erasing? && threads[k].t == t
  }

  /** A token with notifiers is live and will lose them before it goes; a token that is being given
      one is live and stays. */
  ghost predicate TokenOk(st: System, t: Token) {
    && (t in st.callbackMap ==> Live(st.tokenMap, t) && st.callbackMap[t] != map[] && !BeingErased(st.threads, t))
    && (BeingAttached(st.threads, t) ==> Live(st.tokenMap, t) && !BeingRemoved(st.threads, t))
  }

  ghost predicate Good(st: System) {
    Base(st) && forall t :: TokenOk(st, t)
  }

  /** An attachment and a removal of one token get between each other. */
  ghost predicate Clashes(st: System, ev: Event) {
    match ev
    case BeginUnregister(k, a, t) => BeingAttached(st.threads, t)
    case BeginDeath(k, n, t) => BeingAttached(st.threads, t)
    case BeginAttach(k, a, t, cb, n) => BeingRemoved(st.threads, t)
    case _ => false
  }

  /** Changing one thread changes what the threads do by that thread alone. */
  lemma OneThread(threads: map<nat, Thread>, after: map<nat, Thread>, k: nat, t: Token)
    requires forall j :: j != k ==> (j in threads <==> j in after)
    requires forall j :: j in threads && j != k ==> after[j] == threads[j]
    ensures BeingAttached(threads, t) ==>
              BeingAttached(after, t) || (k in threads && threads[k].Attaching? && threads[k].t == t)
    ensures BeingRemoved(threads, t) ==>
              BeingRemoved(after, t) || (k in threads && Removing(threads[k]) && threads[k].t == t)
    ensures BeingErased(threads, t) ==>
              BeingErased(after, t) || (k in threads && threads[k].Erasing? && threads[k].t == t)
    ensures k in after && after[k].Attaching? && after[k].t == t ==> BeingAttached(after, t)
    ensures k in after && Removing(after[k]) && after[k].t == t ==> BeingRemoved(after, t)
    ensures k in after && after[k].Erasing? && after[k].t == t ==> BeingErased(after, t)
  {
    if BeingAttached(threads, t) {
      var j :| j in threads && threads[j].Attaching? && threads[j].t == t;
      assert j != k ==> j in after && after[j] == threads[j];
    }
    if BeingRemoved(threads, t) {
      var j :| j in threads && Removing(threads[j]) && threads[j].t == t;
      assert j != k ==> j in after && after[j] == threads[j];
    }
    if BeingErased(threads, t) {
      var j :| j in threads && threads[j].Erasing? && threads[j].t == t;
      assert j != k ==> j in after && after[j] == threads[j];
    }
  }

  lemma StepKeepsToken(st: System, k: nat, t: Token)
    requires Base(st) && k in st.threads && TokenOk(st, t)
    ensures TokenOk(DoStep(st, k), t)
  {
    var after := DoStep(st, k);
    OneThread(st.threads, after.threads, k, t);
    OneThread(after.threads, st.threads, k, t);
    if st.threads[k].Issued? { AppendKeepsBase(st, k); }
    if st.threads[k].Erasing? { EraseKeepsBase(st, k); }
    if st.threads[k].Attaching? && st.threads[k].sure {
      assert st.threads[k].cb in after.callbackMap[st.threads[k].t];
    }
    assert BeingErased(after.threads, t) ==> BeingRemoved(after.threads, t);
    hide BeingAttached, BeingRemoved, BeingErased, Live, Base, Removed;
  }

  lemma BeginTokenIff(st: System, ev: Event, t: Token)
    requires Good(st) && Enabled(st, ev) && !ev.Step?
    ensures TokenOk(Apply(st, ev), t) <==> !(Clashes(st, ev) && ev.t == t)
  {
    var after := Apply(st, ev);
    OneThread(st.threads, after.threads, ev.k, t);
    OneThread(after.threads, st.threads, ev.k, t);
    assert TokenOk(st, t);
    hide BeingAttached, BeingRemoved, BeingErased, Base;
  }

  /** From an undisturbed state a section leads to a disturbed one exactly if it clashes. */
  lemma StepGoodIff(st: System, ev: Event)
    requires Good(st) && Enabled(st, ev)
    ensures Good(Apply(st, ev)) <==> !Clashes(st, ev)
  {
    StepKeepsBase(st, ev);
    hide Base, TokenOk, Enabled;
    if ev.Step? {
      forall t ensures TokenOk(Apply(st, ev), t) {
        assert TokenOk(st, t);
        StepKeepsToken(st, ev.k, t);
      }
    } else if Clashes(st, ev) {
      BeginTokenIff(st, ev, ev.t);
    } else {
      forall t ensures TokenOk(Apply(st, ev), t) {
        BeginTokenIff(st, ev, t);
      }
    }
  }

  // ---------------------------------------------------------------- what a clash comes to

  /** Calls under way go on; no new call begins. */
  predicate AllSteps(run: seq<Event>) {
    forall i :: 0 <= i < |run| ==> run[i].Step?
  }

  /** A dead token keeps a notifier, and no call concerned with it is under way. */
  ghost predicate Stranded(st: System, t: Token) {
    && t in st.callbackMap && !Live(st.tokenMap, t)
    && forall k :: k in st.threads ==> !Concerns(st.threads[k], t)
  }

  /** However the calls under way go on, no notifier is left on a dead token. */
  ghost predicate SettlesClean(st: System) {
    forall run, last, t :: Runs(st, run, last) && AllSteps(run) ==> !Stranded(last, t)
  }

  lemma {:induction false} StepsKeepGood(st: System, run: seq<Event>, last: System)
    requires Good(st) && Runs(st, run, last) && AllSteps(run)
    ensures Good(last)
    decreases |run|
  {
    hide Good, CanRun, InUse, Apply;
    if run != [] {
      StepGoodIff(st, run[0]);
      StepsKeepGood(Apply(st, run[0]), run[1..], last);
    }
  }

  lemma OneStep(st: System, k: nat, run: seq<Event>, last: System)
    requires Enabled(st, Step(k)) && Runs(DoStep(st, k), run, last)
    ensures Runs(st, [Step(k)] + run, last)
  {
    hide Enabled;
    assert ([Step(k)] + run)[1..] == run;
  }

  lemma {:induction false} JoinRuns(st: System, first: seq<Event>, mid: System, second: seq<Event>, last: System)
    requires Runs(st, first, mid) && Runs(mid, second, last)
    ensures Runs(st, first + second, last)
    decreases |first|
  {
    hide CanRun, InUse, Apply;
    if first == [] {
      assert first + second == second;
    } else {
      JoinRuns(Apply(st, first[0]), first[1..], mid, second, last);
      assert (first + second)[1..] == first[1..] + second;
    }
  }

  /** The last section of a call. */
  lemma FinishLast(st: System, k: nat) returns (run: seq<Event>, last: System)
    requires Base(st) && k in st.threads && DoStep(st, k).threads == st.threads - {k}
    ensures Runs(st, run, last) && AllSteps(run) && Base(last) && last == DoStep(st, k)
  {
    last := DoStep(st, k);
    StepKeepsBase(st, Step(k));
    hide Base;
    assert Runs(last, [], last);
    OneStep(st, k, [], last);
    run := [Step(k)] + [];
  }

  /** A call concerned with a token finishes. */
  lemma Finish(st: System, k: nat) returns (run: seq<Event>, last: System)
    requires Base(st) && k in st.threads && !st.threads[k].Checked?
    ensures Runs(st, run, last) && AllSteps(run) && Base(last) && last.threads == st.threads - {k}
    ensures Removing(st.threads[k]) ==> !Live(last.tokenMap, st.threads[k].t)
    ensures st.threads[k].Attaching? ==> st.threads[k].t in last.callbackMap && last.tokenMap == st.tokenMap
  {
    var next := DoStep(st, k);
    if k in next.threads {
      StepKeepsBase(st, Step(k));
      assert next.threads - {k} == st.threads - {k};
      hide Base, Live;
      run, last := FinishLast(next, k);
      OneStep(st, k, run, last);
      run := [Step(k)] + run;
    } else {
      hide Live;
      run, last := FinishLast(st, k);
    }
    if Removing(st.threads[k]) {
      RemovedGone(st, next, last, k);
    }
  }

  lemma RemovedGone(st: System, next: System, last: System, k: nat)
    requires Base(st) && k in st.threads && Removing(st.threads[k]) && next == DoStep(st, k)
    requires last == if st.threads[k].Unhooking? then DoStep(next, k) else next
    ensures !Live(last.tokenMap, st.threads[k].t)
  {
    RemovedExactly(st.tokenMap, st.threads[k].t);
    hide Removed, Unique, Live;
  }

  /** All other calls concerned with the token finish. */
  lemma {:induction false} FinishOthers(st: System, t: Token, j: nat, k: nat) returns (run: seq<Event>, last: System)
    requires Base(st) && j in st.threads && k in st.threads
    ensures Runs(st, run, last) && AllSteps(run) && Base(last)
    ensures j in last.threads && last.threads[j] == st.threads[j]
    ensures k in last.threads && last.threads[k] == st.threads[k]
    ensures forall i :: i in last.threads && Concerns(last.threads[i], t) ==> i == j || i == k
    decreases |st.threads.Keys|
  {
    if i :| i in st.threads && i != j && i != k && Concerns(st.threads[i], t) {
      var first, mid := Finish(st, i);
      assert mid.threads.Keys == st.threads.Keys - {i};
      hide Base, Runs;
      run, last := FinishOthers(mid, t, j, k);
      JoinRuns(st, first, mid, run, last);
      run := first + run;
    } else {
      run, last := [], st;
    }
  }

  /** Where an attachment and a removal of a token are both under way, the notifier can be left on the
      dead token. */
  lemma CrossingStrands(st: System, t: Token) returns (run: seq<Event>, last: System)
    requires Base(st) && BeingAttached(st.threads, t) && BeingRemoved(st.threads, t)
    ensures Runs(st, run, last) && AllSteps(run) && Stranded(last, t)
  {
    var j :| j in st.threads && st.threads[j].Attaching? && st.threads[j].t == t;
    var k :| k in st.threads && Removing(st.threads[k]) && st.threads[k].t == t;
    hide Runs, Base, Live;
    var first, s1 := FinishOthers(st, t, j, k);
    var second, s2 := Finish(s1, k);
    var third, s3 := Finish(s2, j);
    JoinRuns(s1, second, s2, third, s3);
    JoinRuns(st, first, s1, second + third, s3);
    run, last := first + (second + third), s3;
  }

  /** In an undisturbed state a section endangers a token if and only if it clashes: a token is
      unregistered, or one of its notifiers dies, while another is between the check of the token and
      its attachment; or a notifier's token is checked while the token is being removed. */
  lemma EventHarmlessIff(st: System, ev: Event)
    requires Good(st) && Enabled(st, ev)
    ensures SettlesClean(Apply(st, ev)) <==> !Clashes(st, ev)
  {
    var after := Apply(st, ev);
    if Clashes(st, ev) {
      StepKeepsBase(st, ev);
      CrossingFound(st, ev);
      hide Runs, Base, Apply, Stranded;
      var run, last := CrossingStrands(after, ev.t);
    } else {
      StepGoodIff(st, ev);
      hide Runs, Apply, Base;
      forall run, last, t | Runs(after, run, last) && AllSteps(run) ensures !Stranded(last, t) {
        StepsKeepGood(after, run, last);
        assert TokenOk(last, t);
      }
    }
  }

  lemma CrossingFound(st: System, ev: Event)
    requires Enabled(st, ev) && Clashes(st, ev)
    ensures BeingAttached(Apply(st, ev).threads, ev.t) && BeingRemoved(Apply(st, ev).threads, ev.t)
  {
    var after := Apply(st, ev);
    OneThread(st.threads, after.threads, ev.k, ev.t);
    hide BeingAttached, BeingRemoved, BeingErased;
  }

  // ---------------------------------------------------------------- over all runs

  ghost predicate RunsApart(st: System, run: seq<Event>, last: System)
    decreases |run|
  {
    if run == [] then last == st
    else Enabled(st, run[0]) && !Clashes(st, run[0]) && RunsApart(Apply(st, run[0]), run[1..], last)
  }

  lemma {:induction false} ApartIsGood(st: System, run: seq<Event>, last: System)
    requires Good(st) && RunsApart(st, run, last)
    ensures Good(last)
    decreases |run|
  {
    hide Good, CanRun, InUse, Apply, Clashes;
    if run != [] {
      StepGoodIff(st, run[0]);
      ApartIsGood(Apply(st, run[0]), run[1..], last);
    }
  }

  /** In every state of every run without clashing sections: tokens unique across callers, no empty list,
      and notifiers only on live tokens. */
  lemma NotifiersOnLiveTokens(savedToken: Position, run: seq<Event>, last: System)
    requires RunsApart(Initial(savedToken), run, last)
    ensures Unique(last.tokenMap) && NoEmptyList(last.tokenMap)
    ensures forall t :: t in last.callbackMap ==> Live(last.tokenMap, t) && last.callbackMap[t] != map[]
  {
    assert Good(Initial(savedToken));
    ApartIsGood(Initial(savedToken), run, last);
    assert forall t :: t in last.callbackMap ==> TokenOk(last, t);
  }

  lemma {:induction false} RunKeepsBase(st: System, run: seq<Event>, last: System)
    requires Base(st) && Runs(st, run, last)
    ensures Base(last)
    decreases |run|
  {
    hide Base, CanRun, InUse, Apply;
    if run != [] {
      StepKeepsBase(st, run[0]);
      RunKeepsBase(Apply(st, run[0]), run[1..], last);
    }
  }

  function OneToken(a: AccessToken): System {
    System(map[a := [1]], map[], 1, map[])
  }

  /** The one token is being unregistered while a notifier is being attached to it. */
  function Crossed(a: AccessToken, n: Notifier): System {
    OneToken(a).(threads := map[1 := Attaching(1, EventConnect, n, false), 2 := Unhooking(1)])
  }

  lemma FirstToken(a: AccessToken) returns (run: seq<Event>)
    ensures Runs(Initial(0), run, OneToken(a))
  {
    var s1 := System(map[], map[], 0, map[0 := Checked(a)]);
    var s2 := System(map[], map[], 1, map[0 := Issued(a, 1)]);
    assert Enabled(Initial(0), BeginRegister(0, a)) && Apply(Initial(0), BeginRegister(0, a)) == s1;
    assert Enabled(s1, Step(0)) && DoStep(s1, 0) == s2;
    assert ListOf(map[], a) + [1] == [1];
    assert Enabled(s2, Step(0)) && DoStep(s2, 0) == OneToken(a);
    assert Runs(OneToken(a), [], OneToken(a));
    hide Enabled, DoStep;
    OneStep(s2, 0, [], OneToken(a));
    OneStep(s1, 0, [Step(0)] + [], OneToken(a));
    run := [BeginRegister(0, a)] + ([Step(0)] + ([Step(0)] + []));
    assert run[1..] == [Step(0)] + ([Step(0)] + []);
  }

  lemma ThenCrossed(a: AccessToken, n: Notifier) returns (run: seq<Event>)
    ensures Runs(OneToken(a), run, Crossed(a, n))
  {
    var attach, remove := BeginAttach(1, a, 1, EventConnect, n), BeginUnregister(2, a, 1);
    var mid := OneToken(a).(threads := map[1 := Attaching(1, EventConnect, n, false)]);
    assert Enabled(OneToken(a), attach) && Apply(OneToken(a), attach) == mid;
    assert Enabled(mid, remove) && Apply(mid, remove) == Crossed(a, n);
    hide CanRun, InUse, Apply;
    run := [attach, remove];
    assert run[1..] == [remove] && [remove][1..] == [];
    assert Runs(mid, [remove], Crossed(a, n));
  }

  /** Such a clash is reached: a notifier is attached after its token has been unregistered. */
  lemma NotifierLeft(a: AccessToken, n: Notifier) returns (run: seq<Event>, last: System)
    ensures Runs(Initial(0), run, last) && Stranded(last, 1)
  {
    var mid := Crossed(a, n);
    assert mid.threads[1].Attaching? && Removing(mid.threads[2]);
    assert Base(mid);
    var first := FirstToken(a);
    var second := ThenCrossed(a, n);
    hide Runs, Base, Stranded, Crossed;
    var third;
    third, last := CrossingStrands(mid, 1);
    JoinRuns(OneToken(a), second, mid, third, last);
    JoinRuns(Initial(0), first, OneToken(a), second + third, last);
    run := first + (second + third);
  }

  // ---------------------------------------------------------------- serial calls

  /** The registry of module TokenRegistry, with no call under way. */
  function AtRest(r: Registry): System
    requires r.start <= MAX_TOKEN_NUM
  {
    System(r.tokenMap, r.callbackMap, Counter(r), map[])
  }

  /** Three sections in a row. */
  lemma ThreeInARow(s0: System, first: Event, s1: System, s2: System, last: System)
    requires Enabled(s0, first) && Apply(s0, first) == s1 && first.k == 0
    requires Enabled(s1, Step(0)) && DoStep(s1, 0) == s2 && Enabled(s2, Step(0)) && DoStep(s2, 0) == last
    ensures Runs(s0, [first] + ([Step(0)] + ([Step(0)] + [])), last)
  {
    assert Runs(last, [], last);
    hide CanRun, InUse, DoStep;
    OneStep(s2, 0, [], last);
    OneStep(s1, 0, [Step(0)] + [], last);
    assert ([first] + ([Step(0)] + ([Step(0)] + [])))[1..] == [Step(0)] + ([Step(0)] + []);
  }

  lemma RegisterInARow(r: Registry, a: AccessToken)
    requires HistoryOk(r) && NextIsFree(r) && |ListOf(r.tokenMap, a)| < MAX_REGISTER_NUM
    ensures Runs(AtRest(r), [BeginRegister(0, a)] + ([Step(0)] + ([Step(0)] + [])), AtRest(Registered(r, a)))
  {
    NextTokenIsNewIff(r);
    CounterAdvances(r, a);
    hide Live, After, Counter;
    var s0, t := AtRest(r), Next(Counter(r), MAX_TOKEN_NUM);
    var s1 := With(s0, 0, Checked(a));
    var s2 := s0.(counter := t, threads := map[0 := Issued(a, t)]);
    assert !InUse(s1, t);
    ThreeInARow(s0, BeginRegister(0, a), s1, s2, AtRest(Registered(r, a)));
  }

  lemma RemoveInARow(r: Registry, first: Event, t: Token)
    requires r.start <= MAX_TOKEN_NUM && CanRun(AtRest(r), first) && first.k == 0
    requires (first.BeginUnregister? || first.BeginDeath?) && first.t == t
    ensures Runs(AtRest(r), [first] + ([Step(0)] + ([Step(0)] + [])), AtRest(Unregistered(r, t)))
  {
    hide After, Removed;
    var s0 := AtRest(r);
    var s1 := With(s0, 0, Unhooking(t));
    var s2 := s0.(callbackMap := r.callbackMap - {t}, threads := map[0 := Erasing(t)]);
    ThreeInARow(s0, first, s1, s2, AtRest(Unregistered(r, t)));
  }

  lemma AttachInARow(r: Registry, a: AccessToken, t: Token, cb: CbType, n: Notifier)
    requires r.start <= MAX_TOKEN_NUM && Owns(r, a, t) && cb != OtherEvent && cb !in NotifiersOf(r.callbackMap, t)
    ensures Runs(AtRest(r), [BeginAttach(0, a, t, cb, n)] + ([Step(0)] + ([Step(0)] + [])),
                 AtRest(Attached(r, t, cb, n)))
  {
    hide After;
    var s0 := AtRest(r);
    var s1 := With(s0, 0, Attaching(t, cb, n, false));
    var s2 := s0.(threads := map[0 := Attaching(t, cb, n, true)]);
    ThreeInARow(s0, BeginAttach(0, a, t, cb, n), s1, s2, AtRest(Attached(r, t, cb, n)));
  }

  lemma DetachInARow(r: Registry, a: AccessToken, t: Token, cb: CbType)
    requires r.start <= MAX_TOKEN_NUM && Owns(r, a, t) && cb != OtherEvent && cb in NotifiersOf(r.callbackMap, t)
    ensures Runs(AtRest(r), [BeginDetach(0, a, t, cb)] + ([Step(0)] + ([Step(0)] + [])), AtRest(Detached(r, t, cb)))
  {
    hide After;
    var s0 := AtRest(r);
    var s1 := With(s0, 0, Detaching(t, cb, false));
    var s2 := s0.(threads := map[0 := Detaching(t, cb, true)]);
    ThreeInARow(s0, BeginDetach(0, a, t, cb), s1, s2, AtRest(Detached(r, t, cb)));
  }

  /** The calls of module TokenRegistry are their sections in a row. */
  lemma SerialCallIsRun(r: Registry, op: Op) returns (run: seq<Event>)
    requires HistoryOk(r) && (op.Register? ==> NextIsFree(r))
    ensures Runs(AtRest(r), run, AtRest(TokenRegistry.Apply(r, op)))
  {
    run := [];
    assert Runs(AtRest(r), [], AtRest(r));
    hide Runs, AtRest, Live, After, Attached, Detached, Unregistered, Registered;
    match op {
      case Register(a) =>
        if |ListOf(r.tokenMap, a)| < MAX_REGISTER_NUM {
          RegisterInARow(r, a);
          run := [BeginRegister(0, a)] + ([Step(0)] + ([Step(0)] + []));
        }
      case Unregister(a, t) =>
        if Owns(r, a, t) {
          CanRemove(r, BeginUnregister(0, a, t));
          RemoveInARow(r, BeginUnregister(0, a, t), t);
          run := [BeginUnregister(0, a, t)] + ([Step(0)] + ([Step(0)] + []));
        }
      case Attach(a, t, cb, n) =>
        if cb != OtherEvent && Owns(r, a, t) && cb !in NotifiersOf(r.callbackMap, t) {
          AttachInARow(r, a, t, cb, n);
          run := [BeginAttach(0, a, t, cb, n)] + ([Step(0)] + ([Step(0)] + []));
        }
      case Detach(a, t, cb) =>
        if cb != OtherEvent && Owns(r, a, t) && cb in NotifiersOf(r.callbackMap, t) {
          DetachInARow(r, a, t, cb);
          run := [BeginDetach(0, a, t, cb)] + ([Step(0)] + ([Step(0)] + []));
        }
      case NotifierDied(n, t) =>
        if n in NotifiersOf(r.callbackMap, t).Values {
          CanRemove(r, BeginDeath(0, n, t));
          RemoveInARow(r, BeginDeath(0, n, t), t);
          run := [BeginDeath(0, n, t)] + ([Step(0)] + ([Step(0)] + []));
        }
    }
  }

  lemma CanRemove(r: Registry, first: Event)
    requires r.start <= MAX_TOKEN_NUM && first.k == 0
    requires (first.BeginUnregister? && Owns(r, first.a, first.t))
             || (first.BeginDeath? && first.n in NotifiersOf(r.callbackMap, first.t).Values)
    ensures CanRun(AtRest(r), first)
  {
  }
}

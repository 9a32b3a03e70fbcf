/** How the connection protocol comes to rest: every state can settle, and from there follow the
    exact conditions under which sessions keep their bindings and dead callers are forgotten. */
module ConnectRest {
  import opened ConnectTable
  import opened ConnectProtocol
  import opened ConnectSettling

  // ---------------------------------------------------------------- settling runs

  predicate AllSettling(run: seq<Event>) {
    forall i :: 0 <= i < |run| ==> Settling(run[i])
  }

  /** A run that only finishes what is under way. */
  ghost predicate Settles(st: System, run: seq<Event>, policy: Policy, last: System) {
    Runs(st, run, policy, last) && AllSettling(run)
  }

  lemma OneEvent(st: System, ev: Event, policy: Policy)
    requires Enabled(st, ev, policy)
    ensures Runs(st, [ev], policy, Apply(st, ev, policy))
  {
    hide Enabled, Apply;
    RunsStep(st, ev, Apply(st, ev, policy), [], policy, Apply(st, ev, policy));
    assert [ev] + [] == [ev];
  }

  lemma SettlesStep(st: System, ev: Event, next: System, run: seq<Event>, policy: Policy, last: System)
    requires Step(st, ev, next, policy) && Settling(ev) && Settles(next, run, policy, last)
    ensures Settles(st, [ev] + run, policy, last)
  {
    hide Step, Runs, Settling;
    RunsStep(st, ev, next, run, policy, last);
  }

  lemma {:induction false} JoinRuns(st: System, first: seq<Event>, mid: System, second: seq<Event>, policy: Policy,
                                    last: System)
    requires Runs(st, first, policy, mid) && Runs(mid, second, policy, last)
    ensures Runs(st, first + second, policy, last)
    ensures AllSettling(first) && AllSettling(second) ==> AllSettling(first + second)
    decreases |first|
  {
    hide Enabled, Apply;
    if first == [] {
      assert first + second == second;
    } else {
      JoinRuns(Apply(st, first[0], policy), first[1..], mid, second, policy, last);
      assert (first + second)[1..] == first[1..] + second;
    }
  }

  lemma {:induction false} SettlingKeepsApart(st: System, run: seq<Event>, policy: Policy, last: System)
    requires Sound(st) && NoOverlap(st) && Settles(st, run, policy, last)
    ensures NoOverlap(last)
    decreases |run|
  {
    hide Sound, NoOverlap, Enabled, Apply;
    if run != [] {
      StepSound(st, run[0], policy);
      StepApart(st, run[0], policy);
      SettlingKeepsApart(Apply(st, run[0], policy), run[1..], policy, last);
    }
  }

  // ---------------------------------------------------------------- every state can settle

  /** A session that no queued cleanup of its own device will drop. */
  predicate Lasting(st: System, c: Connect, d: Device) {
    IsLive(st, c, d) && !Cleaning(st, c, d)
  }

  /** A lasting session whose binding is gone or will go. */
  predicate Stranded(st: System, c: Connect, d: Device) {
    Lasting(st, c, d) && !Intact(st, c, d)
  }

  /** Settling events that bind nothing and lose no removal. */
  predicate Draining(ev: Event) {
    Settling(ev) && !ev.RunOrphan? && !ev.Lose? && (ev.Execute? ==> !ev.ok)
  }

  lemma CleaningKeepsOthers(st: System, a: Device, b: Device, c: Connect, d: Device)
    requires Sound(st) && CanCleanSource(st, a, b) && Lasting(st, c, d)
    ensures Lasting(DoCleanSource(st, a, b), c, d)
  {
    var t := WithoutDevice(st.nodes[a].table, b);
    assert TableNodeOk(a, st.nodes[a].table);
    WithoutDeviceOk(st.nodes[a].table, b);
    TableEffect(st, a, t, c, d);
    hide Sound, TableOk, Live, WithoutDevice, WithTable;
  }

  lemma TablesStay(st: System, ev: Event, policy: Policy)
    requires Draining(ev) && !ev.Commit? && !ev.CleanSource? && Enabled(st, ev, policy)
    ensures Apply(st, ev, policy).srcCleanup == st.srcCleanup
    ensures forall s :: s in st.nodes ==>
              s in Apply(st, ev, policy).nodes && Apply(st, ev, policy).nodes[s].table == st.nodes[s].table
  {
    hide RequestOk, Up, Bound, UnboundCaller, UnboundDevice, CanBegin;
  }

  lemma DrainingKeepsLasting(st: System, ev: Event, policy: Policy, c: Connect, d: Device)
    requires Sound(st) && Draining(ev) && Enabled(st, ev, policy) && Lasting(st, c, d)
    ensures Lasting(Apply(st, ev, policy), c, d)
  {
    if ev.Commit? {
      CommitEffect(st, ev.k, c, d);
      hide Sound, IsLive, Mapped;
    } else if ev.CleanSource? {
      CleaningKeepsOthers(st, ev.a, ev.b, c, d);
      hide Sound, Lasting;
    } else {
      TablesStay(st, ev, policy);
      hide Sound, Live, Apply, Enabled;
    }
  }

  /** A removal leaves no binding of a stranded session that is not doomed already. */
  lemma RemovingKeepsStranded(st: System, ev: Event, policy: Policy, c: Connect, d: Device)
    requires Sound(st) && (ev.Deliver? || ev.CleanSink?) && Enabled(st, ev, policy) && c.Connect? && !Intact(st, c, d)
    ensures !Intact(Apply(st, ev, policy), c, d)
  {
    assert d in st.nodes ==> BindingsNodeOk(st.nodes.Keys, d, st.nodes[d].bindings);
    hide Sound;
  }

  lemma DrainingKeepsStranded(st: System, ev: Event, policy: Policy, c: Connect, d: Device)
    requires Sound(st) && Draining(ev) && Enabled(st, ev, policy) && Stranded(st, c, d)
    ensures Stranded(Apply(st, ev, policy), c, d)
  {
    DrainingKeepsLasting(st, ev, policy, c, d);
    hide Lasting;
    if ev.Deliver? || ev.CleanSink? {
      RemovingKeepsStranded(st, ev, policy, c, d);
      hide Sound, Intact, Apply, Enabled;
    } else if ev.Commit? {
      CommitEffect(st, ev.k, c, d);
      hide Sound, IsBound, Mapped;
    } else {
      hide Sound;
    }
  }

  function AskedCalls(calls: map<nat, Call>): set<nat> {
    set k | k in calls && calls[k].phase == Asked
  }

  function CallLoad(calls: map<nat, Call>): nat {
    |calls.Keys| + |AskedCalls(calls)|
  }

  /** How much is under way. */
  function Load(st: System): nat {
    CallLoad(st.calls) + |st.orphans| + |st.messages| + |st.srcCleanup| + |st.sinkCleanup|
  }

  lemma CallEnds(calls: map<nat, Call>, k: nat)
    requires k in calls && calls[k].phase != Asked
    ensures CallLoad(calls - {k}) < CallLoad(calls)
  {
    assert (calls - {k}).Keys == calls.Keys - {k};
    assert AskedCalls(calls - {k}) == AskedCalls(calls);
  }

  lemma CallFails(calls: map<nat, Call>, k: nat)
    requires k in calls && calls[k].phase == Asked
    ensures CallLoad(calls[k := calls[k].(phase := Answered(false))]) < CallLoad(calls)
  {
    var after := calls[k := calls[k].(phase := Answered(false))];
    assert after.Keys == calls.Keys && AskedCalls(after) == AskedCalls(calls) - {k};
  }

  lemma CallIsOk(st: System, k: nat)
    requires Sound(st) && k in st.calls
    ensures RequestOk(st.nodes.Keys, st.calls[k].request)
  {
  }

  lemma FailUnloads(st: System, k: nat)
    requires IsAsked(st, k)
    ensures Load(DoExecute(st, k, false)) < Load(st)
  {
    CallFails(st.calls, k);
    hide CallLoad;
  }

  lemma DrainAsked(st: System, policy: Policy, k: nat) returns (ev: Event)
    requires IsAsked(st, k)
    ensures (ev.Execute? || ev.FailCall?) && Draining(ev)
    ensures Enabled(st, ev, policy) && Load(Apply(st, ev, policy)) < Load(st)
  {
    FailUnloads(st, k);
    hide Load, DoExecute;
    if Up(st, Source(st.calls[k].request.connect), st.calls[k].request.target) {
      ev := Execute(k, false);
    } else {
      ev := FailCall(k);
    }
  }

  lemma CommitUnloads(st: System, k: nat)
    requires CanCommit(st, k)
    ensures Load(DoCommit(st, k)) < Load(st)
  {
    CallEnds(st.calls, k);
    hide CallLoad, Mapped;
  }

  lemma GiveUpUnloads(st: System, k: nat)
    requires CanGiveUp(st, k)
    ensures Load(DoGiveUp(st, k)) < Load(st)
  {
    CallEnds(st.calls, k);
    hide CallLoad;
  }

  lemma DrainAnswered(st: System, policy: Policy, k: nat) returns (ev: Event)
    requires Sound(st) && k in st.calls && st.calls[k].phase != Asked
    ensures (ev.Commit? || ev.GiveUp?) && Draining(ev)
    ensures Enabled(st, ev, policy) && Load(Apply(st, ev, policy)) < Load(st)
  {
    hide NodesOk, Load, DoCommit, DoGiveUp;
    if st.calls[k].phase == Answered(true) {
      ev := Commit(k);
      CommitUnloads(st, k);
    } else {
      ev := GiveUp(k);
      GiveUpUnloads(st, k);
    }
  }

  lemma DrainMessage(st: System, policy: Policy, m: Message)
    requires Sound(st) && m in st.messages
    ensures Enabled(st, Deliver(m, false), policy) && Load(Apply(st, Deliver(m, false), policy)) < Load(st)
  {
    hide NodesOk, CallLoad;
    var after := DoDeliver(st, m, false);
    assert after == st.(messages := st.messages - {m}, nodes := after.nodes);
  }

  lemma CleanSourceUnloads(st: System, a: Device, b: Device)
    requires CanCleanSource(st, a, b)
    ensures Load(DoCleanSource(st, a, b)) < Load(st)
  {
    hide CallLoad, WithoutDevice;
  }

  lemma CleanSinkUnloads(st: System, a: Device, b: Device)
    requires CanCleanSink(st, a, b)
    ensures Load(DoCleanSink(st, a, b)) < Load(st)
  {
    hide CallLoad, UnboundDevice;
  }

  lemma DrainCleanup(st: System, policy: Policy) returns (ev: Event)
    requires Sound(st) && (st.srcCleanup != {} || st.sinkCleanup != {})
    ensures (ev.CleanSource? || ev.CleanSink?) && Draining(ev)
    ensures Enabled(st, ev, policy) && Load(Apply(st, ev, policy)) < Load(st)
  {
    hide NodesOk, Load, DoCleanSource, DoCleanSink;
    if st.srcCleanup != {} {
      var p :| p in st.srcCleanup;
      ev := CleanSource(p.0, p.1);
      CleanSourceUnloads(st, p.0, p.1);
    } else {
      var p :| p in st.sinkCleanup;
      ev := CleanSink(p.0, p.1);
      CleanSinkUnloads(st, p.0, p.1);
    }
  }

  /** Something other than caught requests is under way. */
  predicate Busy(st: System) {
    st.calls != map[] || st.messages != {} || st.srcCleanup != {} || st.sinkCleanup != {}
  }

  /** The next event that settles something other than a caught request; cleanups wait for the calls. */
  lemma DrainTraffic(st: System, policy: Policy) returns (ev: Event)
    requires Sound(st) && Busy(st)
    ensures Draining(ev) && Enabled(st, ev, policy) && Load(Apply(st, ev, policy)) < Load(st)
    ensures !ev.LoseOrphan? && (ev.CleanSource? ==> st.calls == map[])
  {
    hide Sound, CallLoad;
    if st.calls != map[] {
      assert (forall k :: k !in st.calls) ==> st.calls == map[];
      var k :| k in st.calls;
      if st.calls[k].phase == Asked {
        CallIsOk(st, k);
        ev := DrainAsked(st, policy, k);
      } else {
        ev := DrainAnswered(st, policy, k);
      }
    } else if st.messages != {} {
      var m :| m in st.messages;
      ev := Deliver(m, false);
      DrainMessage(st, policy, m);
    } else {
      ev := DrainCleanup(st, policy);
    }
  }

  /** The next event that settles something, as long as there is something. */
  lemma DrainStep(st: System, policy: Policy) returns (ev: Event)
    requires Sound(st) && !Quiescent(st)
    ensures Draining(ev) && Enabled(st, ev, policy) && Load(Apply(st, ev, policy)) < Load(st)
  {
    hide Sound, CallLoad;
    if Busy(st) {
      ev := DrainTraffic(st, policy);
    } else {
      var r :| r in st.orphans;
      ev := LoseOrphan(r);
      assert Apply(st, ev, policy) == st.(orphans := st.orphans - {r});
    }
  }

  /** One event of draining. */
  lemma DrainOnce(st: System, policy: Policy) returns (ev: Event, next: System)
    requires Sound(st) && !Quiescent(st)
    ensures Step(st, ev, next, policy) && Settling(ev) && Sound(next) && Load(next) < Load(st)
    ensures forall c, d :: Lasting(st, c, d) ==> Lasting(next, c, d)
    ensures forall c, d :: Stranded(st, c, d) ==> Stranded(next, c, d)
  {
    hide Sound, Enabled, Apply, Lasting, Stranded, Load, Quiescent;
    ev := DrainStep(st, policy);
    next := Apply(st, ev, policy);
    StepSound(st, ev, policy);
    forall c, d | Lasting(st, c, d) ensures Lasting(next, c, d) { DrainingKeepsLasting(st, ev, policy, c, d); }
    forall c, d | Stranded(st, c, d) ensures Stranded(next, c, d) { DrainingKeepsStranded(st, ev, policy, c, d); }
  }

  /** From every state the system can come to rest, without binding anything new and without losing
      what removes a binding. */
  lemma {:induction false} Drain(st: System, policy: Policy) returns (run: seq<Event>, last: System)
    requires Sound(st)
    ensures Settles(st, run, policy, last) && Quiescent(last)
    ensures forall c, d :: Lasting(st, c, d) ==> Lasting(last, c, d)
    ensures forall c, d :: Stranded(st, c, d) ==> Stranded(last, c, d)
    decreases Load(st)
  {
    assert Settles(st, [], policy, st);
    hide Sound, Step, Lasting, Stranded, Load, Quiescent, Settling, Settles;
    if Quiescent(st) {
      run, last := [], st;
    } else {
      var ev, next := DrainOnce(st, policy);
      run, last := Drain(next, policy);
      SettlesStep(st, ev, next, run, policy, last);
      run := [ev] + run;
    }
  }

  // ---------------------------------------------------------------- a call that is stored

  /** The session of a call is stored for good, and no removal got lost on the way. */
  ghost predicate StoredFor(st: System, last: System, c: Connect, d: Device) {
    Sound(last) && Lasting(last, c, d) && last.messages == st.messages && last.sinkCleanup == st.sinkCleanup
  }

  lemma StoreReply(st: System, k: nat, policy: Policy) returns (run: seq<Event>, last: System)
    requires Sound(st) && k in st.calls && st.calls[k].phase == Answered(true)
    requires !Cleaning(st, st.calls[k].request.connect, st.calls[k].request.target)
    ensures var r := st.calls[k].request;
            && Settles(st, run, policy, last) && StoredFor(st, last, r.connect, r.target)
            && (IsBound(last, r.connect, r.target) <==> IsBound(st, r.connect, r.target))
  {
    var r := st.calls[k].request;
    run, last := [Commit(k)], DoCommit(st, k);
    CommitSound(st, k);
    CommitEffect(st, k, r.connect, r.target);
    hide Sound, IsLive, IsBound;
    OneEvent(st, Commit(k), policy);
  }

  lemma StoreAsked(st: System, k: nat, policy: Policy) returns (run: seq<Event>, last: System)
    requires Sound(st) && CanExecute(st, k)
    requires !Cleaning(st, st.calls[k].request.connect, st.calls[k].request.target)
    ensures var r := st.calls[k].request;
            Settles(st, run, policy, last) && StoredFor(st, last, r.connect, r.target)
  {
    hide Sound, RequestOk;
    var next := DoExecute(st, k, true);
    ExecuteSound(st, k);
    assert next.srcCleanup == st.srcCleanup && next.messages == st.messages && next.sinkCleanup == st.sinkCleanup;
    assert next.calls[k] == st.calls[k].(phase := Answered(true));
    assert Enabled(st, Execute(k, true), policy) && Apply(st, Execute(k, true), policy) == next;
    hide Lasting, Runs, Accept, IsBound, DoExecute, CanExecute, Enabled, Apply;
    run, last := StoreReply(next, k, policy);
    RunsStep(st, Execute(k, true), Apply(st, Execute(k, true), policy), run, policy, last);
    run := [Execute(k, true)] + run;
  }

  lemma StoreRetried(st: System, k: nat, policy: Policy) returns (run: seq<Event>, last: System)
    requires Sound(st) && CanRetry(st, k)
    requires var r := st.calls[k].request;
             Up(st, Source(r.connect), r.target) && !Cleaning(st, r.connect, r.target)
    ensures var r := st.calls[k].request;
            Settles(st, run, policy, last) && StoredFor(st, last, r.connect, r.target)
  {
    var next := DoRetry(st, k);
    assert Enabled(st, Retry(k), policy) && Apply(st, Retry(k), policy) == next;
    StepSound(st, Retry(k), policy);
    assert CanExecute(next, k);
    hide Sound, Lasting, Runs;
    run, last := StoreAsked(next, k, policy);
    RunsStep(st, Retry(k), Apply(st, Retry(k), policy), run, policy, last);
    run := [Retry(k)] + run;
  }

  /** A call that the sink has accepted, or may accept over a working link, can end in a session
      that stays. */
  lemma StoreCall(st: System, k: nat, policy: Policy) returns (run: seq<Event>, last: System)
    requires Sound(st) && k in st.calls && !Cleaning(st, st.calls[k].request.connect, st.calls[k].request.target)
    requires var r := st.calls[k].request;
             st.calls[k].phase == Answered(true) || (MayAsk(st.calls[k]) && Up(st, Source(r.connect), r.target))
    ensures var r := st.calls[k].request;
            && Settles(st, run, policy, last) && StoredFor(st, last, r.connect, r.target)
            && (st.calls[k].phase == Answered(true) && IsBound(last, r.connect, r.target)
                ==> IsBound(st, r.connect, r.target))
  {
    assert RequestOk(st.nodes.Keys, st.calls[k].request);
    hide Sound, Lasting, Runs;
    if st.calls[k].phase == Answered(true) {
      run, last := StoreReply(st, k, policy);
    } else if st.calls[k].phase == Asked {
      run, last := StoreAsked(st, k, policy);
    } else {
      run, last := StoreRetried(st, k, policy);
    }
  }

  /** The state after the queued cleanup of a's sessions towards b, if there is one. */
  lemma CleanFirst(st: System, a: Device, b: Device, policy: Policy) returns (run: seq<Event>, last: System)
    requires Sound(st) && a in st.nodes
    ensures Settles(st, run, policy, last) && Sound(last) && |run| <= 1
    ensures last == st.(nodes := last.nodes, srcCleanup := st.srcCleanup - {(a, b)}) && last.nodes.Keys == st.nodes.Keys
    ensures forall c, d :: IsBound(last, c, d) <==> IsBound(st, c, d)
  {
    run, last := [], st;
    if (a, b) in st.srcCleanup {
      run, last := [CleanSource(a, b)], DoCleanSource(st, a, b);
      CleanSourceSound(st, a, b);
      hide Sound;
      OneEvent(st, CleanSource(a, b), policy);
    }
  }

  // ---------------------------------------------------------------- sessions and their bindings

  /** However the traffic settles, every session has its binding at the end. */
  ghost predicate SettlesBound(st: System, policy: Policy) {
    forall run, last :: Settles(st, run, policy, last) && Quiescent(last) ==> SessionsBound(last)
  }

  /** A session that is or becomes stranded stays so while the rest drains. */
  lemma StrandedAtRest(st: System, first: seq<Event>, mid: System, policy: Policy, c: Connect, d: Device)
    returns (run: seq<Event>, last: System)
    requires Sound(mid) && Settles(st, first, policy, mid) && Stranded(mid, c, d)
    ensures Settles(st, run, policy, last) && Quiescent(last) && !SessionsBound(last)
  {
    hide Sound, Runs;
    run, last := Drain(mid, policy);
    JoinRuns(st, first, mid, run, policy, last);
    run := first + run;
    assert Stranded(last, c, d);
    hide IsLive, IsBound, Quiescent;
    assert !RemovalPending(last, c, d);
    assert IsLive(last, c, d) && !IsBound(last, c, d);
  }

  /** A call that can be stored while a removal is on its way, or without its binding. */
  predicate StrandingCall(st: System, k: nat, c: Connect, d: Device) {
    && c.Connect? && k in st.calls && Concerns(st.calls[k], c, d)
    && (st.calls[k].phase == Answered(true) || (MayAsk(st.calls[k]) && Up(st, Source(c), d)))
    && (RemovalPending(st, c, d) || (st.calls[k].phase == Answered(true) && !IsBound(st, c, d)))
  }

  lemma StrandingCallStrands(st: System, policy: Policy, k: nat, c: Connect, d: Device)
    returns (run: seq<Event>, last: System)
    requires Sound(st) && StrandingCall(st, k, c, d)
    ensures Settles(st, run, policy, last) && Quiescent(last) && !SessionsBound(last)
  {
    assert RequestOk(st.nodes.Keys, st.calls[k].request);
    hide Sound, Runs;
    var first, clean := CleanFirst(st, Source(c), d, policy);
    var second, mid := StoreCall(clean, k, policy);
    JoinRuns(st, first, clean, second, policy, mid);
    hide IsLive;
    assert Stranded(mid, c, d);
    run, last := StrandedAtRest(st, first + second, mid, policy, c, d);
  }

  lemma FindStrandingCall(st: System, c: Connect, d: Device) returns (k: nat)
    requires c.Connect? && !Apart(st, c, d) && !Stranded(st, c, d)
    ensures StrandingCall(st, k, c, d)
  {
    hide IsLive, IsBound;
    if ReplyPending(st.calls, c, d) && !Intact(st, c, d) {
      k :| k in st.calls && st.calls[k].phase == Answered(true)
           && st.calls[k].request.connect == c && st.calls[k].request.target == d;
    } else {
      k :| k in st.calls && Concerns(st.calls[k], c, d) && MayAsk(st.calls[k]);
    }
  }

  lemma OverlapStrands(st: System, policy: Policy, c: Connect, d: Device) returns (run: seq<Event>, last: System)
    requires Sound(st) && c.Connect? && !Apart(st, c, d)
    ensures Settles(st, run, policy, last) && Quiescent(last) && !SessionsBound(last)
  {
    hide Sound, SessionsBound;
    if Stranded(st, c, d) {
      assert Runs(st, [], policy, st);
      run, last := StrandedAtRest(st, [], st, policy, c, d);
    } else {
      var k := FindStrandingCall(st, c, d);
      run, last := StrandingCallStrands(st, policy, k, c, d);
    }
  }

  /** A state settles with a binding behind every session, whatever the order of events, if and only
      if no removal in it meets a session or a call of the same connect object and device. */
  lemma SettlesBoundIffNoOverlap(st: System, policy: Policy)
    requires Sound(st)
    ensures SettlesBound(st, policy) <==> NoOverlap(st)
  {
    hide Sound, Runs, Quiescent, SessionsBound, Apart, AllSettling;
    if NoOverlap(st) {
      forall run, last | Settles(st, run, policy, last) && Quiescent(last) ensures SessionsBound(last) {
        SettlingKeepsApart(st, run, policy, last);
        RestIsBoundIffApart(last);
      }
    } else {
      var c: Connect, d: Device :| c.Connect? && !Apart(st, c, d);
      var run, last := OverlapStrands(st, policy, c, d);
    }
  }

  /** So an event endangers a session of an undisturbed state if and only if it overlaps. */
  lemma EventHarmlessIff(st: System, ev: Event, policy: Policy)
    requires Sound(st) && NoOverlap(st) && Enabled(st, ev, policy)
    ensures SettlesBound(Apply(st, ev, policy), policy) <==> !Overlaps(st, ev, policy)
  {
    hide Sound, NoOverlap, SettlesBound, Enabled, Apply, Overlaps;
    StepSound(st, ev, policy);
    StepApart(st, ev, policy);
    SettlesBoundIffNoOverlap(Apply(st, ev, policy), policy);
  }

  /** A run without overlapping events. */
  ghost predicate RunsApart(st: System, run: seq<Event>, policy: Policy, last: System)
    decreases |run|
  {
    if run == [] then last == st
    else && Enabled(st, run[0], policy) && !Overlaps(st, run[0], policy)
         && RunsApart(Apply(st, run[0], policy), run[1..], policy, last)
  }

  lemma {:induction false} ApartRuns(st: System, run: seq<Event>, policy: Policy, last: System)
    requires Sound(st) && NoOverlap(st) && RunsApart(st, run, policy, last)
    ensures Runs(st, run, policy, last) && NoOverlap(last)
    decreases |run|
  {
    hide Sound, NoOverlap, Enabled, Apply, Overlaps;
    if run != [] {
      StepSound(st, run[0], policy);
      StepApart(st, run[0], policy);
      ApartRuns(Apply(st, run[0], policy), run[1..], policy, last);
    }
  }

  /** The two ends agree: every run without overlapping events comes to rest with exactly one
      binding behind every session and none besides. */
  lemma EndsAgree(devices: set<Device>, run: seq<Event>, policy: Policy, last: System, c: Connect, d: Device)
    requires RunsApart(Initial(devices), run, policy, last) && Quiescent(last)
    ensures IsLive(last, c, d) ==> IsBound(last, c, d)
    ensures Orderly(policy) ==> (IsLive(last, c, d) <==> IsBound(last, c, d))
  {
    var st := Initial(devices);
    InitialSound(devices);
    InitialInv(devices);
    assert NoOverlap(st);
    hide Sound, Inv, RunsApart;
    ApartRuns(st, run, policy, last);
    RestIsBoundIffApart(last);
    if Orderly(policy) {
      RunKeepsInv(st, run, policy, last);
      QuiescentHasNoLeak(last);
    }
  }

  // ---------------------------------------------------------------- dead callers

  /** A call that may still store a session. */
  predicate Unfinished(call: Call) {
    call.phase == Answered(true) || MayAsk(call)
  }

  predicate Of(c: Connect, caller: CallerInfo) {
    c.Connect? && c.owner == caller
  }

  ghost predicate CallsOver(calls: map<nat, Call>, caller: CallerInfo) {
    forall k :: k in calls && Of(calls[k].request.connect, caller) ==> !Unfinished(calls[k])
  }

  ghost predicate NoSessionOf(st: System, caller: CallerInfo) {
    forall s, c :: s in st.nodes && c in st.nodes[s].table ==> !Of(c, caller)
  }

  ghost predicate NoBindingOf(st: System, caller: CallerInfo) {
    forall s, c :: s in st.nodes && c in st.nodes[s].bindings ==> !Of(c, caller)
  }

  /** The caller asks for nothing any more. */
  predicate Silent(run: seq<Event>, caller: CallerInfo) {
    forall i :: 0 <= i < |run| && run[i].BeginConnect? ==> !Of(run[i].request.connect, caller)
  }

  lemma CommitKeepsSilence(st: System, k: nat, caller: CallerInfo)
    requires CanCommit(st, k) && NoSessionOf(st, caller) && CallsOver(st.calls, caller)
    ensures NoSessionOf(DoCommit(st, k), caller) && CallsOver(DoCommit(st, k).calls, caller)
  {
    hide Extended;
  }

  lemma StepKeepsSilence(st: System, ev: Event, policy: Policy, caller: CallerInfo)
    requires Enabled(st, ev, policy) && (ev.BeginConnect? ==> !Of(ev.request.connect, caller))
    requires NoSessionOf(st, caller) && CallsOver(st.calls, caller)
    ensures NoSessionOf(Apply(st, ev, policy), caller) && CallsOver(Apply(st, ev, policy).calls, caller)
  {
    hide Without, Extended, Up, Destinations;
    if ev.Commit? {
      CommitKeepsSilence(st, ev.k, caller);
    } else {
      hide DoCommit, CanBegin, RequestOk;
      assert CallsOver(Apply(st, ev, policy).calls, caller);
    }
  }

  lemma {:induction false} RunKeepsSilence(st: System, run: seq<Event>, policy: Policy, last: System,
                                           caller: CallerInfo)
    requires Runs(st, run, policy, last) && Silent(run, caller)
    requires NoSessionOf(st, caller) && CallsOver(st.calls, caller)
    ensures NoSessionOf(last, caller)
    decreases |run|
  {
    hide NoSessionOf, CallsOver, Enabled, Apply;
    if run != [] {
      StepKeepsSilence(st, run[0], policy, caller);
      RunKeepsSilence(Apply(st, run[0], policy), run[1..], policy, last, caller);
    }
  }

  /** No caller does anything; links may return. */
  predicate NobodyActs(run: seq<Event>) {
    forall i :: 0 <= i < |run| ==> Settling(run[i]) || run[i].LinkUp?
  }

  /** The link from a to b works again, after the sessions over it have been dropped. */
  lemma Reconnect(st: System, a: Device, b: Device, policy: Policy) returns (run: seq<Event>, last: System)
    requires Sound(st) && a in st.nodes && b in st.nodes
    ensures Runs(st, run, policy, last) && NobodyActs(run)
    ensures Sound(last) && last.calls == st.calls && Up(last, a, b) && (a, b) !in last.srcCleanup
  {
    hide Sound, Runs, Settling;
    var first, one := CleanFirst(st, a, b, policy);
    var second, two := CleanFirst(one, b, a, policy);
    JoinRuns(st, first, one, second, policy, two);
    run, last := first + second, two;
    if !Up(two, a, b) {
      assert Enabled(two, LinkUp(a, b), policy);
      StepSound(two, LinkUp(a, b), policy);
      OneEvent(two, LinkUp(a, b), policy);
      last := DoLinkUp(two, a, b);
      JoinRuns(st, run, two, [LinkUp(a, b)], policy, last);
      run := run + [LinkUp(a, b)];
    }
  }

  lemma JoinQuietly(st: System, first: seq<Event>, mid: System, second: seq<Event>, policy: Policy, last: System)
    requires Runs(st, first, policy, mid) && NobodyActs(first)
    requires Settles(mid, second, policy, last)
    ensures Runs(st, first + second, policy, last) && NobodyActs(first + second)
  {
    hide Runs, Settling;
    JoinRuns(st, first, mid, second, policy, last);
  }

  /** An unfinished call can end in a session that stays. */
  lemma UnfinishedCallStores(st: System, k: nat, policy: Policy) returns (run: seq<Event>, last: System)
    requires Sound(st) && k in st.calls && Unfinished(st.calls[k])
    ensures Runs(st, run, policy, last) && NobodyActs(run) && Quiescent(last)
    ensures IsLive(last, st.calls[k].request.connect, st.calls[k].request.target)
  {
    var r := st.calls[k].request;
    assert RequestOk(st.nodes.Keys, r);
    hide Sound, Runs, Quiescent, IsLive, IsBound, Stranded, Settles, NobodyActs;
    var first, up := Reconnect(st, Source(r.connect), r.target, policy);
    var second, mid := StoreCall(up, k, policy);
    JoinQuietly(st, first, up, second, policy, mid);
    var third;
    third, last := Drain(mid, policy);
    JoinQuietly(st, first + second, mid, third, policy, last);
    run := first + second + third;
    assert Lasting(last, r.connect, r.target);
  }

  /** Whatever happens after the caller has fallen silent, no session of it is left at rest. */
  ghost predicate SessionsForgotten(st: System, policy: Policy, caller: CallerInfo) {
    forall run, last :: Runs(st, run, policy, last) && Silent(run, caller) && Quiescent(last)
                        ==> NoSessionOf(last, caller)
  }

  /** Nor is any binding. */
  ghost predicate Forgotten(st: System, policy: Policy, caller: CallerInfo) {
    forall run, last :: Runs(st, run, policy, last) && Silent(run, caller) && Quiescent(last) ==>
      NoSessionOf(last, caller) && NoBindingOf(last, caller)
  }

  lemma DiedHasNoSession(st: System, c: Connect)
    requires Sound(st) && Stored(st, c)
    ensures NoSessionOf(DoProcessDied(st, c), c.owner)
  {
    assert forall s :: s in st.nodes ==> TableNodeOk(s, st.nodes[s].table);
  }

  lemma LateSession(st: System, c: Connect, k: nat, policy: Policy) returns (run: seq<Event>, last: System)
    requires Sound(st) && Stored(st, c)
    requires k in st.calls && Of(st.calls[k].request.connect, c.owner) && Unfinished(st.calls[k])
    ensures Runs(DoProcessDied(st, c), run, policy, last) && NobodyActs(run) && Silent(run, c.owner) && Quiescent(last)
    ensures !NoSessionOf(last, c.owner)
  {
    ProcessDiedSound(st, c);
    hide Sound, Runs, Quiescent;
    assert DoProcessDied(st, c).calls == st.calls;
    run, last := UnfinishedCallStores(DoProcessDied(st, c), k, policy);
  }

  /** The sessions of a dead caller are gone for good if and only if none of its calls was unfinished
      when its death was handled; otherwise a late reply can store one that nobody removes. */
  lemma SessionsForgottenIff(st: System, c: Connect, policy: Policy)
    requires Sound(st) && Stored(st, c)
    ensures SessionsForgotten(DoProcessDied(st, c), policy, c.owner) <==> CallsOver(st.calls, c.owner)
  {
    var dead := DoProcessDied(st, c);
    ProcessDiedSound(st, c);
    DiedHasNoSession(st, c);
    assert dead.calls == st.calls;
    hide Sound, Runs, Quiescent, NoSessionOf, Unfinished, DoProcessDied, Silent, NobodyActs;
    if CallsOver(st.calls, c.owner) {
      forall run, last | Runs(dead, run, policy, last) && Silent(run, c.owner) && Quiescent(last)
        ensures NoSessionOf(last, c.owner)
      {
        RunKeepsSilence(dead, run, policy, last, c.owner);
      }
    } else {
      var k :| k in st.calls && Of(st.calls[k].request.connect, c.owner) && Unfinished(st.calls[k]);
      var run, last := LateSession(st, c, k, policy);
    }
  }

  /** The same for sessions and bindings together, where nothing leaks. */
  lemma ForgottenIff(devices: set<Device>, before: seq<Event>, st: System, c: Connect, policy: Policy)
    requires Orderly(policy) && Runs(Initial(devices), before, policy, st) && Stored(st, c)
    ensures Forgotten(DoProcessDied(st, c), policy, c.owner) <==> CallsOver(st.calls, c.owner)
  {
    var dead := DoProcessDied(st, c);
    InitialSound(devices);
    RunSound(Initial(devices), before, policy, st);
    SessionsForgottenIff(st, c, policy);
    InitialInv(devices);
    RunKeepsInv(Initial(devices), before, policy, st);
    ProcessDiedKeepsInv(st, c);
    hide Runs, Quiescent, Inv, Sound, DoProcessDied, Stored;
    forall run, last | Runs(dead, run, policy, last) && Quiescent(last) && NoSessionOf(last, c.owner)
      ensures NoBindingOf(last, c.owner)
    {
      RunKeepsInv(dead, run, policy, last);
      QuiescentHasNoLeak(last);
    }
  }
}

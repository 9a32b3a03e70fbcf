/** Leaked bindings, state by state.  Module ConnectAssumptions says under which network policies no
    run ever leaks; this module says exactly from which states the traffic can settle with a leaked
    binding, whatever the policy, and exactly which events lead into them. */
module ConnectLeaks {
  import opened ConnectTable
  import opened ConnectProtocol
  import opened ConnectSettling
  import opened ConnectRest

  // ---------------------------------------------------------------- accounted bindings

  /** A session of c at d that will still be there at rest. */
  ghost predicate Kept(st: System, c: Connect, d: Device)
    requires c.Connect?
  {
    !Cleaning(st, c, d) && (IsLive(st, c, d) || ReplyPending(st.calls, c, d))
  }

  /** A request for c caught at d by a broken link. */
  ghost predicate OrphanAt(st: System, c: Connect, d: Device) {
    exists r :: r in st.orphans && RequestOk(st.nodes.Keys, r) && r.connect == c && r.target == d
  }

  predicate MessageFor(st: System, c: Connect, d: Device)
    requires c.Connect?
  {
    Unbind(c, d) in st.messages || Died(c.owner, d) in st.messages
  }

  /** Something will certainly remove the binding: the sink's cleanup, or a message that cannot be lost. */
  predicate RemovalSure(st: System, c: Connect, d: Device)
    requires c.Connect?
  {
    (d, Source(c)) in st.sinkCleanup || (Up(st, Source(c), d) && MessageFor(st, c, d))
  }

  /** Whatever happens, a binding of c at d will have its session at rest: the session stays; or no
      caught request can bind it late, no call can bind it before its session is dropped, and if it is
      bound it will be removed. */
  ghost predicate Accounted(st: System, policy: Policy, c: Connect, d: Device)
    requires c.Connect?
  {
    || Kept(st, c, d)
    || (&& (policy.orphansBeforeCleanup || !OrphanAt(st, c, d))
        && !(Cleaning(st, c, d) && AskPending(st.calls, c, d) && Up(st, Source(c), d))
        && (IsBound(st, c, d) ==> RemovalSure(st, c, d)))
  }

  ghost predicate NoLooseEnd(st: System, policy: Policy) {
    forall c: Connect, d: Device :: c.Connect? ==> Accounted(st, policy, c, d)
  }

  lemma NoLeakMeans(st: System)
    requires Sound(st)
    ensures NoLeak(st) <==> forall c, d :: IsBound(st, c, d) ==> IsLive(st, c, d)
  {
    assert forall d :: d in st.nodes ==> BindingsNodeOk(st.nodes.Keys, d, st.nodes[d].bindings);
    hide Live, NodesOk;
    if NoLeak(st) {
      assert forall c, d :: IsBound(st, c, d) ==> IsLive(st, c, d);
    } else {
      var d, c :| d in st.nodes && c in st.nodes[d].bindings
                  && !(c.Connect? && Source(c) in st.nodes && Live(st.nodes[Source(c)].table, c, d));
      assert IsBound(st, c, d) && !IsLive(st, c, d);
    }
  }

  lemma AccountedAtRest(st: System, policy: Policy, c: Connect, d: Device)
    requires Quiescent(st) && c.Connect?
    ensures Accounted(st, policy, c, d) <==> (IsBound(st, c, d) ==> IsLive(st, c, d))
  {
    hide IsLive, IsBound;
  }

  lemma RestIsLeakFreeIff(st: System, policy: Policy)
    requires Sound(st) && Quiescent(st)
    ensures NoLeak(st) <==> NoLooseEnd(st, policy)
  {
    NoLeakMeans(st);
    assert forall c, d :: IsBound(st, c, d) ==> c.Connect?;
    hide Sound, IsLive, IsBound, NoLeak, Accounted, Quiescent;
    forall c: Connect, d: Device | c.Connect?
      ensures Accounted(st, policy, c, d) <==> (IsBound(st, c, d) ==> IsLive(st, c, d))
    {
      AccountedAtRest(st, policy, c, d);
    }
  }

  // ---------------------------------------------------------------- settling keeps bindings accounted

  /** Between a state and its successor only these things count for c at d. */
  lemma AccountedKept(st: System, after: System, policy: Policy, c: Connect, d: Device)
    requires c.Connect? && Accounted(st, policy, c, d)
    requires Kept(st, c, d) ==> Kept(after, c, d)
    requires OrphanAt(after, c, d) ==> OrphanAt(st, c, d)
    requires Cleaning(after, c, d) ==> Cleaning(st, c, d)
    requires AskPending(after.calls, c, d) ==> AskPending(st.calls, c, d)
    requires Up(after, Source(c), d) ==> Up(st, Source(c), d)
    requires IsBound(after, c, d) ==> IsBound(st, c, d) && (RemovalSure(st, c, d) ==> RemovalSure(after, c, d))
    ensures Accounted(after, policy, c, d)
  {
    hide Kept, OrphanAt, AskPending, IsBound, RemovalSure;
  }

  /** The same where the traffic of c at d changes but not its links, cleanups and messages. */
  lemma SameLinks(st: System, after: System, c: Connect, d: Device)
    requires c.Connect? && after.down == st.down && after.messages == st.messages
    requires after.srcCleanup == st.srcCleanup && after.sinkCleanup == st.sinkCleanup
    ensures Cleaning(after, c, d) <==> Cleaning(st, c, d)
    ensures Up(after, Source(c), d) <==> Up(st, Source(c), d)
    ensures RemovalSure(after, c, d) <==> RemovalSure(st, c, d)
  {
  }

  lemma SameOrphans(st: System, after: System, c: Connect, d: Device)
    requires after.nodes.Keys == st.nodes.Keys && after.orphans <= st.orphans
    ensures OrphanAt(after, c, d) ==> OrphanAt(st, c, d)
  {
  }

  lemma ExecuteEffect(st: System, k: nat, c: Connect, d: Device)
    requires Sound(st) && CanExecute(st, k)
    ensures var r, after := st.calls[k].request, DoExecute(st, k, true);
            && (IsLive(after, c, d) <==> IsLive(st, c, d))
            && (IsBound(after, c, d) <==> IsBound(st, c, d) || (c == r.connect && d == r.target))
            && after.nodes.Keys == st.nodes.Keys
  {
    var r, after := st.calls[k].request, DoExecute(st, k, true);
    AcceptEffect(st, r, c, d);
    assert after.nodes == Accept(st, r).nodes;
    hide Sound, Live;
  }

  lemma ExecuteAccounted(st: System, k: nat, policy: Policy, c: Connect, d: Device)
    requires Sound(st) && CanExecute(st, k) && c.Connect? && Accounted(st, policy, c, d)
    ensures Accounted(DoExecute(st, k, true), policy, c, d)
  {
    hide Sound, IsLive, IsBound, RemovalSure, Kept;
    var r, after := st.calls[k].request, DoExecute(st, k, true);
    assert after.calls == st.calls[k := st.calls[k].(phase := Answered(true))];
    ExecuteEffect(st, k, c, d);
    SameLinks(st, after, c, d);
    SameOrphans(st, after, c, d);
    RepliesSurvive(st.calls, after.calls, k);
    KeptMeans(st, c, d);
    KeptMeans(after, c, d);
    if r.connect == c && r.target == d {
      assert Concerns(st.calls[k], c, d) && MayAsk(st.calls[k]) && AskPending(st.calls, c, d);
      assert after.calls[k].phase == Answered(true) && ReplyPending(after.calls, c, d);
      hide ReplyPending, AskPending, DoExecute, OrphanAt, Cleaning;
    } else {
      CallsRecede(st.calls, after.calls, c, d);
      hide ReplyPending, AskPending, DoExecute, OrphanAt, Cleaning, Accounted;
      AccountedKept(st, after, policy, c, d);
    }
  }

  lemma RunOrphanAccounted(st: System, r: Request, policy: Policy, c: Connect, d: Device)
    requires Sound(st) && CanRunOrphan(st, r, policy) && c.Connect? && Accounted(st, policy, c, d)
    ensures Accounted(DoRunOrphan(st, r), policy, c, d)
  {
    var after := DoRunOrphan(st, r);
    AcceptEffect(st, r, c, d);
    assert IsLive(after, c, d) <==> IsLive(Accept(st, r), c, d);
    assert IsBound(after, c, d) <==> IsBound(Accept(st, r), c, d);
    SameLinks(st, after, c, d);
    SameOrphans(st, after, c, d);
    assert r.connect == c && r.target == d ==> OrphanAt(st, c, d);
    assert (r.target, Source(r.connect)) in st.sinkCleanup && r.connect == c && r.target == d ==> RemovalSure(st, c, d);
    hide Sound, IsLive, IsBound, ReplyPending, AskPending, DoRunOrphan, OrphanAt, RemovalSure, Cleaning;
  }

  lemma CommitAccounted(st: System, k: nat, policy: Policy, c: Connect, d: Device)
    requires Sound(st) && CanCommit(st, k) && c.Connect? && Accounted(st, policy, c, d)
    ensures Accounted(DoCommit(st, k), policy, c, d)
  {
    hide Sound, Mapped, IsLive, IsBound, Kept, RemovalSure, Accounted;
    var after := DoCommit(st, k);
    assert after.calls == st.calls - {k} && after.nodes.Keys == st.nodes.Keys;
    CommitEffect(st, k, c, d);
    CallsRecede(st.calls, after.calls, c, d);
    SameLinks(st, after, c, d);
    SameOrphans(st, after, c, d);
    OtherReplies(st.calls, k, c, d);
    hide ReplyPending, AskPending, DoCommit, OrphanAt, Cleaning;
    KeptMeans(st, c, d);
    KeptMeans(after, c, d);
    AccountedKept(st, after, policy, c, d);
  }

  lemma KeptMeans(st: System, c: Connect, d: Device)
    requires c.Connect?
    ensures Kept(st, c, d) <==> !Cleaning(st, c, d) && (IsLive(st, c, d) || ReplyPending(st.calls, c, d))
  {
  }

  lemma OtherReplies(calls: map<nat, Call>, k: nat, c: Connect, d: Device)
    requires k in calls
    ensures ReplyPending(calls, c, d) ==> ReplyPending(calls - {k}, c, d) || Concerns(calls[k], c, d)
  {
    if ReplyPending(calls, c, d) {
      var j :| j in calls && calls[j].phase == Answered(true)
               && calls[j].request.connect == c && calls[j].request.target == d;
      assert j != k ==> j in calls - {k} && (calls - {k})[j] == calls[j];
    }
  }

  /** A call that comes no closer to a commit. */
  lemma CallAccounted(st: System, after: System, k: nat, policy: Policy, c: Connect, d: Device)
    requires c.Connect? && Accounted(st, policy, c, d) && after == st.(calls := after.calls)
    requires k in st.calls && st.calls[k].phase != Answered(true)
    requires after.calls == st.calls - {k}
             || (&& k in after.calls && after.calls == st.calls[k := after.calls[k]]
                 && after.calls[k].request == st.calls[k].request
                 && after.calls[k].phase != Answered(true) && (MayAsk(after.calls[k]) ==> MayAsk(st.calls[k])))
    ensures Accounted(after, policy, c, d)
  {
    CallsRecede(st.calls, after.calls, c, d);
    RepliesSurvive(st.calls, after.calls, k);
    SameLinks(st, after, c, d);
    SameOrphans(st, after, c, d);
    KeptMeans(st, c, d);
    KeptMeans(after, c, d);
    hide ReplyPending, AskPending, OrphanAt, Cleaning, Live, RemovalSure, Kept, Accounted;
    AccountedKept(st, after, policy, c, d);
  }

  lemma LostAccounted(st: System, ev: Event, policy: Policy, c: Connect, d: Device)
    requires Enabled(st, ev, policy) && (ev.Lose? || ev.LoseOrphan?) && c.Connect? && Accounted(st, policy, c, d)
    ensures Accounted(Apply(st, ev, policy), policy, c, d)
  {
    var after := Apply(st, ev, policy);
    SameOrphans(st, after, c, d);
    hide Live, ReplyPending, AskPending, OrphanAt;
    AccountedKept(st, after, policy, c, d);
  }

  lemma LossAccounted(st: System, ev: Event, policy: Policy, c: Connect, d: Device)
    requires Enabled(st, ev, policy) && c.Connect? && Accounted(st, policy, c, d)
    requires ev.FailCall? || (ev.Execute? && !ev.ok) || ev.Retry? || ev.GiveUp? || ev.Lose? || ev.LoseOrphan?
    ensures Accounted(Apply(st, ev, policy), policy, c, d)
  {
    hide Accounted;
    if ev.Lose? || ev.LoseOrphan? {
      LostAccounted(st, ev, policy, c, d);
    } else {
      CallAccounted(st, Apply(st, ev, policy), ev.k, policy, c, d);
    }
  }

  /** A delivered message leaves only bindings that it is not for. */
  lemma DeliverEffect(st: System, m: Message, again: bool, c: Connect, d: Device)
    requires Sound(st) && CanDeliver(st, m) && c.Connect?
    ensures IsLive(DoDeliver(st, m, again), c, d) <==> IsLive(st, c, d)
    ensures IsBound(DoDeliver(st, m, again), c, d) ==> IsBound(st, c, d) && m != Unbind(c, d) && m != Died(c.owner, d)
  {
    assert m.to == d && c in st.nodes[d].bindings ==> st.nodes[d].bindings[c].caller == c.owner by {
      assert m.to == d ==> BindingsNodeOk(st.nodes.Keys, d, st.nodes[d].bindings);
    }
    hide Sound, Live;
  }

  lemma DeliverAccounted(st: System, m: Message, again: bool, policy: Policy, c: Connect, d: Device)
    requires Sound(st) && CanDeliver(st, m) && c.Connect? && Accounted(st, policy, c, d)
    ensures Accounted(DoDeliver(st, m, again), policy, c, d)
  {
    hide Sound, IsLive, IsBound, Accounted;
    var after := DoDeliver(st, m, again);
    DeliverEffect(st, m, again, c, d);
    SameOrphans(st, after, c, d);
    hide OrphanAt;
    AccountedKept(st, after, policy, c, d);
  }

  lemma CleanSinkAccounted(st: System, a: Device, b: Device, policy: Policy, c: Connect, d: Device)
    requires Sound(st) && CanCleanSink(st, a, b) && c.Connect? && Accounted(st, policy, c, d)
    ensures Accounted(DoCleanSink(st, a, b), policy, c, d)
  {
    var after := DoCleanSink(st, a, b);
    assert a == d && c in st.nodes[d].bindings ==> st.nodes[d].bindings[c].caller == c.owner by {
      assert BindingsNodeOk(st.nodes.Keys, a, st.nodes[a].bindings);
    }
    SameOrphans(st, after, c, d);
    hide Live, ReplyPending, AskPending, NodesOk, OrphanAt;
    AccountedKept(st, after, policy, c, d);
  }

  lemma CleanSourceAccounted(st: System, a: Device, b: Device, policy: Policy, c: Connect, d: Device)
    requires Sound(st) && CanCleanSource(st, a, b) && c.Connect? && Accounted(st, policy, c, d)
    ensures Accounted(DoCleanSource(st, a, b), policy, c, d)
  {
    var t, after := WithoutDevice(st.nodes[a].table, b), DoCleanSource(st, a, b);
    assert TableNodeOk(a, st.nodes[a].table);
    WithoutDeviceOk(st.nodes[a].table, b);
    TableEffect(st, a, t, c, d);
    SameOrphans(st, after, c, d);
    hide Sound, Live, ReplyPending, AskPending, TableOk, OrphanAt, WithoutDevice, WithTable, IsBound;
    AccountedKept(st, after, policy, c, d);
  }

  lemma SettlingAccounted(st: System, ev: Event, policy: Policy, c: Connect, d: Device)
    requires Sound(st) && Settling(ev) && Enabled(st, ev, policy) && c.Connect? && Accounted(st, policy, c, d)
    ensures Accounted(Apply(st, ev, policy), policy, c, d)
  {
    hide Sound, Accounted, CanRunOrphan;
    match ev {
      case Execute(k, ok) =>
        if ok { ExecuteAccounted(st, k, policy, c, d); } else { LossAccounted(st, ev, policy, c, d); }
      case Commit(k) => CommitAccounted(st, k, policy, c, d);
      case Deliver(m, again) => DeliverAccounted(st, m, again, policy, c, d);
      case RunOrphan(r) => RunOrphanAccounted(st, r, policy, c, d);
      case CleanSource(a, b) => CleanSourceAccounted(st, a, b, policy, c, d);
      case CleanSink(a, b) => CleanSinkAccounted(st, a, b, policy, c, d);
      case _ => LossAccounted(st, ev, policy, c, d);
    }
  }

  lemma {:induction false} SettlingKeepsAccounts(st: System, run: seq<Event>, policy: Policy, last: System)
    requires Sound(st) && NoLooseEnd(st, policy) && Settles(st, run, policy, last)
    ensures Sound(last) && NoLooseEnd(last, policy)
    decreases |run|
  {
    hide Sound, Accounted, Enabled, Apply;
    if run != [] {
      StepSound(st, run[0], policy);
      forall c: Connect, d: Device | c.Connect? ensures Accounted(Apply(st, run[0], policy), policy, c, d) {
        SettlingAccounted(st, run[0], policy, c, d);
      }
      SettlingKeepsAccounts(Apply(st, run[0], policy), run[1..], policy, last);
    }
  }

  // ---------------------------------------------------------------- a loose end leaks

  /** No session of c at d will be there once the calls are over and the cleanups done. */
  ghost predicate Fading(st: System, c: Connect, d: Device) {
    c.Connect? && !Kept(st, c, d)
  }

  /** A binding that nothing will remove. */
  predicate Stuck(st: System, c: Connect, d: Device) {
    c.Connect? && IsBound(st, c, d) && !RemovalPending(st, c, d)
  }

  lemma CommitFades(st: System, k: nat, c: Connect, d: Device)
    requires Sound(st) && CanCommit(st, k) && Fading(st, c, d)
    ensures Fading(DoCommit(st, k), c, d)
  {
    var after := DoCommit(st, k);
    assert after.calls == st.calls - {k} && after.srcCleanup == st.srcCleanup;
    CommitEffect(st, k, c, d);
    CallsRecede(st.calls, after.calls, c, d);
    assert Concerns(st.calls[k], c, d) ==> ReplyPending(st.calls, c, d);
    hide Sound, IsLive, ReplyPending, AskPending, DoCommit, CanCommit;
  }

  lemma CleaningFades(st: System, a: Device, b: Device, c: Connect, d: Device)
    requires Sound(st) && CanCleanSource(st, a, b) && st.calls == map[] && Fading(st, c, d)
    ensures Fading(DoCleanSource(st, a, b), c, d)
  {
    var t := WithoutDevice(st.nodes[a].table, b);
    assert TableNodeOk(a, st.nodes[a].table);
    WithoutDeviceOk(st.nodes[a].table, b);
    TableEffect(st, a, t, c, d);
    hide Sound, TableOk, Live, WithoutDevice, WithTable;
  }

  lemma LiveStays(st: System, ev: Event, policy: Policy, c: Connect, d: Device)
    requires Draining(ev) && !ev.Commit? && !ev.CleanSource? && Enabled(st, ev, policy)
    ensures IsLive(Apply(st, ev, policy), c, d) ==> IsLive(st, c, d)
  {
    hide Live, RequestOk, Up, Bound, UnboundCaller, UnboundDevice, CanBegin;
  }

  lemma DrainingFades(st: System, ev: Event, policy: Policy, c: Connect, d: Device)
    requires Sound(st) && Draining(ev) && Enabled(st, ev, policy) && (ev.CleanSource? ==> st.calls == map[])
    requires Fading(st, c, d)
    ensures Fading(Apply(st, ev, policy), c, d)
  {
    hide Sound;
    if ev.Commit? {
      CommitFades(st, ev.k, c, d);
      hide Fading;
    } else if ev.CleanSource? {
      CleaningFades(st, ev.a, ev.b, c, d);
      hide Fading;
    } else {
      LiveStays(st, ev, policy, c, d);
      DrainingRecedes(st, ev, policy, c, d);
      hide IsLive, ReplyPending, Apply, Enabled, Draining;
    }
  }

  lemma DrainingRecedes(st: System, ev: Event, policy: Policy, c: Connect, d: Device)
    requires Draining(ev) && !ev.Commit? && !ev.CleanSource? && Enabled(st, ev, policy)
    ensures ReplyPending(Apply(st, ev, policy).calls, c, d) ==> ReplyPending(st.calls, c, d)
    ensures Apply(st, ev, policy).srcCleanup == st.srcCleanup
  {
    hide RequestOk, Up, UnboundCaller, UnboundDevice, ReplyPending, AskPending;
    CallsRecede(st.calls, Apply(st, ev, policy).calls, c, d);
  }

  lemma DeliverySparesStuck(st: System, m: Message, again: bool, c: Connect, d: Device)
    requires Sound(st) && CanDeliver(st, m) && Stuck(st, c, d)
    ensures Stuck(DoDeliver(st, m, again), c, d)
  {
    assert BindingsNodeOk(st.nodes.Keys, d, st.nodes[d].bindings);
    assert st.nodes[d].bindings[c].caller == c.owner;
    hide Sound, BindingsNodeOk;
  }

  lemma CleanupSparesStuck(st: System, a: Device, b: Device, c: Connect, d: Device)
    requires Sound(st) && CanCleanSink(st, a, b) && Stuck(st, c, d)
    ensures Stuck(DoCleanSink(st, a, b), c, d)
  {
    assert BindingsNodeOk(st.nodes.Keys, d, st.nodes[d].bindings);
    assert st.nodes[d].bindings[c].caller == c.owner;
    hide Sound, BindingsNodeOk;
  }

  lemma BindingsStay(st: System, ev: Event, policy: Policy, c: Connect, d: Device)
    requires Draining(ev) && !ev.Deliver? && !ev.CleanSink? && Enabled(st, ev, policy)
    ensures IsBound(st, c, d) ==> IsBound(Apply(st, ev, policy), c, d)
    ensures Apply(st, ev, policy).messages == st.messages && Apply(st, ev, policy).sinkCleanup == st.sinkCleanup
  {
    hide Mapped, WithoutDevice, Up;
  }

  lemma DrainingKeepsStuck(st: System, ev: Event, policy: Policy, c: Connect, d: Device)
    requires Sound(st) && Draining(ev) && Enabled(st, ev, policy) && Stuck(st, c, d)
    ensures Stuck(Apply(st, ev, policy), c, d)
  {
    hide Sound;
    if ev.Deliver? {
      DeliverySparesStuck(st, ev.message, ev.again, c, d);
      hide Stuck;
    } else if ev.CleanSink? {
      CleanupSparesStuck(st, ev.a, ev.b, c, d);
      hide Stuck;
    } else {
      BindingsStay(st, ev, policy, c, d);
      hide IsBound, Apply, Enabled, Draining;
    }
  }

  lemma OrphansStay(st: System, ev: Event, policy: Policy)
    requires Draining(ev) && !ev.LoseOrphan? && Enabled(st, ev, policy)
    ensures Apply(st, ev, policy).orphans == st.orphans && Apply(st, ev, policy).nodes.Keys == st.nodes.Keys
  {
    hide Mapped, WithoutDevice, UnboundCaller, UnboundDevice;
  }

  /** One event of draining. */
  lemma DrainTrafficOnce(st: System, policy: Policy) returns (ev: Event, next: System)
    requires Sound(st) && Busy(st)
    ensures Step(st, ev, next, policy) && Settling(ev) && Sound(next) && Load(next) < Load(st)
    ensures next.orphans == st.orphans && next.nodes.Keys == st.nodes.Keys
    ensures forall c, d :: Fading(st, c, d) ==> Fading(next, c, d)
    ensures forall c, d :: Stuck(st, c, d) ==> Stuck(next, c, d)
  {
    hide Sound, Enabled, Apply, Fading, Stuck, Load, Busy;
    ev := DrainTraffic(st, policy);
    next := Apply(st, ev, policy);
    StepSound(st, ev, policy);
    OrphansStay(st, ev, policy);
    forall c, d | Fading(st, c, d) ensures Fading(next, c, d) { DrainingFades(st, ev, policy, c, d); }
    forall c, d | Stuck(st, c, d) ensures Stuck(next, c, d) { DrainingKeepsStuck(st, ev, policy, c, d); }
  }

  /** All traffic but the caught requests settles, calls first. */
  lemma {:induction false} DrainToOrphans(st: System, policy: Policy) returns (run: seq<Event>, last: System)
    requires Sound(st)
    ensures Settles(st, run, policy, last) && Sound(last) && !Busy(last)
    ensures last.orphans == st.orphans && last.nodes.Keys == st.nodes.Keys
    ensures forall c, d :: Fading(st, c, d) ==> Fading(last, c, d)
    ensures forall c, d :: Stuck(st, c, d) ==> Stuck(last, c, d)
    decreases Load(st)
  {
    assert Settles(st, [], policy, st);
    hide Sound, Step, Fading, Stuck, Load, Busy, Settling, Settles;
    if !Busy(st) {
      run, last := [], st;
    } else {
      var ev, next := DrainTrafficOnce(st, policy);
      run, last := DrainToOrphans(next, policy);
      SettlesStep(st, ev, next, run, policy, last);
      run := [ev] + run;
    }
  }

  /** The caught requests are lost. */
  lemma {:induction false} LoseOrphans(st: System, policy: Policy) returns (run: seq<Event>, last: System)
    ensures Settles(st, run, policy, last) && last == st.(orphans := {})
    decreases |st.orphans|
  {
    if st.orphans == {} {
      run, last := [], st;
    } else {
      var r :| r in st.orphans;
      var next := st.(orphans := st.orphans - {r});
      assert Enabled(st, LoseOrphan(r), policy) && Apply(st, LoseOrphan(r), policy) == next;
      hide Enabled, Apply, Runs;
      run, last := LoseOrphans(next, policy);
      RunsStep(st, LoseOrphan(r), next, run, policy, last);
      run := [LoseOrphan(r)] + run;
    }
  }

  /** A stuck binding whose session fades is leaked. */
  lemma StuckLeaks(st: System, first: seq<Event>, mid: System, policy: Policy, c: Connect, d: Device)
    returns (run: seq<Event>, last: System)
    requires Sound(mid) && Settles(st, first, policy, mid) && Stuck(mid, c, d) && Fading(mid, c, d)
    ensures Settles(st, run, policy, last) && Quiescent(last) && !NoLeak(last)
  {
    hide Runs, Sound;
    var second, quiet := DrainToOrphans(mid, policy);
    var third;
    third, last := LoseOrphans(quiet, policy);
    JoinRuns(mid, second, quiet, third, policy, last);
    JoinRuns(st, first, mid, second + third, policy, last);
    run := first + (second + third);
    LeakedAtRest(quiet, last, c, d);
  }

  lemma LeakedAtRest(quiet: System, last: System, c: Connect, d: Device)
    requires Sound(quiet) && !Busy(quiet) && last == quiet.(orphans := {})
    requires Stuck(quiet, c, d) && Fading(quiet, c, d)
    ensures Quiescent(last) && !NoLeak(last)
  {
    assert !IsLive(quiet, c, d) && c in last.nodes[d].bindings;
    hide Sound, Live;
  }

  lemma SettlesOne(st: System, ev: Event, policy: Policy)
    requires Enabled(st, ev, policy) && Settling(ev)
    ensures Settles(st, [ev], policy, Apply(st, ev, policy))
  {
    hide Enabled, Apply;
    OneEvent(st, ev, policy);
  }

  lemma SettlesJoin(st: System, first: seq<Event>, mid: System, second: seq<Event>, policy: Policy, last: System)
    requires Settles(st, first, policy, mid) && Settles(mid, second, policy, last)
    ensures Settles(st, first + second, policy, last)
  {
    hide Runs;
    JoinRuns(st, first, mid, second, policy, last);
  }

  /** A caught request is carried out after everything else. */
  lemma LateRequestLeaks(st: System, policy: Policy, c: Connect, d: Device) returns (run: seq<Event>, last: System)
    requires Sound(st) && Fading(st, c, d) && OrphanAt(st, c, d) && !policy.orphansBeforeCleanup
    ensures Settles(st, run, policy, last) && Quiescent(last) && !NoLeak(last)
  {
    var r :| r in st.orphans && RequestOk(st.nodes.Keys, r) && r.connect == c && r.target == d;
    hide Sound, Settles, Fading, Stuck;
    var first, quiet := DrainToOrphans(st, policy);
    var ev, mid := RunOrphan(r), DoRunOrphan(quiet, r);
    SettlesOne(quiet, ev, policy);
    RunOrphanSound(quiet, r);
    BoundLate(quiet, r);
    SettlesJoin(st, first, quiet, [ev], policy, mid);
    run, last := StuckLeaks(st, first + [ev], mid, policy, c, d);
  }

  lemma BoundLate(st: System, r: Request)
    requires Sound(st) && !Busy(st) && RequestOk(st.nodes.Keys, r) && Fading(st, r.connect, r.target)
    ensures Stuck(DoRunOrphan(st, r), r.connect, r.target) && Fading(DoRunOrphan(st, r), r.connect, r.target)
  {
    AcceptEffect(st, r, r.connect, r.target);
    hide Sound, Live, ReplyPending;
  }

  /** A message for c at d that finds its link broken is lost. */
  lemma LoseOne(st: System, m: Message, policy: Policy, c: Connect, d: Device)
    returns (run: seq<Event>, last: System)
    requires Sound(st) && c.Connect? && (m == Unbind(c, d) || m == Died(c.owner, d)) && !Up(st, Source(c), d)
    ensures Settles(st, run, policy, last) && Sound(last) && last == st.(messages := st.messages - {m})
  {
    run, last := [], st;
    assert Settles(st, [], policy, st);
    if m in st.messages {
      StepSound(st, Lose(m), policy);
      SettlesOne(st, Lose(m), policy);
      run, last := [Lose(m)], DoLose(st, m);
    }
  }

  /** A binding that only messages over a broken link would remove. */
  lemma LostRemovalLeaks(st: System, policy: Policy, c: Connect, d: Device) returns (run: seq<Event>, last: System)
    requires Sound(st) && Fading(st, c, d) && IsBound(st, c, d) && !RemovalSure(st, c, d)
    ensures Settles(st, run, policy, last) && Quiescent(last) && !NoLeak(last)
  {
    hide Sound, Settles, Live, ReplyPending;
    if Up(st, Source(c), d) {
      assert Settles(st, [], policy, st) by { StandsStill(st, policy); }
      run, last := StuckLeaks(st, [], st, policy, c, d);
    } else {
      var first, s1 := LoseOne(st, Unbind(c, d), policy, c, d);
      var second, s2 := LoseOne(s1, Died(c.owner, d), policy, c, d);
      SettlesJoin(st, first, s1, second, policy, s2);
      run, last := StuckLeaks(st, first + second, s2, policy, c, d);
    }
  }

  lemma StandsStill(st: System, policy: Policy)
    ensures Settles(st, [], policy, st)
  {
  }

  /** A message for c at d is delivered, if there is one. */
  lemma DeliverOne(st: System, m: Message, policy: Policy) returns (run: seq<Event>, last: System)
    requires Sound(st)
    ensures Settles(st, run, policy, last) && Sound(last) && last.nodes.Keys == st.nodes.Keys
    ensures last == st.(nodes := last.nodes, messages := st.messages - {m})
  {
    run, last := [], st;
    StandsStill(st, policy);
    if m in st.messages {
      assert m.to in st.nodes;
      StepSound(st, Deliver(m, false), policy);
      SettlesOne(st, Deliver(m, false), policy);
      hide Sound;
      run, last := [Deliver(m, false)], DoDeliver(st, m, false);
      assert last.nodes.Keys == st.nodes.Keys;
    }
  }

  /** The cleanup of d's bindings for a runs, if it is queued. */
  lemma CleanSinkFirst(st: System, d: Device, a: Device, policy: Policy) returns (run: seq<Event>, last: System)
    requires Sound(st) && d in st.nodes && a != d
    ensures Settles(st, run, policy, last) && Sound(last) && last.nodes.Keys == st.nodes.Keys
    ensures last == st.(nodes := last.nodes, srcCleanup := st.srcCleanup - {(d, a)},
                        sinkCleanup := st.sinkCleanup - {(d, a)})
  {
    hide Sound, Settles;
    var mid;
    run, mid := CleanFirst(st, d, a, policy);
    last := mid;
    if (d, a) in mid.sinkCleanup {
      assert CanCleanSink(mid, d, a);
      StepSound(mid, CleanSink(d, a), policy);
      SettlesOne(mid, CleanSink(d, a), policy);
      last := DoCleanSink(mid, d, a);
      SettlesJoin(st, run, mid, [CleanSink(d, a)], policy, last);
      run := run + [CleanSink(d, a)];
      assert last.nodes.Keys == mid.nodes.Keys;
    }
  }

  /** Nothing is on its way any more that would remove the binding of c at d. */
  lemma ClearRemovals(st: System, policy: Policy, c: Connect, d: Device) returns (run: seq<Event>, last: System)
    requires Sound(st) && c.Connect? && d in st.nodes && d != Source(c)
    ensures Settles(st, run, policy, last) && Sound(last) && !RemovalPending(last, c, d)
    ensures last.calls == st.calls && last.down == st.down && last.nodes.Keys == st.nodes.Keys
    ensures Cleaning(st, c, d) ==> Cleaning(last, c, d)
  {
    hide Sound, Settles;
    var first, s1 := DeliverOne(st, Unbind(c, d), policy);
    var second, s2 := DeliverOne(s1, Died(c.owner, d), policy);
    var third, s3 := CleanSinkFirst(s2, d, Source(c), policy);
    SettlesJoin(s1, second, s2, third, policy, s3);
    SettlesJoin(st, first, s1, second + third, policy, s3);
    run, last := first + (second + third), s3;
  }

  /** The sink accepts an asked call whose session will be dropped. */
  lemma AcceptedLate(st: System, k: nat, policy: Policy) returns (run: seq<Event>, last: System)
    requires Sound(st) && CanExecute(st, k)
    requires var r := st.calls[k].request; Cleaning(st, r.connect, r.target) && !RemovalPending(st, r.connect, r.target)
    ensures var r := st.calls[k].request;
            && Settles(st, run, policy, last) && Sound(last)
            && Stuck(last, r.connect, r.target) && Fading(last, r.connect, r.target)
  {
    var r := st.calls[k].request;
    ExecuteSound(st, k);
    ExecuteEffect(st, k, r.connect, r.target);
    SettlesOne(st, Execute(k, true), policy);
    hide Sound, Settles, IsBound, ReplyPending, IsLive;
    run, last := [Execute(k, true)], DoExecute(st, k, true);
  }

  lemma RetriedLate(st: System, k: nat, policy: Policy) returns (run: seq<Event>, last: System)
    requires Sound(st) && CanRetry(st, k)
    requires var r := st.calls[k].request;
             && Cleaning(st, r.connect, r.target) && !RemovalPending(st, r.connect, r.target)
             && Up(st, Source(r.connect), r.target)
    ensures var r := st.calls[k].request;
            && Settles(st, run, policy, last) && Sound(last)
            && Stuck(last, r.connect, r.target) && Fading(last, r.connect, r.target)
  {
    var next := DoRetry(st, k);
    StepSound(st, Retry(k), policy);
    SettlesOne(st, Retry(k), policy);
    CallIsOk(st, k);
    hide Sound, Settles, Stuck, Fading;
    run, last := AcceptedLate(next, k, policy);
    SettlesJoin(st, [Retry(k)], next, run, policy, last);
    run := [Retry(k)] + run;
  }

  lemma DroppedSessionLeaks(st: System, policy: Policy, c: Connect, d: Device) returns (run: seq<Event>, last: System)
    requires Sound(st) && c.Connect? && Cleaning(st, c, d) && AskPending(st.calls, c, d) && Up(st, Source(c), d)
    ensures Settles(st, run, policy, last) && Quiescent(last) && !NoLeak(last)
  {
    var k :| k in st.calls && Concerns(st.calls[k], c, d) && MayAsk(st.calls[k]);
    CallIsOk(st, k);
    assert d in st.nodes && d != Source(c);
    hide Sound, Settles, Stuck, Fading;
    var first, clear := ClearRemovals(st, policy, c, d);
    var second, mid;
    if clear.calls[k].phase == Asked {
      second, mid := AcceptedLate(clear, k, policy);
    } else {
      second, mid := RetriedLate(clear, k, policy);
    }
    SettlesJoin(st, first, clear, second, policy, mid);
    run, last := StuckLeaks(st, first + second, mid, policy, c, d);
  }

  lemma LooseEndLeaks(st: System, policy: Policy, c: Connect, d: Device) returns (run: seq<Event>, last: System)
    requires Sound(st) && c.Connect? && !Accounted(st, policy, c, d)
    ensures Settles(st, run, policy, last) && Quiescent(last) && !NoLeak(last)
  {
    hide Sound, Settles, Kept, OrphanAt, AskPending, IsBound, RemovalSure, Cleaning;
    if !policy.orphansBeforeCleanup && OrphanAt(st, c, d) {
      run, last := LateRequestLeaks(st, policy, c, d);
    } else if Cleaning(st, c, d) && AskPending(st.calls, c, d) && Up(st, Source(c), d) {
      run, last := DroppedSessionLeaks(st, policy, c, d);
    } else {
      run, last := LostRemovalLeaks(st, policy, c, d);
    }
  }

  /** However the traffic settles, no binding is leaked. */
  ghost predicate SettlesLeakFree(st: System, policy: Policy) {
    forall run, last :: Settles(st, run, policy, last) && Quiescent(last) ==> NoLeak(last)
  }

  /** A state settles without a leaked binding, whatever the order of events, if and only if every
      binding, present or possible, is accounted for. */
  lemma SettlesLeakFreeIff(st: System, policy: Policy)
    requires Sound(st)
    ensures SettlesLeakFree(st, policy) <==> NoLooseEnd(st, policy)
  {
    hide Sound, Settles, Quiescent, NoLeak, Accounted;
    if NoLooseEnd(st, policy) {
      forall run, last | Settles(st, run, policy, last) && Quiescent(last) ensures NoLeak(last) {
        SettlingKeepsAccounts(st, run, policy, last);
        RestIsLeakFreeIff(last, policy);
      }
    } else {
      var c: Connect, d: Device :| c.Connect? && !Accounted(st, policy, c, d);
      var run, last := LooseEndLeaks(st, policy, c, d);
    }
  }

  // ---------------------------------------------------------------- which events lose a binding

  /** Without its session the binding of c at d would not be accounted for. */
  ghost predicate DependsOnSession(st: System, policy: Policy, c: Connect, d: Device)
    requires c.Connect?
  {
    && IsLive(st, c, d) && !Cleaning(st, c, d) && !ReplyPending(st.calls, c, d)
    && (|| (!policy.orphansBeforeCleanup && OrphanAt(st, c, d))
        || (IsBound(st, c, d) && (d, Source(c)) !in st.sinkCleanup && !Up(st, Source(c), d)))
  }

  ghost predicate CallerDepends(st: System, policy: Policy, caller: CallerInfo) {
    exists c: Connect, d: Device :: c.Connect? && c.owner == caller && DependsOnSession(st, policy, c, d)
  }

  /** The event leaves a binding that may never be removed. */
  ghost predicate Strays(st: System, ev: Event, policy: Policy)
    requires Enabled(st, ev, policy)
  {
    match ev
    // a connect over a link that is back before its old sessions are dropped
    case BeginConnect(k, r) => Up(st, Source(r.connect), r.target) && Cleaning(st, r.connect, r.target)
    // a disconnect, or the death of the caller, that cannot reach the sink or meets a caught request
    case Disconnect(c) => exists d :: DependsOnSession(st, policy, c, d)
    case ProcessDied(c) => CallerDepends(st, policy, c.owner)
    // a drop that catches a request which may be carried out after the sink's cleanup
    case LinkDrop(a, b, kept) =>
      !policy.orphansBeforeCleanup
      && exists r :: r in DoDrop(st, a, b, kept).orphans && RequestOk(st.nodes.Keys, r) && RequestOver(r, a, b)
    // a return while a call is under way and the old sessions are not dropped
    case LinkUp(a, b) =>
      exists k :: k in st.calls && MayAsk(st.calls[k]) && RequestOver(st.calls[k].request, a, b)
                  && Cleaning(st, st.calls[k].request.connect, st.calls[k].request.target)
    // a cancelled cleanup of a binding whose session is gone
    case CancelCleanup(a, b) =>
      exists c :: IsBound(st, c, a) && c.Connect? && Source(c) == b && !Kept(st, c, a)
                  && !(Up(st, b, a) && MessageFor(st, c, a))
    case _ => false
  }

  lemma BeginAccounts(st: System, k: nat, r: Request, policy: Policy, c: Connect, d: Device)
    requires CanBegin(st, k, r) && c.Connect? && Accounted(st, policy, c, d)
    ensures Accounted(DoBegin(st, k, r), policy, c, d)
            <==> !(c == r.connect && d == r.target && Up(st, Source(c), d) && Cleaning(st, c, d))
  {
    var after := DoBegin(st, k, r);
    RepliesSurvive(st.calls, after.calls, k);
    SameLinks(st, after, c, d);
    SameOrphans(st, after, c, d);
    if c == r.connect && d == r.target {
      assert Concerns(after.calls[k], c, d) && MayAsk(after.calls[k]) && AskPending(after.calls, c, d);
      assert ReplyPending(after.calls, c, d) ==> ReplyPending(st.calls, c, d);
      hide ReplyPending, AskPending, OrphanAt, IsLive, IsBound, RemovalSure, CanBegin;
    } else {
      CallsRecede(st.calls, after.calls, c, d);
      hide ReplyPending, AskPending, OrphanAt, IsLive, IsBound, RemovalSure, CanBegin;
      AccountedKept(st, after, policy, c, d);
    }
  }

  lemma BeginStraysIff(st: System, k: nat, r: Request, policy: Policy)
    requires NoLooseEnd(st, policy) && CanBegin(st, k, r)
    ensures NoLooseEnd(DoBegin(st, k, r), policy)
            <==> !(Up(st, Source(r.connect), r.target) && Cleaning(st, r.connect, r.target))
  {
    hide Accounted, DoBegin, Cleaning;
    forall c: Connect, d: Device | c.Connect?
      ensures Accounted(DoBegin(st, k, r), policy, c, d)
              <==> !(c == r.connect && d == r.target && Up(st, Source(c), d) && Cleaning(st, c, d))
    {
      BeginAccounts(st, k, r, policy, c, d);
    }
  }

  /** Forgetting the session of x at d and sending for its binding. */
  lemma ForgetAccounts(st: System, after: System, policy: Policy, x: Connect, d: Device, forgotten: bool)
    requires x.Connect? && Accounted(st, policy, x, d)
    requires after == st.(nodes := after.nodes, messages := after.messages) && after.nodes.Keys == st.nodes.Keys
    requires IsBound(after, x, d) <==> IsBound(st, x, d)
    requires IsLive(after, x, d) <==> IsLive(st, x, d) && !forgotten
    requires MessageFor(st, x, d) ==> MessageFor(after, x, d)
    requires forgotten && IsLive(st, x, d) ==> MessageFor(after, x, d)
    ensures Accounted(after, policy, x, d) <==> !(forgotten && DependsOnSession(st, policy, x, d))
  {
    assert OrphanAt(after, x, d) <==> OrphanAt(st, x, d);
    hide IsBound, IsLive, OrphanAt, ReplyPending, AskPending, MessageFor;
  }

  lemma DisconnectAccounts(st: System, c: Connect, policy: Policy, x: Connect, d: Device)
    requires Sound(st) && Stored(st, c) && x.Connect? && Accounted(st, policy, x, d)
    ensures Accounted(DoDisconnect(st, c), policy, x, d) <==> !(x == c && DependsOnSession(st, policy, x, d))
  {
    DisconnectEffect(st, c);
    hide Sound, IsLive, IsBound, Accounted, DependsOnSession;
    ForgetAccounts(st, DoDisconnect(st, c), policy, x, d, x == c);
  }

  lemma DisconnectStraysIff(st: System, c: Connect, policy: Policy)
    requires Sound(st) && NoLooseEnd(st, policy) && Stored(st, c)
    ensures NoLooseEnd(DoDisconnect(st, c), policy) <==> !exists d :: DependsOnSession(st, policy, c, d)
  {
    hide Sound, Accounted, DoDisconnect, DependsOnSession;
    forall x: Connect, d: Device | x.Connect?
      ensures Accounted(DoDisconnect(st, c), policy, x, d) <==> !(x == c && DependsOnSession(st, policy, x, d))
    {
      DisconnectAccounts(st, c, policy, x, d);
    }
  }

  lemma ProcessDiedMessages(st: System, c: Connect, x: Connect, d: Device)
    requires Sound(st) && Stored(st, c) && x.Connect?
    ensures MessageFor(DoProcessDied(st, c), x, d)
            <==> MessageFor(st, x, d) || (x.owner == c.owner && Reached(st, c.owner, d))
  {
    ObituariesReach(st, c);
    hide Sound, Obituaries, Reached;
  }

  lemma ProcessDiedAccounts(st: System, c: Connect, policy: Policy, x: Connect, d: Device)
    requires Sound(st) && Stored(st, c) && x.Connect? && Accounted(st, policy, x, d)
    ensures Accounted(DoProcessDied(st, c), policy, x, d)
            <==> !(x.owner == c.owner && DependsOnSession(st, policy, x, d))
  {
    ProcessDiedEffect(st, c, x, d);
    ProcessDiedMessages(st, c, x, d);
    assert IsLive(st, x, d) && x.owner == c.owner ==> Reached(st, c.owner, d);
    hide Sound, IsLive, IsBound, Accounted, DependsOnSession, Reached, MessageFor, Obituaries, WithoutCaller;
    ForgetAccounts(st, DoProcessDied(st, c), policy, x, d, x.owner == c.owner);
  }

  lemma ProcessDiedStraysIff(st: System, c: Connect, policy: Policy)
    requires Sound(st) && NoLooseEnd(st, policy) && Stored(st, c)
    ensures NoLooseEnd(DoProcessDied(st, c), policy) <==> !CallerDepends(st, policy, c.owner)
  {
    hide Sound, Accounted, DoProcessDied, DependsOnSession;
    forall x: Connect, d: Device | x.Connect?
      ensures Accounted(DoProcessDied(st, c), policy, x, d)
              <==> !(x.owner == c.owner && DependsOnSession(st, policy, x, d))
    {
      ProcessDiedAccounts(st, c, policy, x, d);
    }
  }

  /** Over a broken link only a caught request can bind late. */
  lemma DropAccountsOver(st: System, a: Device, b: Device, kept: set<nat>, policy: Policy, c: Connect, d: Device)
    requires c.Connect? && Over(Source(c), d, a, b)
    ensures Accounted(DoDrop(st, a, b, kept), policy, c, d)
            <==> policy.orphansBeforeCleanup || !OrphanAt(DoDrop(st, a, b, kept), c, d)
  {
    var after := DoDrop(st, a, b, kept);
    assert Cleaning(after, c, d) && !Up(after, Source(c), d) && RemovalSure(after, c, d);
    hide DoDrop, OrphanAt, AskPending, ReplyPending, IsLive, IsBound;
  }

  lemma DropAccountsElsewhere(st: System, a: Device, b: Device, kept: set<nat>, policy: Policy, c: Connect, d: Device)
    requires c.Connect? && !Over(Source(c), d, a, b) && Accounted(st, policy, c, d)
    ensures Accounted(DoDrop(st, a, b, kept), policy, c, d)
  {
    var after := DoDrop(st, a, b, kept);
    CallsRecede(st.calls, after.calls, c, d);
    CallsRecede(after.calls, st.calls, c, d);
    assert OrphanAt(after, c, d) ==> OrphanAt(st, c, d);
    assert IsLive(after, c, d) <==> IsLive(st, c, d);
    assert IsBound(after, c, d) <==> IsBound(st, c, d);
    hide OrphanAt, AskPending, ReplyPending, IsLive, IsBound;
    AccountedKept(st, after, policy, c, d);
  }

  lemma DropStraysIff(st: System, a: Device, b: Device, kept: set<nat>, policy: Policy)
    requires NoLooseEnd(st, policy)
    ensures NoLooseEnd(DoDrop(st, a, b, kept), policy) <==>
              !(!policy.orphansBeforeCleanup
                && exists r :: r in DoDrop(st, a, b, kept).orphans && RequestOk(st.nodes.Keys, r)
                               && RequestOver(r, a, b))
  {
    var after := DoDrop(st, a, b, kept);
    assert after.nodes == st.nodes;
    hide Accounted, DoDrop;
    forall c: Connect, d: Device | c.Connect?
      ensures Accounted(after, policy, c, d)
              <==> !(Over(Source(c), d, a, b) && !policy.orphansBeforeCleanup && OrphanAt(after, c, d))
    {
      if Over(Source(c), d, a, b) {
        DropAccountsOver(st, a, b, kept, policy, c, d);
      } else {
        DropAccountsElsewhere(st, a, b, kept, policy, c, d);
      }
    }
    if r :| r in after.orphans && RequestOk(st.nodes.Keys, r) && RequestOver(r, a, b) {
      assert OrphanAt(after, r.connect, r.target);
    }
  }

  lemma LinkUpAccounts(st: System, a: Device, b: Device, policy: Policy, c: Connect, d: Device)
    requires c.Connect? && Accounted(st, policy, c, d)
    ensures Accounted(DoLinkUp(st, a, b), policy, c, d)
            <==> !(Over(Source(c), d, a, b) && Cleaning(st, c, d) && AskPending(st.calls, c, d))
  {
    var after := DoLinkUp(st, a, b);
    assert OrphanAt(after, c, d) <==> OrphanAt(st, c, d);
    hide OrphanAt, AskPending, ReplyPending, Live;
  }

  lemma LinkUpStraysIff(st: System, a: Device, b: Device, policy: Policy)
    requires NoLooseEnd(st, policy)
    ensures NoLooseEnd(DoLinkUp(st, a, b), policy) <==>
              !exists k :: k in st.calls && MayAsk(st.calls[k]) && RequestOver(st.calls[k].request, a, b)
                           && Cleaning(st, st.calls[k].request.connect, st.calls[k].request.target)
  {
    var after := DoLinkUp(st, a, b);
    hide Accounted, DoLinkUp;
    forall c: Connect, d: Device | c.Connect?
      ensures Accounted(after, policy, c, d)
              <==> !(Over(Source(c), d, a, b) && Cleaning(st, c, d) && AskPending(st.calls, c, d))
    {
      LinkUpAccounts(st, a, b, policy, c, d);
    }
    if k :| k in st.calls && MayAsk(st.calls[k]) && RequestOver(st.calls[k].request, a, b)
            && Cleaning(st, st.calls[k].request.connect, st.calls[k].request.target) {
      var r := st.calls[k].request;
      assert Concerns(st.calls[k], r.connect, r.target) && AskPending(st.calls, r.connect, r.target);
      assert !Accounted(after, policy, r.connect, r.target);
    } else {
      forall c: Connect, d: Device | c.Connect? ensures Accounted(after, policy, c, d) {
        if Over(Source(c), d, a, b) && AskPending(st.calls, c, d) {
          var k :| k in st.calls && Concerns(st.calls[k], c, d) && MayAsk(st.calls[k]);
          assert RequestOver(st.calls[k].request, a, b);
        }
      }
    }
  }

  lemma CancelAccounts(st: System, a: Device, b: Device, policy: Policy, c: Connect, d: Device)
    requires a != b && c.Connect? && Accounted(st, policy, c, d)
    ensures Accounted(DoCancel(st, a, b), policy, c, d)
            <==> !(d == a && Source(c) == b && IsBound(st, c, a) && !Kept(st, c, a)
                   && !(Up(st, b, a) && MessageFor(st, c, a)))
  {
    var after := DoCancel(st, a, b);
    assert OrphanAt(after, c, d) <==> OrphanAt(st, c, d);
    hide OrphanAt, AskPending, ReplyPending, Live;
  }

  lemma CancelStraysIff(st: System, a: Device, b: Device, policy: Policy)
    requires NoLooseEnd(st, policy) && a != b
    ensures NoLooseEnd(DoCancel(st, a, b), policy) <==>
              !exists c :: IsBound(st, c, a) && c.Connect? && Source(c) == b && !Kept(st, c, a)
                           && !(Up(st, b, a) && MessageFor(st, c, a))
  {
    hide Accounted, DoCancel, Kept, MessageFor, IsBound;
    forall c: Connect, d: Device | c.Connect?
      ensures Accounted(DoCancel(st, a, b), policy, c, d)
              <==> !(d == a && Source(c) == b && IsBound(st, c, a) && !Kept(st, c, a)
                     && !(Up(st, b, a) && MessageFor(st, c, a)))
    {
      CancelAccounts(st, a, b, policy, c, d);
    }
    if c :| IsBound(st, c, a) && c.Connect? && Source(c) == b && !Kept(st, c, a)
            && !(Up(st, b, a) && MessageFor(st, c, a)) {
      assert !Accounted(DoCancel(st, a, b), policy, c, a);
    }
  }

  lemma CleanupBetweenTwo(st: System, a: Device, b: Device)
    requires Sound(st) && (a, b) in st.srcCleanup
    ensures a != b
  {
    assert (a, b).0 != (a, b).1;
  }

  lemma SettlingKeepsEnds(st: System, ev: Event, policy: Policy)
    requires Sound(st) && NoLooseEnd(st, policy) && Settling(ev) && Enabled(st, ev, policy)
    ensures NoLooseEnd(Apply(st, ev, policy), policy)
  {
    hide Sound, Accounted, Enabled, Apply;
    forall c: Connect, d: Device | c.Connect? ensures Accounted(Apply(st, ev, policy), policy, c, d) {
      SettlingAccounted(st, ev, policy, c, d);
    }
  }

  /** From a state without loose ends a step leads to one exactly if it does not stray. */
  lemma StepAccountedIff(st: System, ev: Event, policy: Policy)
    requires Sound(st) && NoLooseEnd(st, policy) && Enabled(st, ev, policy)
    ensures NoLooseEnd(Apply(st, ev, policy), policy) <==> !Strays(st, ev, policy)
  {
    hide Sound, NoLooseEnd, CanBegin, CanDrop, CanLinkUp, DoBegin, DoDisconnect, DoProcessDied, DoDrop, DoLinkUp,
         DoCancel, DependsOnSession, Kept;
    if Settling(ev) {
      SettlingKeepsEnds(st, ev, policy);
      hide Apply, Enabled;
    } else {
      match ev {
        case BeginConnect(k, r) => BeginStraysIff(st, k, r, policy);
        case Disconnect(c) => DisconnectStraysIff(st, c, policy);
        case ProcessDied(c) => ProcessDiedStraysIff(st, c, policy);
        case LinkDrop(a, b, kept) => DropStraysIff(st, a, b, kept, policy);
        case LinkUp(a, b) => LinkUpStraysIff(st, a, b, policy);
        case CancelCleanup(a, b) =>
          CleanupBetweenTwo(st, a, b);
          CancelStraysIff(st, a, b, policy);
      }
    }
  }

  /** So an event endangers the removal of a binding if and only if it strays. */
  lemma EventLeaksIff(st: System, ev: Event, policy: Policy)
    requires Sound(st) && NoLooseEnd(st, policy) && Enabled(st, ev, policy)
    ensures SettlesLeakFree(Apply(st, ev, policy), policy) <==> !Strays(st, ev, policy)
  {
    hide Sound, NoLooseEnd, SettlesLeakFree, Enabled, Apply, Strays;
    StepSound(st, ev, policy);
    StepAccountedIff(st, ev, policy);
    SettlesLeakFreeIff(Apply(st, ev, policy), policy);
  }

  /** At rest the two ends agree however the traffic settles, if and only if nothing overlaps and
      nothing is loose. */
  lemma SettlesAgreeingIff(st: System, policy: Policy)
    requires Sound(st)
    ensures (forall run, last :: Settles(st, run, policy, last) && Quiescent(last)
                                 ==> SessionsBound(last) && NoLeak(last))
            <==> NoOverlap(st) && NoLooseEnd(st, policy)
  {
    hide Sound, Settles, Quiescent, SessionsBound, NoLeak, NoOverlap, NoLooseEnd;
    SettlesBoundIffNoOverlap(st, policy);
    SettlesLeakFreeIff(st, policy);
  }
}

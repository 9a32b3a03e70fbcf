/** What is left when the traffic of the connection protocol settles.  A session that is stored
    at the caller's device and the binding at the sink can part, because a removal that is on its
    way meets a connect of the same object.  This module says exactly which states settle with a
    binding behind every session, and exactly which events lead out of them.  Nothing here
    depends on the policy of the network. */
module ConnectSettling {
  import opened ConnectTable
  import opened ConnectProtocol

  // ---------------------------------------------------------------- sound states

  predicate MessagesOk(devices: set<Device>, messages: set<Message>) {
    forall m :: m in messages ==> m.to in devices
  }

  predicate CleanupsOk(devices: set<Device>, cleanups: set<(Device, Device)>) {
    forall p :: p in cleanups ==> p.0 in devices && p.1 in devices && p.0 != p.1
  }

  ghost predicate SessionsInside(nodes: map<Device, Node>) {
    forall s, c, d :: s in nodes && Live(nodes[s].table, c, d) ==> d in nodes
  }

  /** What holds of every reachable state, under any policy. */
  ghost predicate Sound(st: System) {
    && NodesOk(st.nodes) && SessionsInside(st.nodes)
    && CallsOk(st.nodes.Keys, st.calls) && MessagesOk(st.nodes.Keys, st.messages)
    && CleanupsOk(st.nodes.Keys, st.srcCleanup) && CleanupsOk(st.nodes.Keys, st.sinkCleanup)
  }

  lemma InitialSound(devices: set<Device>)
    ensures Sound(Initial(devices))
  {
  }

  lemma TableStepSound(st: System, s: Device, t: Table, after: System)
    requires Sound(st) && s in st.nodes && TableNodeOk(s, t)
    requires forall c, d :: Live(t, c, d) ==> d in st.nodes
    requires after == WithTable(st, s, t)
                        .(calls := after.calls, messages := after.messages, srcCleanup := after.srcCleanup)
    requires CallsOk(st.nodes.Keys, after.calls) && MessagesOk(st.nodes.Keys, after.messages)
    requires after.srcCleanup <= st.srcCleanup
    ensures Sound(after)
  {
    WithTableOk(st, s, t);
    assert after.nodes.Keys == st.nodes.Keys;
    hide NodesOk, TableNodeOk, Live, CallsOk, MessagesOk;
  }

  lemma BindingsStepSound(st: System, s: Device, b: Bindings, after: System)
    requires Sound(st) && s in st.nodes && BindingsNodeOk(st.nodes.Keys, s, b)
    requires after == WithBindings(st, s, b)
                        .(calls := after.calls, messages := after.messages, orphans := after.orphans,
                          sinkCleanup := after.sinkCleanup)
    requires CallsOk(st.nodes.Keys, after.calls)
    requires after.messages <= st.messages && after.sinkCleanup <= st.sinkCleanup
    ensures Sound(after)
  {
    WithBindingsOk(st, s, b);
    assert after.nodes.Keys == st.nodes.Keys;
    hide NodesOk, BindingsNodeOk, Live, CallsOk;
  }

  lemma AcceptSound(st: System, r: Request, after: System)
    requires Sound(st) && RequestOk(st.nodes.Keys, r)
    requires after == Accept(st, r).(calls := after.calls, orphans := after.orphans)
    requires CallsOk(st.nodes.Keys, after.calls)
    ensures Sound(after)
  {
    assert BindingsNodeOk(st.nodes.Keys, r.target, st.nodes[r.target].bindings);
    BoundOk(st.nodes.Keys, st.nodes[r.target].bindings, r);
    hide Sound, NodesOk, BindingsNodeOk, CallsOk, Bound, RequestOk;
    BindingsStepSound(st, r.target,
                      Bound(st.nodes[r.target].bindings, r.connect, ConnectInfo(r.connect.owner, r.element)), after);
  }

  lemma ExecuteSound(st: System, k: nat)
    requires Sound(st) && IsAsked(st, k)
    ensures Sound(DoExecute(st, k, true))
  {
    AcceptSound(st, st.calls[k].request, DoExecute(st, k, true));
  }

  lemma RunOrphanSound(st: System, r: Request)
    requires Sound(st) && RequestOk(st.nodes.Keys, r)
    ensures Sound(DoRunOrphan(st, r))
  {
    AcceptSound(st, r, DoRunOrphan(st, r));
  }

  lemma CommitSound(st: System, k: nat)
    requires Sound(st) && CanCommit(st, k)
    ensures Sound(DoCommit(st, k))
  {
    var r := st.calls[k].request;
    var s := Source(r.connect);
    assert TableNodeOk(s, st.nodes[s].table);
    MappedOk(st.nodes[s].table, r.connect, Start(r), r.element);
    hide TableOk, Live, NodesOk;
    TableStepSound(st, s, Mapped(st.nodes[s].table, r.connect, Start(r), r.element), DoCommit(st, k));
  }

  lemma DisconnectSound(st: System, c: Connect)
    requires Sound(st) && Stored(st, c)
    ensures Sound(DoDisconnect(st, c))
  {
    var t := st.nodes[Source(c)].table;
    assert TableNodeOk(Source(c), t);
    DestinationsAreTowards(t[c]);
    assert forall d :: d in Destinations(t[c]) ==> Live(t, c, d);
    assert forall x, d :: Live(Unmapped(t, c), x, d) ==> Live(t, x, d);
    hide Towards, Destinations, NodesOk;
    TableStepSound(st, Source(c), Unmapped(t, c), DoDisconnect(st, c));
  }

  lemma ProcessDiedSound(st: System, c: Connect)
    requires Sound(st) && Stored(st, c)
    ensures Sound(DoProcessDied(st, c))
  {
    var t := st.nodes[Source(c)].table;
    assert TableNodeOk(Source(c), t);
    WithoutCallerOk(t, c.owner);
    forall m | m in Obituaries(t, c.owner) ensures m.to in st.nodes {
      var x, d :| x in t && x.Connect? && x.owner == c.owner && d in Destinations(t[x]) && m == Died(c.owner, d);
      DestinationsAreTowards(t[x]);
      assert Live(t, x, d);
    }
    hide Towards, Destinations, NodesOk, TableOk, Live, Obituaries;
    TableStepSound(st, Source(c), WithoutCaller(t, c.owner), DoProcessDied(st, c));
  }

  lemma CleanSourceSound(st: System, a: Device, b: Device)
    requires Sound(st) && CanCleanSource(st, a, b)
    ensures Sound(DoCleanSource(st, a, b))
  {
    assert TableNodeOk(a, st.nodes[a].table);
    WithoutDeviceOk(st.nodes[a].table, b);
    hide TableOk, Live, NodesOk, CleanupsOk;
    TableStepSound(st, a, WithoutDevice(st.nodes[a].table, b), DoCleanSource(st, a, b));
  }

  lemma FewerBindingsSound(st: System, s: Device, after: System)
    requires Sound(st) && s in st.nodes && s in after.nodes
    requires var b := after.nodes[s].bindings;
             b.Keys <= st.nodes[s].bindings.Keys && forall c :: c in b ==> b[c] == st.nodes[s].bindings[c]
    requires after == WithBindings(st, s, after.nodes[s].bindings)
                        .(messages := after.messages, sinkCleanup := after.sinkCleanup)
    requires after.messages <= st.messages && after.sinkCleanup <= st.sinkCleanup
    ensures Sound(after)
  {
    FewerBindings(st, s, after.nodes[s].bindings);
    hide NodesOk, BindingsNodeOk, CallsOk, Live;
    BindingsStepSound(st, s, after.nodes[s].bindings, after);
  }

  lemma DropSound(st: System, a: Device, b: Device, kept: set<nat>)
    requires Sound(st) && CanDrop(st, a, b)
    ensures Sound(DoDrop(st, a, b, kept))
  {
    hide NodesOk, SessionsInside, MessagesOk;
  }

  /** Steps that leave the nodes alone. */
  lemma TrafficSound(st: System, ev: Event, policy: Policy)
    requires Sound(st) && Enabled(st, ev, policy)
    requires ev.BeginConnect? || ev.FailCall? || (ev.Execute? && !ev.ok) || ev.Retry? || ev.GiveUp? || ev.Lose?
             || ev.LinkUp? || ev.LoseOrphan? || ev.CancelCleanup?
    ensures Sound(Apply(st, ev, policy))
  {
    assert Apply(st, ev, policy).nodes == st.nodes;
    hide NodesOk, SessionsInside;
  }

  /** Every step keeps a state sound, under any policy. */
  lemma StepSound(st: System, ev: Event, policy: Policy)
    requires Sound(st) && Enabled(st, ev, policy)
    ensures Sound(Apply(st, ev, policy))
  {
    hide Sound, CanBegin, CanDrop, CanLinkUp, CanCancel, DoDrop, DoCommit, DoDisconnect, DoProcessDied, DoCleanSource;
    match ev {
      case Execute(k, ok) =>
        if ok { ExecuteSound(st, k); } else { TrafficSound(st, ev, policy); }
      case Commit(k) => CommitSound(st, k);
      case Disconnect(c) => DisconnectSound(st, c);
      case ProcessDied(c) => ProcessDiedSound(st, c);
      case Deliver(m, again) => FewerBindingsSound(st, m.to, DoDeliver(st, m, again));
      case RunOrphan(r) => RunOrphanSound(st, r);
      case LinkDrop(a, b, kept) => DropSound(st, a, b, kept);
      case CleanSource(a, b) => CleanSourceSound(st, a, b);
      case CleanSink(a, b) => FewerBindingsSound(st, a, DoCleanSink(st, a, b));
      case _ => TrafficSound(st, ev, policy);
    }
  }

  lemma {:induction false} RunSound(st: System, run: seq<Event>, policy: Policy, last: System)
    requires Sound(st) && Runs(st, run, policy, last)
    ensures Sound(last)
    decreases |run|
  {
    hide Sound, Enabled, Apply;
    if run != [] {
      StepSound(st, run[0], policy);
      RunSound(Apply(st, run[0], policy), run[1..], policy, last);
    }
  }

  // ---------------------------------------------------------------- a connect object and a device

  predicate IsBound(st: System, c: Connect, d: Device) {
    d in st.nodes && c in st.nodes[d].bindings
  }

  predicate IsLive(st: System, c: Connect, d: Device) {
    c.Connect? && Source(c) in st.nodes && Live(st.nodes[Source(c)].table, c, d)
  }

  /** Something is on its way that will remove the binding of c at d. */
  predicate RemovalPending(st: System, c: Connect, d: Device)
    requires c.Connect?
  {
    Unbind(c, d) in st.messages || Died(c.owner, d) in st.messages || (d, Source(c)) in st.sinkCleanup
  }

  /** The caller's device will still drop its sessions towards d. */
  predicate Cleaning(st: System, c: Connect, d: Device)
    requires c.Connect?
  {
    (Source(c), d) in st.srcCleanup
  }

  predicate Intact(st: System, c: Connect, d: Device)
    requires c.Connect?
  {
    IsBound(st, c, d) && !RemovalPending(st, c, d)
  }

  /** A call that the sink may still be asked to accept. */
  predicate MayAsk(call: Call) {
    call.phase == Asked || (call.phase == Answered(false) && call.tries > 1)
  }

  predicate Concerns(call: Call, c: Connect, d: Device) {
    call.request.connect == c && call.request.target == d
  }

  ghost predicate AskPending(calls: map<nat, Call>, c: Connect, d: Device) {
    exists k :: k in calls && Concerns(calls[k], c, d) && MayAsk(calls[k])
  }

  /** A call for c at d can still be committed while the links stay as they are. */
  ghost predicate Waiting(st: System, c: Connect, d: Device)
    requires c.Connect?
  {
    ReplyPending(st.calls, c, d) || (AskPending(st.calls, c, d) && Up(st, Source(c), d))
  }

  /** The caller has a session towards d. */
  ghost predicate Reached(st: System, caller: CallerInfo, d: Device) {
    exists c :: IsLive(st, c, d) && c.owner == caller
  }

  ghost predicate CallerWaits(st: System, caller: CallerInfo, d: Device) {
    exists c: Connect :: c.Connect? && c.owner == caller && Waiting(st, c, d)
  }

  /** No removal meets a session or a call of c at d. */
  ghost predicate Apart(st: System, c: Connect, d: Device)
    requires c.Connect?
  {
    && (IsLive(st, c, d) && !Cleaning(st, c, d) ==> Intact(st, c, d))
    && (ReplyPending(st.calls, c, d) ==> Intact(st, c, d))
    && (AskPending(st.calls, c, d) && Up(st, Source(c), d) ==> !RemovalPending(st, c, d))
  }

  ghost predicate NoOverlap(st: System) {
    forall c: Connect, d: Device :: c.Connect? ==> Apart(st, c, d)
  }

  /** Every session has its binding. */
  ghost predicate SessionsBound(st: System) {
    forall c, d :: IsLive(st, c, d) ==> IsBound(st, c, d)
  }

  lemma RestIsBoundIffApart(st: System)
    requires Quiescent(st)
    ensures SessionsBound(st) <==> NoOverlap(st)
  {
    assert forall c: Connect, d: Device :: c.Connect? ==>
      (Apart(st, c, d) <==> (IsLive(st, c, d) ==> IsBound(st, c, d)));
  }

  /** Calls that come no closer to a commit give no new reason to worry. */
  lemma CallsRecede(calls: map<nat, Call>, after: map<nat, Call>, c: Connect, d: Device)
    requires forall j :: j in after && Concerns(after[j], c, d) ==>
               && j in calls && Concerns(calls[j], c, d)
               && (after[j].phase == Answered(true) ==> calls[j].phase == Answered(true))
               && (MayAsk(after[j]) ==> MayAsk(calls[j]))
    ensures ReplyPending(after, c, d) ==> ReplyPending(calls, c, d)
    ensures AskPending(after, c, d) ==> AskPending(calls, c, d)
  {
    if ReplyPending(after, c, d) {
      var j :| j in after && after[j].phase == Answered(true)
               && after[j].request.connect == c && after[j].request.target == d;
      assert Concerns(after[j], c, d) && j in calls;
    }
    if AskPending(after, c, d) {
      var j :| j in after && Concerns(after[j], c, d) && MayAsk(after[j]);
      assert j in calls;
    }
  }

  // ---------------------------------------------------------------- which events overlap

  /** The event lets a removal meet a session or a call of the same connect and device. */
  ghost predicate Overlaps(st: System, ev: Event, policy: Policy)
    requires Enabled(st, ev, policy)
  {
    match ev
    // a connect while a removal is on its way to the same device
    case BeginConnect(k, r) => Up(st, Source(r.connect), r.target) && RemovalPending(st, r.connect, r.target)
    // a disconnect, or the death of the caller, while a call is waiting
    case Disconnect(c) => exists d :: IsLive(st, c, d) && Waiting(st, c, d)
    case ProcessDied(c) => exists d :: Reached(st, c.owner, d) && CallerWaits(st, c.owner, d)
    // a reply is held while its link breaks
    case LinkDrop(a, b, kept) =>
      exists k :: k in kept && k in st.calls && st.calls[k].phase == Answered(true)
                  && RequestOver(st.calls[k].request, a, b)
    // a link returns for a call while the sink has still to clean up
    case LinkUp(a, b) =>
      exists k :: k in st.calls && MayAsk(st.calls[k]) && RequestOver(st.calls[k].request, a, b)
                  && RemovalPending(st, st.calls[k].request.connect, st.calls[k].request.target)
    // a session survives the loss of its device while its binding does not
    case CancelCleanup(a, b) => exists c :: IsLive(st, c, b) && Source(c) == a && !Intact(st, c, b)
    case _ => false
  }

  /** Between a state and its successor only these things count for c at d. */
  lemma ApartKept(st: System, after: System, c: Connect, d: Device)
    requires c.Connect? && Apart(st, c, d)
    requires IsLive(after, c, d) && !Cleaning(after, c, d) ==> IsLive(st, c, d) && !Cleaning(st, c, d)
    requires ReplyPending(after.calls, c, d) ==> ReplyPending(st.calls, c, d)
    requires AskPending(after.calls, c, d) && Up(after, Source(c), d)
             ==> AskPending(st.calls, c, d) && Up(st, Source(c), d)
    requires IsBound(st, c, d) && !RemovalPending(st, c, d) ==> IsBound(after, c, d)
    requires RemovalPending(after, c, d) ==> RemovalPending(st, c, d)
    ensures Apart(after, c, d)
  {
  }

  lemma AcceptEffect(st: System, r: Request, c: Connect, d: Device)
    requires NodesOk(st.nodes) && RequestOk(st.nodes.Keys, r)
    ensures IsLive(Accept(st, r), c, d) <==> IsLive(st, c, d)
    ensures IsBound(Accept(st, r), c, d) <==> IsBound(st, c, d) || (c == r.connect && d == r.target)
  {
    AcceptOk(st, r);
    hide Live, NodesOk;
  }

  /** The pair that is asked for becomes intact. */
  lemma ExecuteBinds(st: System, k: nat)
    requires Sound(st) && CanExecute(st, k)
    requires Apart(st, st.calls[k].request.connect, st.calls[k].request.target)
    ensures Intact(DoExecute(st, k, true), st.calls[k].request.connect, st.calls[k].request.target)
  {
    var r := st.calls[k].request;
    AcceptEffect(st, r, r.connect, r.target);
    assert Concerns(st.calls[k], r.connect, r.target) && MayAsk(st.calls[k]);
    assert AskPending(st.calls, r.connect, r.target);
    hide Sound, AskPending, ReplyPending, Live;
  }

  lemma ExecuteApart(st: System, k: nat, c: Connect, d: Device)
    requires Sound(st) && CanExecute(st, k) && c.Connect? && Apart(st, c, d)
    ensures Apart(DoExecute(st, k, true), c, d)
  {
    var r, after := st.calls[k].request, DoExecute(st, k, true);
    if r.connect == c && r.target == d {
      ExecuteBinds(st, k);
      hide Sound, IsBound, IsLive, ReplyPending, AskPending, DoExecute, CanExecute;
    } else {
      AcceptEffect(st, r, c, d);
      CallsRecede(st.calls, after.calls, c, d);
      assert IsLive(after, c, d) <==> IsLive(Accept(st, r), c, d);
      assert IsBound(after, c, d) <==> IsBound(Accept(st, r), c, d);
      hide IsLive, IsBound, ReplyPending, AskPending, Sound, Apart;
      ApartKept(st, after, c, d);
    }
  }

  lemma RunOrphanApart(st: System, r: Request, c: Connect, d: Device)
    requires Sound(st) && RequestOk(st.nodes.Keys, r) && c.Connect? && Apart(st, c, d)
    ensures Apart(DoRunOrphan(st, r), c, d)
  {
    AcceptEffect(st, r, c, d);
    hide Live, ReplyPending, AskPending, NodesOk;
    ApartKept(st, DoRunOrphan(st, r), c, d);
  }

  lemma CommitEffect(st: System, k: nat, c: Connect, d: Device)
    requires Sound(st) && CanCommit(st, k)
    ensures var r := st.calls[k].request;
            && (IsLive(DoCommit(st, k), c, d) <==> IsLive(st, c, d) || (c == r.connect && d == r.target))
            && (IsBound(DoCommit(st, k), c, d) <==> IsBound(st, c, d))
  {
    var r := st.calls[k].request;
    var s := Source(r.connect);
    assert TableNodeOk(s, st.nodes[s].table);
    MappedOk(st.nodes[s].table, r.connect, Start(r), r.element);
    hide Live, NodesOk, Mapped, TableOk;
  }

  lemma CommitApart(st: System, k: nat, c: Connect, d: Device)
    requires Sound(st) && CanCommit(st, k) && c.Connect? && Apart(st, c, d)
    ensures Apart(DoCommit(st, k), c, d)
  {
    var r, after := st.calls[k].request, DoCommit(st, k);
    CommitEffect(st, k, c, d);
    CallsRecede(st.calls, after.calls, c, d);
    assert r.connect == c && r.target == d ==> ReplyPending(st.calls, c, d);
    assert after.down == st.down && after.messages == st.messages
           && after.srcCleanup == st.srcCleanup && after.sinkCleanup == st.sinkCleanup;
    hide IsLive, IsBound, ReplyPending, AskPending, Sound, DoCommit, CanCommit;
    if r.connect == c && r.target == d {
      assert Intact(st, c, d) && Intact(after, c, d);
    } else {
      ApartKept(st, after, c, d);
    }
  }

  /** Calls that fail, are repeated or given up, and requests and messages that are lost. */
  lemma LossApart(st: System, ev: Event, policy: Policy, c: Connect, d: Device)
    requires Enabled(st, ev, policy) && c.Connect? && Apart(st, c, d)
    requires ev.FailCall? || (ev.Execute? && !ev.ok) || ev.Retry? || ev.GiveUp? || ev.Lose? || ev.LoseOrphan?
    ensures Apart(Apply(st, ev, policy), c, d)
  {
    var after := Apply(st, ev, policy);
    CallsRecede(st.calls, after.calls, c, d);
    hide Live, ReplyPending, AskPending;
    ApartKept(st, after, c, d);
  }

  lemma DeliverApart(st: System, m: Message, again: bool, c: Connect, d: Device)
    requires Sound(st) && CanDeliver(st, m) && c.Connect? && Apart(st, c, d)
    ensures Apart(DoDeliver(st, m, again), c, d)
  {
    assert m.to == d && c in st.nodes[d].bindings ==> st.nodes[d].bindings[c].caller == c.owner by {
      assert m.to == d ==> BindingsNodeOk(st.nodes.Keys, d, st.nodes[d].bindings);
    }
    hide Live, ReplyPending, AskPending, NodesOk;
    ApartKept(st, DoDeliver(st, m, again), c, d);
  }

  lemma CleanSinkApart(st: System, a: Device, b: Device, c: Connect, d: Device)
    requires Sound(st) && CanCleanSink(st, a, b) && c.Connect? && Apart(st, c, d)
    ensures Apart(DoCleanSink(st, a, b), c, d)
  {
    assert a == d && c in st.nodes[d].bindings ==> st.nodes[d].bindings[c].caller == c.owner by {
      assert BindingsNodeOk(st.nodes.Keys, a, st.nodes[a].bindings);
    }
    hide Live, ReplyPending, AskPending, NodesOk;
    ApartKept(st, DoCleanSink(st, a, b), c, d);
  }

  lemma CleanSourceApart(st: System, a: Device, b: Device, c: Connect, d: Device)
    requires Sound(st) && CanCleanSource(st, a, b) && c.Connect? && Apart(st, c, d)
    ensures Apart(DoCleanSource(st, a, b), c, d)
  {
    assert TableNodeOk(a, st.nodes[a].table);
    WithoutDeviceOk(st.nodes[a].table, b);
    hide Live, ReplyPending, AskPending, NodesOk, TableOk;
    ApartKept(st, DoCleanSource(st, a, b), c, d);
  }

  // The events that can overlap: they keep a state without overlaps exactly if they do not.

  lemma BeginApart(st: System, k: nat, r: Request)
    requires NoOverlap(st) && CanBegin(st, k, r)
    ensures NoOverlap(DoBegin(st, k, r))
            <==> !(Up(st, Source(r.connect), r.target) && RemovalPending(st, r.connect, r.target))
  {
    var after := DoBegin(st, k, r);
    assert AskPending(after.calls, r.connect, r.target) by {
      assert Concerns(after.calls[k], r.connect, r.target) && MayAsk(after.calls[k]);
    }
    if Up(st, Source(r.connect), r.target) && RemovalPending(st, r.connect, r.target) {
      assert !Apart(after, r.connect, r.target);
    } else {
      forall c: Connect, d: Device | c.Connect? ensures Apart(after, c, d) {
        assert Apart(st, c, d);
        if !(r.connect == c && r.target == d) {
          CallsRecede(st.calls, after.calls, c, d);
        } else {
          assert ReplyPending(after.calls, c, d) ==> ReplyPending(st.calls, c, d);
        }
      }
    }
  }

  /** What changing one table means for a connect and a device. */
  lemma TableEffect(st: System, s: Device, t: Table, x: Connect, d: Device)
    requires s in st.nodes
    ensures IsBound(WithTable(st, s, t), x, d) <==> IsBound(st, x, d)
    ensures x.Connect? ==>
              (IsLive(WithTable(st, s, t), x, d) <==> if Source(x) == s then Live(t, x, d) else IsLive(st, x, d))
  {
    hide Live;
  }

  /** Forgetting sessions and sending for their bindings is harmless for x at d if no call waits there. */
  lemma ForgetApart(st: System, after: System, x: Connect, d: Device)
    requires x.Connect? && Apart(st, x, d)
    requires after.calls == st.calls && after.down == st.down
             && after.srcCleanup == st.srcCleanup && after.sinkCleanup == st.sinkCleanup
    requires IsBound(after, x, d) <==> IsBound(st, x, d)
    requires IsLive(after, x, d) ==> IsLive(st, x, d)
    requires RemovalPending(after, x, d) && !RemovalPending(st, x, d) ==> !IsLive(after, x, d) && !Waiting(st, x, d)
    ensures Apart(after, x, d)
  {
    hide IsBound, IsLive, ReplyPending, AskPending;
  }

  lemma DisconnectEffect(st: System, c: Connect)
    requires Sound(st) && Stored(st, c)
    ensures forall x, d :: IsLive(DoDisconnect(st, c), x, d) <==> IsLive(st, x, d) && x != c
    ensures forall x, d :: IsBound(DoDisconnect(st, c), x, d) <==> IsBound(st, x, d)
    ensures forall m :: m in DoDisconnect(st, c).messages <==>
              m in st.messages || (m.Unbind? && m.connect == c && IsLive(st, c, m.to))
  {
    DestinationsAreTowards(st.nodes[Source(c)].table[c]);
    hide Towards, Destinations, NodesOk;
  }

  lemma DisconnectHarmless(st: System, c: Connect, x: Connect, d: Device)
    requires Sound(st) && Stored(st, c) && x.Connect? && Apart(st, x, d)
    requires x == c && IsLive(st, c, d) ==> !Waiting(st, x, d)
    ensures Apart(DoDisconnect(st, c), x, d)
  {
    DisconnectEffect(st, c);
    hide Sound, IsLive, IsBound, Apart, Waiting;
    ForgetApart(st, DoDisconnect(st, c), x, d);
  }

  lemma DisconnectOverlaps(st: System, c: Connect, d: Device)
    requires Sound(st) && Stored(st, c) && IsLive(st, c, d) && Waiting(st, c, d)
    ensures !Apart(DoDisconnect(st, c), c, d)
  {
    DisconnectEffect(st, c);
    hide Sound, IsLive, IsBound, ReplyPending, AskPending;
    assert Unbind(c, d) in DoDisconnect(st, c).messages;
  }

  lemma DisconnectApart(st: System, c: Connect)
    requires Sound(st) && NoOverlap(st) && Stored(st, c)
    ensures NoOverlap(DoDisconnect(st, c)) <==> !exists d :: IsLive(st, c, d) && Waiting(st, c, d)
  {
    hide Sound, IsLive, Waiting, Apart, DoDisconnect;
    if exists d :: IsLive(st, c, d) && Waiting(st, c, d) {
      var d :| IsLive(st, c, d) && Waiting(st, c, d);
      DisconnectOverlaps(st, c, d);
    } else {
      forall x: Connect, d: Device | x.Connect? ensures Apart(DoDisconnect(st, c), x, d) {
        DisconnectHarmless(st, c, x, d);
      }
    }
  }

  lemma ObituariesReach(st: System, c: Connect)
    requires Stored(st, c) && NodesOk(st.nodes)
    ensures forall m :: m in Obituaries(st.nodes[Source(c)].table, c.owner) <==>
              m.Died? && m.caller == c.owner && Reached(st, c.owner, m.to)
  {
    var t := st.nodes[Source(c)].table;
    forall x | x in t ensures forall d :: d in Destinations(t[x]) <==> Live(t, x, d) {
      DestinationsAreTowards(t[x]);
    }
    hide Destinations, Towards, NodesOk;
    forall m: Message | m.Died? && m.caller == c.owner && Reached(st, c.owner, m.to)
      ensures m in Obituaries(t, c.owner)
    {
      var x :| IsLive(st, x, m.to) && x.owner == c.owner;
      assert x in t && m.to in Destinations(t[x]);
    }
    forall m | m in Obituaries(t, c.owner) ensures m.Died? && m.caller == c.owner && Reached(st, c.owner, m.to) {
      var x, d :| x in t && x.Connect? && x.owner == c.owner && d in Destinations(t[x]) && m == Died(c.owner, d);
      assert IsLive(st, x, d);
    }
  }

  lemma ProcessDiedEffect(st: System, c: Connect, x: Connect, d: Device)
    requires Sound(st) && Stored(st, c) && x.Connect?
    ensures IsLive(DoProcessDied(st, c), x, d) <==> IsLive(st, x, d) && x.owner != c.owner
    ensures IsBound(DoProcessDied(st, c), x, d) <==> IsBound(st, x, d)
  {
    var t := st.nodes[Source(c)].table;
    assert TableNodeOk(Source(c), t);
    WithoutCallerOk(t, c.owner);
    TableEffect(st, Source(c), WithoutCaller(t, c.owner), x, d);
    hide Sound, TableOk, Live, WithoutCaller, WithTable;
  }

  lemma ProcessDiedTells(st: System, c: Connect, x: Connect, d: Device)
    requires Sound(st) && Stored(st, c) && x.Connect?
    ensures RemovalPending(DoProcessDied(st, c), x, d)
            <==> RemovalPending(st, x, d) || (x.owner == c.owner && Reached(st, c.owner, d))
  {
    ObituariesReach(st, c);
    hide Sound, Obituaries, Reached;
  }

  lemma ProcessDiedHarmless(st: System, c: Connect, x: Connect, d: Device)
    requires Sound(st) && Stored(st, c) && x.Connect? && Apart(st, x, d)
    requires x.owner == c.owner && Reached(st, c.owner, d) ==> !Waiting(st, x, d)
    ensures Apart(DoProcessDied(st, c), x, d)
  {
    ProcessDiedEffect(st, c, x, d);
    ProcessDiedTells(st, c, x, d);
    hide Sound, IsLive, IsBound, Apart, Waiting, Reached, RemovalPending, Obituaries, WithoutCaller;
    ForgetApart(st, DoProcessDied(st, c), x, d);
  }

  lemma ProcessDiedOverlaps(st: System, c: Connect, x: Connect, d: Device)
    requires Sound(st) && Stored(st, c) && x.Connect? && x.owner == c.owner
    requires Reached(st, c.owner, d) && Waiting(st, x, d)
    ensures !Apart(DoProcessDied(st, c), x, d)
  {
    ProcessDiedTells(st, c, x, d);
    hide Sound, IsLive, IsBound, Reached, ReplyPending, AskPending, RemovalPending, Obituaries, WithoutCaller;
  }

  lemma ProcessDiedApart(st: System, c: Connect)
    requires Sound(st) && NoOverlap(st) && Stored(st, c)
    ensures NoOverlap(DoProcessDied(st, c)) <==> !exists d :: Reached(st, c.owner, d) && CallerWaits(st, c.owner, d)
  {
    hide Sound, Reached, Waiting, Apart, DoProcessDied;
    if exists d :: Reached(st, c.owner, d) && CallerWaits(st, c.owner, d) {
      var d :| Reached(st, c.owner, d) && CallerWaits(st, c.owner, d);
      var x: Connect :| x.Connect? && x.owner == c.owner && Waiting(st, x, d);
      ProcessDiedOverlaps(st, c, x, d);
    } else {
      forall x: Connect, d: Device | x.Connect? ensures Apart(DoProcessDied(st, c), x, d) {
        ProcessDiedHarmless(st, c, x, d);
      }
    }
  }

  lemma DropApart(st: System, a: Device, b: Device, kept: set<nat>)
    requires Sound(st) && NoOverlap(st) && CanDrop(st, a, b)
    ensures NoOverlap(DoDrop(st, a, b, kept)) <==>
              !exists k :: k in kept && k in st.calls && st.calls[k].phase == Answered(true)
                           && RequestOver(st.calls[k].request, a, b)
  {
    hide DoDrop, Apart, RequestOver, CanDrop, Sound;
    if k :| k in kept && k in st.calls && st.calls[k].phase == Answered(true)
            && RequestOver(st.calls[k].request, a, b) {
      DropOverlaps(st, a, b, kept, k);
    } else {
      forall c: Connect, d: Device | c.Connect? ensures Apart(DoDrop(st, a, b, kept), c, d) {
        DropApartAt(st, a, b, kept, c, d);
      }
    }
  }

  lemma DropOverlaps(st: System, a: Device, b: Device, kept: set<nat>, k: nat)
    requires k in kept && k in st.calls && st.calls[k].phase == Answered(true) && RequestOver(st.calls[k].request, a, b)
    ensures !NoOverlap(DoDrop(st, a, b, kept))
  {
    var r, after := st.calls[k].request, DoDrop(st, a, b, kept);
    assert after.calls[k] == st.calls[k] && ReplyPending(after.calls, r.connect, r.target);
    assert !Apart(after, r.connect, r.target);
  }

  lemma DropApartAt(st: System, a: Device, b: Device, kept: set<nat>, c: Connect, d: Device)
    requires c.Connect? && Apart(st, c, d)
    requires !exists k :: k in kept && k in st.calls && st.calls[k].phase == Answered(true)
                          && RequestOver(st.calls[k].request, a, b)
    ensures Apart(DoDrop(st, a, b, kept), c, d)
  {
    var after := DoDrop(st, a, b, kept);
    if Over(Source(c), d, a, b) {
      assert Cleaning(after, c, d) && !Up(after, Source(c), d);
      assert !ReplyPending(after.calls, c, d);
    } else {
      CallsRecede(st.calls, after.calls, c, d);
      hide ReplyPending, AskPending, Live;
      ApartKept(st, after, c, d);
    }
  }

  lemma LinkUpApart(st: System, a: Device, b: Device)
    requires NoOverlap(st)
    ensures NoOverlap(DoLinkUp(st, a, b)) <==>
              !exists k :: k in st.calls && MayAsk(st.calls[k]) && RequestOver(st.calls[k].request, a, b)
                           && RemovalPending(st, st.calls[k].request.connect, st.calls[k].request.target)
  {
    var after := DoLinkUp(st, a, b);
    if k :| k in st.calls && MayAsk(st.calls[k]) && RequestOver(st.calls[k].request, a, b)
            && RemovalPending(st, st.calls[k].request.connect, st.calls[k].request.target) {
      var r := st.calls[k].request;
      assert Concerns(st.calls[k], r.connect, r.target) && AskPending(after.calls, r.connect, r.target);
      assert !Apart(after, r.connect, r.target);
    } else {
      forall c: Connect, d: Device | c.Connect? ensures Apart(after, c, d) {
        assert Apart(st, c, d);
        if AskPending(st.calls, c, d) && Over(Source(c), d, a, b) {
          var k :| k in st.calls && Concerns(st.calls[k], c, d) && MayAsk(st.calls[k]);
          assert RequestOver(st.calls[k].request, a, b);
          assert !RemovalPending(st, c, d);
        }
      }
    }
  }

  lemma CancelApart(st: System, a: Device, b: Device)
    requires Sound(st) && NoOverlap(st) && (a, b) in st.srcCleanup
    ensures NoOverlap(DoCancel(st, a, b)) <==> !exists c :: IsLive(st, c, b) && Source(c) == a && !Intact(st, c, b)
  {
    var after := DoCancel(st, a, b);
    assert a != b by { assert (a, b).0 != (a, b).1; }
    hide ReplyPending, AskPending, Live, NodesOk;
    if c :| IsLive(st, c, b) && Source(c) == a && !Intact(st, c, b) {
      assert !Apart(after, c, b);
    } else {
      forall c: Connect, d: Device | c.Connect? ensures Apart(after, c, d) {
        assert Apart(st, c, d);
      }
    }
  }

  /** From a state without overlaps a step leads to one exactly if it is not an overlapping one. */
  lemma StepApart(st: System, ev: Event, policy: Policy)
    requires Sound(st) && NoOverlap(st) && Enabled(st, ev, policy)
    ensures NoOverlap(Apply(st, ev, policy)) <==> !Overlaps(st, ev, policy)
  {
    hide Sound, Apart, CanBegin, CanDrop, DoBegin, DoExecute, DoCommit, DoRetry, DoGiveUp, DoDisconnect,
         DoProcessDied, DoDeliver, DoLose, DoDrop, DoLinkUp, DoRunOrphan, DoLoseOrphan,
         DoCleanSource, DoCleanSink, DoCancel;
    match ev {
      case BeginConnect(k, r) => BeginApart(st, k, r);
      case Disconnect(c) => DisconnectApart(st, c);
      case ProcessDied(c) => ProcessDiedApart(st, c);
      case LinkDrop(a, b, kept) => DropApart(st, a, b, kept);
      case LinkUp(a, b) => LinkUpApart(st, a, b);
      case CancelCleanup(a, b) => CancelApart(st, a, b);
      case _ =>
        forall c: Connect, d: Device | c.Connect? ensures Apart(Apply(st, ev, policy), c, d) {
          SettlingApart(st, ev, policy, c, d);
        }
    }
  }

  /** Events that only finish what is under way. */
  predicate Settling(ev: Event) {
    !ev.BeginConnect? && !ev.Disconnect? && !ev.ProcessDied? && !ev.LinkDrop? && !ev.LinkUp? && !ev.CancelCleanup?
  }

  lemma SettlingApart(st: System, ev: Event, policy: Policy, c: Connect, d: Device)
    requires Sound(st) && Settling(ev) && Enabled(st, ev, policy) && c.Connect? && Apart(st, c, d)
    ensures Apart(Apply(st, ev, policy), c, d)
  {
    hide Sound, Apart;
    match ev {
      case Execute(k, ok) =>
        if ok { ExecuteApart(st, k, c, d); } else { LossApart(st, ev, policy, c, d); }
      case Commit(k) => CommitApart(st, k, c, d);
      case Deliver(m, again) => DeliverApart(st, m, again, c, d);
      case RunOrphan(r) => RunOrphanApart(st, r, c, d);
      case CleanSource(a, b) => CleanSourceApart(st, a, b, c, d);
      case CleanSink(a, b) => CleanSinkApart(st, a, b, c, d);
      case _ => LossApart(st, ev, policy, c, d);
    }
  }
}

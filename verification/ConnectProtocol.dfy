/** Any number of devices that connect to each other, as a system of atomic steps: one step per
    lock section of the source, with calls, notifications and offline cleanups in flight in
    between.  Under two assumptions about the network the protocol is free of leaks: every
    binding a device holds for a remote caller is justified by something that still exists, and
    when nothing is in flight, by a live session at the caller's device. */
module ConnectProtocol {
  import opened ConnectTable

  datatype Node = Node(table: Table, bindings: Bindings)

  datatype Request = Request(connect: Connect, target: Device, element: Element)

  /** A connect call between the quota check and its commit. */
  datatype Phase = Asked | Answered(ok: bool)
  datatype Call = Call(request: Request, phase: Phase, tries: nat)

  datatype Message =
    | Unbind(connect: Connect, to: Device)       // a disconnect on its way
    | Died(caller: CallerInfo, to: Device)       // a process-died notification on its way

  datatype System = System(
    nodes: map<Device, Node>,
    calls: map<nat, Call>,
    orphans: set<Request>,                  // requests whose caller already saw a broken link
    messages: set<Message>,                 // disconnects and obituaries on their way
    down: set<(Device, Device)>,            // broken links, both directions
    srcCleanup: set<(Device, Device)>,      // (a, b): a must still drop its sessions towards b
    sinkCleanup: set<(Device, Device)>)     // (a, b): a must still drop its bindings for b

  /** What is assumed of the network and of the cleanup queue. */
  datatype Policy = Policy(
    cleanBeforeUp: bool,        // a link returns only after both ends dropped their sessions over it
    orphansBeforeCleanup: bool, // a request caught by a link drop is over before the sink's cleanup
    keepCleanups: bool)         // a returning device does not cancel the cleanup queued for it

  /** The assumptions that the protocol needs; the third one follows from the first. */
  predicate Orderly(policy: Policy) {
    policy.cleanBeforeUp && policy.orphansBeforeCleanup
  }

  datatype Event =
    | BeginConnect(k: nat, request: Request)
    | Execute(k: nat, ok: bool)
    | FailCall(k: nat)
    | Commit(k: nat)
    | Retry(k: nat)
    | GiveUp(k: nat)
    | Disconnect(connect: Connect)
    | ProcessDied(connect: Connect)
    | Deliver(message: Message, again: bool)     // again: another copy stays on its way
    | Lose(message: Message)
    | LinkDrop(a: Device, b: Device, kept: set<nat>)   // kept: calls that the drop does not catch
    | LinkUp(a: Device, b: Device)
    | RunOrphan(request: Request)
    | LoseOrphan(request: Request)
    | CleanSource(a: Device, b: Device)
    | CleanSink(a: Device, b: Device)
    | CancelCleanup(a: Device, b: Device)

  function Source(c: Connect): Device
    requires c.Connect?
  {
    c.owner.sourceDeviceId
  }

  function Initial(devices: set<Device>): System {
    System(map d | d in devices :: Node(map[], map[]), map[], {}, {}, {}, {}, {})
  }

  // ---------------------------------------------------------------- steps

  predicate RequestOk(devices: set<Device>, r: Request) {
    && r.connect.Connect? && r.connect.owner.uid >= 0
    && Source(r.connect) in devices && r.target in devices && r.target != Source(r.connect)
  }

  predicate Up(st: System, a: Device, b: Device) {
    (a, b) !in st.down
  }

  function Destinations(list: seq<Session>): set<Device> {
    set i | 0 <= i < |list| :: list[i].destination
  }

  /** The disconnects sent for the sessions of c: one per device. */
  function Unbinds(t: Table, c: Connect): set<Message> {
    set d | d in Destinations(SessionsOf(t, c)) :: Unbind(c, d)
  }

  /** The notifications sent for a dead caller: one per device that its connects reached. */
  function Obituaries(t: Table, caller: CallerInfo): set<Message> {
    set c, d | c in t && c.Connect? && c.owner == caller && d in Destinations(t[c]) :: Died(caller, d)
  }

  /** A call or message travels over the link between a and b. */
  predicate Over(src: Device, dst: Device, a: Device, b: Device) {
    (src == a && dst == b) || (src == b && dst == a)
  }

  predicate RequestOver(r: Request, a: Device, b: Device) {
    r.connect.Connect? && Over(Source(r.connect), r.target, a, b)
  }

  /** The device that a message comes from. */
  function Sender(m: Message): Device {
    match m
    case Unbind(c, d) => if c.Connect? then Source(c) else d
    case Died(caller, d) => caller.sourceDeviceId
  }

  function Start(r: Request): Session
    requires r.connect.Connect?
  {
    Session(Source(r.connect), r.target, r.connect.owner, HarmonyComponent, [])
  }

  function WithTable(st: System, d: Device, t: Table): System
    requires d in st.nodes
  {
    st.(nodes := st.nodes[d := st.nodes[d].(table := t)])
  }

  function WithBindings(st: System, d: Device, b: Bindings): System
    requires d in st.nodes
  {
    st.(nodes := st.nodes[d := st.nodes[d].(bindings := b)])
  }

  /** The sink's side of a successful connect. */
  function Accept(st: System, r: Request): System
    requires RequestOk(st.nodes.Keys, r)
  {
    WithBindings(st, r.target,
      Bound(st.nodes[r.target].bindings, r.connect, ConnectInfo(r.connect.owner, r.element)))
  }

  // One pair per event: when it can happen, and what it does.

  predicate CanBegin(st: System, k: nat, r: Request) {
    && k !in st.calls && RequestOk(st.nodes.Keys, r)
    && |Owned(st.nodes[Source(r.connect)].table, r.connect.owner.uid)| < MAX_DISTRIBUTED_CONNECT_NUM
  }

  /** The quota check passed: the call goes out. */
  function DoBegin(st: System, k: nat, r: Request): System {
    st.(calls := st.calls[k := Call(r, Asked, BIND_CONNECT_RETRY_TIMES)])
  }

  predicate IsAsked(st: System, k: nat) {
    k in st.calls && st.calls[k].phase == Asked && RequestOk(st.nodes.Keys, st.calls[k].request)
  }

  predicate CanExecute(st: System, k: nat) {
    IsAsked(st, k) && Up(st, Source(st.calls[k].request.connect), st.calls[k].request.target)
  }

  /** The sink handles the call and answers with its real result. */
  function DoExecute(st: System, k: nat, ok: bool): System
    requires IsAsked(st, k)
  {
    (if ok then Accept(st, st.calls[k].request) else st)
      .(calls := st.calls[k := st.calls[k].(phase := Answered(ok))])
  }

  predicate CanFail(st: System, k: nat) {
    IsAsked(st, k) && !Up(st, Source(st.calls[k].request.connect), st.calls[k].request.target)
  }

  predicate CanCommit(st: System, k: nat) {
    k in st.calls && st.calls[k].phase == Answered(true) && RequestOk(st.nodes.Keys, st.calls[k].request)
  }

  /** The caller's device records the session. */
  function DoCommit(st: System, k: nat): System
    requires CanCommit(st, k)
  {
    var r := st.calls[k].request;
    WithTable(st, Source(r.connect), Mapped(st.nodes[Source(r.connect)].table, r.connect, Start(r), r.element))
      .(calls := st.calls - {k})
  }

  predicate CanRetry(st: System, k: nat) {
    k in st.calls && st.calls[k].phase == Answered(false) && st.calls[k].tries > 1
  }

  function DoRetry(st: System, k: nat): System
    requires CanRetry(st, k)
  {
    st.(calls := st.calls[k := st.calls[k].(phase := Asked, tries := st.calls[k].tries - 1)])
  }

  predicate CanGiveUp(st: System, k: nat) {
    k in st.calls && st.calls[k].phase == Answered(false)
  }

  function DoGiveUp(st: System, k: nat): System {
    st.(calls := st.calls - {k})
  }

  predicate Stored(st: System, c: Connect) {
    c.Connect? && Source(c) in st.nodes && c in st.nodes[Source(c)].table
  }

  function DoDisconnect(st: System, c: Connect): System
    requires Stored(st, c)
  {
    WithTable(st, Source(c), Unmapped(st.nodes[Source(c)].table, c))
      .(messages := st.messages + Unbinds(st.nodes[Source(c)].table, c))
  }

  function DoProcessDied(st: System, c: Connect): System
    requires Stored(st, c)
  {
    WithTable(st, Source(c), WithoutCaller(st.nodes[Source(c)].table, c.owner))
      .(messages := st.messages + Obituaries(st.nodes[Source(c)].table, c.owner))
  }

  predicate CanDeliver(st: System, m: Message) {
    m in st.messages && m.to in st.nodes
  }

  /** The sink handles a message.  Over a broken link that is one that arrived before. */
  function DoDeliver(st: System, m: Message, again: bool): System
    requires CanDeliver(st, m)
  {
    var b := st.nodes[m.to].bindings;
    WithBindings(st, m.to, if m.Unbind? then b - {m.connect} else UnboundCaller(b, m.caller))
      .(messages := if again then st.messages else st.messages - {m})
  }

  /** A message is lost only while its link is broken. */
  predicate CanLose(st: System, m: Message) {
    m in st.messages && !Up(st, Sender(m), m.to)
  }

  function DoLose(st: System, m: Message): System {
    st.(messages := st.messages - {m})
  }

  predicate CanDrop(st: System, a: Device, b: Device) {
    a in st.nodes && b in st.nodes && a != b && Up(st, a, b)
  }

  /** A link breaks: it catches some of the calls over it, their requests may still be at the
      sink, and both ends queue an offline cleanup.  Not caught are calls that are not sent yet
      and replies that the caller already holds. */
  function DoDrop(st: System, a: Device, b: Device, kept: set<nat>): System {
    st.(calls := map k | k in st.calls :: if RequestOver(st.calls[k].request, a, b) && k !in kept
                                          then st.calls[k].(phase := Answered(false)) else st.calls[k],
        orphans := st.orphans + (set k | k in st.calls && st.calls[k].phase == Asked && k !in kept
                                         && RequestOver(st.calls[k].request, a, b) :: st.calls[k].request),
        down := st.down + {(a, b), (b, a)},
        srcCleanup := st.srcCleanup + {(a, b), (b, a)},
        sinkCleanup := st.sinkCleanup + {(a, b), (b, a)})
  }

  predicate CanLinkUp(st: System, a: Device, b: Device, policy: Policy) {
    && a in st.nodes && b in st.nodes && !Up(st, a, b)
    && (policy.cleanBeforeUp ==> (a, b) !in st.srcCleanup && (b, a) !in st.srcCleanup)
  }

  function DoLinkUp(st: System, a: Device, b: Device): System {
    st.(down := st.down - {(a, b), (b, a)})
  }

  predicate CanRunOrphan(st: System, r: Request, policy: Policy) {
    && r in st.orphans && RequestOk(st.nodes.Keys, r)
    && (policy.orphansBeforeCleanup ==> (r.target, Source(r.connect)) in st.sinkCleanup)
  }

  function DoRunOrphan(st: System, r: Request): System
    requires RequestOk(st.nodes.Keys, r)
  {
    Accept(st, r).(orphans := st.orphans - {r})
  }

  /** A caught request never arrived or is refused. */
  function DoLoseOrphan(st: System, r: Request): System {
    st.(orphans := st.orphans - {r})
  }

  predicate CanCleanSource(st: System, a: Device, b: Device) {
    a in st.nodes && (a, b) in st.srcCleanup
  }

  function DoCleanSource(st: System, a: Device, b: Device): System
    requires CanCleanSource(st, a, b)
  {
    WithTable(st, a, WithoutDevice(st.nodes[a].table, b)).(srcCleanup := st.srcCleanup - {(a, b)})
  }

  /** The second half of a cleanup runs after the first. */
  predicate CanCleanSink(st: System, a: Device, b: Device) {
    a in st.nodes && (a, b) in st.sinkCleanup && (a, b) !in st.srcCleanup
  }

  function DoCleanSink(st: System, a: Device, b: Device): System
    requires CanCleanSink(st, a, b)
  {
    WithBindings(st, a, UnboundDevice(st.nodes[a].bindings, b)).(sinkCleanup := st.sinkCleanup - {(a, b)})
  }

  /** A device that is back cancels the cleanup queued for it, unless it has started. */
  predicate CanCancel(st: System, a: Device, b: Device, policy: Policy) {
    !policy.keepCleanups && Up(st, a, b) && (a, b) in st.srcCleanup && (a, b) in st.sinkCleanup
  }

  function DoCancel(st: System, a: Device, b: Device): System {
    st.(srcCleanup := st.srcCleanup - {(a, b)}, sinkCleanup := st.sinkCleanup - {(a, b)})
  }

  predicate Enabled(st: System, ev: Event, policy: Policy) {
    match ev
    case BeginConnect(k, r) => CanBegin(st, k, r)
    case Execute(k, ok) => CanExecute(st, k)
    case FailCall(k) => CanFail(st, k)
    case Commit(k) => CanCommit(st, k)
    case Retry(k) => CanRetry(st, k)
    case GiveUp(k) => CanGiveUp(st, k)
    case Disconnect(c) => Stored(st, c)
    case ProcessDied(c) => Stored(st, c)
    case Deliver(m, again) => CanDeliver(st, m)
    case Lose(m) => CanLose(st, m)
    case LinkDrop(a, b, kept) => CanDrop(st, a, b)
    case LinkUp(a, b) => CanLinkUp(st, a, b, policy)
    case RunOrphan(r) => CanRunOrphan(st, r, policy)
    case LoseOrphan(r) => r in st.orphans
    case CleanSource(a, b) => CanCleanSource(st, a, b)
    case CleanSink(a, b) => CanCleanSink(st, a, b)
    case CancelCleanup(a, b) => CanCancel(st, a, b, policy)
  }

  function Apply(st: System, ev: Event, policy: Policy): System
    requires Enabled(st, ev, policy)
  {
    match ev
    case BeginConnect(k, r) => DoBegin(st, k, r)
    case Execute(k, ok) => DoExecute(st, k, ok)
    case FailCall(k) => DoExecute(st, k, false)
    case Commit(k) => DoCommit(st, k)
    case Retry(k) => DoRetry(st, k)
    case GiveUp(k) => DoGiveUp(st, k)
    case Disconnect(c) => DoDisconnect(st, c)
    case ProcessDied(c) => DoProcessDied(st, c)
    case Deliver(m, again) => DoDeliver(st, m, again)
    case Lose(m) => DoLose(st, m)
    case LinkDrop(a, b, kept) => DoDrop(st, a, b, kept)
    case LinkUp(a, b) => DoLinkUp(st, a, b)
    case RunOrphan(r) => DoRunOrphan(st, r)
    case LoseOrphan(r) => DoLoseOrphan(st, r)
    case CleanSource(a, b) => DoCleanSource(st, a, b)
    case CleanSink(a, b) => DoCleanSink(st, a, b)
    case CancelCleanup(a, b) => DoCancel(st, a, b)
  }

  /** The state after a run, as long as every event of it is enabled. */
  ghost predicate Runs(st: System, run: seq<Event>, policy: Policy, last: System)
    decreases |run|
  {
    if run == [] then last == st
    else Enabled(st, run[0], policy) && Runs(Apply(st, run[0], policy), run[1..], policy, last)
  }

  ghost predicate Step(st: System, ev: Event, next: System, policy: Policy) {
    Enabled(st, ev, policy) && Apply(st, ev, policy) == next
  }

  lemma RunsStep(st: System, ev: Event, next: System, run: seq<Event>, policy: Policy, last: System)
    requires Step(st, ev, next, policy) && Runs(next, run, policy, last)
    ensures Runs(st, [ev] + run, policy, last)
  {
    hide Enabled, Apply;
    assert ([ev] + run)[1..] == run;
  }

  // ---------------------------------------------------------------- the invariant

  predicate TableNodeOk(s: Device, t: Table) {
    TableOk(t) && forall c :: c in t ==> c.Connect? && Source(c) == s
  }

  predicate BindingsNodeOk(devices: set<Device>, s: Device, b: Bindings) {
    BindingsOk(b) && forall c :: c in b ==> c.Connect? && Source(c) in devices && Source(c) != s
  }

  predicate NodesOk(nodes: map<Device, Node>) {
    forall s :: s in nodes ==>
      TableNodeOk(s, nodes[s].table) && BindingsNodeOk(nodes.Keys, s, nodes[s].bindings)
  }

  predicate CallsOk(devices: set<Device>, calls: map<nat, Call>) {
    forall k :: k in calls ==> RequestOk(devices, calls[k].request)
  }

  predicate OrphansOk(devices: set<Device>, orphans: set<Request>) {
    forall r :: r in orphans ==> RequestOk(devices, r)
  }

  ghost predicate LinksOk(down: set<(Device, Device)>, srcCleanup: set<(Device, Device)>) {
    && (forall a, b :: (a, b) in down ==> (b, a) in down)
    && srcCleanup <= down
  }

  ghost predicate WellFormed(st: System) {
    && NodesOk(st.nodes) && CallsOk(st.nodes.Keys, st.calls) && OrphansOk(st.nodes.Keys, st.orphans)
    && LinksOk(st.down, st.srcCleanup)
  }

  /** A connect answered with success whose reply has not been committed yet. */
  ghost predicate ReplyPending(calls: map<nat, Call>, c: Connect, d: Device) {
    exists k :: k in calls && calls[k].phase == Answered(true)
                && calls[k].request.connect == c && calls[k].request.target == d
  }

  /** Why device d may hold a binding for c. */
  ghost predicate Justified(st: System, c: Connect, d: Device)
    requires c.Connect? && Source(c) in st.nodes
  {
    || Live(st.nodes[Source(c)].table, c, d)
    || ReplyPending(st.calls, c, d)
    || Unbind(c, d) in st.messages
    || Died(c.owner, d) in st.messages
    || (d, Source(c)) in st.sinkCleanup
  }

  /** Over a broken link only the sink's own cleanup can still remove a binding. */
  predicate Covered(st: System, c: Connect, d: Device)
    requires c.Connect?
  {
    !Up(st, Source(c), d) ==> (d, Source(c)) in st.sinkCleanup
  }

  ghost predicate BindingsJustified(st: System)
    requires NodesOk(st.nodes)
  {
    forall d, c :: d in st.nodes && c in st.nodes[d].bindings ==> Justified(st, c, d) && Covered(st, c, d)
  }

  ghost predicate Inv(st: System) {
    WellFormed(st) && BindingsJustified(st)
  }

  predicate Quiescent(st: System) {
    && st.calls == map[] && st.orphans == {} && st.messages == {}
    && st.srcCleanup == {} && st.sinkCleanup == {}
  }

  /** Every binding anywhere belongs to a live session of its caller. */
  ghost predicate NoLeak(st: System) {
    forall d, c :: d in st.nodes && c in st.nodes[d].bindings ==>
      c.Connect? && Source(c) in st.nodes && Live(st.nodes[Source(c)].table, c, d)
  }

  lemma InitialInv(devices: set<Device>)
    ensures Inv(Initial(devices))
  {
  }

  lemma QuiescentHasNoLeak(st: System)
    requires Inv(st) && Quiescent(st)
    ensures NoLeak(st)
  {
  }

  // ---------------------------------------------------------------- every step keeps it

  /** A step keeps the invariant if it adds no binding and every justification survives it. */
  lemma JustificationsSurvive(st: System, after: System)
    requires Inv(st) && WellFormed(after)
    requires after.nodes.Keys == st.nodes.Keys
    requires forall d :: d in after.nodes ==> after.nodes[d].bindings.Keys <= st.nodes[d].bindings.Keys
    requires forall d, c :: d in after.nodes && c in after.nodes[d].bindings
                            && Justified(st, c, d) && Covered(st, c, d)
                            ==> Justified(after, c, d) && Covered(after, c, d)
    ensures Inv(after)
  {
    hide Justified, Covered, CallsOk, LinksOk, OrphansOk;
  }

  /** A pending reply stays pending as long as its call is not touched. */
  lemma RepliesSurvive(calls: map<nat, Call>, after: map<nat, Call>, k: nat)
    requires k in calls ==> calls[k].phase != Answered(true)
    requires forall j :: j in calls && j != k ==> j in after && after[j] == calls[j]
    ensures forall c, d :: ReplyPending(calls, c, d) ==> ReplyPending(after, c, d)
  {
    forall c, d | ReplyPending(calls, c, d) ensures ReplyPending(after, c, d) {
      var j :| j in calls && calls[j].phase == Answered(true)
               && calls[j].request.connect == c && calls[j].request.target == d;
      assert j in after && after[j] == calls[j];
    }
  }

  /** Steps that only move a call along. */
  lemma CallStepKeepsInv(st: System, calls: map<nat, Call>, k: nat)
    requires Inv(st) && CallsOk(st.nodes.Keys, calls)
    requires k in st.calls ==> st.calls[k].phase != Answered(true)
    requires forall j :: j in st.calls && j != k ==> j in calls && calls[j] == st.calls[j]
    ensures Inv(st.(calls := calls))
  {
    RepliesSurvive(st.calls, calls, k);
    hide NodesOk, Live, ReplyPending, CallsOk, LinksOk, OrphansOk;
    JustificationsSurvive(st, st.(calls := calls));
  }

  lemma WithTableOk(st: System, s: Device, t: Table)
    requires NodesOk(st.nodes) && s in st.nodes && TableNodeOk(s, t)
    ensures NodesOk(WithTable(st, s, t).nodes)
  {
    hide TableNodeOk, BindingsNodeOk;
    assert WithTable(st, s, t).nodes.Keys == st.nodes.Keys;
  }

  lemma WithBindingsOk(st: System, s: Device, b: Bindings)
    requires NodesOk(st.nodes) && s in st.nodes && BindingsNodeOk(st.nodes.Keys, s, b)
    ensures NodesOk(WithBindings(st, s, b).nodes)
  {
    hide TableNodeOk, BindingsNodeOk;
    assert WithBindings(st, s, b).nodes.Keys == st.nodes.Keys;
  }

  lemma BeginKeepsInv(st: System, k: nat, r: Request)
    requires Inv(st) && CanBegin(st, k, r)
    ensures Inv(DoBegin(st, k, r))
  {
    CallStepKeepsInv(st, st.calls[k := Call(r, Asked, BIND_CONNECT_RETRY_TIMES)], k);
  }

  lemma FailKeepsInv(st: System, k: nat)
    requires Inv(st) && IsAsked(st, k)
    ensures Inv(DoExecute(st, k, false))
  {
    CallStepKeepsInv(st, st.calls[k := st.calls[k].(phase := Answered(false))], k);
  }

  lemma RetryKeepsInv(st: System, k: nat)
    requires Inv(st) && CanRetry(st, k)
    ensures Inv(DoRetry(st, k))
  {
    CallStepKeepsInv(st, DoRetry(st, k).calls, k);
  }

  lemma GiveUpKeepsInv(st: System, k: nat)
    requires Inv(st) && CanGiveUp(st, k)
    ensures Inv(DoGiveUp(st, k))
  {
    CallStepKeepsInv(st, st.calls - {k}, k);
  }

  lemma BoundOk(devices: set<Device>, b: Bindings, r: Request)
    requires BindingsNodeOk(devices, r.target, b) && RequestOk(devices, r)
    ensures BindingsNodeOk(devices, r.target, Bound(b, r.connect, ConnectInfo(r.connect.owner, r.element)))
  {
  }

  /** Accepting changes nothing but the bindings of the target, by at most the one connect. */
  lemma AcceptOk(st: System, r: Request)
    requires NodesOk(st.nodes) && RequestOk(st.nodes.Keys, r)
    ensures NodesOk(Accept(st, r).nodes) && Accept(st, r).nodes.Keys == st.nodes.Keys
    ensures forall d :: d in st.nodes ==> Accept(st, r).nodes[d].table == st.nodes[d].table
    ensures forall d, c :: d in st.nodes && c in Accept(st, r).nodes[d].bindings ==>
              c in st.nodes[d].bindings || (c == r.connect && d == r.target)
  {
    hide TableNodeOk, BindingsNodeOk;
    BoundOk(st.nodes.Keys, st.nodes[r.target].bindings, r);
    WithBindingsOk(st, r.target, Accept(st, r).nodes[r.target].bindings);
  }

  /** A step keeps the invariant if it adds one justified binding and old justifications survive. */
  lemma AcceptingKeepsInv(st: System, r: Request, after: System)
    requires Inv(st) && RequestOk(st.nodes.Keys, r)
    requires after == Accept(st, r).(calls := after.calls, orphans := after.orphans)
    requires CallsOk(st.nodes.Keys, after.calls) && OrphansOk(st.nodes.Keys, after.orphans)
    requires forall c, d :: ReplyPending(st.calls, c, d) ==> ReplyPending(after.calls, c, d)
    requires r.target in after.nodes && Source(r.connect) in after.nodes
    requires Justified(after, r.connect, r.target) && Covered(after, r.connect, r.target)
    ensures Inv(after)
  {
    AcceptOk(st, r);
    hide CallsOk, OrphansOk, LinksOk, ReplyPending, Live, Bound, RequestOk, TableNodeOk, BindingsNodeOk;
    forall d, c | d in after.nodes && c in after.nodes[d].bindings
      ensures c.Connect? && Source(c) in after.nodes && Justified(after, c, d) && Covered(after, c, d)
    {
      assert c in st.nodes[d].bindings ==> Justified(st, c, d) && Covered(st, c, d);
    }
  }

  lemma ExecuteKeepsInv(st: System, k: nat)
    requires Inv(st) && CanExecute(st, k)
    ensures Inv(DoExecute(st, k, true))
  {
    var r, after := st.calls[k].request, DoExecute(st, k, true);
    RepliesSurvive(st.calls, after.calls, k);
    assert ReplyPending(after.calls, r.connect, r.target) by {
      assert after.calls[k].phase == Answered(true);
    }
    AcceptingKeepsInv(st, r, after);
  }

  lemma RunOrphanKeepsInv(st: System, r: Request, policy: Policy)
    requires Inv(st) && policy.orphansBeforeCleanup && CanRunOrphan(st, r, policy)
    ensures Inv(DoRunOrphan(st, r))
  {
    AcceptingKeepsInv(st, r, DoRunOrphan(st, r));
  }

  /** A step that changes one table keeps the invariant if whatever it takes a live session from
      is justified otherwise. */
  lemma TableStepKeepsInv(st: System, s: Device, t: Table, after: System)
    requires Inv(st) && s in st.nodes && TableNodeOk(s, t)
    requires after == WithTable(st, s, t)
                        .(calls := after.calls, messages := after.messages, srcCleanup := after.srcCleanup)
    requires CallsOk(st.nodes.Keys, after.calls) && st.messages <= after.messages && after.srcCleanup <= st.srcCleanup
    requires forall c: Connect, d: Device :: c.Connect? && Source(c) == s && d in st.nodes && c in st.nodes[d].bindings
                            && Covered(st, c, d) && (Live(st.nodes[s].table, c, d) || ReplyPending(st.calls, c, d))
                            ==> Justified(after, c, d)
    requires forall c: Connect, d: Device :: c.Connect? && Source(c) != s && ReplyPending(st.calls, c, d)
                            ==> ReplyPending(after.calls, c, d)
    ensures Inv(after)
  {
    WithTableOk(st, s, t);
    assert after.nodes.Keys == st.nodes.Keys;
    assert forall d :: d in st.nodes ==> after.nodes[d].bindings == st.nodes[d].bindings;
    assert forall d :: d in st.nodes && d != s ==> after.nodes[d] == st.nodes[d];
    hide CallsOk, OrphansOk, ReplyPending, Live, NodesOk, WithTable;
    JustificationsSurvive(st, after);
  }

  lemma CommitKeepsInv(st: System, k: nat)
    requires Inv(st) && CanCommit(st, k)
    ensures Inv(DoCommit(st, k))
  {
    var r := st.calls[k].request;
    var s := Source(r.connect);
    var t, after := Mapped(st.nodes[s].table, r.connect, Start(r), r.element), DoCommit(st, k);
    assert TableNodeOk(s, st.nodes[s].table);
    MappedOk(st.nodes[s].table, r.connect, Start(r), r.element);
    forall c, d | ReplyPending(st.calls, c, d)
      ensures ReplyPending(after.calls, c, d) || (c == r.connect && d == r.target)
    {
      var j :| j in st.calls && st.calls[j].phase == Answered(true)
               && st.calls[j].request.connect == c && st.calls[j].request.target == d;
      assert j != k ==> j in after.calls && after.calls[j] == st.calls[j];
    }
    hide ReplyPending, Live, TableOk;
    TableStepKeepsInv(st, s, t, after);
  }

  lemma DestinationsAreTowards(list: seq<Session>)
    ensures forall d :: d in Destinations(list) <==> Towards(list, d)
  {
  }

  lemma DisconnectKeepsInv(st: System, c: Connect)
    requires Inv(st) && Stored(st, c)
    ensures Inv(DoDisconnect(st, c))
  {
    var s := Source(c);
    var t, after := Unmapped(st.nodes[s].table, c), DoDisconnect(st, c);
    assert TableNodeOk(s, st.nodes[s].table);
    DestinationsAreTowards(st.nodes[s].table[c]);
    hide ReplyPending, TableOk, CallsOk, Towards, Destinations;
    assert forall d :: Live(st.nodes[s].table, c, d) ==> Unbind(c, d) in after.messages;
    TableStepKeepsInv(st, s, t, after);
  }

  lemma ProcessDiedKeepsInv(st: System, c: Connect)
    requires Inv(st) && Stored(st, c)
    ensures Inv(DoProcessDied(st, c))
  {
    var s := Source(c);
    var before := st.nodes[s].table;
    var t, after := WithoutCaller(before, c.owner), DoProcessDied(st, c);
    assert TableNodeOk(s, before);
    WithoutCallerOk(before, c.owner);
    forall x, d | Live(before, x, d) && x.owner == c.owner
      ensures Died(c.owner, d) in after.messages
    {
      DestinationsAreTowards(before[x]);
      assert d in Destinations(before[x]);
    }
    hide ReplyPending, TableOk, CallsOk, Live;
    TableStepKeepsInv(st, s, t, after);
  }

  lemma CleanSourceKeepsInv(st: System, a: Device, b: Device)
    requires Inv(st) && CanCleanSource(st, a, b)
    ensures Inv(DoCleanSource(st, a, b))
  {
    var t, after := WithoutDevice(st.nodes[a].table, b), DoCleanSource(st, a, b);
    assert TableNodeOk(a, st.nodes[a].table);
    WithoutDeviceOk(st.nodes[a].table, b);
    hide ReplyPending, TableOk, CallsOk, Live;
    TableStepKeepsInv(st, a, t, after);
  }

  /** A step that takes bindings away from one device keeps the invariant if the removals it
      completes were not what justified the bindings that stay. */
  lemma BindingsStepKeepsInv(st: System, s: Device, b: Bindings, after: System)
    requires Inv(st) && s in st.nodes && BindingsNodeOk(st.nodes.Keys, s, b)
    requires b.Keys <= st.nodes[s].bindings.Keys
    requires after == WithBindings(st, s, b).(messages := after.messages, sinkCleanup := after.sinkCleanup)
    requires forall d, c :: d in after.nodes && c in after.nodes[d].bindings && c.Connect?
                            ==> RemovalsStay(st, after, c, d)
    ensures Inv(after)
  {
    WithBindingsOk(st, s, b);
    assert after.nodes.Keys == st.nodes.Keys;
    assert forall d :: d in st.nodes ==>
      after.nodes[d].table == st.nodes[d].table && after.nodes[d].bindings.Keys <= st.nodes[d].bindings.Keys;
    hide CallsOk, OrphansOk, LinksOk, NodesOk, RemovalsStay, WithBindings, Justified, Covered;
    forall d, c: Connect | d in after.nodes && c in after.nodes[d].bindings && c.Connect? && Source(c) in st.nodes
                           && Justified(st, c, d) && Covered(st, c, d)
      ensures Justified(after, c, d) && Covered(after, c, d)
    {
      RemovalsKeepJustification(st, after, c, d);
    }
    JustificationsSurvive(st, after);
  }

  /** Whatever is on its way to remove the binding of c at d still is. */
  predicate RemovalsStay(st: System, after: System, c: Connect, d: Device)
    requires c.Connect?
  {
    && (Unbind(c, d) in st.messages ==> Unbind(c, d) in after.messages)
    && (Died(c.owner, d) in st.messages ==> Died(c.owner, d) in after.messages)
    && ((d, Source(c)) in st.sinkCleanup ==> (d, Source(c)) in after.sinkCleanup)
  }

  lemma RemovalsKeepJustification(st: System, after: System, c: Connect, d: Device)
    requires c.Connect? && Source(c) in st.nodes && Source(c) in after.nodes
    requires after.nodes[Source(c)].table == st.nodes[Source(c)].table
    requires after.calls == st.calls && after.down == st.down && RemovalsStay(st, after, c, d)
    requires Justified(st, c, d) && Covered(st, c, d)
    ensures Justified(after, c, d) && Covered(after, c, d)
  {
    hide ReplyPending, Live;
  }

  lemma FewerBindings(st: System, d: Device, b: Bindings)
    requires NodesOk(st.nodes) && d in st.nodes
    requires b.Keys <= st.nodes[d].bindings.Keys && forall c :: c in b ==> b[c] == st.nodes[d].bindings[c]
    ensures BindingsNodeOk(st.nodes.Keys, d, b)
    ensures forall c :: c in b ==> c.Connect? && b[c].caller == c.owner
  {
    assert BindingsNodeOk(st.nodes.Keys, d, st.nodes[d].bindings);
  }

  lemma DeliverKeepsInv(st: System, m: Message, again: bool)
    requires Inv(st) && CanDeliver(st, m)
    ensures Inv(DoDeliver(st, m, again))
  {
    var after := DoDeliver(st, m, again);
    var b := after.nodes[m.to].bindings;
    FewerBindings(st, m.to, b);
    hide BindingsNodeOk, Inv, NodesOk;
    BindingsStepKeepsInv(st, m.to, b, after);
  }

  lemma CleanSinkKeepsInv(st: System, a: Device, b: Device)
    requires Inv(st) && CanCleanSink(st, a, b)
    ensures Inv(DoCleanSink(st, a, b))
  {
    var after := DoCleanSink(st, a, b);
    FewerBindings(st, a, after.nodes[a].bindings);
    hide BindingsNodeOk, Inv, NodesOk;
    BindingsStepKeepsInv(st, a, after.nodes[a].bindings, after);
  }

  lemma LinkUpKeepsInv(st: System, a: Device, b: Device, policy: Policy)
    requires Inv(st) && policy.cleanBeforeUp && CanLinkUp(st, a, b, policy)
    ensures Inv(DoLinkUp(st, a, b))
  {
    hide NodesOk, CallsOk, OrphansOk, ReplyPending, Live;
    JustificationsSurvive(st, DoLinkUp(st, a, b));
  }

  /** What a lost message was to remove is left to the sink's cleanup. */
  lemma LoseKeepsInv(st: System, m: Message)
    requires Inv(st) && CanLose(st, m)
    ensures Inv(DoLose(st, m))
  {
    assert forall d, c :: d in st.nodes && c in st.nodes[d].bindings ==> c.Connect?;
    hide NodesOk, CallsOk, OrphansOk, LinksOk, ReplyPending, Live;
    JustificationsSurvive(st, DoLose(st, m));
  }

  lemma LoseOrphanKeepsInv(st: System, r: Request)
    requires Inv(st)
    ensures Inv(DoLoseOrphan(st, r))
  {
    assert OrphansOk(st.nodes.Keys, st.orphans - {r});
    hide NodesOk, CallsOk, OrphansOk, LinksOk, ReplyPending, Live;
    JustificationsSurvive(st, DoLoseOrphan(st, r));
  }

  lemma DropWellFormed(st: System, a: Device, b: Device, kept: set<nat>)
    requires WellFormed(st)
    ensures WellFormed(DoDrop(st, a, b, kept))
    ensures forall c: Connect, d :: c.Connect? && ReplyPending(st.calls, c, d) && !Over(Source(c), d, a, b)
                                    ==> ReplyPending(DoDrop(st, a, b, kept).calls, c, d)
  {
    hide NodesOk;
    var after := DoDrop(st, a, b, kept);
    forall c: Connect, d | c.Connect? && ReplyPending(st.calls, c, d) && !Over(Source(c), d, a, b)
      ensures ReplyPending(after.calls, c, d)
    {
      var j :| j in st.calls && st.calls[j].phase == Answered(true)
               && st.calls[j].request.connect == c && st.calls[j].request.target == d;
      assert after.calls[j] == st.calls[j];
    }
  }

  lemma DropKeepsInv(st: System, a: Device, b: Device, kept: set<nat>)
    requires Inv(st) && CanDrop(st, a, b)
    ensures Inv(DoDrop(st, a, b, kept))
  {
    DropWellFormed(st, a, b, kept);
    hide NodesOk, ReplyPending, Live, CallsOk, OrphansOk, LinksOk;
    JustificationsSurvive(st, DoDrop(st, a, b, kept));
  }

  /** A cleanup is queued only while its link is down, so no return of the device can cancel it. */
  lemma NothingToCancel(st: System, a: Device, b: Device)
    requires Inv(st)
    ensures (a, b) in st.srcCleanup ==> !Up(st, a, b)
  {
  }

  /** Every step under the assumptions keeps the invariant. */
  lemma StepKeepsInv(st: System, ev: Event, policy: Policy)
    requires Inv(st) && Orderly(policy) && Enabled(st, ev, policy)
    ensures Inv(Apply(st, ev, policy))
  {
    hide Inv, CanBegin, IsAsked, CanCommit, CanRetry, CanGiveUp, Stored, CanDeliver, CanLose, CanDrop, CanLinkUp,
         CanRunOrphan, CanCleanSource, CanCleanSink, DoBegin, DoExecute, DoCommit, DoRetry, DoGiveUp,
         DoDisconnect, DoProcessDied, DoDeliver, DoLose, DoDrop, DoLinkUp, DoRunOrphan, DoLoseOrphan,
         DoCleanSource, DoCleanSink;
    match ev {
      case BeginConnect(k, r) => BeginKeepsInv(st, k, r);
      case Execute(k, ok) => if ok { ExecuteKeepsInv(st, k); } else { FailKeepsInv(st, k); }
      case FailCall(k) => FailKeepsInv(st, k);
      case Commit(k) => CommitKeepsInv(st, k);
      case Retry(k) => RetryKeepsInv(st, k);
      case GiveUp(k) => GiveUpKeepsInv(st, k);
      case Disconnect(c) => DisconnectKeepsInv(st, c);
      case ProcessDied(c) => ProcessDiedKeepsInv(st, c);
      case Deliver(m, again) => DeliverKeepsInv(st, m, again);
      case Lose(m) => LoseKeepsInv(st, m);
      case LinkDrop(a, b, kept) => DropKeepsInv(st, a, b, kept);
      case LinkUp(a, b) => LinkUpKeepsInv(st, a, b, policy);
      case RunOrphan(r) => RunOrphanKeepsInv(st, r, policy);
      case LoseOrphan(r) => LoseOrphanKeepsInv(st, r);
      case CleanSource(a, b) => CleanSourceKeepsInv(st, a, b);
      case CleanSink(a, b) => CleanSinkKeepsInv(st, a, b);
      case CancelCleanup(a, b) => NothingToCancel(st, a, b);
    }
  }

  lemma {:induction false} RunKeepsInv(st: System, run: seq<Event>, policy: Policy, last: System)
    requires Inv(st) && Orderly(policy) && Runs(st, run, policy, last)
    ensures Inv(last)
    decreases |run|
  {
    hide Inv, Enabled, Apply;
    if run != [] {
      StepKeepsInv(st, run[0], policy);
      RunKeepsInv(Apply(st, run[0], policy), run[1..], policy, last);
    }
  }

  /** In every state of every run, whatever is in flight, each binding has its justification. */
  lemma AlwaysJustified(devices: set<Device>, run: seq<Event>, policy: Policy, last: System, c: Connect, d: Device)
    requires Orderly(policy) && Runs(Initial(devices), run, policy, last)
    requires d in last.nodes && c in last.nodes[d].bindings
    ensures c.Connect? && Source(c) in last.nodes && Justified(last, c, d)
  {
    InitialInv(devices);
    RunKeepsInv(Initial(devices), run, policy, last);
  }
}

/** What the events of the connection protocol come to when they follow each other undisturbed: what
    was connected is disconnected again, a lost device leaves no trace, and no call is tried more than
    three times. */
module ConnectSerial {
  import opened ConnectTable
  import opened ConnectProtocol
  import opened ConnectSettling
  import opened ConnectRest

  // ---------------------------------------------------------------- connecting

  predicate CanConnect(st: System, k: nat, r: Request) {
    CanBegin(st, k, r) && Up(st, Source(r.connect), r.target)
  }

  /** The state after a connect has been asked for, accepted and recorded. */
  function Connected(st: System, r: Request): System
    requires RequestOk(st.nodes.Keys, r)
  {
    var s := Source(r.connect);
    WithTable(Accept(st, r), s, Mapped(st.nodes[s].table, r.connect, Start(r), r.element))
  }

  lemma ConnectInARow(st: System, k: nat, r: Request, policy: Policy) returns (run: seq<Event>)
    requires CanConnect(st, k, r)
    ensures Runs(st, run, policy, Connected(st, r)) && run == [BeginConnect(k, r), Execute(k, true), Commit(k)]
  {
    hide Mapped, Bound, Owned;
    var s1 := DoBegin(st, k, r);
    var s2 := DoExecute(s1, k, true);
    var last := DoCommit(s2, k);
    assert last.calls == st.calls;
    assert last == Connected(st, r);
    assert Runs(last, [], policy, last);
    hide Runs, DoBegin, DoExecute, DoCommit;
    RunsStep(s2, Commit(k), last, [], policy, last);
    RunsStep(s1, Execute(k, true), s2, [Commit(k)] + [], policy, last);
    RunsStep(st, BeginConnect(k, r), s1, [Execute(k, true)] + ([Commit(k)] + []), policy, last);
    run := [BeginConnect(k, r)] + ([Execute(k, true)] + ([Commit(k)] + []));
  }

  /** It has its session with the element, its binding, and nothing else has changed. */
  lemma ConnectedMeans(st: System, r: Request)
    requires NodesOk(st.nodes) && RequestOk(st.nodes.Keys, r)
    ensures var last, s, c := Connected(st, r), Source(r.connect), r.connect;
            && last == st.(nodes := last.nodes) && last.nodes.Keys == st.nodes.Keys
            && (forall d :: d in st.nodes && d != s ==> last.nodes[d].table == st.nodes[d].table)
            && (forall d :: d in st.nodes && d != r.target ==> last.nodes[d].bindings == st.nodes[d].bindings)
            && last.nodes[r.target].bindings
               == (if c in st.nodes[r.target].bindings then st.nodes[r.target].bindings
                   else st.nodes[r.target].bindings[c := ConnectInfo(c.owner, r.element)])
            && last.nodes[s].table.Keys == st.nodes[s].table.Keys + {c}
            && (forall x :: x in st.nodes[s].table && x != c ==> last.nodes[s].table[x] == st.nodes[s].table[x])
            && forall x, d :: var before := ElementsOn(SessionsOf(st.nodes[s].table, x), d);
                 ElementsOn(SessionsOf(last.nodes[s].table, x), d)
                 == if x == c && d == r.target && r.element !in before then before + [r.element] else before
  {
    var s := Source(r.connect);
    assert TableNodeOk(s, st.nodes[s].table);
    MappedElements(st.nodes[s].table, r.connect, Start(r), r.element);
    hide NodesOk, Mapped, ElementsOn, SessionsOf;
  }

  /** A call that is refused or finds no link, as often as it is tried, leaves nothing behind. */
  lemma RefusedInARow(st: System, k: nat, r: Request, policy: Policy) returns (run: seq<Event>)
    requires CanBegin(st, k, r)
    ensures Runs(st, run, policy, st)
  {
    var ev := if Up(st, Source(r.connect), r.target) then Execute(k, false) else FailCall(k);
    var s1 := DoBegin(st, k, r);
    var s2 := DoExecute(s1, k, false);
    assert DoGiveUp(s2, k).calls == st.calls;
    assert DoGiveUp(s2, k) == st;
    assert Runs(st, [], policy, st);
    hide Runs, Owned;
    RunsStep(s2, GiveUp(k), st, [], policy, st);
    run := [GiveUp(k)] + [];
    RunsStep(s1, ev, s2, run, policy, st);
    run := [ev] + run;
    RunsStep(st, BeginConnect(k, r), s1, run, policy, st);
    run := [BeginConnect(k, r)] + run;
  }

  // ---------------------------------------------------------------- and disconnecting

  /** A new connect object that is connected and disconnected again leaves the system as it was. */
  lemma DisconnectUndoes(st: System, r: Request, policy: Policy) returns (run: seq<Event>)
    requires RequestOk(st.nodes.Keys, r) && Unbind(r.connect, r.target) !in st.messages
    requires r.connect !in st.nodes[Source(r.connect)].table && r.connect !in st.nodes[r.target].bindings
    ensures Runs(Connected(st, r), run, policy, st)
    ensures run == [Disconnect(r.connect), Deliver(Unbind(r.connect, r.target), false)]
  {
    var c, s, m := r.connect, Source(r.connect), Unbind(r.connect, r.target);
    var s0 := Connected(st, r);
    var list := [Start(r).(elements := [r.element])];
    assert s0.nodes[s].table == st.nodes[s].table[c := list];
    assert Destinations(list) == {r.target} by { assert list[0].destination == r.target; }
    assert Unbinds(s0.nodes[s].table, c) == {m};
    var s1 := DoDisconnect(s0, c);
    assert s1.nodes[s].table == st.nodes[s].table && s1.messages == st.messages + {m};
    var s2 := DoDeliver(s1, m, false);
    assert s2.nodes[r.target].bindings == st.nodes[r.target].bindings && s2.messages == st.messages;
    assert s2.nodes == st.nodes;
    assert s2 == st;
    assert Runs(st, [], policy, st);
    hide Runs, DoDisconnect, DoDeliver, Connected;
    RunsStep(s1, Deliver(m, false), st, [], policy, st);
    RunsStep(s0, Disconnect(c), s1, [Deliver(m, false)] + [], policy, st);
    run := [Disconnect(c)] + ([Deliver(m, false)] + []);
  }

  /** So does a new caller that connects and dies. */
  lemma DeathUndoes(st: System, r: Request, policy: Policy) returns (run: seq<Event>)
    requires NodesOk(st.nodes) && RequestOk(st.nodes.Keys, r) && Died(r.connect.owner, r.target) !in st.messages
    requires forall c :: c in st.nodes[Source(r.connect)].table ==> c.owner != r.connect.owner
    requires forall c :: c in st.nodes[r.target].bindings ==> st.nodes[r.target].bindings[c].caller != r.connect.owner
    ensures Runs(Connected(st, r), run, policy, st)
    ensures run == [ProcessDied(r.connect), Deliver(Died(r.connect.owner, r.target), false)]
  {
    var c, m := r.connect, Died(r.connect.owner, r.target);
    var s0 := Connected(st, r);
    assert c in s0.nodes[Source(c)].table;
    var s1 := DoProcessDied(s0, c);
    DeathForgets(st, r);
    DeathDelivered(st, r);
    assert DoDeliver(s1, m, false) == st;
    assert Runs(st, [], policy, st);
    hide Runs, DoProcessDied, DoDeliver, Connected, Accept, NodesOk;
    RunsStep(s1, Deliver(m, false), st, [], policy, st);
    RunsStep(s0, ProcessDied(c), s1, [Deliver(m, false)] + [], policy, st);
    run := [ProcessDied(c)] + ([Deliver(m, false)] + []);
  }

  /** The death forgets the session and sends for the binding. */
  lemma DeathForgets(st: System, r: Request)
    requires NodesOk(st.nodes) && RequestOk(st.nodes.Keys, r)
    requires forall c :: c in st.nodes[Source(r.connect)].table ==> c.owner != r.connect.owner
    ensures Stored(Connected(st, r), r.connect)
    ensures DoProcessDied(Connected(st, r), r.connect)
            == Accept(st, r).(messages := st.messages + {Died(r.connect.owner, r.target)})
  {
    var c, s, t := r.connect, Source(r.connect), st.nodes[Source(r.connect)].table;
    assert TableNodeOk(s, t);
    hide NodesOk, Bound;
    var list := [Start(r).(elements := [r.element])];
    var after := Connected(st, r).nodes[s].table;
    assert c !in t && after == t[c := list];
    assert Destinations(list) == {r.target} by { assert list[0].destination == r.target; }
    ObituaryOf(t, c, list, r.target);
    assert WithoutCaller(after, c.owner) == t;
    assert DoProcessDied(Connected(st, r), c).nodes == Accept(st, r).nodes;
  }

  lemma ObituaryOf(t: Table, c: Connect, list: seq<Session>, d: Device)
    requires c.Connect? && c !in t && Destinations(list) == {d}
    requires forall x :: x in t ==> x.Connect? && x.owner != c.owner
    ensures Obituaries(t[c := list], c.owner) == {Died(c.owner, d)}
  {
    var o := Obituaries(t[c := list], c.owner);
    assert forall m :: m in o ==> m == Died(c.owner, d);
    assert d in Destinations(t[c := list][c]);
    assert Died(c.owner, d) in o;
  }

  lemma DeathDelivered(st: System, r: Request)
    requires NodesOk(st.nodes) && RequestOk(st.nodes.Keys, r) && Died(r.connect.owner, r.target) !in st.messages
    requires forall c :: c in st.nodes[r.target].bindings ==> st.nodes[r.target].bindings[c].caller != r.connect.owner
    ensures var m := Died(r.connect.owner, r.target);
            DoDeliver(Accept(st, r).(messages := st.messages + {m}), m, false) == st
  {
    var m, b := Died(r.connect.owner, r.target), st.nodes[r.target].bindings;
    assert BindingsNodeOk(st.nodes.Keys, r.target, b);
    hide NodesOk;
    assert r.connect !in b;
    assert UnboundCaller(b[r.connect := ConnectInfo(r.connect.owner, r.element)], r.connect.owner) == b;
    assert (st.messages + {m}) - {m} == st.messages;
    assert DoDeliver(Accept(st, r).(messages := st.messages + {m}), m, false).nodes == st.nodes;
  }

  // ---------------------------------------------------------------- a link that breaks and returns

  function Cleaned(n: Node, d: Device): Node {
    Node(WithoutDevice(n.table, d), UnboundDevice(n.bindings, d))
  }

  /** The state after both ends have cleaned up. */
  function CutOff(st: System, a: Device, b: Device): System
    requires a in st.nodes && b in st.nodes
  {
    st.(nodes := st.nodes[a := Cleaned(st.nodes[a], b)][b := Cleaned(st.nodes[b], a)])
  }

  /** One end cleans up. */
  lemma CleanInARow(st: System, a: Device, b: Device, policy: Policy) returns (run: seq<Event>)
    requires a in st.nodes && (a, b) in st.srcCleanup && (a, b) in st.sinkCleanup
    ensures Runs(st, run, policy, st.(nodes := st.nodes[a := Cleaned(st.nodes[a], b)],
                                      srcCleanup := st.srcCleanup - {(a, b)}, sinkCleanup := st.sinkCleanup - {(a, b)}))
  {
    hide WithoutDevice, UnboundDevice;
    var s1 := DoCleanSource(st, a, b);
    var last := DoCleanSink(s1, a, b);
    assert last.nodes == st.nodes[a := Cleaned(st.nodes[a], b)];
    assert Runs(last, [], policy, last);
    hide Runs, DoCleanSource, DoCleanSink;
    RunsStep(s1, CleanSink(a, b), last, [], policy, last);
    RunsStep(st, CleanSource(a, b), s1, [CleanSink(a, b)] + [], policy, last);
    run := [CleanSource(a, b)] + ([CleanSink(a, b)] + []);
  }

  lemma QuietDrop(st: System, a: Device, b: Device, policy: Policy)
    requires CanDrop(st, a, b) && st.calls == map[] && st.srcCleanup == {} && st.sinkCleanup == {}
    ensures var both := {(a, b), (b, a)};
            Step(st, LinkDrop(a, b, {}), st.(down := st.down + both, srcCleanup := both, sinkCleanup := both), policy)
  {
    var after := DoDrop(st, a, b, {});
    assert after.calls == map[] && after.orphans == st.orphans;
  }

  lemma QuietReturn(st: System, a: Device, b: Device, policy: Policy)
    requires a in st.nodes && b in st.nodes && !Up(st, a, b) && st.srcCleanup == {}
    ensures Step(st, LinkUp(a, b), st.(down := st.down - {(a, b), (b, a)}), policy)
  {
  }

  /** A link breaks while nothing is under way, both ends clean up, and the link returns. */
  lemma OutageInARow(st: System, a: Device, b: Device, policy: Policy) returns (run: seq<Event>)
    requires CanDrop(st, a, b) && Up(st, b, a) && st.calls == map[]
    requires st.srcCleanup == {} && st.sinkCleanup == {}
    ensures Runs(st, run, policy, CutOff(st, a, b))
  {
    QuietDrop(st, a, b, policy);
    hide Cleaned, Step, Runs;
    var both := {(a, b), (b, a)};
    var s1 := st.(down := st.down + both, srcCleanup := both, sinkCleanup := both);
    var s2 := s1.(nodes := s1.nodes[a := Cleaned(s1.nodes[a], b)], srcCleanup := {(b, a)}, sinkCleanup := {(b, a)});
    var s3 := CutOff(st, a, b).(down := st.down + both);
    var last := CutOff(st, a, b);
    assert both - {(a, b)} == {(b, a)} && {(b, a)} - {(b, a)} == {} && (st.down + both) - both == st.down;
    run := [];
    StandsStill(last, policy);
    QuietReturn(s3, a, b, policy);
    RunsStep(s3, LinkUp(a, b), last, run, policy, last);
    run := [LinkUp(a, b)] + run;
    var second := CleanInARow(s2, b, a, policy);
    JoinRuns(s2, second, s3, run, policy, last);
    run := second + run;
    var first := CleanInARow(s1, a, b, policy);
    JoinRuns(s1, first, s2, run, policy, last);
    run := first + run;
    RunsStep(st, LinkDrop(a, b, {}), s1, run, policy, last);
    run := [LinkDrop(a, b, {})] + run;
  }

  lemma StandsStill(st: System, policy: Policy)
    ensures Runs(st, [], policy, st)
  {
  }

  /** Exactly the sessions between the two devices are gone ... */
  lemma SessionsCutOff(st: System, a: Device, b: Device, c: Connect, d: Device)
    requires Sound(st) && a in st.nodes && b in st.nodes && a != b && c.Connect?
    ensures IsLive(CutOff(st, a, b), c, d) <==> IsLive(st, c, d) && !Over(Source(c), d, a, b)
  {
    assert TableNodeOk(a, st.nodes[a].table) && TableNodeOk(b, st.nodes[b].table);
    WithoutDeviceOk(st.nodes[a].table, b);
    WithoutDeviceOk(st.nodes[b].table, a);
    hide Sound, WithoutDevice, UnboundDevice, Live, TableOk;
  }

  /** ... and exactly the bindings. */
  lemma BindingsCutOff(st: System, a: Device, b: Device, c: Connect, d: Device)
    requires Sound(st) && a in st.nodes && b in st.nodes && a != b && c.Connect?
    ensures IsBound(CutOff(st, a, b), c, d) <==> IsBound(st, c, d) && !Over(Source(c), d, a, b)
  {
    assert BindingsNodeOk(st.nodes.Keys, a, st.nodes[a].bindings);
    assert BindingsNodeOk(st.nodes.Keys, b, st.nodes[b].bindings);
    hide Sound, WithoutDevice;
  }

  // ---------------------------------------------------------------- how often a call is tried

  /** The attempts of call k so far, if there were n before the run. */
  function Attempts(run: seq<Event>, k: nat, n: nat): nat {
    if run == [] then n
    else Attempts(run[1..], k, if run[0].BeginConnect? && run[0].k == k then 1
                               else if run[0] == Retry(k) then n + 1 else n)
  }

  lemma StepCountsAttempts(st: System, ev: Event, policy: Policy, k: nat, n: nat)
    requires Enabled(st, ev, policy) && (k in st.calls ==> 1 <= st.calls[k].tries <= 3 && st.calls[k].tries + n == 4)
    ensures var m := if ev.BeginConnect? && ev.k == k then 1 else if ev == Retry(k) then n + 1 else n;
            k in Apply(st, ev, policy).calls ==>
              1 <= Apply(st, ev, policy).calls[k].tries <= 3 && Apply(st, ev, policy).calls[k].tries + m == 4
  {
    hide Mapped, Without, Destinations, Owned;
  }

  lemma {:induction false} RunCountsAttempts(st: System, run: seq<Event>, policy: Policy, last: System, k: nat, n: nat)
    requires Runs(st, run, policy, last)
    requires k in st.calls ==> 1 <= st.calls[k].tries <= 3 && st.calls[k].tries + n == 4
    ensures k in last.calls ==> 1 <= last.calls[k].tries <= 3 && last.calls[k].tries + Attempts(run, k, n) == 4
    decreases |run|
  {
    hide Enabled, Apply;
    if run != [] {
      StepCountsAttempts(st, run[0], policy, k, n);
      RunCountsAttempts(Apply(st, run[0], policy), run[1..], policy, last, k,
                        if run[0].BeginConnect? && run[0].k == k then 1 else if run[0] == Retry(k) then n + 1 else n);
    }
  }

  /** In every run a call under way has been tried at least once and at most three times. */
  lemma AtMostThreeAttempts(devices: set<Device>, run: seq<Event>, policy: Policy, last: System, k: nat)
    requires Runs(Initial(devices), run, policy, last) && k in last.calls
    ensures 1 <= Attempts(run, k, 0) <= 3
  {
    RunCountsAttempts(Initial(devices), run, policy, last, k, 0);
  }
}

/** Exactly which assumptions the connection protocol needs: under two of them it never leaks a
    binding, and without either of them some run does. */
module ConnectAssumptions {
  import opened ConnectTable
  import opened ConnectProtocol
  import opened ConnectScenario

  /** No run under the policy comes to rest with a leaked binding. */
  ghost predicate LeakFree(policy: Policy) {
    forall devices, run, last ::
      Runs(Initial(devices), run, policy, last) && Quiescent(last) ==> NoLeak(last)
  }

  lemma OrderlyIsLeakFree(policy: Policy)
    requires Orderly(policy)
    ensures LeakFree(policy)
  {
    forall devices, run, last | Runs(Initial(devices), run, policy, last) && Quiescent(last)
      ensures NoLeak(last)
    {
      InitialInv(devices);
      RunKeepsInv(Initial(devices), run, policy, last);
      QuiescentHasNoLeak(last);
    }
  }

  // ---------------------------------------------------------------- three leaking runs

  // One connect object; the states the runs pass through.

  const C := Connect(0, OWNER)
  const R := Request(C, B, "e")
  const INFO := ConnectInfo(OWNER, "e")

  lemma InitialIsIdle()
    ensures Initial({A, B}) == St(map[], map[], {}, {}, {})
  {
    TwoDevices();
  }

  lemma RunsNothing(policy: Policy, last: System)
    ensures Runs(last, [], policy, last)
  {
  }

  function Two(table: Table, bindings: Bindings): (nodes: map<Device, Node>)
    ensures nodes.Keys == {A, B}
  {
    map[A := Node(table, map[]), B := Node(map[], bindings)]
  }

  /** A state without calls and messages. */
  function St(table: Table, bindings: Bindings, down: set<(Device, Device)>,
              src: set<(Device, Device)>, sink: set<(Device, Device)>): System {
    System(Two(table, bindings), map[], {}, {}, down, src, sink)
  }

  lemma LeakedBinding(st: System)
    requires st.nodes == Two(map[], map[C := INFO])
    ensures !NoLeak(st)
  {
    TwoDevices();
    assert C in st.nodes[B].bindings && Source(C) == A && !Live(st.nodes[A].table, C, B);
  }

  // What single steps do to these states.

  lemma Begins(st: System, policy: Policy)
    requires st.nodes == Two(map[], map[]) && st.calls == map[]
    ensures Step(st, BeginConnect(0, R), st.(calls := map[0 := Call(R, Asked, 3)]), policy)
  {
    TwoDevices();
    assert Owned(map[], 0) == {};
  }

  lemma Executes(st: System, policy: Policy)
    requires st.nodes == Two(map[], map[]) && st.calls == map[0 := Call(R, Asked, 3)] && Up(st, A, B)
    ensures Step(st, Execute(0, true),
                 st.(nodes := Two(map[], map[C := INFO]), calls := map[0 := Call(R, Answered(true), 3)]), policy)
  {
    TwoDevices();
  }

  lemma Commits(st: System, policy: Policy)
    requires st.nodes == Two(map[], map[C := INFO]) && st.calls == map[0 := Call(R, Answered(true), 3)]
    ensures Step(st, Commit(0), st.(nodes := Two(map[C := [SESSION]], map[C := INFO]), calls := map[]), policy)
  {
    TwoDevices();
    assert Mapped(map[], C, Start(R), "e") == map[C := [SESSION]];
  }

  lemma Drops(st: System, policy: Policy)
    requires st.nodes.Keys == {A, B} && Up(st, A, B)
    requires st.calls == map[] || st.calls == map[0 := Call(R, Asked, 3)]
    ensures Step(st, LinkDrop(A, B, {}),
                 st.(calls := if st.calls == map[] then map[] else map[0 := Call(R, Answered(false), 3)],
                     orphans := if st.calls == map[] then st.orphans else st.orphans + {R},
                     down := st.down + BOTH, srcCleanup := st.srcCleanup + BOTH, sinkCleanup := st.sinkCleanup + BOTH),
                 policy)
  {
    TwoDevices();
    var after := DoDrop(st, A, B, {});
    if st.calls == map[] {
      assert after.calls == map[] && after.orphans == st.orphans;
    } else {
      assert after.calls == map[0 := Call(R, Answered(false), 3)];
      assert st.calls[0].phase == Asked && RequestOver(R, A, B);
      assert after.orphans == st.orphans + {R};
    }
  }

  /** The caller's device drops its sessions towards the sink. */
  lemma CallerCleansSource(st: System, t: Table, b: Bindings, policy: Policy)
    requires st.nodes == Two(t, b) && (A, B) in st.srcCleanup
    requires t == map[] || t == map[C := [SESSION]]
    ensures Step(st, CleanSource(A, B),
                 st.(nodes := Two(map[], b), srcCleanup := st.srcCleanup - {(A, B)}), policy)
  {
    TwoDevices();
    assert Without([SESSION], B) == [];
    assert WithoutDevice(t, B) == map[];
  }

  lemma SinkCleansSource(st: System, t: Table, b: Bindings, policy: Policy)
    requires st.nodes == Two(t, b) && (B, A) in st.srcCleanup
    ensures Step(st, CleanSource(B, A), st.(srcCleanup := st.srcCleanup - {(B, A)}), policy)
  {
    TwoDevices();
    assert WithoutDevice(map[], A) == map[];
  }

  lemma CallerCleansSink(st: System, t: Table, b: Bindings, policy: Policy)
    requires st.nodes == Two(t, b) && (A, B) in st.sinkCleanup && (A, B) !in st.srcCleanup
    ensures Step(st, CleanSink(A, B), st.(sinkCleanup := st.sinkCleanup - {(A, B)}), policy)
  {
    TwoDevices();
    assert UnboundDevice(map[], B) == map[];
  }

  lemma SinkCleansSink(st: System, t: Table, policy: Policy)
    requires st.nodes == Two(t, map[]) && (B, A) in st.sinkCleanup && (B, A) !in st.srcCleanup
    ensures Step(st, CleanSink(B, A), st.(sinkCleanup := st.sinkCleanup - {(B, A)}), policy)
  {
    TwoDevices();
    assert UnboundDevice(map[], A) == map[];
  }

  /** A link returns before the caller's device has dropped its sessions over it: the sessions
      opened since then are dropped too, and their bindings stay. */
  lemma EarlyLinkUpLeaks(policy: Policy) returns (run: seq<Event>, last: System)
    requires !policy.cleanBeforeUp
    ensures Runs(Initial({A, B}), run, policy, last) && Quiescent(last) && !NoLeak(last)
  {
    TwoDevices();
    InitialIsIdle();
    hide Step, Runs, NoLeak, Initial, Two;
    var s0 := St(map[], map[], {}, {}, {});
    var s1 := St(map[], map[], BOTH, BOTH, BOTH);
    var s2 := St(map[], map[], BOTH, {(A, B)}, BOTH);
    var s3 := St(map[], map[], BOTH, {(A, B)}, {(A, B)});
    var s4 := St(map[], map[], {}, {(A, B)}, {(A, B)});
    var s5 := s4.(calls := map[0 := Call(R, Asked, 3)]);
    var s6 := s5.(nodes := Two(map[], map[C := INFO]), calls := map[0 := Call(R, Answered(true), 3)]);
    var s7 := St(map[C := [SESSION]], map[C := INFO], {}, {(A, B)}, {(A, B)});
    var s8 := St(map[], map[C := INFO], {}, {}, {(A, B)});
    last := St(map[], map[C := INFO], {}, {}, {});
    LeakedBinding(last);
    RunsNothing(policy, last);
    run := [];

    CallerCleansSink(s8, map[], map[C := INFO], policy);
    RunsStep(s8, CleanSink(A, B), last, run, policy, last);
    run := [CleanSink(A, B)] + run;
    CallerCleansSource(s7, map[C := [SESSION]], map[C := INFO], policy);
    RunsStep(s7, CleanSource(A, B), s8, run, policy, last);
    run := [CleanSource(A, B)] + run;
    Commits(s6, policy);
    RunsStep(s6, Commit(0), s7, run, policy, last);
    run := [Commit(0)] + run;
    Executes(s5, policy);
    RunsStep(s5, Execute(0, true), s6, run, policy, last);
    run := [Execute(0, true)] + run;
    Begins(s4, policy);
    RunsStep(s4, BeginConnect(0, R), s5, run, policy, last);
    run := [BeginConnect(0, R)] + run;
    LinksUp(s3, policy);
    RunsStep(s3, LinkUp(A, B), s4, run, policy, last);
    run := [LinkUp(A, B)] + run;
    SinkCleansSink(s2, map[], policy);
    RunsStep(s2, CleanSink(B, A), s3, run, policy, last);
    run := [CleanSink(B, A)] + run;
    SinkCleansSource(s1, map[], map[], policy);
    RunsStep(s1, CleanSource(B, A), s2, run, policy, last);
    run := [CleanSource(B, A)] + run;
    Drops(s0, policy);
    RunsStep(s0, LinkDrop(A, B, {}), s1, run, policy, last);
    run := [LinkDrop(A, B, {})] + run;
  }

  lemma LinksUp(st: System, policy: Policy)
    requires st.nodes.Keys == {A, B} && !Up(st, A, B) && !policy.cleanBeforeUp
    ensures Step(st, LinkUp(A, B), st.(down := st.down - BOTH), policy)
  {
  }

  /** A request caught by a link drop is carried out after the sink's cleanup. */
  lemma LateOrphanLeaks(policy: Policy) returns (run: seq<Event>, last: System)
    requires !policy.orphansBeforeCleanup
    ensures Runs(Initial({A, B}), run, policy, last) && Quiescent(last) && !NoLeak(last)
  {
    TwoDevices();
    InitialIsIdle();
    hide Step, Runs, NoLeak, Initial, Two;
    var s0 := St(map[], map[], {}, {}, {});
    var s1 := s0.(calls := map[0 := Call(R, Asked, 3)]);
    var s2 := St(map[], map[], BOTH, BOTH, BOTH).(calls := map[0 := Call(R, Answered(false), 3)], orphans := {R});
    var s3 := s2.(calls := map[]);
    var s4 := s3.(srcCleanup := {(B, A)});
    var s5 := s4.(sinkCleanup := {(B, A)});
    var s6 := s5.(srcCleanup := {});
    var s7 := s6.(sinkCleanup := {});
    last := St(map[], map[C := INFO], BOTH, {}, {});
    LeakedBinding(last);
    RunsNothing(policy, last);
    run := [];

    RunsOrphan(s7, policy);
    RunsStep(s7, RunOrphan(R), last, run, policy, last);
    run := [RunOrphan(R)] + run;
    SinkCleansSink(s6, map[], policy);
    RunsStep(s6, CleanSink(B, A), s7, run, policy, last);
    run := [CleanSink(B, A)] + run;
    SinkCleansSource(s5, map[], map[], policy);
    RunsStep(s5, CleanSource(B, A), s6, run, policy, last);
    run := [CleanSource(B, A)] + run;
    CallerCleansSink(s4, map[], map[], policy);
    RunsStep(s4, CleanSink(A, B), s5, run, policy, last);
    run := [CleanSink(A, B)] + run;
    CallerCleansSource(s3, map[], map[], policy);
    RunsStep(s3, CleanSource(A, B), s4, run, policy, last);
    run := [CleanSource(A, B)] + run;
    GivesUp(s2, policy);
    RunsStep(s2, GiveUp(0), s3, run, policy, last);
    run := [GiveUp(0)] + run;
    Drops(s1, policy);
    assert 0 in s1.calls && s1.orphans + {R} == {R};
    RunsStep(s1, LinkDrop(A, B, {}), s2, run, policy, last);
    run := [LinkDrop(A, B, {})] + run;
    Begins(s0, policy);
    RunsStep(s0, BeginConnect(0, R), s1, run, policy, last);
    run := [BeginConnect(0, R)] + run;
  }

  lemma RunsOrphan(st: System, policy: Policy)
    requires st.nodes == Two(map[], map[]) && st.orphans == {R} && !policy.orphansBeforeCleanup
    ensures Step(st, RunOrphan(R), st.(nodes := Two(map[], map[C := INFO]), orphans := {}), policy)
  {
    TwoDevices();
  }

  lemma GivesUp(st: System, policy: Policy)
    requires st.calls == map[0 := Call(R, Answered(false), 3)]
    ensures Step(st, GiveUp(0), st.(calls := map[]), policy)
  {
  }

  /** The code's own leak: a disconnect finds the link broken, and the quick return of the device
      cancels the cleanups at both ends. */
  lemma CancelledCleanupLeaks(policy: Policy) returns (run: seq<Event>, last: System)
    requires !policy.cleanBeforeUp && !policy.keepCleanups
    ensures Runs(Initial({A, B}), run, policy, last) && Quiescent(last) && !NoLeak(last)
    ensures forall i :: 0 <= i < |run| ==> !run[i].CleanSource? && !run[i].CleanSink?
  {
    TwoDevices();
    InitialIsIdle();
    hide Step, Runs, NoLeak, Initial, Two;
    var unbind := Unbind(C, B);
    var s0 := St(map[], map[], {}, {}, {});
    var s1 := s0.(calls := map[0 := Call(R, Asked, 3)]);
    var s2 := s1.(nodes := Two(map[], map[C := INFO]), calls := map[0 := Call(R, Answered(true), 3)]);
    var s3 := St(map[C := [SESSION]], map[C := INFO], {}, {}, {});
    var s4 := St(map[C := [SESSION]], map[C := INFO], BOTH, BOTH, BOTH);
    var s5 := St(map[], map[C := INFO], BOTH, BOTH, BOTH).(messages := {unbind});
    var s6 := St(map[], map[C := INFO], BOTH, BOTH, BOTH);
    var s7 := St(map[], map[C := INFO], {}, BOTH, BOTH);
    var s8 := St(map[], map[C := INFO], {}, {(B, A)}, {(B, A)});
    last := St(map[], map[C := INFO], {}, {}, {});
    LeakedBinding(last);
    RunsNothing(policy, last);
    run := [];

    Cancels(s8, B, A, policy);
    RunsStep(s8, CancelCleanup(B, A), last, run, policy, last);
    run := [CancelCleanup(B, A)] + run;
    Cancels(s7, A, B, policy);
    RunsStep(s7, CancelCleanup(A, B), s8, run, policy, last);
    run := [CancelCleanup(A, B)] + run;
    LinksUp(s6, policy);
    RunsStep(s6, LinkUp(A, B), s7, run, policy, last);
    run := [LinkUp(A, B)] + run;
    Loses(s5, policy);
    RunsStep(s5, Lose(unbind), s6, run, policy, last);
    run := [Lose(unbind)] + run;
    Disconnects(s4, policy);
    RunsStep(s4, Disconnect(C), s5, run, policy, last);
    run := [Disconnect(C)] + run;
    Drops(s3, policy);
    RunsStep(s3, LinkDrop(A, B, {}), s4, run, policy, last);
    run := [LinkDrop(A, B, {})] + run;
    Commits(s2, policy);
    RunsStep(s2, Commit(0), s3, run, policy, last);
    run := [Commit(0)] + run;
    Executes(s1, policy);
    RunsStep(s1, Execute(0, true), s2, run, policy, last);
    run := [Execute(0, true)] + run;
    Begins(s0, policy);
    RunsStep(s0, BeginConnect(0, R), s1, run, policy, last);
    run := [BeginConnect(0, R)] + run;
  }

  lemma Cancels(st: System, a: Device, b: Device, policy: Policy)
    requires !policy.keepCleanups && Up(st, a, b) && (a, b) in st.srcCleanup && (a, b) in st.sinkCleanup
    ensures Step(st, CancelCleanup(a, b),
                 st.(srcCleanup := st.srcCleanup - {(a, b)}, sinkCleanup := st.sinkCleanup - {(a, b)}), policy)
  {
  }

  lemma Disconnects(st: System, policy: Policy)
    requires st.nodes == Two(map[C := [SESSION]], map[C := INFO]) && st.messages == {}
    ensures Step(st, Disconnect(C), st.(nodes := Two(map[], map[C := INFO]), messages := {Unbind(C, B)}), policy)
  {
    TwoDevices();
    assert Destinations([SESSION]) == {B} by {
      assert [SESSION][0].destination == B;
    }
    assert Unbinds(st.nodes[A].table, C) == {Unbind(C, B)};
  }

  lemma Loses(st: System, policy: Policy)
    requires st.messages == {Unbind(C, B)} && !Up(st, A, B)
    ensures Step(st, Lose(Unbind(C, B)), st.(messages := {}), policy)
  {
  }

  // ---------------------------------------------------------------- the exact condition

  /** The protocol is free of leaks if and only if the two assumptions hold, whether or not a
      returning device cancels cleanups. */
  lemma LeakFreeIffOrderly(policy: Policy)
    ensures LeakFree(policy) <==> policy.cleanBeforeUp && policy.orphansBeforeCleanup
  {
    hide Runs, Quiescent, NoLeak;
    if !policy.cleanBeforeUp {
      var run, last := EarlyLinkUpLeaks(policy);
    } else if !policy.orphansBeforeCleanup {
      var run, last := LateOrphanLeaks(policy);
    } else {
      OrderlyIsLeakFree(policy);
    }
  }
}

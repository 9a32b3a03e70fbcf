/** Two runs in which a session outlives its binding: a second connect of the same object is
    answered, and before the reply is recorded the caller disconnects, or dies. */
module ConnectStranding {
  import opened ConnectTable
  import opened ConnectProtocol
  import opened ConnectScenario
  import opened ConnectAssumptions
  import opened ConnectSettling
  import opened ConnectRest

  lemma BeginsAgain(st: System, policy: Policy)
    requires st.nodes == Two(map[C := [SESSION]], map[C := INFO]) && st.calls == map[]
    ensures Step(st, BeginConnect(1, R), st.(calls := map[1 := Call(R, Asked, 3)]), policy)
  {
    TwoDevices();
    assert Owned(st.nodes[A].table, 0) == {C};
  }

  lemma ExecutesAgain(st: System, policy: Policy)
    requires st.nodes == Two(map[C := [SESSION]], map[C := INFO]) && st.calls == map[1 := Call(R, Asked, 3)]
    requires Up(st, A, B)
    ensures Step(st, Execute(1, true), st.(calls := map[1 := Call(R, Answered(true), 3)]), policy)
  {
    TwoDevices();
  }

  lemma Dies(st: System, policy: Policy)
    requires st.nodes == Two(map[C := [SESSION]], map[C := INFO]) && st.messages == {}
    ensures Step(st, ProcessDied(C), st.(nodes := Two(map[], map[C := INFO]), messages := {Died(OWNER, B)}), policy)
  {
    TwoDevices();
    assert Destinations([SESSION]) == {B} by {
      assert [SESSION][0].destination == B;
    }
    assert Obituaries(st.nodes[A].table, OWNER) == {Died(OWNER, B)};
    assert WithoutCaller(st.nodes[A].table, OWNER) == map[];
  }

  /** Either message removes the binding. */
  lemma Delivers(st: System, m: Message, policy: Policy)
    requires st.nodes == Two(map[], map[C := INFO]) && st.messages == {m}
    requires m == Unbind(C, B) || m == Died(OWNER, B)
    ensures Step(st, Deliver(m, false), st.(nodes := Two(map[], map[]), messages := {}), policy)
  {
    TwoDevices();
    assert UnboundCaller(st.nodes[B].bindings, OWNER) == map[];
    assert st.nodes[B].bindings - {C} == map[];
  }

  lemma CommitsLate(st: System, policy: Policy)
    requires st.nodes == Two(map[], map[]) && st.calls == map[1 := Call(R, Answered(true), 3)]
    ensures Step(st, Commit(1), st.(nodes := Two(map[C := [SESSION]], map[]), calls := map[]), policy)
  {
    TwoDevices();
    assert Mapped(map[], C, Start(R), "e") == map[C := [SESSION]];
  }

  /** Connected once, and the reply to a second connect is at hand. */
  function Answered2(): System {
    St(map[C := [SESSION]], map[C := INFO], {}, {}, {}).(calls := map[1 := Call(R, Answered(true), 3)])
  }

  function Left(): System {
    St(map[C := [SESSION]], map[], {}, {}, {})
  }

  lemma ConnectsTwice(policy: Policy) returns (run: seq<Event>)
    ensures Runs(Initial({A, B}), run, policy, Answered2()) && |run| == 5
  {
    TwoDevices();
    InitialIsIdle();
    hide Step, Runs, Initial, Two;
    var s0 := St(map[], map[], {}, {}, {});
    var s1 := s0.(calls := map[0 := Call(R, Asked, 3)]);
    var s2 := s1.(nodes := Two(map[], map[C := INFO]), calls := map[0 := Call(R, Answered(true), 3)]);
    var s3 := St(map[C := [SESSION]], map[C := INFO], {}, {}, {});
    var s4 := s3.(calls := map[1 := Call(R, Asked, 3)]);
    var last := Answered2();
    RunsNothing(policy, last);
    run := [];

    ExecutesAgain(s4, policy);
    RunsStep(s4, Execute(1, true), last, run, policy, last);
    run := [Execute(1, true)] + run;
    BeginsAgain(s3, policy);
    RunsStep(s3, BeginConnect(1, R), s4, run, policy, last);
    run := [BeginConnect(1, R)] + run;
    Commits(s2, policy);
    RunsStep(s2, Commit(0), s3, run, policy, last);
    run := [Commit(0)] + run;
    Executes(s1, policy);
    RunsStep(s1, Execute(0, true), s2, run, policy, last);
    run := [Execute(0, true)] + run;
    Begins(s0, policy);
    RunsStep(s0, BeginConnect(0, R), s1, run, policy, last);
    run := [BeginConnect(0, R)] + run;
  }

  lemma RemovesThenCommits(policy: Policy, ev: Event, m: Message) returns (run: seq<Event>)
    requires (ev == ProcessDied(C) && m == Died(OWNER, B)) || (ev == Disconnect(C) && m == Unbind(C, B))
    ensures Runs(Answered2(), run, policy, Left()) && run == [ev, Deliver(m, false), Commit(1)]
  {
    hide Step, Runs, Two;
    var s5, last := Answered2(), Left();
    var s6 := s5.(nodes := Two(map[], map[C := INFO]), messages := {m});
    var s7 := s5.(nodes := Two(map[], map[]));
    RunsNothing(policy, last);
    CommitsLate(s7, policy);
    RunsStep(s7, Commit(1), last, [], policy, last);
    Delivers(s6, m, policy);
    RunsStep(s6, Deliver(m, false), s7, [Commit(1)] + [], policy, last);
    if ev == ProcessDied(C) { Dies(s5, policy); } else { Disconnects(s5, policy); }
    run := [ev] + ([Deliver(m, false)] + ([Commit(1)] + []));
    RunsStep(s5, ev, s6, [Deliver(m, false)] + ([Commit(1)] + []), policy, last);
  }

  /** A session without its binding is left at rest, under any policy; its caller has disconnected or,
      if `dies`, is dead. */
  lemma SecondConnectStrands(policy: Policy, dies: bool) returns (run: seq<Event>, last: System)
    ensures Runs(Initial({A, B}), run, policy, last) && Quiescent(last)
    ensures IsLive(last, C, B) && !IsBound(last, C, B) && |Owned(last.nodes[A].table, 0)| == 1
    ensures |run| == 8 && run[5] == (if dies then ProcessDied(C) else Disconnect(C)) && Silent(run[5..], OWNER)
  {
    last := Left();
    StrandedSession(last);
    hide Runs, Initial, Two, IsLive, IsBound, Owned;
    var first := ConnectsTwice(policy);
    var ev, m := Disconnect(C), Unbind(C, B);
    if dies {
      ev, m := ProcessDied(C), Died(OWNER, B);
    }
    var second := RemovesThenCommits(policy, ev, m);
    JoinRuns(Initial({A, B}), first, Answered2(), second, policy, last);
    run := first + second;
    assert run[5..] == second;
  }

  lemma StrandedSession(st: System)
    requires st.nodes == Two(map[C := [SESSION]], map[])
    ensures IsLive(st, C, B) && !IsBound(st, C, B) && |Owned(st.nodes[A].table, 0)| == 1
  {
    TwoDevices();
    assert [SESSION][0].destination == B;
    assert Owned(st.nodes[A].table, 0) == {C};
  }
}

/** The bound of module ConnectQuota is attained: with `bound` connects between check and commit
    the stored connections of one uid reach exactly 599 + bound. */
module ConnectOvershoot {
  import opened ConnectTable
  import opened ConnectProtocol
  import opened ConnectQuota
  import opened ConnectScenario

  function Conn(i: nat): Connect { Connect(i, OWNER) }

  function Req(i: nat): Request { Request(Conn(i), B, "e") }

  function Tab(n: nat): Table {
    if n == 0 then map[] else Tab(n - 1)[Conn(n - 1) := [SESSION]]
  }

  function Bnd(n: nat): Bindings {
    if n == 0 then map[] else Bnd(n - 1)[Conn(n - 1) := ConnectInfo(OWNER, "e")]
  }

  /** The first n connects stored, the next ones up to `hi` asked but not answered. */
  function Asking(n: nat, hi: nat): map<nat, Call> {
    if hi <= n then map[] else Asking(n, hi - 1)[hi - 1 := Call(Req(hi - 1), Asked, 3)]
  }

  function Q(n: nat, hi: nat): System {
    System(map[A := Node(Tab(n), map[]), B := Node(map[], Bnd(n))], Asking(n, hi), {}, {}, {}, {}, {})
  }

  // ---------------------------------------------------------------- counting

  lemma {:induction false} TabHas(n: nat, i: nat)
    ensures Conn(i) in Tab(n) <==> i < n
    ensures Conn(i) in Bnd(n) <==> i < n
  {
    if n > 0 {
      TabHas(n - 1, i);
    }
  }

  lemma {:induction false} Stores(n: nat)
    ensures |Owned(Tab(n), 0)| == n
  {
    if n == 0 {
      assert Owned(Tab(0), 0) == {};
    } else {
      Stores(n - 1);
      TabHas(n - 1, n - 1);
      assert Owned(Tab(n), 0) == Owned(Tab(n - 1), 0) + {Conn(n - 1)};
    }
  }

  lemma {:induction false} AskingHas(n: nat, hi: nat, k: nat)
    ensures k in Asking(n, hi) <==> n <= k < hi
    ensures k in Asking(n, hi) ==> Asking(n, hi)[k] == Call(Req(k), Asked, 3)
    decreases hi
  {
    if n < hi {
      AskingHas(n, hi - 1, k);
    }
  }

  /** Without its first call. */
  lemma {:induction false} AskingTail(n: nat, hi: nat)
    requires n < hi
    ensures Asking(n, hi) - {n} == Asking(n + 1, hi)
    decreases hi
  {
    if hi == n + 1 {
      assert Asking(n, n) == map[];
      assert Asking(n, hi) - {n} == map[];
    } else {
      AskingTail(n, hi - 1);
      assert Asking(n, hi) - {n} == (Asking(n, hi - 1) - {n})[hi - 1 := Call(Req(hi - 1), Asked, 3)];
    }
  }

  lemma OneMoreInFlight(calls: map<nat, Call>, k: nat)
    requires k !in calls
    ensures |InFlight(calls[k := Call(Req(k), Asked, 3)], A, 0)| == |InFlight(calls, A, 0)| + 1
  {
    assert InFlight(calls[k := Call(Req(k), Asked, 3)], A, 0) == InFlight(calls, A, 0) + {k};
  }

  lemma {:induction false} Asks(n: nat, hi: nat)
    requires n <= hi
    ensures |InFlight(Asking(n, hi), A, 0)| == hi - n
    decreases hi
  {
    if n == hi {
      assert InFlight(Asking(n, hi), A, 0) == {};
    } else {
      Asks(n, hi - 1);
      AskingHas(n, hi - 1, hi - 1);
      OneMoreInFlight(Asking(n, hi - 1), hi - 1);
    }
  }

  // ---------------------------------------------------------------- steps

  lemma Begins(n: nat, hi: nat, policy: Policy)
    requires n <= hi && n < MAX_DISTRIBUTED_CONNECT_NUM
    ensures Enabled(Q(n, hi), BeginConnect(hi, Req(hi)), policy)
    ensures Apply(Q(n, hi), BeginConnect(hi, Req(hi)), policy) == Q(n, hi + 1)
  {
    TwoDevices();
    Stores(n);
    AskingHas(n, hi, hi);
  }

  function Answered1(n: nat, hi: nat): System {
    Q(n, hi).(nodes := map[A := Node(Tab(n), map[]), B := Node(map[], Bnd(n + 1))],
              calls := Asking(n, hi)[n := Call(Req(n), Answered(true), 3)])
  }

  lemma Executes(n: nat, hi: nat, policy: Policy)
    requires n < hi
    ensures Enabled(Q(n, hi), Execute(n, true), policy)
    ensures Apply(Q(n, hi), Execute(n, true), policy) == Answered1(n, hi)
  {
    TwoDevices();
    TabHas(n, n);
    AskingHas(n, hi, n);
    assert Bnd(n + 1) == Bound(Bnd(n), Conn(n), ConnectInfo(OWNER, "e"));
  }

  lemma Commits(n: nat, hi: nat, policy: Policy)
    requires n < hi
    ensures Enabled(Answered1(n, hi), Commit(n), policy)
    ensures Apply(Answered1(n, hi), Commit(n), policy) == Q(n + 1, hi)
  {
    TwoDevices();
    TabHas(n, n);
    AskingTail(n, hi);
    assert Extended([], Start(Req(n)), "e") == [SESSION];
    assert Mapped(Tab(n), Conn(n), Start(Req(n)), "e") == Tab(n + 1);
    assert Asking(n, hi)[n := Call(Req(n), Answered(true), 3)] - {n} == Asking(n, hi) - {n};
  }

  lemma AnsweredStillInFlight(n: nat, hi: nat)
    requires n < hi
    ensures |InFlight(Answered1(n, hi).calls, A, 0)| == hi - n
  {
    Asks(n, hi);
    AskingHas(n, hi, n);
    assert InFlight(Answered1(n, hi).calls, A, 0) == InFlight(Asking(n, hi), A, 0);
  }

  // ---------------------------------------------------------------- runs

  lemma Prepend(st: System, ev: Event, next: System, run: seq<Event>, policy: Policy, last: System, bound: nat)
    requires |InFlight(st.calls, A, 0)| <= bound
    requires Enabled(st, ev, policy) && Apply(st, ev, policy) == next
    requires RunsWithin(next, run, policy, last, A, 0, bound)
    ensures RunsWithin(st, [ev] + run, policy, last, A, 0, bound)
  {
    assert ([ev] + run)[1..] == run;
  }

  lemma QInFlight(n: nat, hi: nat)
    requires n <= hi
    ensures |InFlight(Q(n, hi).calls, A, 0)| == hi - n
  {
    Asks(n, hi);
    hide InFlight;
  }

  lemma StandsStill(n: nat, policy: Policy, bound: nat)
    ensures RunsWithin(Q(n, n), [], policy, Q(n, n), A, 0, bound)
  {
    QInFlight(n, n);
    hide Q, InFlight;
  }

  /** All asked connects are answered and committed, one after the other. */
  lemma {:induction false} CommitAll(n: nat, hi: nat, policy: Policy, bound: nat) returns (run: seq<Event>)
    requires n <= hi && hi - n <= bound
    ensures RunsWithin(Q(n, hi), run, policy, Q(hi, hi), A, 0, bound)
    decreases hi - n
  {
    hide RunsWithin, Q, Answered1, Enabled, Apply, InFlight;
    if n == hi {
      run := [];
      StandsStill(n, policy, bound);
    } else {
      run := CommitAll(n + 1, hi, policy, bound);
      Commits(n, hi, policy);
      AnsweredStillInFlight(n, hi);
      Prepend(Answered1(n, hi), Commit(n), Q(n + 1, hi), run, policy, Q(hi, hi), bound);
      run := [Commit(n)] + run;
      Executes(n, hi, policy);
      QInFlight(n, hi);
      Prepend(Q(n, hi), Execute(n, true), Answered1(n, hi), run, policy, Q(hi, hi), bound);
      run := [Execute(n, true)] + run;
    }
  }

  /** From n stored and `hi - n` asked connects, ask until `top` and then commit them all. */
  lemma {:induction false} AskThenCommit(n: nat, hi: nat, top: nat, policy: Policy, bound: nat)
    returns (run: seq<Event>)
    requires n <= hi <= top && n < MAX_DISTRIBUTED_CONNECT_NUM && top - n <= bound
    ensures RunsWithin(Q(n, hi), run, policy, Q(top, top), A, 0, bound)
    decreases top - hi
  {
    hide RunsWithin, Q, Enabled, Apply, InFlight;
    if hi == top {
      run := CommitAll(n, hi, policy, bound);
    } else {
      run := AskThenCommit(n, hi + 1, top, policy, bound);
      Begins(n, hi, policy);
      QInFlight(n, hi);
      Prepend(Q(n, hi), BeginConnect(hi, Req(hi)), Q(n, hi + 1), run, policy, Q(top, top), bound);
      run := [BeginConnect(hi, Req(hi))] + run;
    }
  }

  lemma {:induction false} Join(st: System, first: seq<Event>, mid: System, second: seq<Event>, policy: Policy,
                                last: System, bound: nat)
    requires RunsWithin(st, first, policy, mid, A, 0, bound) && RunsWithin(mid, second, policy, last, A, 0, bound)
    ensures RunsWithin(st, first + second, policy, last, A, 0, bound)
    decreases |first|
  {
    hide Enabled, Apply, InFlight;
    if first == [] {
      assert first + second == second;
    } else {
      Join(Apply(st, first[0], policy), first[1..], mid, second, policy, last, bound);
      assert (first + second)[1..] == first[1..] + second;
    }
  }

  lemma QCount(n: nat, hi: nat)
    ensures A in Q(n, hi).nodes && Count(Q(n, hi), A, 0) == n
  {
    TwoDevices();
    Stores(n);
  }

  /** One connect after the other fills the table up to the limit. */
  lemma {:induction false} Serially(n: nat, policy: Policy, bound: nat) returns (run: seq<Event>)
    requires n <= MAX_DISTRIBUTED_CONNECT_NUM && bound >= 1
    ensures RunsWithin(Q(0, 0), run, policy, Q(n, n), A, 0, bound)
  {
    hide RunsWithin, Q;
    if n == 0 {
      run := [];
      StandsStill(n, policy, bound);
    } else {
      run := Serially(n - 1, policy, bound);
      var more := AskThenCommit(n - 1, n - 1, n, policy, bound);
      Join(Q(0, 0), run, Q(n - 1, n - 1), more, policy, Q(n, n), bound);
      run := run + more;
    }
  }

  lemma InitialIsEmpty()
    ensures Initial({A, B}) == Q(0, 0)
  {
    TwoDevices();
    var start := Initial({A, B});
    assert start.nodes == map[A := Node(map[], map[]), B := Node(map[], map[])];
  }

  lemma FillThenOvershoot(n: nat, policy: Policy, bound: nat) returns (run: seq<Event>, last: System)
    requires bound >= 1 && n < MAX_DISTRIBUTED_CONNECT_NUM
    ensures RunsWithin(Initial({A, B}), run, policy, last, A, 0, bound)
    ensures A in last.nodes && Count(last, A, 0) == n + bound
  {
    hide *;
    InitialIsEmpty();
    QCount(n + bound, n + bound);
    run := Serially(n, policy, bound);
    var more := AskThenCommit(n, n, n + bound, policy, bound);
    last := Q(n + bound, n + bound);
    Join(Q(0, 0), run, Q(n, n), more, policy, last, bound);
    run := run + more;
  }

  /** For every bound there is a run that never has more than `bound` connects in flight and ends
      with 599 + bound stored. */
  lemma QuotaBoundAttained(policy: Policy, bound: nat) returns (run: seq<Event>, last: System)
    requires bound >= 1
    ensures RunsWithin(Initial({A, B}), run, policy, last, A, 0, bound)
    ensures A in last.nodes && Count(last, A, 0) == MAX_DISTRIBUTED_CONNECT_NUM - 1 + bound
  {
    hide RunsWithin, Initial, Count;
    run, last := FillThenOvershoot(MAX_DISTRIBUTED_CONNECT_NUM - 1, policy, bound);
  }
}

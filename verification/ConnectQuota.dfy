/** The connection quota under split check and commit: both are lock sections of their own, so the
    counter can overshoot the limit, by exactly the number of connects that are in between. */
module ConnectQuota {
  import opened ConnectTable
  import opened ConnectProtocol

  /** The connections that device s has stored for a uid. */
  function Count(st: System, s: Device, uid: int): nat
    requires s in st.nodes
  {
    |Owned(st.nodes[s].table, uid)|
  }

  /** The connects of a uid that are between check and commit on device s. */
  function InFlight(calls: map<nat, Call>, s: Device, uid: int): set<nat> {
    set k | k in calls && calls[k].request.connect.Connect?
            && Source(calls[k].request.connect) == s && calls[k].request.connect.owner.uid == uid
  }

  ghost predicate WithinQuota(st: System, s: Device, uid: int, bound: nat) {
    s in st.nodes && Count(st, s, uid) + |InFlight(st.calls, s, uid)| <= MAX_DISTRIBUTED_CONNECT_NUM - 1 + bound
  }

  /** A run during which never more than `bound` connects of the uid are in flight. */
  ghost predicate RunsWithin(st: System, run: seq<Event>, policy: Policy, last: System,
                             s: Device, uid: int, bound: nat)
    decreases |run|
  {
    && |InFlight(st.calls, s, uid)| <= bound
    && if run == [] then last == st
       else Enabled(st, run[0], policy) && RunsWithin(Apply(st, run[0], policy), run[1..], policy, last, s, uid, bound)
  }

  lemma SubsetSize<T>(a: set<T>, b: set<T>)
    requires a <= b
    ensures |a| <= |b|
  {
    assert b == a + (b - a);
  }

  /** Steps other than a begin or a commit open no connection and no call. */
  lemma OtherStepsShrink(st: System, ev: Event, policy: Policy, s: Device, uid: int)
    requires Enabled(st, ev, policy) && s in st.nodes && !ev.BeginConnect? && !ev.Commit?
    ensures var after := Apply(st, ev, policy);
            && s in after.nodes && Owned(after.nodes[s].table, uid) <= Owned(st.nodes[s].table, uid)
            && InFlight(after.calls, s, uid) <= InFlight(st.calls, s, uid)
  {
    hide Without;
  }

  /** A finished call is one less in flight. */
  lemma FinishedCall(calls: map<nat, Call>, k: nat, s: Device, uid: int)
    requires k in calls && calls[k].request.connect.Connect?
    ensures var mine := Source(calls[k].request.connect) == s && calls[k].request.connect.owner.uid == uid;
            |InFlight(calls - {k}, s, uid)| == |InFlight(calls, s, uid)| - if mine then 1 else 0
  {
    var before, now := InFlight(calls, s, uid), InFlight(calls - {k}, s, uid);
    if Source(calls[k].request.connect) == s && calls[k].request.connect.owner.uid == uid {
      assert now == before - {k} && k in before;
    } else {
      assert now == before;
    }
  }

  /** A commit turns one call into at most one stored connection. */
  lemma CommitMoves(st: System, k: nat, s: Device, uid: int)
    requires CanCommit(st, k) && s in st.nodes
    ensures var after := DoCommit(st, k);
            && s in after.nodes
            && |Owned(after.nodes[s].table, uid)| + |InFlight(after.calls, s, uid)|
               <= |Owned(st.nodes[s].table, uid)| + |InFlight(st.calls, s, uid)|
  {
    var r := st.calls[k].request;
    FinishedCall(st.calls, k, s, uid);
    MappedOwned(st.nodes[Source(r.connect)].table, r.connect, Start(r), r.element, uid);
    hide Mapped, Owned, InFlight;
  }

  lemma StepKeepsQuota(st: System, ev: Event, policy: Policy, s: Device, uid: int, bound: nat)
    requires Enabled(st, ev, policy) && WithinQuota(st, s, uid, bound)
    requires |InFlight(Apply(st, ev, policy).calls, s, uid)| <= bound
    ensures WithinQuota(Apply(st, ev, policy), s, uid, bound)
  {
    var after := Apply(st, ev, policy);
    if ev.BeginConnect? {
      var r := ev.request;
      assert after.nodes == st.nodes;
      if !(Source(r.connect) == s && r.connect.owner.uid == uid) {
        assert InFlight(after.calls, s, uid) == InFlight(st.calls, s, uid);
      }
    } else if ev.Commit? {
      CommitMoves(st, ev.k, s, uid);
    } else {
      OtherStepsShrink(st, ev, policy, s, uid);
      hide InFlight, Owned, Apply, Enabled;
      SubsetSize(Owned(after.nodes[s].table, uid), Owned(st.nodes[s].table, uid));
      SubsetSize(InFlight(after.calls, s, uid), InFlight(st.calls, s, uid));
    }
  }

  /** If at most `bound` connects of a uid are ever between check and commit, stored and pending
      connections together never exceed 599 + bound, whatever the network does. */
  lemma {:induction false} QuotaHolds(st: System, run: seq<Event>, policy: Policy, last: System,
                                      s: Device, uid: int, bound: nat)
    requires WithinQuota(st, s, uid, bound) && RunsWithin(st, run, policy, last, s, uid, bound)
    ensures WithinQuota(last, s, uid, bound)
    decreases |run|
  {
    hide WithinQuota, Enabled, Apply, InFlight;
    if run != [] {
      StepKeepsQuota(st, run[0], policy, s, uid, bound);
      QuotaHolds(Apply(st, run[0], policy), run[1..], policy, last, s, uid, bound);
    }
  }

  /** One connect at a time: the stored connections of a uid never exceed the limit. */
  lemma SerialQuota(devices: set<Device>, run: seq<Event>, policy: Policy, last: System, s: Device, uid: int)
    requires s in devices && RunsWithin(Initial(devices), run, policy, last, s, uid, 1)
    ensures s in last.nodes && Count(last, s, uid) <= MAX_DISTRIBUTED_CONNECT_NUM
  {
    var st := Initial(devices);
    assert Owned(st.nodes[s].table, uid) == {} && InFlight(st.calls, s, uid) == {};
    QuotaHolds(st, run, policy, last, s, uid, 1);
  }
}

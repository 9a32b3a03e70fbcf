/** Which ability state changes are passed on to the remote caller: a filter with one counter per
    ability token. */
module AppStateFilter {

  const FOREGROUND := 2
  const BACKGROUND := 4
  const NOTIFY_COUNT := 2

  type Token = nat

  datatype StateChange = StateChange(token: Token, state: int)

  /** The FOREGROUND events of a token since its last BACKGROUND, over a whole history. */
  function ForegroundsSince(history: seq<StateChange>, t: Token): nat {
    if history == [] then 0
    else
      var e := history[|history| - 1];
      var before := ForegroundsSince(history[..|history| - 1], t);
      if e.token != t then before
      else if e.state == BACKGROUND then 0
      else if e.state == FOREGROUND then before + 1
      else before
  }

  /** Passed on are every BACKGROUND and every even-numbered FOREGROUND since the last one. */
  predicate PassedOn(history: seq<StateChange>, e: StateChange) {
    e.state == BACKGROUND
    || (e.state == FOREGROUND && (ForegroundsSince(history, e.token) + 1) % 2 == 0)
  }

  /** The events of one token. */
  function Only(history: seq<StateChange>, t: Token): seq<StateChange> {
    if history == [] then []
    else
      var e := history[|history| - 1];
      Only(history[..|history| - 1], t) + if e.token == t then [e] else []
  }

  /** What is passed on for a token depends on the events of that token alone. */
  lemma {:induction false} TokensAreIndependent(history: seq<StateChange>, t: Token)
    ensures ForegroundsSince(Only(history, t), t) == ForegroundsSince(history, t)
    ensures forall e: StateChange :: e.token == t ==> (PassedOn(history, e) <==> PassedOn(Only(history, t), e))
  {
    if history != [] {
      var e, rest := history[|history| - 1], history[..|history| - 1];
      TokensAreIndependent(rest, t);
      if e.token == t {
        assert Only(history, t)[..|Only(history, t)| - 1] == Only(rest, t);
      } else {
        assert Only(history, t) == Only(rest, t);
      }
    }
  }

  lemma Extend(history: seq<StateChange>, e: StateChange)
    ensures forall t :: ForegroundsSince(history + [e], t)
                        == if e.token != t then ForegroundsSince(history, t)
                           else if e.state == BACKGROUND then 0
                           else if e.state == FOREGROUND then ForegroundsSince(history, t) + 1
                           else ForegroundsSince(history, t)
  {
    assert (history + [e])[..|history|] == history;
  }

  /** At place j of a trace the token went to the foreground, after its last BACKGROUND. */
  predicate IsPlace(trace: seq<StateChange>, t: Token, j: int) {
    && 0 <= j < |trace| && trace[j].token == t && trace[j].state == FOREGROUND
    && forall k :: j < k < |trace| && trace[k].token == t ==> trace[k].state != BACKGROUND
  }

  ghost function ForegroundPlaces(trace: seq<StateChange>, t: Token): set<int> {
    set j | 0 <= j < |trace| && IsPlace(trace, t, j)
  }

  lemma PlaceStep(before: seq<StateChange>, e: StateChange, t: Token, j: int)
    ensures 0 <= j < |before| ==>
              (IsPlace(before + [e], t, j) <==> IsPlace(before, t, j) && !(e.token == t && e.state == BACKGROUND))
    ensures IsPlace(before + [e], t, |before|) <==> e.token == t && e.state == FOREGROUND
  {
    var trace, n := before + [e], |before|;
    assert trace[n] == e && forall k :: 0 <= k < n ==> trace[k] == before[k];
    if 0 <= j < n && IsPlace(trace, t, j) {
      assert trace[j] == before[j];
      forall k | j < k < n && before[k].token == t ensures before[k].state != BACKGROUND {
        assert trace[k] == before[k];
      }
    }
  }

  /** The counted events are those places. */
  lemma {:induction false} ForegroundsCounted(trace: seq<StateChange>, t: Token)
    ensures ForegroundsSince(trace, t) == |ForegroundPlaces(trace, t)|
  {
    if trace == [] {
      assert ForegroundPlaces(trace, t) == {};
    } else {
      var n := |trace| - 1;
      var e, before := trace[n], trace[..n];
      ForegroundsCounted(before, t);
      assert trace == before + [e];
      forall j
        ensures 0 <= j < n ==>
                  (IsPlace(trace, t, j) <==> IsPlace(before, t, j) && !(e.token == t && e.state == BACKGROUND))
        ensures IsPlace(trace, t, n) <==> e.token == t && e.state == FOREGROUND
      {
        PlaceStep(before, e, t, j);
      }
      hide IsPlace;
      if e.token == t && e.state == BACKGROUND {
        assert ForegroundPlaces(trace, t) == {};
      } else if e.token == t && e.state == FOREGROUND {
        assert ForegroundPlaces(trace, t) == ForegroundPlaces(before, t) + {n};
      } else {
        assert ForegroundPlaces(trace, t) == ForegroundPlaces(before, t);
      }
    }
  }

  /** What is to be passed on, without counting step by step: every BACKGROUND, and a FOREGROUND exactly
      if, itself included, the number of FOREGROUND events of its token since the last BACKGROUND is
      even. */
  ghost predicate IsDue(trace: seq<StateChange>, i: int)
    requires 0 <= i < |trace|
  {
    var places := set j | 0 <= j <= i && trace[j].token == trace[i].token && trace[j].state == FOREGROUND
                          && forall k :: j < k <= i && trace[k].token == trace[i].token
                                         ==> trace[k].state != BACKGROUND;
    trace[i].state == BACKGROUND || (trace[i].state == FOREGROUND && |places| % 2 == 0)
  }

  lemma PassedOnIffDue(trace: seq<StateChange>, i: nat)
    requires i < |trace|
    ensures PassedOn(trace[..i], trace[i]) <==> IsDue(trace, i)
  {
    var t, upTo := trace[i].token, trace[..i + 1];
    ForegroundsCounted(upTo, t);
    assert upTo[..i] == trace[..i];
    assert forall j :: 0 <= j <= i ==> upTo[j] == trace[j];
    assert ForegroundPlaces(upTo, t)
        == set j | 0 <= j <= i && trace[j].token == t && trace[j].state == FOREGROUND
                   && forall k :: j < k <= i && trace[k].token == t ==> trace[k].state != BACKGROUND;
  }

  /** Later events do not matter. */
  lemma DueEarly(trace: seq<StateChange>, n: nat, i: nat)
    requires i < n <= |trace|
    ensures IsDue(trace[..n], i) <==> IsDue(trace, i)
  {
    PassedOnIffDue(trace, i);
    PassedOnIffDue(trace[..n], i);
    assert trace[..n][..i] == trace[..i];
    hide IsDue, PassedOn;
  }

  function CountOf(counts: map<Token, nat>, t: Token): nat {
    if t in counts then counts[t] else 0
  }

  class AppStateObserver {
    var connectAbilityMap: map<Token, nat>
    ghost var history: seq<StateChange>

    /** Between events every counter rests in {0, 1}, at the parity of the history. */
    ghost predicate Valid()
      reads this
    {
      forall t :: CountOf(connectAbilityMap, t) == ForegroundsSince(history, t) % 2
    }

    constructor ()
      ensures Valid() && history == []
    {
      connectAbilityMap, history := map[], [];
    }

    method OnAbilityStateChanged(e: StateChange) returns (notified: bool)
      requires Valid()
      modifies this
      ensures Valid() && history == old(history) + [e]
      ensures notified <==> PassedOn(old(history), e)
      ensures notified <==> IsDue(history, |history| - 1)
    {
      PassedOnIffDue(history + [e], |history|);
      assert (history + [e])[..|history|] == history;
      hide IsDue;
      Extend(history, e);
      history := history + [e];
      if e.state != FOREGROUND && e.state != BACKGROUND {
        return false;
      }
      if e.token !in connectAbilityMap {
        connectAbilityMap := connectAbilityMap[e.token := 1];
      } else {
        connectAbilityMap := connectAbilityMap[e.token := connectAbilityMap[e.token] + 1];
      }
      if connectAbilityMap[e.token] != NOTIFY_COUNT && e.state == FOREGROUND {
        return false;
      }
      connectAbilityMap := connectAbilityMap[e.token := 0];
      return true;
    }

    /** A whole trace of events. */
    method OnTrace(trace: seq<StateChange>) returns (notified: seq<bool>)
      requires Valid()
      modifies this
      ensures Valid() && history == old(history) + trace
      ensures |notified| == |trace|
      ensures forall i :: 0 <= i < |trace| ==> (notified[i] <==> IsDue(history, |old(history)| + i))
    {
      ghost var n, whole := |history|, history + trace;
      hide IsDue, PassedOn, ForegroundsSince;
      notified := [];
      for i := 0 to |trace|
        invariant Valid() && history == whole[..n + i]
        invariant |notified| == i && forall j :: 0 <= j < i ==> (notified[j] <==> IsDue(whole, n + j))
      {
        DueEarly(whole, n + i + 1, n + i);
        var b := OnAbilityStateChanged(trace[i]);
        assert history == whole[..n + i + 1];
        notified := notified + [b];
      }
      assert whole[..n + |trace|] == whole;
    }
  }
}

/** Observers shared by all the callers of one bundle: registered by the first, dropped with the
    last. */
module ObserverSharing {

  type Wrapper = nat
  type Observer = nat
  type Bundle = string

  datatype Entry = Entry(observer: Observer, bundle: Bundle, connectToken: int)

  /** `created` counts observer objects, `registered` is what the application manager observes, and
      `accepted` remembers which observers it accepted when they were made. */
  datatype State = State(
    entries: map<Wrapper, Entry>, slots: map<Bundle, Observer>,
    created: nat, registered: set<Observer>, accepted: set<Observer>)

  const EMPTY := State(map[], map[], 0, {}, {})
  const DEFAULT_DMS_CONNECT_TOKEN := -1

  // ---------------------------------------------------------------- operations on values

  predicate Shared(st: State, b: Bundle, w: Wrapper) {
    exists v :: v in st.entries && v != w && st.entries[v].bundle == b
  }

  lemma SharedByOthers(st: State, b: Bundle, w: Wrapper)
    ensures var rest := st.entries - {w};
            Shared(st, b, w) <==> exists v :: v in rest && rest[v].bundle == b
  {
    var rest := st.entries - {w};
    if Shared(st, b, w) {
      var v :| v in st.entries && v != w && st.entries[v].bundle == b;
      assert v in rest && rest[v].bundle == b;
    }
    if v :| v in rest && rest[v].bundle == b {
      assert v in st.entries && v != w;
    }
  }

  /** The slot of a bundle, made and registered if there is none; a refused registration keeps it. */
  function SlotMade(st: State, b: Bundle, accepted: bool): State {
    if b in st.slots then st
    else
      var o := st.created;
      st.(slots := st.slots[b := o], created := o + 1,
          registered := if accepted then st.registered + {o} else st.registered,
          accepted := if accepted then st.accepted + {o} else st.accepted)
  }

  function EntryAdded(st: State, w: Wrapper, b: Bundle, token: int): State
    requires b in st.slots
  {
    st.(entries := st.entries[w := Entry(st.slots[b], b, token)])
  }

  function Dropped(st: State, w: Wrapper, managerOk: bool): State
    requires w in st.entries
  {
    var e := st.entries[w];
    var rest := st.(entries := st.entries - {w});
    if Shared(st, e.bundle, w) then rest
    else rest.(slots := st.slots - {e.bundle},
               registered := if managerOk then st.registered - {e.observer} else st.registered)
  }

  /** All entries of a bundle carry the observer of its slot, slots have observers of their own,
      and a slot's observer is registered exactly if the application manager accepted it. */
  ghost predicate Inv(st: State) {
    && (forall w :: w in st.entries ==>
          st.entries[w].bundle in st.slots && st.entries[w].observer == st.slots[st.entries[w].bundle])
    && (forall b :: b in st.slots ==> st.slots[b] < st.created)
    && (forall o :: o in st.accepted ==> o < st.created)
    && (forall o :: o in st.registered ==> o < st.created)
    && (forall a, b :: a in st.slots && b in st.slots && a != b ==> st.slots[a] != st.slots[b])
    && (forall b :: b in st.slots ==> (st.slots[b] in st.registered <==> st.slots[b] in st.accepted))
  }

  datatype Op =
    | Register(w: Wrapper, b: Bundle, token: int, managerOk: bool, accepted: bool)
    | Unregister(w: Wrapper, managerOk: bool)

  function Apply(st: State, op: Op): State {
    match op
    case Register(w, b, token, managerOk, accepted) =>
      if token == DEFAULT_DMS_CONNECT_TOKEN || !managerOk then st
      else if b !in st.slots && !accepted then SlotMade(st, b, false)
      else EntryAdded(SlotMade(st, b, accepted), w, b, token)
    case Unregister(w, managerOk) => if w in st.entries then Dropped(st, w, managerOk) else st
  }

  lemma SlotMadeKeepsInv(st: State, b: Bundle, accepted: bool)
    requires Inv(st)
    ensures Inv(SlotMade(st, b, accepted)) && b in SlotMade(st, b, accepted).slots
  {
  }

  lemma DroppedKeepsInv(st: State, w: Wrapper, managerOk: bool)
    requires Inv(st) && w in st.entries
    ensures Inv(Dropped(st, w, managerOk))
  {
    var after := Dropped(st, w, managerOk);
    forall v | v in after.entries ensures after.entries[v].bundle in after.slots {
      assert v in st.entries && v != w;
    }
  }

  lemma StepKeepsInv(st: State, op: Op)
    requires Inv(st)
    ensures Inv(Apply(st, op))
  {
    match op {
      case Register(w, b, token, managerOk, accepted) =>
        SlotMadeKeepsInv(st, b, accepted);
        hide SlotMade;
      case Unregister(w, managerOk) =>
        if w in st.entries { DroppedKeepsInv(st, w, managerOk); }
        hide Dropped;
    }
  }

  /** The slot of a bundle goes exactly when an unregister removes the last entry of the bundle. */
  lemma SlotDroppedWithLastEntry(st: State, op: Op, b: Bundle)
    requires Inv(st) && b in st.slots
    ensures b !in Apply(st, op).slots <==>
              op.Unregister? && op.w in st.entries && st.entries[op.w].bundle == b && !Shared(st, b, op.w)
  {
  }

  ghost predicate Runs(st: State, ops: seq<Op>, last: State)
    decreases |ops|
  {
    if ops == [] then last == st else Runs(Apply(st, ops[0]), ops[1..], last)
  }

  lemma {:induction false} RunKeepsInv(st: State, ops: seq<Op>, last: State)
    requires Inv(st) && Runs(st, ops, last)
    ensures Inv(last)
    decreases |ops|
  {
    hide Inv, Apply;
    if ops != [] {
      StepKeepsInv(st, ops[0]);
      RunKeepsInv(Apply(st, ops[0]), ops[1..], last);
    }
  }

  /** In every state that serial calls reach the entries of a bundle share one observer, and they are
      observed exactly if the registration that made the slot was accepted.  Module ObserverSections
      says what becomes of this when calls overlap. */
  lemma EntriesShareObserver(ops: seq<Op>, last: State, v: Wrapper, w: Wrapper)
    requires Runs(EMPTY, ops, last) && v in last.entries && w in last.entries
    requires last.entries[v].bundle == last.entries[w].bundle
    ensures last.entries[v].observer == last.entries[w].observer
    ensures last.entries[v].observer in last.registered <==> last.entries[v].observer in last.accepted
  {
    RunKeepsInv(EMPTY, ops, last);
  }

  /** A refused registration leaves a slot behind that a later caller joins unobserved. */
  lemma RefusedRegistrationLeavesDeadSlot(b: Bundle, w: Wrapper)
    ensures var refused := Apply(EMPTY, Register(w, b, 1, true, false));
            var joined := Apply(refused, Register(w, b, 2, true, true));
            && refused.entries == map[] && b in refused.slots
            && w in joined.entries && joined.entries[w].observer !in joined.registered
  {
  }

  // ---------------------------------------------------------------- the service

  class ObserverTable {
    var observerMap: map<Wrapper, Entry>
    var bundleNameMap: map<Bundle, Observer>
    ghost var created: nat
    ghost var registered: set<Observer>
    ghost var accepted: set<Observer>

    ghost function Value(): State
      reads this
    {
      State(observerMap, bundleNameMap, created, registered, accepted)
    }

    constructor ()
      ensures Value() == EMPTY && Inv(Value())
    {
      observerMap, bundleNameMap := map[], map[];
      created, registered, accepted := 0, {}, {};
    }

    /** `newObserver` is the object made when the bundle has no slot, `appResult` the application
        manager's answer to its registration. */
    method RegisterAppStateObserver(callbackWrapper: Wrapper, bundleName: Bundle, connectToken: int,
                                    managerOk: bool, newObserver: Observer, appResult: bool)
      returns (ok: bool)
      requires Inv(Value()) && newObserver == created
      modifies this
      ensures Inv(Value())
      ensures Value() == Apply(old(Value()), Register(callbackWrapper, bundleName, connectToken, managerOk, appResult))
      ensures ok <==> connectToken != DEFAULT_DMS_CONNECT_TOKEN && managerOk
                      && (bundleName in old(bundleNameMap) || appResult)
      ensures connectToken == DEFAULT_DMS_CONNECT_TOKEN || !managerOk || bundleName in old(bundleNameMap) ==>
                bundleNameMap == old(bundleNameMap) && registered == old(registered) && accepted == old(accepted)
      ensures connectToken != DEFAULT_DMS_CONNECT_TOKEN && managerOk && bundleName !in old(bundleNameMap) ==>
                && bundleNameMap == old(bundleNameMap)[bundleName := newObserver]
                && registered == (if appResult then old(registered) + {newObserver} else old(registered))
                && accepted == (if appResult then old(accepted) + {newObserver} else old(accepted))
      ensures ok ==>
                && bundleName in bundleNameMap
                && observerMap == old(observerMap)[callbackWrapper :=
                                    Entry(bundleNameMap[bundleName], bundleName, connectToken)]
      ensures !ok ==> observerMap == old(observerMap)
    {
      StepKeepsInv(Value(), Register(callbackWrapper, bundleName, connectToken, managerOk, appResult));
      if connectToken == DEFAULT_DMS_CONNECT_TOKEN {
        return false;
      }
      if !managerOk {
        return false;
      }
      ok := FindOrMakeSlot(bundleName, newObserver, appResult);
      if !ok {
        return;
      }
      hide Inv, SlotMade;
      observerMap := observerMap[callbackWrapper := Entry(bundleNameMap[bundleName], bundleName, connectToken)];
      return true;
    }

    /** The part under the registration lock. */
    method FindOrMakeSlot(bundleName: Bundle, newObserver: Observer, appResult: bool) returns (ok: bool)
      requires newObserver == created
      modifies this`bundleNameMap, this`created, this`registered, this`accepted
      ensures Value() == SlotMade(old(Value()), bundleName, appResult) && bundleName in bundleNameMap
      ensures ok <==> bundleName in old(bundleNameMap) || appResult
    {
      if bundleName !in bundleNameMap {
        bundleNameMap := bundleNameMap[bundleName := newObserver];
        created := created + 1;
        if !appResult {
          return false;
        }
        registered, accepted := registered + {newObserver}, accepted + {newObserver};
      }
      return true;
    }

    /** Whether another entry keeps the bundle's observer in use. */
    method StillShared(bundleName: Bundle) returns (shared: bool)
      ensures shared <==> exists v :: v in observerMap && observerMap[v].bundle == bundleName
    {
      var todo := observerMap.Keys;
      while todo != {}
        invariant todo <= observerMap.Keys
        invariant forall v :: v in observerMap && v !in todo ==> observerMap[v].bundle != bundleName
        decreases |todo|
      {
        assert exists v :: v in todo by { assert (forall v :: v !in todo) ==> todo == {}; }
        var iter :| iter in todo;
        if observerMap[iter].bundle == bundleName {
          return true;
        }
        todo := todo - {iter};
      }
      return false;
    }

    method UnregisterAppStateObserver(callbackWrapper: Wrapper, managerOk: bool) returns (unregistered: bool)
      requires Inv(Value())
      modifies this
      ensures Inv(Value())
      ensures Value() == Apply(old(Value()), Unregister(callbackWrapper, managerOk))
      ensures observerMap == old(observerMap) - {callbackWrapper}
      ensures callbackWrapper !in old(observerMap) ==>
                !unregistered && bundleNameMap == old(bundleNameMap) && registered == old(registered)
      ensures callbackWrapper in old(observerMap) ==>
                var e := old(observerMap)[callbackWrapper];
                var last := forall v :: v in observerMap ==> observerMap[v].bundle != e.bundle;
                && bundleNameMap == (if last then old(bundleNameMap) - {e.bundle} else old(bundleNameMap))
                && registered == (if last && managerOk then old(registered) - {e.observer} else old(registered))
                && (unregistered <==> !last || managerOk)
    {
      StepKeepsInv(Value(), Unregister(callbackWrapper, managerOk));
      hide Inv;
      if callbackWrapper !in observerMap {
        return false;
      }
      var entry := observerMap[callbackWrapper];
      observerMap := observerMap - {callbackWrapper};
      var shared := StillShared(entry.bundle);
      SharedByOthers(old(Value()), entry.bundle, callbackWrapper);
      hide Shared;
      if !shared {
        bundleNameMap := bundleNameMap - {entry.bundle};
        if !managerOk {
          return false;
        }
        registered := registered - {entry.observer};
      }
      return true;
    }
  }
}

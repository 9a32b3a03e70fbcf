/** The bookkeeping of remote connections on the device that opened them: for every connect
    object the list of sessions it holds, one per remote device.  This module defines what a
    well-formed table is and the five ways in which it changes, and proves what each of them
    keeps. */
module ConnectTable {
  import opened Common

  const MAX_DISTRIBUTED_CONNECT_NUM := 600
  const BIND_CONNECT_RETRY_TIMES := 3

  type Device = string
  type Element = string

  /** The fields of a caller that identify it. */
  datatype CallerInfo = CallerInfo(uid: int, pid: int, callerType: int, sourceDeviceId: Device)

  /** A connection callback object.  An object belongs to one caller for its whole life. */
  datatype Connect = Null | Connect(id: nat, owner: CallerInfo)

  datatype TargetComponent = HarmonyComponent

  datatype Session = Session(
    source: Device, destination: Device, caller: CallerInfo, target: TargetComponent,
    elements: seq<Element>)

  type Table = map<Connect, seq<Session>>

  // ---------------------------------------------------------------- session lists

  predicate SessionOk(s: Session, caller: CallerInfo) {
    && s.caller == caller && s.source == caller.sourceDeviceId
    && s.elements != [] && Distinct(s.elements)
  }

  predicate DistinctDestinations(list: seq<Session>) {
    forall i, j :: 0 <= i < j < |list| ==> list[i].destination != list[j].destination
  }

  predicate SessionsOk(list: seq<Session>, caller: CallerInfo) {
    && (forall i :: 0 <= i < |list| ==> SessionOk(list[i], caller))
    && DistinctDestinations(list)
  }

  /** The elements a list is connected to on device d. */
  function ElementsOn(list: seq<Session>, d: Device): seq<Element> {
    if list == [] then []
    else if list[0].destination == d then list[0].elements
    else ElementsOn(list[1..], d)
  }

  predicate Towards(list: seq<Session>, d: Device) {
    exists i :: 0 <= i < |list| && list[i].destination == d
  }

  /** With distinct destinations that is what the one session towards d holds. */
  lemma {:induction false} ElementsOnMeans(list: seq<Session>, i: nat)
    requires DistinctDestinations(list) && i < |list|
    ensures ElementsOn(list, list[i].destination) == list[i].elements
  {
    if i > 0 {
      assert forall j :: 0 <= j < |list[1..]| ==> list[1..][j] == list[j + 1];
      ElementsOnMeans(list[1..], i - 1);
    }
  }

  lemma {:induction false} NoElementsElsewhere(list: seq<Session>, d: Device)
    requires forall i :: 0 <= i < |list| ==> list[i].destination != d
    ensures ElementsOn(list, d) == []
  {
    if list != [] {
      NoElementsElsewhere(list[1..], d);
    }
  }

  function WithElement(elements: seq<Element>, e: Element): seq<Element> {
    if e in elements then elements else elements + [e]
  }

  /** The list after connecting to element e on the device of `start`. */
  function Extended(list: seq<Session>, start: Session, e: Element): seq<Session> {
    if list == [] then [start.(elements := [e])]
    else if list[0].destination == start.destination then
      [list[0].(elements := WithElement(list[0].elements, e))] + list[1..]
    else [list[0]] + Extended(list[1..], start, e)
  }

  /** Extending adds the element to the session towards its device, opening one if there is
      none, and touches no other session. */
  lemma {:induction false} ExtendedOk(list: seq<Session>, start: Session, e: Element, caller: CallerInfo)
    requires SessionsOk(list, caller)
    requires start.caller == caller && start.source == caller.sourceDeviceId
    ensures Extended(list, start, e) != []
    ensures SessionsOk(Extended(list, start, e), caller)
    ensures forall d :: ElementsOn(Extended(list, start, e), d)
                        == if d == start.destination && e !in ElementsOn(list, d) then ElementsOn(list, d) + [e]
                           else ElementsOn(list, d)
    ensures forall d :: Towards(Extended(list, start, e), d) <==> d == start.destination || Towards(list, d)
  {
    var longer := Extended(list, start, e);
    if list == [] {
      assert longer[0].destination == start.destination;
    } else if list[0].destination == start.destination {
      assert longer[0].destination == start.destination && longer[1..] == list[1..];
      assert forall i :: 0 <= i < |list| ==> longer[i].destination == list[i].destination;
    } else {
      ExtendedOk(list[1..], start, e, caller);
      var rest := Extended(list[1..], start, e);
      assert longer[1..] == rest;
      TowardsTail(list);
      TowardsTail(longer);
      forall j | 1 <= j < |longer| ensures longer[0].destination != longer[j].destination {
        assert Towards(rest, longer[j].destination) by { assert rest[j - 1] == longer[j]; }
      }
    }
  }

  /** Where Extended makes its change: at the first session towards the device, else at the end. */
  lemma {:induction false} ExtendedAt(list: seq<Session>, start: Session, e: Element, i: nat)
    requires i <= |list| && forall j :: 0 <= j < i ==> list[j].destination != start.destination
    requires i < |list| ==> list[i].destination == start.destination
    ensures Extended(list, start, e)
            == list[..i] + if i < |list| then [list[i].(elements := WithElement(list[i].elements, e))] + list[i + 1..]
                           else [start.(elements := [e])]
  {
    if i > 0 {
      ExtendedAt(list[1..], start, e, i - 1);
      assert list[..i] == [list[0]] + list[1..][..i - 1];
    }
  }

  /** A list leads where its head or its tail leads. */
  lemma TowardsTail(list: seq<Session>)
    requires list != []
    ensures forall d :: Towards(list, d) <==> list[0].destination == d || Towards(list[1..], d)
  {
    forall d ensures Towards(list, d) <==> list[0].destination == d || Towards(list[1..], d) {
      if Towards(list, d) && list[0].destination != d {
        var i :| 0 <= i < |list| && list[i].destination == d;
        assert list[1..][i - 1].destination == d;
      }
      if Towards(list[1..], d) {
        var i :| 0 <= i < |list[1..]| && list[1..][i].destination == d;
        assert list[i + 1].destination == d;
      }
    }
  }

  /** The list without its sessions towards d. */
  function Without(list: seq<Session>, d: Device): seq<Session> {
    if list == [] then []
    else if list[0].destination == d then Without(list[1..], d)
    else [list[0]] + Without(list[1..], d)
  }

  lemma {:induction false} WithoutOk(list: seq<Session>, d: Device, caller: CallerInfo)
    requires SessionsOk(list, caller)
    ensures SessionsOk(Without(list, d), caller)
    ensures forall x :: Towards(Without(list, d), x) <==> x != d && Towards(list, x)
    ensures forall x :: x != d ==> ElementsOn(Without(list, d), x) == ElementsOn(list, x)
    ensures forall s :: s in Without(list, d) <==> s in list && s.destination != d
  {
    if list != [] {
      assert list == [list[0]] + list[1..];
      WithoutOk(list[1..], d, caller);
      TowardsTail(list);
      var shorter := Without(list, d);
      if list[0].destination != d {
        var rest := Without(list[1..], d);
        assert shorter[1..] == rest;
        TowardsTail(shorter);
        forall j | 1 <= j < |shorter| ensures shorter[0].destination != shorter[j].destination {
          assert Towards(rest, shorter[j].destination) by { assert rest[j - 1] == shorter[j]; }
          var i :| 0 <= i < |list[1..]| && list[1..][i].destination == shorter[j].destination;
          assert list[i + 1].destination == shorter[j].destination;
        }
      }
    }
  }

  lemma {:induction false} WithoutNothing(list: seq<Session>, d: Device)
    requires !Towards(list, d)
    ensures Without(list, d) == list
  {
    if list != [] {
      TowardsTail(list);
      WithoutNothing(list[1..], d);
    }
  }

  /** Erasing the one session towards d is erasing all of them. */
  lemma {:induction false} WithoutErases(list: seq<Session>, d: Device, i: nat)
    requires DistinctDestinations(list)
    requires i < |list| && list[i].destination == d
    ensures Without(list, d) == list[..i] + list[i + 1..]
  {
    assert forall j :: 0 <= j < |list[1..]| ==> list[1..][j] == list[j + 1];
    if i == 0 {
      WithoutNothing(list[1..], d);
    } else {
      WithoutErases(list[1..], d, i - 1);
      assert list[..i] == [list[0]] + list[1..][..i - 1];
    }
  }

  // ---------------------------------------------------------------- tables

  /** Every stored connect has a non-empty list of sessions of its one caller, with distinct
      destinations and distinct elements per session. */
  predicate TableOk(t: Table) {
    forall c :: c in t ==> c.Connect? && c.owner.uid >= 0 && t[c] != [] && SessionsOk(t[c], c.owner)
  }

  /** The connects that belong to a uid. */
  function Owned(t: Table, uid: int): set<Connect> {
    set c | c in t && c.Connect? && c.owner.uid == uid
  }

  /** The per-uid counters agree with the table, and no zero is kept. */
  ghost predicate CountsOk(t: Table, counts: map<int, nat>) {
    && (forall u :: u in counts <==> Owned(t, u) != {})
    && (forall u :: u in counts ==> counts[u] == |Owned(t, u)|)
  }

  /** The counters with one connection of uid less. */
  function Decreased(counts: map<int, nat>, uid: int): map<int, nat> {
    if uid < 0 || uid !in counts then counts
    else if counts[uid] <= 1 then counts - {uid}
    else counts[uid := counts[uid] - 1]
  }

  function Increased(counts: map<int, nat>, uid: int): map<int, nat> {
    counts[uid := (if uid in counts then counts[uid] else 0) + 1]
  }

  lemma RemovalDecreases(t: Table, counts: map<int, nat>, c: Connect)
    requires TableOk(t) && CountsOk(t, counts) && c in t
    ensures TableOk(t - {c}) && CountsOk(t - {c}, Decreased(counts, c.owner.uid))
  {
    hide SessionsOk;
    var uid := c.owner.uid;
    var one := Owned(t, uid);
    assert c in one && Owned(t - {c}, uid) == one - {c} && |one - {c}| == |one| - 1;
    assert forall u :: u != uid ==> Owned(t - {c}, u) == Owned(t, u);
  }

  lemma InsertionIncreases(t: Table, counts: map<int, nat>, c: Connect, list: seq<Session>)
    requires TableOk(t) && CountsOk(t, counts) && c !in t
    requires c.Connect? && c.owner.uid >= 0 && list != [] && SessionsOk(list, c.owner)
    ensures TableOk(t[c := list]) && CountsOk(t[c := list], Increased(counts, c.owner.uid))
  {
    hide SessionsOk;
    OwnedWith(t, c, list);
    hide Owned;
  }

  /** Storing a connect adds it to what its uid owns. */
  lemma OwnedWith(t: Table, c: Connect, list: seq<Session>)
    requires c !in t && c.Connect?
    ensures forall u :: u != c.owner.uid ==> Owned(t[c := list], u) == Owned(t, u)
    ensures Owned(t[c := list], c.owner.uid) != {}
    ensures |Owned(t[c := list], c.owner.uid)| == |Owned(t, c.owner.uid)| + 1
  {
    var one := Owned(t, c.owner.uid);
    assert c !in one && Owned(t[c := list], c.owner.uid) == one + {c};
  }

  lemma ReplacementKeepsCounts(t: Table, counts: map<int, nat>, c: Connect, list: seq<Session>)
    requires TableOk(t) && CountsOk(t, counts) && c in t
    requires list != [] && SessionsOk(list, c.owner)
    ensures TableOk(t[c := list]) && CountsOk(t[c := list], counts)
  {
    assert forall u :: Owned(t[c := list], u) == Owned(t, u);
  }

  // ---------------------------------------------------------------- the changes

  function SessionsOf(t: Table, c: Connect): seq<Session> {
    if c in t then t[c] else []
  }

  /** After a connect to element e on the device of `start` has been answered. */
  function Mapped(t: Table, c: Connect, start: Session, e: Element): Table {
    if c.Null? then t else t[c := Extended(SessionsOf(t, c), start, e)]
  }

  /** After a disconnect. */
  function Unmapped(t: Table, c: Connect): Table {
    t - {c}
  }

  /** After device d went offline: its sessions are gone, and so is every connect that had no
      other session. */
  function WithoutDevice(t: Table, d: Device): Table {
    map c | c in t && Without(t[c], d) != [] :: Without(t[c], d)
  }

  /** After a caller died. */
  function WithoutCaller(t: Table, caller: CallerInfo): Table {
    map c | c in t && c.Connect? && c.owner != caller :: t[c]
  }

  /** c holds a session towards d. */
  predicate Live(t: Table, c: Connect, d: Device) {
    c in t && Towards(t[c], d)
  }

  lemma MappedOk(t: Table, c: Connect, start: Session, e: Element)
    requires TableOk(t)
    requires c.Connect? ==> c.owner.uid >= 0 && start.caller == c.owner && start.source == c.owner.sourceDeviceId
    ensures TableOk(Mapped(t, c, start, e))
    ensures forall x, d :: Live(Mapped(t, c, start, e), x, d)
                           <==> Live(t, x, d) || (c.Connect? && x == c && d == start.destination)
  {
    if c.Connect? {
      ExtendedOk(SessionsOf(t, c), start, e, c.owner);
    }
  }

  /** A recorded connect keeps what it was connected to and gets the element on its device; no other
      connect changes. */
  lemma MappedElements(t: Table, c: Connect, start: Session, e: Element)
    requires TableOk(t)
    requires c.Connect? ==> start.caller == c.owner && start.source == c.owner.sourceDeviceId
    ensures var after := Mapped(t, c, start, e);
            && after.Keys == t.Keys + (if c.Connect? then {c} else {})
            && (forall x :: x in t && x != c ==> after[x] == t[x])
            && forall x, d :: var before := ElementsOn(SessionsOf(t, x), d);
                 ElementsOn(SessionsOf(after, x), d)
                 == if c.Connect? && x == c && d == start.destination && e !in before then before + [e] else before
  {
    if c.Connect? {
      ExtendedOk(SessionsOf(t, c), start, e, c.owner);
    }
  }

  /** Recording a connect stores at most that one connect more. */
  lemma MappedOwned(t: Table, c: Connect, start: Session, e: Element, uid: int)
    requires c.Connect?
    ensures Owned(Mapped(t, c, start, e), uid) == Owned(t, uid) + if c.owner.uid == uid then {c} else {}
  {
    hide Extended;
  }

  /** Only the uid of the recorded connect can store more than before, by one. */
  lemma MappedGrowsByOne(t: Table, c: Connect, start: Session, e: Element)
    requires c.Connect?
    ensures forall uid :: |Owned(Mapped(t, c, start, e), uid)|
                          <= |Owned(t, uid)| + if c.owner.uid == uid then 1 else 0
  {
    forall uid ensures |Owned(Mapped(t, c, start, e), uid)| <= |Owned(t, uid)| + if c.owner.uid == uid then 1 else 0 {
      MappedOwned(t, c, start, e, uid);
      hide Owned, Mapped;
    }
  }

  /** No session towards d remains anywhere, and every other session stays as it was. */
  lemma WithoutDeviceOk(t: Table, d: Device)
    requires TableOk(t)
    ensures TableOk(WithoutDevice(t, d))
    ensures forall c, x :: Live(WithoutDevice(t, d), c, x) <==> x != d && Live(t, c, x)
    ensures forall c, x :: x != d ==>
              ElementsOn(SessionsOf(WithoutDevice(t, d), c), x) == ElementsOn(SessionsOf(t, c), x)
    ensures forall c :: c in WithoutDevice(t, d) <==> c in t && exists s :: s in t[c] && s.destination != d
    ensures forall c, s :: c in WithoutDevice(t, d) ==>
              (s in WithoutDevice(t, d)[c] <==> s in t[c] && s.destination != d)
  {
    forall c | c in t
      ensures SessionsOk(Without(t[c], d), c.owner)
      ensures forall x :: Towards(Without(t[c], d), x) <==> x != d && Towards(t[c], x)
      ensures forall x :: x != d ==> ElementsOn(Without(t[c], d), x) == ElementsOn(t[c], x)
      ensures forall s :: s in Without(t[c], d) <==> s in t[c] && s.destination != d
    {
      WithoutOk(t[c], d, c.owner);
    }
    forall c | c in t && exists s :: s in t[c] && s.destination != d ensures c in WithoutDevice(t, d) {
      var s :| s in t[c] && s.destination != d;
      assert s in Without(t[c], d);
    }
    forall c | c in WithoutDevice(t, d) ensures exists s :: s in t[c] && s.destination != d {
      assert Without(t[c], d)[0] in Without(t[c], d);
    }
    forall c, x | x != d && Live(t, c, x) ensures Live(WithoutDevice(t, d), c, x) {
      assert Towards(Without(t[c], d), x);
    }
  }

  lemma SessionsLeft(t: Table, d: Device, c: Connect)
    requires TableOk(t) && c in WithoutDevice(t, d)
    ensures forall s :: s in WithoutDevice(t, d)[c] <==> s in t[c] && s.destination != d
  {
    WithoutOk(t[c], d, c.owner);
  }

  lemma WithoutCallerOk(t: Table, caller: CallerInfo)
    requires TableOk(t)
    ensures TableOk(WithoutCaller(t, caller))
    ensures forall c, d :: Live(WithoutCaller(t, caller), c, d) <==> Live(t, c, d) && c.owner != caller
    ensures forall c :: c in WithoutCaller(t, caller) <==> c in t && c.owner != caller
    ensures forall c :: c in WithoutCaller(t, caller) ==> WithoutCaller(t, caller)[c] == t[c]
  {
  }

  // ---------------------------------------------------------------- the accepting side

  datatype ConnectInfo = ConnectInfo(caller: CallerInfo, element: Element)

  /** What a device holds bound on behalf of remote callers. */
  type Bindings = map<Connect, ConnectInfo>

  predicate BindingsOk(b: Bindings) {
    forall c :: c in b ==> c.Connect? && b[c].caller == c.owner
  }

  /** A connect object is recorded once; a repeated connect does not overwrite it. */
  function Bound(b: Bindings, c: Connect, info: ConnectInfo): Bindings {
    if c in b then b else b[c := info]
  }

  function UnboundCaller(b: Bindings, caller: CallerInfo): Bindings {
    map c | c in b && b[c].caller != caller :: b[c]
  }

  function UnboundDevice(b: Bindings, d: Device): Bindings {
    map c | c in b && b[c].caller.sourceDeviceId != d :: b[c]
  }
}

/** The registry of continuation tokens: which tokens each caller has registered, and which
    notifiers are attached to a token.  Unregistering and the death of a notifier share a loop over
    all callers that stops at the first list it empties; that loop removes exactly one token, but
    only because of what holds of the whole registry. */
module TokenRegistry {
  import opened Common
  import opened IdAllocators

  type AccessToken = nat
  type Token = int
  type Notifier = nat

  datatype CbType = EventConnect | EventDisconnect | OtherEvent

  type TokenMap = map<AccessToken, seq<Token>>
  type CallbackMap = map<Token, map<CbType, Notifier>>

  const DMS_PERMISSION_DENIED := 29360157
  const REGISTER_EXCEED_MAX_TIMES := 29360207
  const TOKEN_HAS_NOT_REGISTERED := 29360208
  const CALLBACK_HAS_REGISTERED := 29360209
  const CALLBACK_HAS_NOT_REGISTERED := 29360210
  const UNKNOWN_CALLBACK_TYPE := 29360214
  const MAX_REGISTER_NUM := 600

  /** The registry, with the history that gives tokens their meaning: the counter started at
      `start`, has been advanced `issued` times, and `birth` numbers the advance that made a
      token. */
  datatype Registry = Registry(
    tokenMap: TokenMap, callbackMap: CallbackMap, start: nat, issued: nat, birth: map<Token, nat>)

  // ---------------------------------------------------------------- token lists

  /** The list without one token: what remove_if and erase leave. */
  function Filter(list: seq<Token>, t: Token): (rest: seq<Token>)
    ensures t !in rest
    ensures forall x :: x in rest <==> x in list && x != t
    ensures |rest| <= |list|
  {
    if list == [] then []
    else if list[0] == t then Filter(list[1..], t)
    else [list[0]] + Filter(list[1..], t)
  }

  lemma {:induction false} FilterAbsent(list: seq<Token>, t: Token)
    requires t !in list
    ensures Filter(list, t) == list
  {
    if list != [] {
      FilterAbsent(list[1..], t);
    }
  }

  /** One occurrence is cut out, and the others keep their order. */
  lemma {:induction false} FilterErases(list: seq<Token>, t: Token, i: nat)
    requires Distinct(list) && i < |list| && list[i] == t
    ensures Filter(list, t) == list[..i] + list[i + 1..]
  {
    assert forall j :: 0 <= j < |list[1..]| ==> list[1..][j] == list[j + 1];
    if i == 0 {
      FilterAbsent(list[1..], t);
    } else {
      FilterErases(list[1..], t, i - 1);
      assert list[..i] == [list[0]] + list[1..][..i - 1];
    }
  }

  /** No two places of the map hold the same token. */
  ghost predicate Unique(m: TokenMap) {
    && (forall a :: a in m ==> Distinct(m[a]))
    && (forall a, b, t :: a in m && b in m && t in m[a] && t in m[b] ==> a == b)
  }

  predicate NoEmptyList(m: TokenMap) {
    forall a :: a in m ==> m[a] != []
  }

  ghost predicate Live(m: TokenMap, t: Token) {
    exists a :: a in m && t in m[a]
  }

  /** The token is gone from every list, and lists it emptied are gone too. */
  function Removed(m: TokenMap, t: Token): TokenMap {
    map a | a in m && Filter(m[a], t) != [] :: Filter(m[a], t)
  }

  lemma {:induction false} FilterDistinct(list: seq<Token>, t: Token)
    requires Distinct(list)
    ensures Distinct(Filter(list, t))
  {
    if list != [] {
      assert forall i :: 0 <= i < |list[1..]| ==> list[1..][i] == list[i + 1];
      FilterDistinct(list[1..], t);
      assert list[0] !in list[1..];
    }
  }

  /** Removing a token removes exactly that one: every other token stays with its caller. */
  lemma RemovedExactly(m: TokenMap, t: Token)
    requires Unique(m)
    ensures Unique(Removed(m, t)) && NoEmptyList(Removed(m, t))
    ensures forall a, x :: a in Removed(m, t) && x in Removed(m, t)[a] <==> a in m && x in m[a] && x != t
    ensures forall a :: a in m && t !in m[a] && m[a] != [] ==> a in Removed(m, t) && Removed(m, t)[a] == m[a]
    ensures forall x :: Live(Removed(m, t), x) <==> Live(m, x) && x != t
  {
    forall a | a in m ensures Distinct(Filter(m[a], t)) {
      FilterDistinct(m[a], t);
    }
    forall a | a in m && t !in m[a] ensures Filter(m[a], t) == m[a] {
      FilterAbsent(m[a], t);
    }
    forall a, x | a in m && x in m[a] && x != t ensures a in Removed(m, t) && x in Removed(m, t)[a] {
      assert x in Filter(m[a], t);
    }
  }

  // ---------------------------------------------------------------- the invariant

  ghost predicate HistoryOk(r: Registry) {
    && r.start <= MAX_TOKEN_NUM
    && forall t :: Live(r.tokenMap, t) ==>
         t in r.birth && 1 <= r.birth[t] <= r.issued && t == After(r.start, r.birth[t], MAX_TOKEN_NUM)
  }

  ghost predicate Inv(r: Registry) {
    && Unique(r.tokenMap) && NoEmptyList(r.tokenMap)
    && (forall a :: a in r.tokenMap ==> |r.tokenMap[a]| <= MAX_REGISTER_NUM)
    && (forall t :: t in r.callbackMap ==> Live(r.tokenMap, t) && r.callbackMap[t] != map[])
    && HistoryOk(r)
  }

  /** No live token is a whole number of rounds older than the next one. */
  ghost predicate NextIsFree(r: Registry)
    requires HistoryOk(r)
  {
    forall t :: Live(r.tokenMap, t) ==> (r.issued + 1 - r.birth[t]) % MAX_TOKEN_NUM != 0
  }

  function Counter(r: Registry): nat
    requires r.start <= MAX_TOKEN_NUM
  {
    After(r.start, r.issued, MAX_TOKEN_NUM)
  }

  /** Exactly then the next token is not live. */
  lemma NextTokenIsNewIff(r: Registry)
    requires HistoryOk(r)
    ensures !Live(r.tokenMap, Next(Counter(r), MAX_TOKEN_NUM)) <==> NextIsFree(r)
  {
    var next := Next(Counter(r), MAX_TOKEN_NUM);
    assert next == After(r.start, r.issued + 1, MAX_TOKEN_NUM);
    hide After;
    forall t | Live(r.tokenMap, t) ensures t == next <==> (r.issued + 1 - r.birth[t]) % MAX_TOKEN_NUM == 0 {
      SameIdIffWholeRounds(r.start, r.birth[t], r.issued + 1, MAX_TOKEN_NUM);
    }
  }

  // ---------------------------------------------------------------- operations on values

  function ListOf(m: TokenMap, a: AccessToken): seq<Token> {
    if a in m then m[a] else []
  }

  function Registered(r: Registry, a: AccessToken): Registry
    requires r.start <= MAX_TOKEN_NUM
  {
    var t := Next(Counter(r), MAX_TOKEN_NUM);
    r.(tokenMap := r.tokenMap[a := ListOf(r.tokenMap, a) + [t]],
       issued := r.issued + 1, birth := r.birth[t := r.issued + 1])
  }

  function Unregistered(r: Registry, t: Token): Registry {
    r.(tokenMap := Removed(r.tokenMap, t), callbackMap := r.callbackMap - {t})
  }

  function NotifiersOf(m: CallbackMap, t: Token): map<CbType, Notifier> {
    if t in m then m[t] else map[]
  }

  function Attached(r: Registry, t: Token, cb: CbType, n: Notifier): Registry {
    r.(callbackMap := r.callbackMap[t := NotifiersOf(r.callbackMap, t)[cb := n]])
  }

  function Detached(r: Registry, t: Token, cb: CbType): Registry {
    var rest := NotifiersOf(r.callbackMap, t) - {cb};
    r.(callbackMap := if rest == map[] then r.callbackMap - {t} else r.callbackMap[t := rest])
  }

  lemma CounterAdvances(r: Registry, a: AccessToken)
    requires r.start <= MAX_TOKEN_NUM
    ensures Counter(Registered(r, a)) == Next(Counter(r), MAX_TOKEN_NUM)
  {
  }

  /** Adding a token that is not live keeps all tokens apart. */
  lemma AddedUnique(m: TokenMap, a: AccessToken, t: Token)
    requires Unique(m) && !Live(m, t)
    ensures Unique(m[a := ListOf(m, a) + [t]])
    ensures forall x :: Live(m[a := ListOf(m, a) + [t]], x) <==> Live(m, x) || x == t
  {
    var after := m[a := ListOf(m, a) + [t]];
    assert t in after[a];
    assert forall b, x :: b in after && x in after[b] <==> (b in m && x in m[b]) || (b == a && x == t);
  }

  lemma RegisterKeepsInv(r: Registry, a: AccessToken)
    requires Inv(r) && NextIsFree(r) && |ListOf(r.tokenMap, a)| < MAX_REGISTER_NUM
    ensures Inv(Registered(r, a))
    ensures forall x :: Live(Registered(r, a).tokenMap, x)
                        <==> Live(r.tokenMap, x) || x == Next(Counter(r), MAX_TOKEN_NUM)
  {
    NextTokenIsNewIff(r);
    var t := Next(Counter(r), MAX_TOKEN_NUM);
    assert t == After(r.start, r.issued + 1, MAX_TOKEN_NUM);
    AddedUnique(r.tokenMap, a, t);
    hide After, Counter, Live, Unique;
  }

  /** Adding a token that is live leaves it in two places. */
  lemma AddedTwice(m: TokenMap, a: AccessToken, t: Token)
    requires Live(m, t)
    ensures !Unique(m[a := ListOf(m, a) + [t]])
  {
    var after := m[a := ListOf(m, a) + [t]];
    var b :| b in m && t in m[b];
    var n := |after[a]| - 1;
    assert after[a][n] == t;
    if a == b {
      var i :| 0 <= i < |m[a]| && m[a][i] == t;
      assert after[a][i] == t && i < n;
    } else {
      assert t in after[a] && t in after[b];
    }
  }

  /** A registration keeps the invariant if and only if no live token is whole rounds old. */
  lemma RegisterKeepsInvIff(r: Registry, a: AccessToken)
    requires Inv(r) && |ListOf(r.tokenMap, a)| < MAX_REGISTER_NUM
    ensures Inv(Registered(r, a)) <==> NextIsFree(r)
  {
    if NextIsFree(r) {
      RegisterKeepsInv(r, a);
    } else {
      NextTokenIsNewIff(r);
      hide After, Counter, Live, Unique;
      AddedTwice(r.tokenMap, a, Next(Counter(r), MAX_TOKEN_NUM));
    }
  }

  lemma UnregisterKeepsInv(r: Registry, t: Token)
    requires Inv(r)
    ensures Inv(Unregistered(r, t))
    ensures forall x :: Live(Unregistered(r, t).tokenMap, x) <==> Live(r.tokenMap, x) && x != t
  {
    RemovedExactly(r.tokenMap, t);
    hide Live, After;
  }

  lemma AttachKeepsInv(r: Registry, t: Token, cb: CbType, n: Notifier)
    requires Inv(r) && Live(r.tokenMap, t)
    ensures Inv(Attached(r, t, cb, n))
  {
    hide After;
    assert cb in Attached(r, t, cb, n).callbackMap[t];
  }

  lemma DetachKeepsInv(r: Registry, t: Token, cb: CbType)
    requires Inv(r) && Live(r.tokenMap, t)
    ensures Inv(Detached(r, t, cb))
  {
    hide After;
  }

  // ---------------------------------------------------------------- serial runs

  datatype Op =
    | Register(a: AccessToken)
    | Unregister(a: AccessToken, t: Token)
    | Attach(a: AccessToken, t: Token, cb: CbType, n: Notifier)
    | Detach(a: AccessToken, t: Token, cb: CbType)
    | NotifierDied(n: Notifier, t: Token)      // t: the token under which the notifier is found

  predicate Owns(r: Registry, a: AccessToken, t: Token) {
    t in ListOf(r.tokenMap, a)
  }

  /** The effect of one permitted call; refused calls change nothing. */
  function Apply(r: Registry, op: Op): Registry
    requires r.start <= MAX_TOKEN_NUM
  {
    match op
    case Register(a) => if |ListOf(r.tokenMap, a)| >= MAX_REGISTER_NUM then r else Registered(r, a)
    case Unregister(a, t) => if Owns(r, a, t) then Unregistered(r, t) else r
    case Attach(a, t, cb, n) =>
      if cb != OtherEvent && Owns(r, a, t) && cb !in NotifiersOf(r.callbackMap, t) then Attached(r, t, cb, n) else r
    case Detach(a, t, cb) =>
      if cb != OtherEvent && Owns(r, a, t) && cb in NotifiersOf(r.callbackMap, t) then Detached(r, t, cb) else r
    case NotifierDied(n, t) =>
      if n in NotifiersOf(r.callbackMap, t).Values then Unregistered(r, t) else r
  }

  lemma StepKeepsInv(r: Registry, op: Op)
    requires Inv(r) && (op.Register? ==> NextIsFree(r))
    ensures Inv(Apply(r, op))
  {
    match op {
      case Register(a) => if |ListOf(r.tokenMap, a)| < MAX_REGISTER_NUM { RegisterKeepsInv(r, a); }
      case Unregister(a, t) => UnregisterKeepsInv(r, t);
      case Attach(a, t, cb, n) => if Owns(r, a, t) { AttachKeepsInv(r, t, cb, n); }
      case Detach(a, t, cb) => if Owns(r, a, t) { DetachKeepsInv(r, t, cb); }
      case NotifierDied(n, t) => UnregisterKeepsInv(r, t);
    }
  }

  /** A run of calls in which every registration finds the next token free. */
  ghost predicate Runs(r: Registry, ops: seq<Op>, last: Registry)
    decreases |ops|
  {
    if ops == [] then last == r
    else HistoryOk(r) && (ops[0].Register? ==> NextIsFree(r)) && Runs(Apply(r, ops[0]), ops[1..], last)
  }

  /** Over every such run: no empty list, tokens unique across callers, at most 600 per caller, and
      notifiers only on live tokens. */
  lemma {:induction false} RunKeepsInv(r: Registry, ops: seq<Op>, last: Registry)
    requires Inv(r) && Runs(r, ops, last)
    ensures Inv(last)
    decreases |ops|
  {
    hide Inv, Apply, NextIsFree;
    if ops != [] {
      StepKeepsInv(r, ops[0]);
      RunKeepsInv(Apply(r, ops[0]), ops[1..], last);
    }
  }

  /** So the invariant holds in every state that is reached from the empty registry, whatever token
      was saved when the service started. */
  lemma ReachableInv(start: nat, ops: seq<Op>, last: Registry)
    requires start <= MAX_TOKEN_NUM && Runs(Registry(map[], map[], start, 0, map[]), ops, last)
    ensures Inv(last)
  {
    RunKeepsInv(Registry(map[], map[], start, 0, map[]), ops, last);
  }

  // ---------------------------------------------------------------- the early-breaking loop

  /** The map while the loop still has `todo` to visit and has not emptied a list. */
  ghost predicate RemovalLoop(m: TokenMap, t: Token, todo: set<AccessToken>, now: TokenMap) {
    && todo <= m.Keys
    && now == (map a | a in m :: if a in todo then m[a] else Filter(m[a], t))
    && forall a :: a in m && a !in todo ==> Filter(m[a], t) != []
  }

  lemma RemovalLoopStep(m: TokenMap, t: Token, todo: set<AccessToken>, now: TokenMap, iter: AccessToken)
    requires RemovalLoop(m, t, todo, now) && iter in todo && Filter(m[iter], t) != []
    ensures RemovalLoop(m, t, todo - {iter}, now[iter := Filter(m[iter], t)])
  {
    hide Filter;
  }

  /** Leaving at the first emptied list is the same as visiting all of them. */
  lemma EarlyBreak(m: TokenMap, t: Token, todo: set<AccessToken>, now: TokenMap, iter: AccessToken)
    requires Unique(m) && NoEmptyList(m)
    requires RemovalLoop(m, t, todo, now) && iter in todo && Filter(m[iter], t) == []
    ensures now - {iter} == Removed(m, t)
  {
    assert t in m[iter] by {
      if t !in m[iter] { FilterAbsent(m[iter], t); }
    }
    forall a | a in m && a != iter ensures Filter(m[a], t) == m[a] {
      FilterAbsent(m[a], t);
    }
    hide Filter;
    assert forall a :: a in now - {iter} <==> a in Removed(m, t);
  }

  /** Without the invariant the break is wrong: an empty list that is visited first ends the loop
      before the token is reached. */
  lemma EarlyBreakNeedsInvariant(t: Token)
    ensures var m: TokenMap := map[1 := [], 2 := [t]];
            && RemovalLoop(m, t, m.Keys, m) && Filter(m[1], t) == []
            && m - {1} != Removed(m, t)
  {
    var m: TokenMap := map[1 := [], 2 := [t]];
    assert 2 in m - {1} && 2 !in Removed(m, t);
  }

  /** The token is gone everywhere; every other token stays where it was, in its order, and callers
      are forgotten exactly with their last token. */
  ghost predicate TokenGone(m: TokenMap, now: TokenMap, t: Token) {
    && (forall a :: a in now <==> a in m && exists x :: x in m[a] && x != t)
    && (forall a, i :: a in m && 0 <= i < |m[a]| && m[a][i] == t && a in now ==> now[a] == m[a][..i] + m[a][i + 1..])
    && (forall a :: a in m && t !in m[a] && a in now ==> now[a] == m[a])
  }

  lemma RemovedIsGone(m: TokenMap, t: Token)
    requires Unique(m)
    ensures TokenGone(m, Removed(m, t), t)
  {
    var now := Removed(m, t);
    forall a | a in m ensures a in now <==> exists x :: x in m[a] && x != t {
      if a in now {
        assert Filter(m[a], t)[0] in Filter(m[a], t);
      }
      if x :| x in m[a] && x != t {
        assert x in Filter(m[a], t);
      }
    }
    forall a, i | a in m && 0 <= i < |m[a]| && m[a][i] == t && a in now ensures now[a] == m[a][..i] + m[a][i + 1..] {
      FilterErases(m[a], t, i);
    }
    forall a | a in m && t !in m[a] ensures Filter(m[a], t) == m[a] {
      FilterAbsent(m[a], t);
    }
  }

  /** The notifier of that type is gone and every other one stays; the token's entry goes with the last. */
  ghost predicate DetachedOnly(m: CallbackMap, now: CallbackMap, t: Token, cbType: CbType)
    requires t in m
  {
    && (forall x :: x != t ==> (x in now <==> x in m))
    && (forall x :: x in now && x != t ==> now[x] == m[x])
    && (t in now <==> exists cb :: cb in m[t] && cb != cbType)
    && (t in now ==> now[t].Keys == m[t].Keys - {cbType} && forall cb :: cb in now[t] ==> now[t][cb] == m[t][cb])
  }

  /** Takes one notifier of a token away, and the token's entry with the last. */
  method TakeAway(m: CallbackMap, t: Token, cbType: CbType) returns (now: CallbackMap)
    requires t in m && cbType in m[t]
    ensures now == if m[t] - {cbType} == map[] then m - {t} else m[t := m[t] - {cbType}]
    ensures DetachedOnly(m, now, t, cbType)
  {
    var rest := m[t] - {cbType};
    assert forall cb :: cb in rest <==> cb in m[t] && cb != cbType;
    assert (forall cb :: cb !in rest) ==> rest == map[];
    if rest == map[] {
      now := m - {t};
    } else {
      now := m[t := rest];
    }
  }

  lemma FullPass(m: TokenMap, t: Token, now: TokenMap)
    requires RemovalLoop(m, t, {}, now)
    ensures now == Removed(m, t)
  {
    hide Filter;
  }

  class AbilityManagerService {
    var token: nat
    var tokenMap: TokenMap
    var callbackMap: CallbackMap
    ghost var start: nat
    ghost var issued: nat
    ghost var birth: map<Token, nat>

    ghost function State(): Registry
      reads this
    {
      Registry(tokenMap, callbackMap, start, issued, birth)
    }

    ghost predicate Valid()
      reads this
    {
      Inv(State()) && token == Counter(State())
    }

    /** Starts from the counter value kept by the system parameter. */
    constructor (savedToken: nat)
      requires savedToken <= MAX_TOKEN_NUM
      ensures Valid() && State() == Registry(map[], map[], savedToken, 0, map[])
    {
      token, tokenMap, callbackMap := savedToken, map[], map[];
      start, issued, birth := savedToken, 0, map[];
    }

    method IsExceededRegisterMaxNum(accessToken: AccessToken) returns (exceeded: bool)
      ensures exceeded <==> accessToken in tokenMap && |tokenMap[accessToken]| >= 600
    {
      return accessToken in tokenMap && |tokenMap[accessToken]| >= MAX_REGISTER_NUM;
    }

    method IsTokenRegistered(accessToken: AccessToken, t: Token) returns (registered: bool)
      ensures registered <==> accessToken in tokenMap && t in tokenMap[accessToken]
    {
      if accessToken !in tokenMap {
        return false;
      }
      for i := 0 to |tokenMap[accessToken]|
        invariant t !in tokenMap[accessToken][..i]
      {
        if tokenMap[accessToken][i] == t {
          return true;
        }
      }
      return false;
    }

    method RegisterWithoutExtraParam(permitted: bool, accessToken: AccessToken) returns (result: int, t: Token)
      requires Valid()
      modifies this
      ensures Valid() <==> result != ERR_OK || old(NextIsFree(State()))
      ensures result == if !permitted then DMS_PERMISSION_DENIED
                        else if accessToken in old(tokenMap) && |old(tokenMap)[accessToken]| >= 600
                        then REGISTER_EXCEED_MAX_TIMES
                        else ERR_OK
      ensures State() == if permitted then Apply(old(State()), Register(accessToken)) else old(State())
      ensures result == ERR_OK ==>
                && t == token && token == (if old(token) == MAX_TOKEN_NUM then 1 else old(token) + 1)
                && tokenMap.Keys == old(tokenMap).Keys + {accessToken}
                && tokenMap[accessToken]
                   == (if accessToken in old(tokenMap) then old(tokenMap)[accessToken] else []) + [t]
                && (forall a :: a in old(tokenMap) && a != accessToken ==> tokenMap[a] == old(tokenMap)[a])
      ensures result != ERR_OK ==> token == old(token) && tokenMap == old(tokenMap)
      ensures callbackMap == old(callbackMap)
      ensures result == ERR_OK ==> (!Live(old(tokenMap), t) <==> old(NextIsFree(State())))
    {
      t := -1;
      if !permitted {
        return DMS_PERMISSION_DENIED, t;
      }
      var exceeded := IsExceededRegisterMaxNum(accessToken);
      if exceeded {
        return REGISTER_EXCEED_MAX_TIMES, t;
      }
      t := IssueToken(accessToken);
      return ERR_OK, t;
    }

    /** Advances the counter and appends the new token to the caller's list. */
    method IssueToken(accessToken: AccessToken) returns (tToken: Token)
      requires Valid() && |ListOf(tokenMap, accessToken)| < MAX_REGISTER_NUM
      modifies this
      ensures State() == Registered(old(State()), accessToken)
      ensures Valid() <==> old(NextIsFree(State()))
      ensures 1 <= tToken <= MAX_TOKEN_NUM && (!Live(old(tokenMap), tToken) <==> old(NextIsFree(State())))
      ensures tToken == token && token == (if old(token) == MAX_TOKEN_NUM then 1 else old(token) + 1)
      ensures tokenMap == old(tokenMap)[accessToken := ListOf(old(tokenMap), accessToken) + [tToken]]
      ensures callbackMap == old(callbackMap)
    {
      NextTokenIsNewIff(State());
      RegisterKeepsInvIff(State(), accessToken);
      CounterAdvances(State(), accessToken);
      ghost var after := Registered(State(), accessToken);
      tToken := token + 1;
      if tToken > MAX_TOKEN_NUM {
        tToken := 1;
      }
      assert tToken == Next(token, MAX_TOKEN_NUM);
      assert after == Registry(tokenMap[accessToken := ListOf(tokenMap, accessToken) + [tToken]], callbackMap,
                               start, issued + 1, birth[tToken := issued + 1]);
      hide Inv, NextIsFree, Live, Counter, After, Registered;
      token := tToken;
      tokenMap := tokenMap[accessToken := ListOf(tokenMap, accessToken) + [tToken]];
      issued := issued + 1;
      birth := birth[tToken := issued];
    }

    /** The loop shared by unregistering and by the death of a notifier. */
    method EraseToken(t: Token)
      requires Unique(tokenMap) && NoEmptyList(tokenMap)
      modifies this`tokenMap
      ensures tokenMap == Removed(old(tokenMap), t)
    {
      ghost var m := tokenMap;
      var todo := tokenMap.Keys;
      assert RemovalLoop(m, t, todo, tokenMap);
      while todo != {}
        invariant RemovalLoop(m, t, todo, tokenMap)
        decreases |todo|
      {
        hide RemovalLoop, Removed;
        assert (forall x :: x !in todo) ==> todo == {};
        var iter :| iter in todo;
        assert iter in tokenMap && tokenMap[iter] == m[iter] by { LoopEntry(m, t, todo, tokenMap, iter); }
        var rest := Filter(tokenMap[iter], t);
        if rest == [] {
          EarlyBreak(m, t, todo, tokenMap, iter);
          tokenMap := tokenMap - {iter};
          return;
        }
        RemovalLoopStep(m, t, todo, tokenMap, iter);
        tokenMap := tokenMap[iter := rest];
        todo := todo - {iter};
      }
      FullPass(m, t, tokenMap);
    }

    /** The notifiers of the token go, then the token. */
    method ForgetToken(t: Token)
      requires Valid()
      modifies this`tokenMap, this`callbackMap
      ensures Valid() && State() == Unregistered(old(State()), t)
      ensures TokenGone(old(tokenMap), tokenMap, t) && callbackMap == old(callbackMap) - {t}
    {
      UnregisterKeepsInv(State(), t);
      RemovedIsGone(tokenMap, t);
      if t in callbackMap {
        callbackMap := callbackMap - {t};
      }
      hide TokenGone, Removed, After;
      EraseToken(t);
      assert State() == Unregistered(old(State()), t);
    }

    method Unregister(permitted: bool, accessToken: AccessToken, t: Token) returns (result: int)
      requires Valid()
      modifies this`tokenMap, this`callbackMap
      ensures Valid()
      ensures result == if !permitted then DMS_PERMISSION_DENIED
                        else if !(accessToken in old(tokenMap) && t in old(tokenMap)[accessToken])
                        then TOKEN_HAS_NOT_REGISTERED
                        else ERR_OK
      ensures result == ERR_OK ==> TokenGone(old(tokenMap), tokenMap, t) && callbackMap == old(callbackMap) - {t}
      ensures result != ERR_OK ==> tokenMap == old(tokenMap) && callbackMap == old(callbackMap)
      ensures State() == if permitted then Apply(old(State()), Op.Unregister(accessToken, t)) else old(State())
    {
      hide Inv, Counter, After, TokenGone, Removed;
      if !permitted {
        return DMS_PERMISSION_DENIED;
      }
      var registered := IsTokenRegistered(accessToken, t);
      if !registered {
        return TOKEN_HAS_NOT_REGISTERED;
      }
      ForgetToken(t);
      return ERR_OK;
    }

    method RegisterDeviceSelectionCallback(permitted: bool, accessToken: AccessToken, t: Token,
                                           cbType: CbType, notifier: Notifier)
      returns (result: int)
      requires Valid()
      modifies this`callbackMap
      ensures Valid()
      ensures result == if !permitted then DMS_PERMISSION_DENIED
                        else if cbType == OtherEvent then UNKNOWN_CALLBACK_TYPE
                        else if !(accessToken in tokenMap && t in tokenMap[accessToken]) then TOKEN_HAS_NOT_REGISTERED
                        else if t in old(callbackMap) && cbType in old(callbackMap)[t] then CALLBACK_HAS_REGISTERED
                        else ERR_OK
      ensures result != ERR_OK ==> callbackMap == old(callbackMap)
      ensures result == ERR_OK ==>
                && callbackMap.Keys == old(callbackMap).Keys + {t}
                && callbackMap[t].Keys == (if t in old(callbackMap) then old(callbackMap)[t].Keys else {}) + {cbType}
                && callbackMap[t][cbType] == notifier
                && (forall cb :: t in old(callbackMap) && cb in old(callbackMap)[t] && cb != cbType ==>
                      callbackMap[t][cb] == old(callbackMap)[t][cb])
                && (forall x :: x in old(callbackMap) && x != t ==> callbackMap[x] == old(callbackMap)[x])
      ensures State() == if permitted then Apply(old(State()), Attach(accessToken, t, cbType, notifier))
                         else old(State())
    {
      if !permitted {
        return DMS_PERMISSION_DENIED;
      }
      if cbType != EventConnect && cbType != EventDisconnect {
        return UNKNOWN_CALLBACK_TYPE;
      }
      var registered := IsTokenRegistered(accessToken, t);
      if !registered {
        return TOKEN_HAS_NOT_REGISTERED;
      }
      if t in callbackMap && cbType in callbackMap[t] {
        return CALLBACK_HAS_REGISTERED;
      }
      AttachKeepsInv(State(), t, cbType, notifier);
      hide Inv, After;
      if t in callbackMap {
        var notifiers: map<CbType, Notifier> := callbackMap[t];
        callbackMap := callbackMap[t := notifiers[cbType := notifier]];
      } else {
        callbackMap := callbackMap[t := map[cbType := notifier]];
      }
      assert State() == Attached(old(State()), t, cbType, notifier);
      return ERR_OK;
    }

    method DetachNotifier(accessToken: AccessToken, t: Token, cbType: CbType)
      requires Valid() && accessToken in tokenMap && t in tokenMap[accessToken]
      requires t in callbackMap && cbType in callbackMap[t]
      modifies this`callbackMap
      ensures Valid() && State() == Detached(old(State()), t, cbType)
      ensures DetachedOnly(old(callbackMap), callbackMap, t, cbType)
    {
      DetachKeepsInv(State(), t, cbType);
      hide Inv, After;
      callbackMap := TakeAway(callbackMap, t, cbType);
      assert State() == Detached(old(State()), t, cbType);
    }

    method UnregisterDeviceSelectionCallback(permitted: bool, accessToken: AccessToken, t: Token, cbType: CbType)
      returns (result: int)
      requires Valid()
      modifies this`callbackMap
      ensures Valid()
      ensures result == if !permitted then DMS_PERMISSION_DENIED
                        else if cbType == OtherEvent then UNKNOWN_CALLBACK_TYPE
                        else if !(accessToken in tokenMap && t in tokenMap[accessToken]) then TOKEN_HAS_NOT_REGISTERED
                        else if !(t in old(callbackMap) && cbType in old(callbackMap)[t])
                        then CALLBACK_HAS_NOT_REGISTERED
                        else ERR_OK
      ensures result != ERR_OK ==> callbackMap == old(callbackMap)
      ensures result == ERR_OK ==>
                DetachedOnly(old(callbackMap), callbackMap, t, cbType)
      ensures State() == if permitted then Apply(old(State()), Detach(accessToken, t, cbType)) else old(State())
    {
      hide Inv, Counter, After, DetachedOnly, Detached;
      if !permitted {
        return DMS_PERMISSION_DENIED;
      }
      if cbType != EventConnect && cbType != EventDisconnect {
        return UNKNOWN_CALLBACK_TYPE;
      }
      var registered := IsTokenRegistered(accessToken, t);
      if !registered {
        return TOKEN_HAS_NOT_REGISTERED;
      }
      if !(t in callbackMap && cbType in callbackMap[t]) {
        return CALLBACK_HAS_NOT_REGISTERED;
      }
      DetachNotifier(accessToken, t, cbType);
      return ERR_OK;
    }

    /** Some token the notifier is attached to, if there is one. */
    method QueryTokenByNotifier(notifier: Notifier) returns (found: Option<Token>)
      ensures found.Some? ==> found.value in callbackMap && notifier in callbackMap[found.value].Values
      ensures found.None? ==> forall t :: t in callbackMap ==> notifier !in callbackMap[t].Values
    {
      var todo := callbackMap.Keys;
      while todo != {}
        invariant todo <= callbackMap.Keys
        invariant forall t :: t in callbackMap && t !in todo ==> notifier !in callbackMap[t].Values
        decreases |todo|
      {
        assert exists t :: t in todo by { assert (forall t :: t !in todo) ==> todo == {}; }
        var iter :| iter in todo;
        if notifier in callbackMap[iter].Values {
          return Some(iter);
        }
        todo := todo - {iter};
      }
      return None;
    }

    /** The death of a notifier removes one token it is attached to, everywhere. */
    method HandleNotifierDied(notifier: Notifier) returns (gone: Option<Token>)
      requires Valid()
      modifies this`tokenMap, this`callbackMap
      ensures Valid()
      ensures gone.Some? <==> exists t :: t in old(callbackMap) && notifier in old(callbackMap)[t].Values
      ensures State() == if gone.Some? then Apply(old(State()), NotifierDied(notifier, gone.value)) else old(State())
      ensures gone.Some? ==> Live(old(tokenMap), gone.value) && !Live(tokenMap, gone.value)
      ensures gone.Some? ==>
                && gone.value in old(callbackMap) && notifier in old(callbackMap)[gone.value].Values
                && TokenGone(old(tokenMap), tokenMap, gone.value) && callbackMap == old(callbackMap) - {gone.value}
    {
      gone := QueryTokenByNotifier(notifier);
      if gone.Some? {
        var t := gone.value;
        UnregisterKeepsInv(State(), t);
        ForgetToken(t);
      }
    }
  }

  lemma LoopEntry(m: TokenMap, t: Token, todo: set<AccessToken>, now: TokenMap, iter: AccessToken)
    requires RemovalLoop(m, t, todo, now) && iter in todo
    ensures iter in m && iter in now && now[iter] == m[iter]
  {
  }
}

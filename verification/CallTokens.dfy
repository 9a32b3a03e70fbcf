/** The tokens under which remote calls are remembered.  A state change reported by the remote
    side carries such a token, and the first entry with that token gets it: this is right as long
    as no two live entries share a token. */
module CallTokens {
  import opened Common
  import opened IdAllocators

  type Connect = nat
  type Device = string

  datatype CallInfo = CallInfo(connectToken: int, remoteDeviceId: Device)

  /** Every live entry carries the token of the call that made it; `birth` is the number of that
      call and `issued` the number of calls so far. */
  ghost predicate TokensOk(calls: map<Connect, CallInfo>, birth: map<Connect, nat>, issued: nat) {
    && (forall c :: c in calls ==> c in birth && 1 <= birth[c] <= issued
                                   && calls[c].connectToken == After(0, birth[c], MAX_TOKEN_NUM))
    && (forall c, d :: c in calls && d in calls && c != d ==> birth[c] != birth[d])
  }

  /** No live entry is older than one round of tokens. */
  ghost predicate WithinWindow(calls: map<Connect, CallInfo>, birth: map<Connect, nat>, issued: nat)
    requires TokensOk(calls, birth, issued)
  {
    forall c :: c in calls ==> issued - birth[c] < MAX_TOKEN_NUM
  }

  /** Two live entries share a token exactly when whole rounds of tokens lie between their calls. */
  lemma TokenClash(calls: map<Connect, CallInfo>, birth: map<Connect, nat>, issued: nat, c: Connect, d: Connect)
    requires TokensOk(calls, birth, issued) && c in calls && d in calls && birth[c] <= birth[d]
    ensures calls[c].connectToken == calls[d].connectToken <==> (birth[d] - birth[c]) % MAX_TOKEN_NUM == 0
  {
    SameIdIffWholeRounds(0, birth[c], birth[d], MAX_TOKEN_NUM);
  }

  /** Within the window a token names at most one live entry. */
  lemma TokensUnique(calls: map<Connect, CallInfo>, birth: map<Connect, nat>, issued: nat, c: Connect, d: Connect)
    requires TokensOk(calls, birth, issued) && WithinWindow(calls, birth, issued)
    requires c in calls && d in calls && calls[c].connectToken == calls[d].connectToken
    ensures c == d
  {
    hide After;
    if c != d {
      if birth[c] < birth[d] {
        DistinctWithinRound(0, birth[c], birth[d], MAX_TOKEN_NUM);
      } else {
        DistinctWithinRound(0, birth[d], birth[c], MAX_TOKEN_NUM);
      }
    }
  }

  class CallTable {
    var token: nat
    var callMap: map<Connect, CallInfo>
    ghost var issued: nat
    ghost var birth: map<Connect, nat>

    ghost predicate Valid()
      reads this
    {
      TokensOk(callMap, birth, issued) && token == After(0, issued, MAX_TOKEN_NUM)
    }

    constructor ()
      ensures Valid() && callMap == map[] && issued == 0
    {
      token, callMap, issued, birth := 0, map[], 0, map[];
    }

    /** Issues the next token and remembers the call under it, replacing an older entry. */
    method SaveConnectToken(connect: Connect, remoteDeviceId: Device) returns (tToken: int)
      requires Valid()
      modifies this
      ensures Valid()
      ensures 1 <= tToken <= MAX_TOKEN_NUM && tToken == Next(old(token), MAX_TOKEN_NUM)
      ensures callMap == old(callMap)[connect := CallInfo(tToken, remoteDeviceId)]
      ensures issued == old(issued) + 1 && birth == old(birth)[connect := issued]
    {
      tToken := token;
      tToken := tToken + 1;
      if tToken > MAX_TOKEN_NUM {
        tToken := 1;
      }
      token := tToken;
      callMap := callMap[connect := CallInfo(tToken, remoteDeviceId)];
      issued := issued + 1;
      birth := birth[connect := issued];
    }

    method Forget(connect: Connect)
      requires Valid()
      modifies this`callMap
      ensures Valid() && callMap == old(callMap) - {connect}
    {
      callMap := callMap - {connect};
    }

    /** The entry a state change belongs to: some entry with the token if there is one, and within
        the window the only one. */
    method FindConnect(connectToken: int) returns (connect: Option<Connect>)
      requires Valid()
      ensures connect.None? <==> forall c :: c in callMap ==> callMap[c].connectToken != connectToken
      ensures connect.Some? ==> connect.value in callMap && callMap[connect.value].connectToken == connectToken
      ensures connect.Some? && WithinWindow(callMap, birth, issued) ==>
                forall c :: c in callMap && callMap[c].connectToken == connectToken ==> c == connect.value
    {
      hide After;
      connect := None;
      var todo := callMap.Keys;
      while todo != {}
        invariant todo <= callMap.Keys && connect == None
        invariant forall c :: c in callMap && c !in todo ==> callMap[c].connectToken != connectToken
        decreases |todo|
      {
        assert (forall x :: x !in todo) ==> todo == {};
        var iter :| iter in todo;
        if callMap[iter].connectToken == connectToken {
          connect := Some(iter);
          if WithinWindow(callMap, birth, issued) {
            forall c | c in callMap && callMap[c].connectToken == connectToken ensures c == iter {
              TokensUnique(callMap, birth, issued, c, iter);
            }
          }
          return;
        }
        todo := todo - {iter};
      }
    }
  }
}

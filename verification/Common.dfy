/** What several components share. */
module Common {

  const ERR_OK := 0
  const INVALID_PARAMETERS_ERR := 29360128

  datatype Option<T> = None | Some(value: T)

  predicate Distinct<T(==)>(s: seq<T>) {
    forall i, j :: 0 <= i < j < |s| ==> s[i] != s[j]
  }

  /** A number that is not used yet. */
  lemma {:induction false} Fresh(used: set<nat>) returns (k: nat)
    ensures forall j :: j in used ==> j < k
  {
    if used == {} {
      k := 0;
    } else {
      var j :| j in used;
      var rest := Fresh(used - {j});
      assert forall i :: i in used ==> i == j || i in used - {j};
      k := if rest <= j then j + 1 else rest;
    }
  }
}

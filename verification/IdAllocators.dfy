/** The wrap-around id allocators: session ids, free-install task ids and connect tokens.  All of
    them walk a cycle 1, 2, ..., n, 1, ...; the module proves in closed form where they stand after
    any number of calls, and exactly when two of the ids they hand out are equal. */
module IdAllocators {
  import opened Common

  const INT32_MAX := 0x7FFF_FFFF
  const INT32_MIN := -0x8000_0000
  const INT64_MAX := 0x7FFF_FFFF_FFFF_FFFF
  const INT64_MIN := -0x8000_0000_0000_0000
  const MAX_TOKEN_NUM := 100000000

  /** The successor of an id on a cycle of length n; 0 is the state before the first id. */
  function Next(v: nat, n: nat): (w: nat)
    requires v <= n && n > 0
    ensures 1 <= w <= n
  {
    if v == n then 1 else v + 1
  }

  /** The id reached from v after k steps. */
  function After(v: nat, k: nat, n: nat): (w: nat)
    requires v <= n && n > 0
    ensures w <= n && (k > 0 || v > 0 ==> w >= 1)
    decreases k
  {
    if k == 0 then v else Next(After(v, k - 1, n), n)
  }

  /** Closed form of the walk. */
  lemma {:induction false} AfterClosed(v: nat, k: nat, n: nat)
    requires v <= n && n > 0 && v + k > 0
    ensures After(v, k, n) == (v + k - 1) % n + 1
    decreases k
  {
    if k == 0 {
      SmallMod(v - 1, n);
    } else if v + k == 1 {
      SmallMod(0, n);
    } else {
      AfterClosed(v, k - 1, n);
      ModStep(v + k - 2, n);
    }
  }

  lemma SmallMod(x: nat, n: nat)
    requires x < n
    ensures x % n == x
  {
  }

  lemma ModStep(x: nat, n: nat)
    requires n > 0
    ensures (x + 1) % n == if x % n == n - 1 then 0 else x % n + 1
  {
    var q, r := x / n, x % n;
    assert x == q * n + r;
    if r == n - 1 {
      assert x + 1 == (q + 1) * n + 0;
      ModUnique(x + 1, q + 1, 0, n);
    } else {
      ModUnique(x + 1, q, r + 1, n);
    }
  }

  lemma MultipleGap(q: nat, p: nat, n: nat)
    requires q < p
    ensures p * n >= q * n + n
  {
    var d := p - q - 1;
    assert p * n == q * n + n + d * n;
    assert d * n >= 0;
  }

  /** Quotient and remainder are unique. */
  lemma DivModUnique(q: nat, r: nat, p: nat, t: nat, n: nat)
    requires r < n && t < n && q * n + r == p * n + t
    ensures q == p && r == t
  {
    if q < p {
      MultipleGap(q, p, n);
    } else if p < q {
      MultipleGap(p, q, n);
    }
  }

  lemma ModUnique(x: nat, q: nat, r: nat, n: nat)
    requires n > 0 && r < n && x == q * n + r
    ensures x % n == r
  {
    DivModUnique(x / n, x % n, q, r, n);
  }

  lemma ModEqual(x: nat, y: nat, n: nat)
    requires n > 0 && x <= y
    ensures x % n == y % n <==> (y - x) % n == 0
  {
    var q, r := x / n, x % n;
    var p, t := (y - x) / n, (y - x) % n;
    assert x == q * n + r && y - x == p * n + t;
    assert y == (q + p) * n + (r + t) by { assert (q + p) * n == q * n + p * n; }
    if r + t < n {
      ModUnique(y, q + p, r + t, n);
    } else {
      assert (q + p + 1) * n == (q + p) * n + n;
      ModUnique(y, q + p + 1, r + t - n, n);
    }
  }

  /** Two ids of one walk are equal exactly when a whole number of rounds lies between them. */
  lemma SameIdIffWholeRounds(v: nat, i: nat, j: nat, n: nat)
    requires v <= n && n > 0 && v + i > 0 && i <= j
    ensures After(v, i, n) == After(v, j, n) <==> (j - i) % n == 0
  {
    AfterClosed(v, i, n);
    AfterClosed(v, j, n);
    ModEqual(v + i - 1, v + j - 1, n);
  }

  /** Within one round all ids differ. */
  lemma DistinctWithinRound(v: nat, i: nat, j: nat, n: nat)
    requires v <= n && n > 0 && v + i > 0 && i < j < i + n
    ensures After(v, i, n) != After(v, j, n)
  {
    SameIdIffWholeRounds(v, i, j, n);
    SmallMod(j - i, n);
  }

  // ---------------------------------------------------------------- post-increment allocators

  /** Addition of one on 32-bit and 64-bit signed integers, wrapping around. */
  function Increment32(x: int): int { if x == INT32_MAX then INT32_MIN else x + 1 }
  function Increment64(x: int): int { if x == INT64_MAX then INT64_MIN else x + 1 }

  class SessionIds {
    var currSessionId: int

    constructor ()
      ensures currSessionId == 1
    {
      currSessionId := 1;
    }

    method GenerateSessionId() returns (id: int)
      requires 1 <= currSessionId <= INT32_MAX
      modifies this
      ensures id == old(currSessionId)
      ensures currSessionId == Next(old(currSessionId), INT32_MAX)
    {
      id := currSessionId;
      currSessionId := Increment32(currSessionId);
      if currSessionId <= 0 {
        currSessionId := 1;
      }
    }

    /** Any run of calls no longer than the range yields positive, distinct ids. */
    method GenerateMany(count: nat) returns (ids: seq<int>)
      requires 1 <= currSessionId <= INT32_MAX && count <= INT32_MAX
      modifies this
      ensures |ids| == count && Distinct(ids)
      ensures forall i :: 0 <= i < count ==> 1 <= ids[i] <= INT32_MAX
      ensures currSessionId == After(old(currSessionId), count, INT32_MAX)
    {
      ids := [];
      ghost var start := currSessionId;
      for i := 0 to count
        invariant currSessionId == After(start, i, INT32_MAX)
        invariant |ids| == i && forall j :: 0 <= j < i ==> ids[j] == After(start, j, INT32_MAX)
      {
        var id := GenerateSessionId();
        ids := ids + [id];
      }
      DistinctWalk(start, ids, INT32_MAX);
    }
  }

  lemma DistinctWalk(v: nat, ids: seq<int>, n: nat)
    requires 1 <= v <= n && |ids| <= n
    requires forall j :: 0 <= j < |ids| ==> ids[j] == After(v, j, n)
    ensures Distinct(ids)
  {
    forall i, j | 0 <= i < j < |ids| ensures ids[i] != ids[j] {
      DistinctWithinRound(v, i, j, n);
    }
  }

  class TaskIds {
    var currTaskId: int

    constructor ()
      ensures currTaskId == 1
    {
      currTaskId := 1;
    }

    method GenerateTaskId() returns (id: int)
      requires 1 <= currTaskId <= INT64_MAX
      modifies this
      ensures id == old(currTaskId)
      ensures currTaskId == Next(old(currTaskId), INT64_MAX)
    {
      id := currTaskId;
      var before := currTaskId;
      currTaskId := Increment64(currTaskId);
      if before == INT64_MAX {
        currTaskId := 1;
      }
    }

    method GenerateMany(count: nat) returns (ids: seq<int>)
      requires 1 <= currTaskId <= INT64_MAX && count <= INT64_MAX
      modifies this
      ensures |ids| == count && Distinct(ids)
      ensures forall i :: 0 <= i < count ==> 1 <= ids[i] <= INT64_MAX
      ensures currTaskId == After(old(currTaskId), count, INT64_MAX)
    {
      ids := [];
      ghost var start := currTaskId;
      for i := 0 to count
        invariant currTaskId == After(start, i, INT64_MAX)
        invariant |ids| == i && forall j :: 0 <= j < i ==> ids[j] == After(start, j, INT64_MAX)
      {
        var id := GenerateTaskId();
        ids := ids + [id];
      }
      DistinctWalk(start, ids, INT64_MAX);
    }
  }
}

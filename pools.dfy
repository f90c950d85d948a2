/** Index arithmetic over one question pool, shared by the server-side draw
    (app/api/questions/route.ts) and the client-only draw (components/QuizApp.tsx):
    `pool.map((_, i) => i)` and `.filter(i => !used.includes(i))`. */
module Pools {

  /** No index occurs twice. */
  predicate NoDup(s: seq<int>) {
    forall i, j :: 0 <= i < j < |s| ==> s[i] != s[j]
  }

  /** `pool.map((_, i) => i)` for a pool of `n` questions: 0, 1, ..., n - 1. */
  function Range(n: nat): (r: seq<int>)
    ensures |r| == n
    ensures forall i :: 0 <= i < n ==> r[i] == i
  {
    if n == 0 then [] else Range(n - 1) + [n - 1]
  }

  /** The pool indices not yet served: `Range(n).filter(i => !used.includes(i))`. */
  function Available(n: nat, used: seq<int>): (r: seq<int>)
    ensures forall x :: x in r <==> 0 <= x < n && x !in used
    ensures |r| <= n
  {
    if n == 0 then []
    else if n - 1 in used then Available(n - 1, used)
    else Available(n - 1, used) + [n - 1]
  }

  /** The available indices come in increasing pool order, hence without duplicates. */
  lemma {:induction false} AvailableSorted(n: nat, used: seq<int>)
    ensures forall i, j :: 0 <= i < j < |Available(n, used)| ==> Available(n, used)[i] < Available(n, used)[j]
    ensures NoDup(Available(n, used))
  {
    if n > 0 {
      AvailableSorted(n - 1, used);
      var prev := Available(n - 1, used);
      forall i | 0 <= i < |prev|
        ensures prev[i] < n - 1
      {
        assert prev[i] in prev;
      }
    }
  }

  /** Nothing is available exactly when every index of the pool has been served;
      stale indices (outside 0..n-1) in `used` play no part. */
  lemma AvailableEmptyIff(n: nat, used: seq<int>)
    ensures Available(n, used) == [] <==> forall i :: 0 <= i < n ==> i in used
  {
    if Available(n, used) != [] {
      assert Available(n, used)[0] in Available(n, used);
    }
  }

  /** With nothing used, every index is available, in order. */
  lemma {:induction false} AvailableOfUnused(n: nat, used: seq<int>)
    requires forall i :: 0 <= i < n ==> i !in used
    ensures Available(n, used) == Range(n)
  {
    if n > 0 {
      AvailableOfUnused(n - 1, used);
      assert n - 1 !in used;
      assert Available(n, used) == Available(n - 1, used) + [n - 1];
    }
  }

  /** Recording one more served index takes exactly that index out of the available ones. */
  lemma {:induction false} AvailableAfterUse(n: nat, used: seq<int>, x: int)
    requires 0 <= x < n && x !in used
    ensures |Available(n, used + [x])| == |Available(n, used)| - 1
    decreases n, 1
  {
    if x == n - 1 {
      LastUsed(n, used, x);
    } else {
      UseBelowTop(n, used, x);
    }
  }

  /** The inductive case of AvailableAfterUse: `x` lies below the top index. */
  lemma {:induction false} UseBelowTop(n: nat, used: seq<int>, x: int)
    requires 0 <= x < n - 1 && x !in used
    ensures |Available(n, used + [x])| == |Available(n, used)| - 1
    decreases n, 0
  {
    AvailableAfterUse(n - 1, used, x);
    assert n - 1 in used <==> n - 1 in used + [x];
    OneMoreIndex(n, used, used + [x]);
  }

  /** Index `n - 1` is either served under both lists or under neither; then
      `Available` grows or stays put alike for both. */
  lemma OneMoreIndex(n: nat, u: seq<int>, v: seq<int>)
    requires n > 0 && (n - 1 in u <==> n - 1 in v)
    ensures |Available(n, u)| - |Available(n - 1, u)| == |Available(n, v)| - |Available(n - 1, v)|
  {
  }

  lemma LastUsed(n: nat, used: seq<int>, x: int)
    requires n > 0 && x == n - 1 && x !in used
    ensures |Available(n, used + [x])| == |Available(n, used)| - 1
  {
    var used' := used + [x];
    assert x in used';
    forall i | 0 <= i < n - 1
      ensures i in used <==> i in used'
    {
      assert i != x;
    }
    AvailableSame(n - 1, used, used');
  }

  /** Two used lists that agree on the pool's indices leave the same indices available. */
  lemma {:induction false} AvailableSame(n: nat, u: seq<int>, v: seq<int>)
    requires forall i :: 0 <= i < n ==> (i in u <==> i in v)
    ensures Available(n, u) == Available(n, v)
  {
    if n > 0 {
      AvailableSame(n - 1, u, v);
    }
  }
}

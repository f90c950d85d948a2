/** Small helpers shared by every part of the quiz model: optional values,
    JavaScript's String.prototype.trim, the Math.random index draw, sums over
    map values and JavaScript's truncating remainder. */
module Util {

  datatype Option<+T> = None | Some(value: T) {
    /** The `??` operator of the source: the value, or the fallback when absent. */
    function GetOr(fallback: T): T {
      match this
      case Some(v) => v
      case None => fallback
    }
  }

  // ---------------------------------------------------------------------------
  // String trimming (ECMAScript WhiteSpace and LineTerminator code points)
  // ---------------------------------------------------------------------------

  predicate IsJsWhitespace(c: char) {
    || c == ' ' || c == '\t' || c == '\n' || c == '\r'
    || c == '\U{000B}' || c == '\U{000C}' || c == '\U{00A0}' || c == '\U{FEFF}'
    || c == '\U{1680}' || ('\U{2000}' <= c <= '\U{200A}')
    || c == '\U{2028}' || c == '\U{2029}' || c == '\U{202F}' || c == '\U{205F}'
    || c == '\U{3000}'
  }

  predicate AllWhitespace(s: string) {
    forall i :: 0 <= i < |s| ==> IsJsWhitespace(s[i])
  }

  /** Drops the leading whitespace: the result is a suffix of `s`. */
  function TrimStart(s: string): (r: string)
    ensures |r| <= |s| && r == s[|s| - |r|..]
    ensures r != [] ==> !IsJsWhitespace(r[0])
    ensures AllWhitespace(s[..|s| - |r|])
    ensures forall c :: c in r ==> c in s
  {
    if s != [] && IsJsWhitespace(s[0]) then TrimStart(s[1..]) else s
  }

  /** Drops the trailing whitespace: the result is a prefix of `s`. */
  function TrimEnd(s: string): (r: string)
    ensures |r| <= |s| && r == s[..|r|]
    ensures r != [] ==> !IsJsWhitespace(r[|r| - 1])
    ensures AllWhitespace(s[|r|..])
    ensures forall c :: c in r ==> c in s
  {
    if s != [] && IsJsWhitespace(s[|s| - 1]) then TrimEnd(s[..|s| - 1]) else s
  }

  /** `s.trim()`: the longest infix of `s` that neither starts nor ends with whitespace. */
  function Trim(s: string): (r: string)
    ensures r == [] || (!IsJsWhitespace(r[0]) && !IsJsWhitespace(r[|r| - 1]))
    ensures r == [] <==> AllWhitespace(s)
    ensures (s == [] || (!IsJsWhitespace(s[0]) && !IsJsWhitespace(s[|s| - 1]))) ==> r == s
    ensures forall c :: c in r ==> c in s
  {
    var front := TrimStart(s);
    var r := TrimEnd(front);
    assert front != [] ==> front[0] == s[|s| - |front|];
    assert r == [] ==> front == [];
    r
  }

  // ---------------------------------------------------------------------------
  // The random draw `Math.floor(Math.random() * n)`
  // ---------------------------------------------------------------------------

  /** The index drawn by `Math.floor(rand * n)` when `Math.random()` returned `rand`. */
  function RandomIndex(rand: real, n: nat): (i: nat)
    requires 0.0 <= rand < 1.0 && n > 0
    ensures i < n
  {
    var x := rand * n as real;
    assert 0.0 <= x < n as real by {
      assert rand * n as real < 1.0 * n as real;
    }
    x.Floor
  }

  /** Every index can come out of the draw: the one Math.random() returns for i / n. */
  lemma RandomIndexReaches(i: nat, n: nat)
    requires i < n
    ensures 0.0 <= i as real / n as real < 1.0
    ensures RandomIndex(i as real / n as real, n) == i
  {
    var rand := i as real / n as real;
    assert rand * n as real == i as real;
    assert rand < 1.0 by {
      assert i as real < n as real;
    }
  }

  // ---------------------------------------------------------------------------
  // Sums over the values of a map (Object.values(...).reduce)
  // ---------------------------------------------------------------------------

  ghost function SumValues<K>(m: map<K, int>): int
  {
    if m == map[] then 0 else
      var k :| k in m;
      m[k] + SumValues(m - {k})
  }

  /** The sum does not depend on which key is taken out first. */
  lemma {:induction false} SumValuesRemove<K>(m: map<K, int>, k: K)
    requires k in m
    ensures SumValues(m) == m[k] + SumValues(m - {k})
    decreases |m|
  {
    var j :| j in m && SumValues(m) == m[j] + SumValues(m - {j});
    if j != k {
      assert |m - {j}| < |m| by { assert m.Keys - {j} < m.Keys; }
      assert |m - {k}| < |m| by { assert m.Keys - {k} < m.Keys; }
      SumValuesRemove(m - {j}, k);
      SumValuesRemove(m - {k}, j);
      assert m - {j} - {k} == m - {k} - {j};
    }
  }

  /** Replacing (or adding) one entry changes the sum by the difference. */
  lemma SumValuesUpdate<K>(m: map<K, int>, k: K, v: int)
    ensures SumValues(m[k := v]) == SumValues(m) - (if k in m then m[k] else 0) + v
  {
    SumValuesRemove(m[k := v], k);
    assert m[k := v] - {k} == m - {k};
    if k in m {
      SumValuesRemove(m, k);
    } else {
      assert m - {k} == m;
    }
  }

  /** A sum of non-negative values is non-negative. */
  lemma {:induction false} SumValuesNonNegative<K>(m: map<K, int>)
    requires forall k :: k in m ==> m[k] >= 0
    ensures SumValues(m) >= 0
    decreases |m|
  {
    if m != map[] {
      var k :| k in m;
      SumValuesRemove(m, k);
      assert |m - {k}| < |m| by { assert m.Keys - {k} < m.Keys; }
      SumValuesNonNegative(m - {k});
    }
  }

  // ---------------------------------------------------------------------------
  // JavaScript's `%`, which truncates toward zero
  // ---------------------------------------------------------------------------

  /** `a % b` as JavaScript computes it for a positive divisor: the sign follows `a`. */
  function JsRem(a: int, b: int): (r: int)
    requires b > 0
    ensures -b < r < b
    ensures a >= 0 ==> r == a % b
  {
    if a >= 0 then a % b else -((-a) % b)
  }
}

/**
 * The parts of Swift's integer semantics that the analysis depends on.
 * Dafny's `int` is unbounded and its `/` is Euclidean. Swift's `Int(x)` on
 * a Double truncates toward zero, and `/` on `Int` truncates toward zero too.
 * Both are written out here.
 */
module SwiftNumerics {

  function Abs(x: int): (r: nat)
    ensures r == x || r == -x
  {
    if x < 0 then -x else x
  }

  function Max(a: int, b: int): (r: int)
    ensures r >= a && r >= b
    ensures r == a || r == b
  {
    if a < b then b else a
  }

  /** Swift's `Int(x)` for a finite Double: drops the fractional part. */
  function Trunc(x: real): (n: int)
    ensures x >= 0.0 ==> n >= 0 && n as real <= x < n as real + 1.0
    ensures x < 0.0 ==> n <= 0 && n as real - 1.0 < x <= n as real
  {
    if x >= 0.0 then x.Floor else -((-x).Floor)
  }

  /** For a non-negative dividend, the truncated quotient q satisfies q*b <= a < q*b + b. */
  lemma QuotBounds(a: int, b: int)
    requires a >= 0 && b > 0
    ensures 0 <= Quot(a, b) && Quot(a, b) * b <= a < Quot(a, b) * b + b
  {
    var q, r := a / b, a % b;
    assert a == q * b + r && 0 <= r < b;
  }

  /** Swift's `a / b` on `Int`: the quotient truncated toward zero. */
  function Quot(a: int, b: int): (q: int)
    requires b != 0
    ensures b > 0 && a >= 0 ==> q == a / b
    ensures b > 0 && a < 0 ==> q == -((-a) / b)
    ensures b > 0 ==> (a >= 0 ==> q >= 0) && (a <= 0 ==> q <= 0)
  {
    if b > 0 then
      if a >= 0 then DivNonNegative(a, b); a / b
      else DivNonNegative(-a, b); -((-a) / b)
    else (if a >= 0 then -(a / -b) else (-a) / (-b))
  }

  lemma DivNonNegative(a: int, b: int)
    requires a >= 0 && b > 0
    ensures a / b >= 0
  {
    var q, r := a / b, a % b;
    assert a == q * b + r && 0 <= r < b;
  }

}

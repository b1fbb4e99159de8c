/** Exact-real stand-ins for the JavaScript number operations the game uses. */
module Numeric {

  /** `Math.pow(r, n)` for a natural exponent `n`. */
  function Pow(r: real, n: nat): real
    decreases n
  {
    if n == 0 then 1.0 else r * Pow(r, n - 1)
  }

  lemma {:induction false} PowAtLeastOne(r: real, n: nat)
    requires r >= 1.0
    ensures Pow(r, n) >= 1.0
  {
    if n > 0 {
      PowAtLeastOne(r, n - 1);
      var p := Pow(r, n - 1);
      assert r * p >= 1.0 * p by { MulMonotone(1.0, r, p); }
    }
  }

  /** A base above one makes every further power strictly larger. */
  lemma {:induction false} PowStrictlyIncreasing(r: real, m: nat, n: nat)
    requires r > 1.0 && m < n
    ensures Pow(r, m) < Pow(r, n)
  {
    var p := Pow(r, n - 1);
    PowAtLeastOne(r, n - 1);
    assert p < r * p by { MulStrict(1.0, r, p); }
    if m < n - 1 {
      PowStrictlyIncreasing(r, m, n - 1);
    }
  }

  lemma {:induction false} PowAdd(r: real, m: nat, n: nat)
    ensures Pow(r, m + n) == Pow(r, m) * Pow(r, n)
    decreases n
  {
    if n > 0 {
      PowAdd(r, m, n - 1);
      assert Pow(r, m + n) == r * Pow(r, m + n - 1);
      assert r * (Pow(r, m) * Pow(r, n - 1)) == Pow(r, m) * (r * Pow(r, n - 1));
    }
  }

  /** `x` whole copies of a positive `b` that fit in `p` number at most `floor(p / b)`. */
  lemma DivFloorBound(x: int, b: real, p: real)
    requires b > 0.0 && x as real * b <= p
    ensures x <= (p / b).Floor
  {
    var q := p / b;
    assert q * b == p;
    if x as real > q {
      MulStrict(q, x as real, b);
    }
  }

  lemma MulPositive(a: real, b: real)
    requires a > 0.0 && b > 0.0
    ensures a * b > 0.0
  {
  }

  lemma MulNonNegative(a: real, b: real)
    requires a >= 0.0 && b >= 0.0
    ensures a * b >= 0.0
  {
  }

  lemma MulMonotone(a: real, b: real, c: real)
    requires a <= b && c >= 0.0
    ensures a * c <= b * c
  {
  }

  lemma MulStrict(a: real, b: real, c: real)
    requires a < b && c > 0.0
    ensures a * c < b * c
  {
  }
}

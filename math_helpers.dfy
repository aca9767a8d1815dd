/** Integer instantiations of the small templates in MathHelpers.hpp. */
module MathHelpers {

  function Min(a: int, b: int): int { if b < a then b else a }

  function Max(a: int, b: int): int { if a < b then b else a }

  function Abs(x: real): real { if x < 0.0 then -x else x }

  function MaxReal(a: real, b: real): real { if a < b then b else a }

  /** ApproximatelyEqual's default tolerance. */
  const Tolerance: real := 0.0001

  /** ApproximatelyEqual at its default tolerance: the difference is within the tolerance scaled by
      the larger magnitude, or by 1 when both magnitudes are below 1. */
  function ApproximatelyEqual(a: real, b: real): (r: bool)
    ensures a == b ==> r
    ensures Abs(a) <= 1.0 && Abs(b) <= 1.0 ==> (r <==> -Tolerance <= a - b <= Tolerance)
    ensures r ==> -Tolerance * (1.0 + Abs(a) + Abs(b)) <= a - b <= Tolerance * (1.0 + Abs(a) + Abs(b))
  {
    Abs(a - b) <= Tolerance * MaxReal(1.0, MaxReal(Abs(a), Abs(b)))
  }

  /** The test does not depend on the order of its arguments. */
  lemma ApproximatelyEqualSymmetric(a: real, b: real)
    ensures ApproximatelyEqual(a, b) <==> ApproximatelyEqual(b, a)
  {
    assert Abs(a - b) == Abs(b - a);
    assert MaxReal(Abs(a), Abs(b)) == MaxReal(Abs(b), Abs(a));
  }

  /** Nor is it transitive: two steps within the tolerance can add up to one beyond it. */
  lemma ApproximatelyEqualNotTransitive()
    ensures ApproximatelyEqual(0.0, 0.00008) && ApproximatelyEqual(0.00008, 0.00016)
    ensures !ApproximatelyEqual(0.0, 0.00016)
  {
  }

  /** `v0 + t * (v1 - v0)` with an integral interpolant. */
  function Lerp(v0: int, v1: int, t: int): (r: int)
    ensures t == 0 ==> r == v0
    ensures t == 1 ==> r == v1
    ensures v0 == v1 ==> r == v0
  {
    v0 + t * (v1 - v0)
  }

  /** One more step of the interpolant moves the result by exactly `v1 - v0`. */
  lemma LerpStep(v0: int, v1: int, t: int)
    ensures Lerp(v0, v1, t + 1) - Lerp(v0, v1, t) == v1 - v0
  {
    calc {
      Lerp(v0, v1, t + 1) - Lerp(v0, v1, t);
      (t + 1) * (v1 - v0) - t * (v1 - v0);
      { assert (t + 1) * (v1 - v0) == t * (v1 - v0) + (v1 - v0); }
      v1 - v0;
    }
  }

  /** `(0 < val) - (val < 0)`: the sign of `val` as -1, 0 or 1. */
  function Sign(val: int): (r: int)
    ensures r == 1 <==> val > 0
    ensures r == -1 <==> val < 0
    ensures r == 0 <==> val == 0
    ensures r * val >= 0 && (r * val == val || r * val == -val)
  {
    (if 0 < val then 1 else 0) - (if val < 0 then 1 else 0)
  }

  /** `std::max(std::min(v, hi), lo)`. */
  function Clamp(v: int, lo: int, hi: int): (r: int)
    ensures lo <= hi ==> lo <= r <= hi
    ensures lo <= v <= hi ==> r == v
    ensures v < lo ==> r == lo
    ensures lo <= hi < v ==> r == hi
    ensures hi < lo ==> r == lo
  {
    Max(Min(v, hi), lo)
  }

  /** Step from `current` towards `target` by at most `delta`, never past it. */
  function MoveTowards(current: int, target: int, delta: int): (r: int)
    ensures current == target ==> r == target
    ensures delta >= 0 && current <= target ==> current <= r <= target
    ensures delta >= 0 && target <= current ==> target <= r <= current
    ensures delta >= 0 ==> -delta <= r - current <= delta
    ensures delta >= 0 && -delta <= target - current <= delta ==> r == target
    ensures delta >= 0 && target - current > delta ==> r == current + delta
    ensures delta >= 0 && current - target > delta ==> r == current - delta
  {
    if target > current then Min(current + delta, target)
    else if target < current then Max(current - delta, target)
    else target
  }

  /** With a non-negative step, repeating MoveTowards `n` times from `current` reaches `target`
      once `n * delta` covers the distance. */
  function MoveTowardsRepeated(current: int, target: int, delta: int, n: nat): int
    decreases n
  {
    if n == 0 then current else MoveTowardsRepeated(MoveTowards(current, target, delta), target, delta, n - 1)
  }

  lemma {:induction false} MoveTowardsConverges(current: int, target: int, delta: int, n: nat)
    requires delta >= 0
    requires n * delta >= target - current >= -(n * delta)
    ensures MoveTowardsRepeated(current, target, delta, n) == target
    decreases n
  {
    if n == 0 {
    } else {
      var next := MoveTowards(current, target, delta);
      assert (n - 1) * delta == n * delta - delta;
      MoveTowardsConverges(next, target, delta, n - 1);
    }
  }
}

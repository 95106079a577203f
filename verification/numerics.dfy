/**
 * Real-number primitives used by the capacity formulas: the constant pi, the
 * square root and the power 0.658^x, Python's `abs` and `min`, the guarded
 * demand/capacity ratio and the straight-line interpolation shared by the
 * lateral-torsional and local buckling curves.
 *
 * The square root and 0.658^x are transcendental, so they are not computed:
 * each is an arbitrary function constrained by laws that the true function
 * satisfies. Every property proved from these laws therefore holds of the
 * true functions.
 */
module Numerics {

  /** Python's `math.pi`, written as the decimal it prints. */
  const Pi: real := 3.141592653589793

  /**
   * `x < y` and `0 <= x`, as named predicates. The laws below are stated only
   * for arguments a proof names through them, so that they do not apply to
   * every application of the function in sight.
   */
  ghost predicate Ordered(x: real, y: real) {
    x < y
  }

  ghost predicate NonNegative(x: real) {
    0.0 <= x
  }

  /**
   * Laws of the square root on non-negative arguments: it is 0 at 0, positive
   * on positive arguments, monotone, and never smaller than the true root
   * (its square is at least its argument).
   */
  ghost predicate SqrtLaws(f: real -> real) {
    && f(0.0) == 0.0
    && (forall x {:trigger NonNegative(x)} :: NonNegative(x) ==> 0.0 <= f(x) && x <= f(x) * f(x))
    && (forall x {:trigger NonNegative(x)} :: NonNegative(x) && x != 0.0 ==> 0.0 < f(x))
    && (forall x, y {:trigger Ordered(x, y)} :: 0.0 <= x && Ordered(x, y) ==> f(x) <= f(y))
  }

  type SqrtFunction = f: real -> real | SqrtLaws(f)
    witness SqrtWitness

  /** A function obeying the square-root laws, showing that they are consistent. */
  function SqrtWitness(x: real): real {
    if 0.0 < x then x + 1.0 else 0.0
  }

  /** An unspecified function obeying the square-root laws. */
  const SquareRoot: SqrtFunction

  /** Python's `x ** 0.5` on a non-negative float. */
  function Sqrt(x: real): (r: real)
    ensures x == 0.0 ==> r == 0.0
    ensures 0.0 <= x ==> 0.0 <= r
    ensures 0.0 < x ==> 0.0 < r
    ensures 0.0 <= x ==> x <= r * r
  {
    assert SqrtLaws(SquareRoot);
    assert 0.0 <= x ==> NonNegative(x);
    SquareRoot(x)
  }

  /** The square root is monotone on non-negative arguments. */
  lemma SqrtMonotone(x: real, y: real)
    requires 0.0 <= x <= y
    ensures Sqrt(x) <= Sqrt(y)
  {
    assert SqrtLaws(SquareRoot);
    if x < y {
      assert Ordered(x, y);
    }
  }

  /** Laws of x |-> 0.658^x: equal to 1 at 0, positive, strictly decreasing. */
  ghost predicate Pow658Laws(f: real -> real) {
    && f(0.0) == 1.0
    && (forall x :: 0.0 < f(x))
    && (forall x, y {:trigger Ordered(x, y)} :: Ordered(x, y) ==> f(y) < f(x))
  }

  /** A function obeying the laws of 0.658^x, showing that they are consistent. */
  function DecayingWitness(x: real): real {
    if 0.0 <= x then 1.0 / (1.0 + x) else 1.0 - x
  }

  lemma DecayingWitnessObeysLaws()
    ensures Pow658Laws(DecayingWitness)
  {
    forall x, y | Ordered(x, y)
      ensures DecayingWitness(y) < DecayingWitness(x)
    {
      if 0.0 <= x {
        assert 1.0 + x < 1.0 + y;
        assert 1.0 / (1.0 + y) < 1.0 / (1.0 + x);
      }
    }
  }

  type Pow658Function = f: real -> real | Pow658Laws(f)
    witness (DecayingWitnessObeysLaws(); DecayingWitness)

  /** An unspecified function obeying the laws of 0.658^x. */
  const Power658: Pow658Function

  /** Python's `0.658 ** x`. */
  function Pow658(x: real): (r: real)
    ensures 0.0 < r
    ensures x == 0.0 ==> r == 1.0
  {
    assert Pow658Laws(Power658);
    Power658(x)
  }

  /** 0.658^x strictly decreases as the exponent grows. */
  lemma Pow658Decreasing(x: real, y: real)
    requires x < y
    ensures Pow658(y) < Pow658(x)
  {
    assert Pow658Laws(Power658);
    assert Ordered(x, y);
  }

  /** Python's `abs` on a float. */
  function Abs(x: real): (r: real)
    ensures 0.0 <= r
    ensures r == x || r == -x
  {
    if x < 0.0 then -x else x
  }

  /** Python's `min` of two floats. */
  function Min(a: real, b: real): (r: real)
    ensures r <= a && r <= b
    ensures r == a || r == b
  {
    if b < a then b else a
  }

  /** Python's `min` of three floats. */
  function Min3(a: real, b: real, c: real): (r: real)
    ensures r <= a && r <= b && r <= c
    ensures r == a || r == b || r == c
  {
    Min(Min(a, b), c)
  }

  /** 0.658^x never exceeds 1 for a non-negative exponent. */
  lemma Pow658AtMostOne(x: real)
    requires 0.0 <= x
    ensures 0.0 < Pow658(x) <= 1.0
  {
    if 0.0 < x {
      Pow658Decreasing(0.0, x);
    }
  }

  /** The square root of a number at least 1 is at least 1. */
  lemma SqrtAtLeastOne(x: real)
    requires 1.0 <= x
    ensures 1.0 <= Sqrt(x)
  {
    UnitBelowSquare(Sqrt(1.0));
    SqrtMonotone(1.0, x);
  }

  /**
   * The demand/capacity ratio of a limit-state check, `demand / capacity if
   * capacity else 0`: the ratio times the capacity gives back the demand, and
   * for a positive capacity the ratio is at most 1 exactly when the demand is
   * within the capacity.
   */
  function Ratio(demand: real, capacity: real): (r: real)
    ensures capacity != 0.0 ==> r * capacity == demand
    ensures capacity == 0.0 ==> r == 0.0
    ensures 0.0 <= demand && 0.0 < capacity ==> 0.0 <= r
    ensures 0.0 < capacity ==> (r <= 1.0 <==> demand <= capacity)
  {
    if capacity != 0.0 then demand / capacity else 0.0
  }

  /**
   * The straight line from `hi` at `x0` to `lo` at `x1`, evaluated at `x`:
   * `hi - (hi - lo) * (x - x0) / (x1 - x0)`.
   */
  function Interpolate(hi: real, lo: real, x: real, x0: real, x1: real): (r: real)
    requires x0 < x1
    ensures x == x0 ==> r == hi
    ensures x == x1 ==> r == lo
    ensures lo <= hi && x0 <= x <= x1 ==> lo <= r <= hi
    ensures hi <= lo && x0 <= x <= x1 ==> hi <= r <= lo
    ensures lo <= hi && x <= x0 ==> hi <= r
    ensures lo <= hi && x1 <= x ==> r <= lo
    ensures hi <= lo && x <= x0 ==> r <= hi
    ensures hi <= lo && x1 <= x ==> lo <= r
  {
    InterpolateWithin(hi, lo, x, x0, x1);
    InterpolateBeyond(hi, lo, x, x0, x1);
    hi - (hi - lo) * (x - x0) / (x1 - x0)
  }

  lemma InterpolateWithin(hi: real, lo: real, x: real, x0: real, x1: real)
    requires x0 < x1
    ensures x == x0 ==> hi - (hi - lo) * (x - x0) / (x1 - x0) == hi
    ensures x == x1 ==> hi - (hi - lo) * (x - x0) / (x1 - x0) == lo
    ensures lo <= hi && x0 <= x <= x1 ==> lo <= hi - (hi - lo) * (x - x0) / (x1 - x0) <= hi
    ensures hi <= lo && x0 <= x <= x1 ==> hi <= hi - (hi - lo) * (x - x0) / (x1 - x0) <= lo
  {
    ProductOverQuotient(hi - lo, x - x0, x1 - x0);
    LineFraction(x, x0, x1);
    LineAt(hi, lo, (x - x0) / (x1 - x0));
  }

  lemma InterpolateBeyond(hi: real, lo: real, x: real, x0: real, x1: real)
    requires x0 < x1
    ensures lo <= hi && x <= x0 ==> hi <= hi - (hi - lo) * (x - x0) / (x1 - x0)
    ensures lo <= hi && x1 <= x ==> hi - (hi - lo) * (x - x0) / (x1 - x0) <= lo
    ensures hi <= lo && x <= x0 ==> hi - (hi - lo) * (x - x0) / (x1 - x0) <= hi
    ensures hi <= lo && x1 <= x ==> lo <= hi - (hi - lo) * (x - x0) / (x1 - x0)
  {
    ProductOverQuotient(hi - lo, x - x0, x1 - x0);
    LineFraction(x, x0, x1);
    LineAt(hi, lo, (x - x0) / (x1 - x0));
  }

  lemma ProductOverQuotient(a: real, b: real, c: real)
    requires c != 0.0
    ensures a * b / c == a * (b / c)
  {
  }

  lemma LineFraction(x: real, x0: real, x1: real)
    requires x0 < x1
    ensures x == x0 ==> (x - x0) / (x1 - x0) == 0.0
    ensures x == x1 ==> (x - x0) / (x1 - x0) == 1.0
    ensures x0 <= x <= x1 ==> 0.0 <= (x - x0) / (x1 - x0) <= 1.0
    ensures x <= x0 ==> (x - x0) / (x1 - x0) <= 0.0
    ensures x1 <= x ==> 1.0 <= (x - x0) / (x1 - x0)
  {
    var d := x1 - x0;
    if x == x0 {
      assert x - x0 == 0.0;
    }
    if x <= x0 {
      QuotientNonPositive(x - x0, d);
    }
    if x0 <= x <= x1 {
      QuotientNonNegative(x - x0, d);
      QuotientBound(x - x0, d, 1.0);
    }
    if x1 <= x {
      QuotientAtLeast(x - x0, d, 1.0);
    }
  }

  lemma QuotientNonPositive(a: real, c: real)
    requires a <= 0.0 && 0.0 < c
    ensures a / c <= 0.0
  {
  }

  lemma QuotientAtLeast(a: real, c: real, q: real)
    requires 0.0 < c && q * c <= a
    ensures q <= a / c
  {
  }

  /** The line from `hi` to `lo` at the fraction `t` of the way along. */
  lemma LineAt(hi: real, lo: real, t: real)
    ensures t == 0.0 ==> hi - (hi - lo) * t == hi
    ensures t == 1.0 ==> hi - (hi - lo) * t == lo
    ensures lo <= hi && 0.0 <= t <= 1.0 ==> lo <= hi - (hi - lo) * t <= hi
    ensures hi <= lo && 0.0 <= t <= 1.0 ==> hi <= hi - (hi - lo) * t <= lo
    ensures lo <= hi && t <= 0.0 ==> hi <= hi - (hi - lo) * t
    ensures lo <= hi && 1.0 <= t ==> hi - (hi - lo) * t <= lo
    ensures hi <= lo && t <= 0.0 ==> hi - (hi - lo) * t <= hi
    ensures hi <= lo && 1.0 <= t ==> lo <= hi - (hi - lo) * t
  {
    InterpolateStep(hi - lo, t);
  }

  lemma InterpolateStep(d: real, t: real)
    ensures t == 0.0 ==> d * t == 0.0
    ensures t == 1.0 ==> d * t == d
    ensures 0.0 <= d && 0.0 <= t <= 1.0 ==> 0.0 <= d * t <= d
    ensures d <= 0.0 && 0.0 <= t <= 1.0 ==> d <= d * t <= 0.0
    ensures 0.0 <= d && t <= 0.0 ==> d * t <= 0.0
    ensures 0.0 <= d && 1.0 <= t ==> d <= d * t
    ensures d <= 0.0 && t <= 0.0 ==> 0.0 <= d * t
    ensures d <= 0.0 && 1.0 <= t ==> d * t <= d
  {
  }

  /** Moving `x` further along the line never moves the value back up when `lo <= hi`. */
  lemma {:induction false} InterpolateMonotone(hi: real, lo: real, x: real, y: real, x0: real, x1: real)
    requires x0 < x1
    requires lo <= hi
    requires x <= y
    ensures Interpolate(hi, lo, y, x0, x1) <= Interpolate(hi, lo, x, x0, x1)
  {
    ScaleMonotone(hi - lo, x - x0, y - x0);
    QuotientOrder((hi - lo) * (x - x0), (hi - lo) * (y - x0), x1 - x0);
    assert (hi - lo) * (x - x0) / (x1 - x0) <= (hi - lo) * (y - x0) / (x1 - x0);
  }

  lemma ScaleMonotone(k: real, s: real, t: real)
    ensures 0.0 <= k && s <= t ==> k * s <= k * t
  {
  }

  lemma ScaleMonotoneRight(k: real, s: real, t: real)
    ensures 0.0 <= k && s <= t ==> s * k <= t * k
  {
    ScaleMonotone(k, s, t);
  }

  lemma UnitBelowSquare(s: real)
    requires 0.0 <= s && 1.0 <= s * s
    ensures 1.0 <= s
  {
    if s <= 1.0 {
      ScaleMonotone(s, s, 1.0);
      assert s * s <= s * 1.0;
    }
  }

  // Small facts of real arithmetic that the solver proves on their own but
  // not inside larger contexts.

  lemma QuotientTimes(a: real, b: real)
    requires b != 0.0
    ensures a / b * b == a
  {
  }

  lemma QuotientBound(a: real, c: real, q: real)
    requires 0.0 < c && a <= q * c
    ensures a / c <= q
  {
  }

  lemma QuotientPositive(a: real, c: real)
    ensures 0.0 < a && 0.0 < c ==> 0.0 < a / c
  {
  }

  lemma QuotientNonNegative(a: real, c: real)
    ensures 0.0 <= a && 0.0 < c ==> 0.0 <= a / c
  {
  }

  lemma DivideByLarger(a: real, b: real, c: real)
    requires 0.0 <= a && 0.0 < b <= c
    ensures a / c <= a / b
  {
    var q := a / b;
    QuotientTimes(a, b);
    ScaleMonotone(q, b, c);
    QuotientBound(a, c, q);
  }

  lemma QuotientOrder(a: real, b: real, c: real)
    requires a <= b && 0.0 < c
    ensures a / c <= b / c
  {
  }

  lemma StrictScale(k: real, s: real, t: real)
    requires 0.0 < k && s < t
    ensures k * s < k * t && s * k < t * k
  {
  }

  lemma PositiveProduct(a: real, b: real)
    requires 0.0 < a && 0.0 < b
    ensures 0.0 < a * b
  {
  }

  lemma NonNegativeProduct(a: real, b: real)
    ensures 0.0 <= a && 0.0 <= b ==> 0.0 <= a * b
  {
  }

  lemma QuotientNegative(a: real, c: real)
    requires a < 0.0 && 0.0 < c
    ensures a / c < 0.0
  {
  }

  lemma SquareGrows(a: real, b: real)
    requires 0.0 <= a < b
    ensures a * a < b * b
  {
    calc {
      a * a;
    <= { ScaleMonotone(a, a, b); }
      a * b;
    == b * a;
    < { StrictScale(b, a, b); }
      b * b;
    }
  }

  lemma CancelEqual(a: real, b: real, k: real)
    requires k != 0.0 && a * k == b * k
    ensures a == b
  {
    assert (a - b) * k == 0.0;
  }

  lemma CancelPositive(a: real, b: real, k: real)
    requires 0.0 < k && a * k < b * k
    ensures a < b
  {
  }

  lemma ReciprocalTimes(a: real, b: real)
    requires b != 0.0
    ensures a * (1.0 / b) * b == a
  {
  }

  lemma RatioAtMostOne(demand: real, capacity: real)
    requires 0.0 < capacity
    ensures demand / capacity <= 1.0 <==> demand <= capacity
  {
    QuotientTimes(demand, capacity);
    if demand / capacity <= 1.0 {
      ScaleMonotone(capacity, demand / capacity, 1.0);
    }
    if demand <= capacity {
      QuotientBound(demand, capacity, 1.0);
    }
  }
}

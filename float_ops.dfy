/**
 * The floating-point operations the formulas call and that this model does not define.
 *
 * `f32` values are modelled as `real`. Addition, subtraction and multiplication are
 * Dafny's exact real operations (rounding is not modelled). Square root, division and
 * the six trigonometric functions are supplied by the caller as an `F32Ops` record:
 * they are total, as their `f32` counterparts are (a negative square root or a zero
 * divisor gives NaN or an infinity there, an unspecified real here). What a proof
 * may assume about them is stated separately, by the predicates below, each of which
 * is an identity that the real-number functions satisfy.
 */
module FloatOps {

  datatype F32Ops = F32Ops(
    sqrt: real -> real,
    div: (real, real) -> real,
    sin: real -> real,
    cos: real -> real,
    tan: real -> real,
    asin: real -> real,
    acos: real -> real,
    atan: real -> real)

  /** `sqrt` is the non-negative square root on the non-negative reals, positive on the positive ones. */
  ghost predicate SqrtSound(ops: F32Ops) {
    forall x: real :: 0.0 <= x ==>
      && 0.0 <= ops.sqrt(x) && ops.sqrt(x) * ops.sqrt(x) == x
      && (0.0 < x ==> 0.0 < ops.sqrt(x))
  }

  /** `div` is real division wherever the divisor is not zero. */
  ghost predicate DivSound(ops: F32Ops) {
    forall x: real, y: real :: y != 0.0 ==> ops.div(x, y) == x / y
  }

  /**
   * The identities of the real trigonometric functions that the proofs use:
   * sin^2 + cos^2 = 1, tan = sin / cos, and the inverse functions invert on their
   * domains with their principal ranges (asin into [-pi/2, pi/2], acos into [0, pi],
   * atan into (-pi/2, pi/2)), which fix the sign of the cosine or sine there.
   */
  ghost predicate TrigSound(ops: F32Ops) {
    && (forall t: real :: ops.sin(t) * ops.sin(t) + ops.cos(t) * ops.cos(t) == 1.0)
    && (forall t: real :: ops.cos(t) != 0.0 ==> ops.tan(t) * ops.cos(t) == ops.sin(t))
    && (forall x: real :: -1.0 <= x <= 1.0 ==> ops.sin(ops.asin(x)) == x && 0.0 <= ops.cos(ops.asin(x)))
    && (forall x: real :: -1.0 <= x <= 1.0 ==> ops.cos(ops.acos(x)) == x && 0.0 <= ops.sin(ops.acos(x)))
    && (forall x: real :: ops.tan(ops.atan(x)) == x && 0.0 < ops.cos(ops.atan(x)))
  }

  ghost predicate Sound(ops: F32Ops) {
    SqrtSound(ops) && DivSound(ops) && TrigSound(ops)
  }

  /** A product that is non-negative with a positive factor has a non-negative other factor. */
  lemma NonNegativeFactor(p: real, k: real)
    requires 0.0 < k && 0.0 <= p * k
    ensures 0.0 <= p
  {
  }

  lemma ZeroFactor(p: real, k: real)
    requires 0.0 < k && p * k == 0.0
    ensures p == 0.0
  {
    NonNegativeFactor(p, k);
    assert (-p) * k == 0.0;
    NonNegativeFactor(-p, k);
  }

  /** A non-negative number is determined by its square among the non-negative numbers. */
  lemma NonNegativeRootUnique(y: real, x: real)
    requires 0.0 <= y && 0.0 <= x && y * y == x * x
    ensures y == x
  {
    assert (y - x) * (y + x) == 0.0;
    if 0.0 < y + x {
      ZeroFactor(y - x, y + x);
    }
  }

  /** The square root of the square of a non-negative number is that number. */
  lemma SqrtOfSquare(ops: F32Ops, x: real)
    requires SqrtSound(ops) && 0.0 <= x
    ensures ops.sqrt(x * x) == x
  {
    var y := ops.sqrt(x * x);
    assert 0.0 <= y && y * y == x * x;
    NonNegativeRootUnique(y, x);
  }

  lemma AbsAtMost(a: real, c: real)
    requires 0.0 < c && a * a <= c * c
    ensures -c <= a <= c
  {
    assert 0.0 <= (c - a) * (c + a);
    if 0.0 < c + a {
      NonNegativeFactor(c - a, c + a);
    }
    assert 0.0 <= (c + a) * (c - a);
    if 0.0 < c - a {
      NonNegativeFactor(c + a, c - a);
    }
  }

  lemma RatioAtMostOne(q: real, a: real, c: real)
    requires 0.0 < c && q * c == a && -c <= a <= c
    ensures -1.0 <= q <= 1.0
  {
    assert 0.0 <= (1.0 - q) * c;
    NonNegativeFactor(1.0 - q, c);
    assert 0.0 <= (1.0 + q) * c;
    NonNegativeFactor(1.0 + q, c);
  }

  /** From a^2 <= c^2 and c /= 0, the ratio a / c lies in [-1, 1], the domain of asin and acos. */
  lemma RatioInUnitRange(a: real, c: real)
    ensures c != 0.0 && a * a <= c * c ==> -1.0 <= a / c <= 1.0
  {
    if 0.0 < c && a * a <= c * c {
      AbsAtMost(a, c);
      RatioAtMostOne(a / c, a, c);
    } else if c < 0.0 && a * a <= c * c {
      assert (-a) * (-a) <= (-c) * (-c);
      AbsAtMost(-a, -c);
      RatioAtMostOne(a / c, -a, -c);
    }
  }

  /** If q * p == x with x /= 0, then p /= 0 and dividing x by p gives q back. */
  lemma Quotient(q: real, p: real, x: real)
    requires q * p == x && x != 0.0
    ensures p != 0.0 && x / p == q
  {
  }
}

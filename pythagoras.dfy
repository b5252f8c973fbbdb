/**
 * The right-triangle formulas of src/lib.rs (repeated verbatim in src/utils.rs).
 *
 * Names follow the source's scheme: the letters before the underscore are the
 * quantities given, the letter after it the quantity returned, with
 *   a = rise (the side opposite the angle), b = run (the adjacent side),
 *   c = diagonal (the hypotenuse), r = the angle in radians.
 * Every formula is a single expression over the operations in `ops`; `x.powi(2)` is `x * x`.
 * Each contract states the relation the returned quantity satisfies, under the
 * identities of `FloatOps` that the relation needs.
 */
module Pythagoras {
  import opened FloatOps

  /** ab_c: the hypotenuse from the rise and the run. */
  function AbC(ops: F32Ops, rise: real, run: real): (c: real)
    ensures SqrtSound(ops) ==> 0.0 <= c && c * c == rise * rise + run * run
  {
    ops.sqrt(rise * rise + run * run)
  }

  /** bc_a: the rise from the run and the hypotenuse. */
  function BcA(ops: F32Ops, b: real, c: real): (a: real)
    ensures SqrtSound(ops) && b * b <= c * c ==> 0.0 <= a && a * a + b * b == c * c
  {
    ops.sqrt(c * c - b * b)
  }

  /** ac_b: the run from the rise and the hypotenuse. */
  function AcB(ops: F32Ops, a: real, c: real): (b: real)
    ensures SqrtSound(ops) && a * a <= c * c ==> 0.0 <= b && a * a + b * b == c * c
  {
    ops.sqrt(c * c - a * a)
  }

  /** ac_r: the angle from the rise and the hypotenuse, asin(a / c). */
  function AcR(ops: F32Ops, a: real, c: real): (r: real)
    ensures DivSound(ops) && TrigSound(ops) && c != 0.0 && a * a <= c * c ==>
              c * ops.sin(r) == a && 0.0 <= ops.cos(r)
  {
    RatioInUnitRange(a, c);
    ops.asin(ops.div(a, c))
  }

  /** ab_r: the angle from the rise and the run, atan(a / b). */
  function AbR(ops: F32Ops, a: real, b: real): (r: real)
    ensures DivSound(ops) && TrigSound(ops) && b != 0.0 ==>
              b * ops.tan(r) == a && 0.0 < ops.cos(r)
  {
    ops.atan(ops.div(a, b))
  }

  /** bc_r: the angle from the run and the hypotenuse, acos(b / c). */
  function BcR(ops: F32Ops, b: real, c: real): (r: real)
    ensures DivSound(ops) && TrigSound(ops) && c != 0.0 && b * b <= c * c ==>
              c * ops.cos(r) == b && 0.0 <= ops.sin(r)
  {
    RatioInUnitRange(b, c);
    ops.acos(ops.div(b, c))
  }

  /** ra_b: the run from the angle and the rise, a / tan(r). */
  function RaB(ops: F32Ops, r: real, a: real): (b: real)
    ensures DivSound(ops) && ops.tan(r) != 0.0 ==> b * ops.tan(r) == a
  {
    ops.div(a, ops.tan(r))
  }

  /** ra_c: the hypotenuse from the angle and the rise, a / sin(r). */
  function RaC(ops: F32Ops, r: real, a: real): (c: real)
    ensures DivSound(ops) && ops.sin(r) != 0.0 ==> c * ops.sin(r) == a
  {
    ops.div(a, ops.sin(r))
  }

  /** rb_a: the rise from the angle and the run, tan(r) * b. */
  function RbA(ops: F32Ops, r: real, b: real): (a: real)
    ensures TrigSound(ops) && ops.cos(r) != 0.0 ==> a * ops.cos(r) == b * ops.sin(r)
  {
    ops.tan(r) * b
  }

  /** rb_c: the hypotenuse from the angle and the run, b / cos(r). */
  function RbC(ops: F32Ops, r: real, b: real): (c: real)
    ensures DivSound(ops) && ops.cos(r) != 0.0 ==> c * ops.cos(r) == b
  {
    ops.div(b, ops.cos(r))
  }

  /** rc_a: the rise from the angle and the hypotenuse, c * sin(r); never longer than c. */
  function RcA(ops: F32Ops, r: real, c: real): (a: real)
    ensures TrigSound(ops) ==> a * a <= c * c
  {
    UnitBound(c, ops.sin(r), ops.cos(r));
    c * ops.sin(r)
  }

  /** rc_b: the run from the angle and the hypotenuse, c * cos(r); never longer than c. */
  function RcB(ops: F32Ops, r: real, c: real): (b: real)
    ensures TrigSound(ops) ==> b * b <= c * c
  {
    UnitBound(c, ops.cos(r), ops.sin(r));
    c * ops.cos(r)
  }

  /** Scaling one component of a unit pair (s, k) by c gives a square no larger than c^2. */
  lemma UnitBound(c: real, s: real, k: real)
    ensures s * s + k * k == 1.0 ==> (c * s) * (c * s) <= c * c
  {
    if s * s + k * k == 1.0 {
      assert 0.0 <= (c * c) * (k * k);
      calc {
        (c * s) * (c * s);
        (c * c) * (s * s);
        (c * c) * (1.0 - k * k);
        c * c - (c * c) * (k * k);
      }
    }
  }

  /** rb_ac: the rise and the hypotenuse from the angle and the run. */
  function RbAc(ops: F32Ops, r: real, b: real): (ac: (real, real))
    ensures ac.0 == RbA(ops, r, b)
    ensures SqrtSound(ops) ==> 0.0 <= ac.1 && ac.1 * ac.1 == ac.0 * ac.0 + b * b
  {
    var a := RbA(ops, r, b);
    var c := AbC(ops, a, b);
    (a, c)
  }

  /** ra_bc: the run and the hypotenuse from the angle and the rise. */
  function RaBc(ops: F32Ops, r: real, a: real): (bc: (real, real))
    ensures bc.0 == RaB(ops, r, a)
    ensures SqrtSound(ops) ==> 0.0 <= bc.1 && bc.1 * bc.1 == a * a + bc.0 * bc.0
  {
    var b := RaB(ops, r, a);
    var c := AbC(ops, a, b);
    (b, c)
  }

  /** rc_ab: the rise and the run from the angle and the hypotenuse, each computed on its own. */
  function RcAb(ops: F32Ops, r: real, c: real): (ab: (real, real))
    ensures ab == (RcA(ops, r, c), RcB(ops, r, c))
    ensures TrigSound(ops) ==> ab.0 * ab.0 + ab.1 * ab.1 == c * c
  {
    var a := RcA(ops, r, c);
    var b := RcB(ops, r, c);
    (a, b)
  }

  // Properties relating the formulas to one another.

  /** ab_c does not depend on the order of the two legs. */
  lemma AbCSymmetric(ops: F32Ops, a: real, b: real)
    ensures AbC(ops, a, b) == AbC(ops, b, a)
  {
  }

  /** bc_a and ac_b are the same formula: the other leg from one leg and the hypotenuse. */
  lemma BcAIsAcB(ops: F32Ops, x: real, c: real)
    ensures BcA(ops, x, c) == AcB(ops, x, c)
  {
  }

  /** The 3-4-5 triangle: ab_c(3, 4) == 5, bc_a(4, 5) == 3 and ac_b(3, 5) == 4, exactly. */
  lemma ThreeFourFive(ops: F32Ops)
    requires SqrtSound(ops)
    ensures AbC(ops, 3.0, 4.0) == 5.0 && BcA(ops, 4.0, 5.0) == 3.0 && AcB(ops, 3.0, 5.0) == 4.0
  {
    SqrtOfSquare(ops, 5.0);
    SqrtOfSquare(ops, 3.0);
    SqrtOfSquare(ops, 4.0);
  }

  /** Taking a leg away from the hypotenuse that ab_c built gives the leg back. */
  lemma LegRoundTrip(ops: F32Ops, a: real, b: real)
    requires SqrtSound(ops)
    ensures 0.0 <= a ==> BcA(ops, b, AbC(ops, a, b)) == a
    ensures 0.0 <= b ==> AcB(ops, a, AbC(ops, a, b)) == b
  {
    var c := AbC(ops, a, b);
    if 0.0 <= a {
      OtherLeg(ops, b, c, a);
    }
    if 0.0 <= b {
      OtherLeg(ops, a, c, b);
    }
  }

  /** When c^2 == x^2 + y^2 and y >= 0, both bc_a and ac_b find y from x and c. */
  lemma OtherLeg(ops: F32Ops, x: real, c: real, y: real)
    requires SqrtSound(ops) && 0.0 <= y && c * c == x * x + y * y
    ensures BcA(ops, x, c) == y && AcB(ops, x, c) == y
  {
    assert c * c - x * x == y * y;
    SqrtOfSquare(ops, y);
  }

  /** The angle ab_r finds from two legs gives them back through rb_a and ra_b. */
  lemma TanRoundTrip(ops: F32Ops, a: real, b: real)
    requires DivSound(ops) && TrigSound(ops) && b != 0.0
    ensures RbA(ops, AbR(ops, a, b), b) == a
    ensures a != 0.0 ==> RaB(ops, AbR(ops, a, b), a) == b
  {
    if a != 0.0 {
      Quotient(b, ops.tan(AbR(ops, a, b)), a);
    }
  }

  /** The angle ac_r finds from the rise and the hypotenuse gives them back through rc_a and ra_c. */
  lemma SinRoundTrip(ops: F32Ops, a: real, c: real)
    requires DivSound(ops) && TrigSound(ops) && c != 0.0 && a * a <= c * c
    ensures RcA(ops, AcR(ops, a, c), c) == a
    ensures a != 0.0 ==> RaC(ops, AcR(ops, a, c), a) == c
  {
    if a != 0.0 {
      Quotient(c, ops.sin(AcR(ops, a, c)), a);
    }
  }

  /** The angle bc_r finds from the run and the hypotenuse gives them back through rc_b and rb_c. */
  lemma CosRoundTrip(ops: F32Ops, b: real, c: real)
    requires DivSound(ops) && TrigSound(ops) && c != 0.0 && b * b <= c * c
    ensures RcB(ops, BcR(ops, b, c), c) == b
    ensures b != 0.0 ==> RbC(ops, BcR(ops, b, c), b) == c
  {
    if b != 0.0 {
      Quotient(c, ops.cos(BcR(ops, b, c)), b);
    }
  }

  /** The angle r agrees with the triangle of legs a, b and hypotenuse c: c * sin(r) == a and c * cos(r) == b. */
  ghost predicate Fits(ops: F32Ops, r: real, a: real, b: real, c: real) {
    c * ops.sin(r) == a && c * ops.cos(r) == b
  }

  /**
   * For legs a and b > 0, the angle atan(a / b) and the hypotenuse ab_c(a, b) satisfy
   * c * sin(r) == a and c * cos(r) == b: they describe the same triangle.
   */
  lemma AngleOfLegs(ops: F32Ops, a: real, b: real)
    requires Sound(ops) && 0.0 < b
    ensures Fits(ops, AbR(ops, a, b), a, b, AbC(ops, a, b))
  {
    var r, c := AbR(ops, a, b), AbC(ops, a, b);
    var t, k, s := ops.tan(r), ops.cos(r), ops.sin(r);
    assert b * t == a && 0.0 < k;
    assert s == t * k;
    assert s * s + k * k == 1.0;
    assert 0.0 <= c && c * c == a * a + b * b;
    ScaledHypotenuse(t, k, s, a, b, c);
    assert 0.0 <= k * c;
    NonNegativeRootUnique(k * c, b);
    assert c * s == t * (k * c);
  }

  lemma ScaledHypotenuse(t: real, k: real, s: real, a: real, b: real, c: real)
    requires s == t * k && s * s + k * k == 1.0 && b * t == a && c * c == a * a + b * b
    ensures (k * c) * (k * c) == b * b
  {
    calc {
      (k * c) * (k * c);
      (k * k) * (c * c);
      (k * k) * (a * a) + (k * k) * (b * b);
      (k * k) * ((b * t) * (b * t)) + (k * k) * (b * b);
      (b * b) * ((t * k) * (t * k)) + (b * b) * (k * k);
      (b * b) * (s * s + k * k);
      b * b;
    }
  }

  /** For legs a and b > 0 and r = ab_r(a, b), rb_ac(r, b) returns the rise a and the hypotenuse ab_c(a, b). */
  lemma RbAcRoundTrip(ops: F32Ops, a: real, b: real)
    requires Sound(ops) && 0.0 < b
    ensures RbAc(ops, AbR(ops, a, b), b) == (a, AbC(ops, a, b))
  {
    TanRoundTrip(ops, a, b);
  }

  /** For legs a /= 0 and b > 0 and r = ab_r(a, b), ra_bc(r, a) returns the run b and the hypotenuse ab_c(a, b). */
  lemma RaBcRoundTrip(ops: F32Ops, a: real, b: real)
    requires Sound(ops) && a != 0.0 && 0.0 < b
    ensures RaBc(ops, AbR(ops, a, b), a) == (b, AbC(ops, a, b))
  {
    TanRoundTrip(ops, a, b);
  }

  /** For legs a and b > 0 and r = ab_r(a, b), rc_ab(r, ab_c(a, b)) returns the two legs. */
  lemma RcAbRoundTrip(ops: F32Ops, a: real, b: real)
    requires Sound(ops) && 0.0 < b
    ensures RcAb(ops, AbR(ops, a, b), AbC(ops, a, b)) == (a, b)
  {
    var r, c := AbR(ops, a, b), AbC(ops, a, b);
    AngleOfLegs(ops, a, b);
    assert RcA(ops, r, c) == a;
    assert RcB(ops, r, c) == b;
  }

  /** For legs a and b > 0, the angle asin(a / c) found from a and c = ab_c(a, b) agrees with both legs. */
  lemma AcRFits(ops: F32Ops, a: real, b: real)
    requires Sound(ops) && 0.0 < b
    ensures Fits(ops, AcR(ops, a, AbC(ops, a, b)), a, b, AbC(ops, a, b))
  {
    HypotenuseBounds(ops, a, b);
    AcRComponents(ops, a, b, AbC(ops, a, b));
  }

  lemma AcRComponents(ops: F32Ops, a: real, b: real, c: real)
    requires DivSound(ops) && TrigSound(ops)
    requires 0.0 < c && 0.0 < b && a * a <= c * c && c * c == a * a + b * b
    ensures Fits(ops, AcR(ops, a, c), a, b, c)
  {
    OtherComponent(ops.sin(AcR(ops, a, c)), ops.cos(AcR(ops, a, c)), c, a, b);
  }

  /** For legs a > 0 and b, the angle acos(b / c) found from b and c = ab_c(a, b) agrees with both legs. */
  lemma BcRFits(ops: F32Ops, a: real, b: real)
    requires Sound(ops) && 0.0 < a
    ensures Fits(ops, BcR(ops, b, AbC(ops, a, b)), a, b, AbC(ops, a, b))
  {
    HypotenuseBounds(ops, a, b);
    BcRComponents(ops, a, b, AbC(ops, a, b));
  }

  lemma BcRComponents(ops: F32Ops, a: real, b: real, c: real)
    requires DivSound(ops) && TrigSound(ops)
    requires 0.0 < c && 0.0 < a && b * b <= c * c && c * c == a * a + b * b
    ensures Fits(ops, BcR(ops, b, c), a, b, c)
  {
    OtherComponent(ops.cos(BcR(ops, b, c)), ops.sin(BcR(ops, b, c)), c, b, a);
  }

  /**
   * If u^2 + v^2 == 1, c * u == x and c^2 == x^2 + y^2, with c, v and y non-negative,
   * then c * v == y: one component of an angle on a triangle fixes the other.
   */
  lemma OtherComponent(u: real, v: real, c: real, x: real, y: real)
    requires u * u + v * v == 1.0 && c * u == x && c * c == x * x + y * y
    requires 0.0 <= c && 0.0 <= v && 0.0 <= y
    ensures c * v == y
  {
    calc {
      (c * v) * (c * v);
      (c * c) * (v * v);
      (c * c) * (1.0 - u * u);
      c * c - (c * u) * (c * u);
      y * y;
    }
    NonNegativeRootUnique(c * v, y);
  }

  /** With a non-zero leg, the hypotenuse ab_c(a, b) is positive and no shorter than either leg. */
  lemma HypotenuseBounds(ops: F32Ops, a: real, b: real)
    requires SqrtSound(ops) && (a != 0.0 || b != 0.0)
    ensures var c := AbC(ops, a, b);
            0.0 < c && a * a <= c * c && b * b <= c * c
  {
    if b != 0.0 {
      assert 0.0 < b * b && 0.0 <= a * a;
    } else {
      assert 0.0 < a * a && 0.0 <= b * b;
    }
    assert 0.0 < a * a + b * b;
  }
}

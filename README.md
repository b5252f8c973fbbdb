# pythagoras: completing a right triangle, in Dafny

This project models the core of the Rust crate `pythagoras`.

- **The formulas** (`src/lib.rs`): twelve one-line functions. Each computes one quantity of a right triangle from two others: the rise `a`, the run `b`, the diagonal (hypotenuse) `c` and the angle `r` in radians. There are also three composites that compute two quantities from the angle and one side. `src/utils.rs` repeats the same fifteen definitions verbatim, 16 lines earlier (`src/utils.rs:3-5` is `src/lib.rs:19-21`, and so on up to `src/utils.rs:88-92` for `src/lib.rs:104-108`). One Dafny module, `Pythagoras`, models both copies.
- **The resolver** (`src/right_angle.rs`): `RightAngle::from_input` takes a `RightAngleInput`, in which each of the four measurements may be absent. It counts the sides that are present and hands the input to `one_side`, `two_sides` or `three_sides`. The result is either a complete `RightAngle` or a `RightAngleError`. The Dafny module is `RightAngles`.

Numbers:

- `f32` is modelled as `real`.
- `x.powi(2)` is `x * x`.
- Square root, division and the six trigonometric functions are not defined in Dafny. They are fields of an `F32Ops` record (module `FloatOps`) that every formula takes as its first argument.
- What a proof may assume about them is stated by three predicates, each an identity of the real-number functions:
  - `SqrtSound`: the non-negative square root.
  - `DivSound`: real division away from zero.
  - `TrigSound`: `sin^2 + cos^2 = 1`, `tan * cos = sin`, and the inverse functions invert. It also gives cos(asin x), sin(acos x) and cos(atan x) the sign their principal ranges imply; the ranges themselves are not stated.
- The resolver's structural facts (which error, which field is copied, which formula fills which field) hold for every `F32Ops`. Only the geometric facts assume these predicates.

An input with no side at all (only an angle, or nothing) gets `InvalidInput` (`src/right_angle.rs:242-247`), not `TooFewSides`. This is so even though the message of `TooFewSides` reads "There must be at least one side". `one_side` is only ever reached with exactly one side, so its `TooFewSides` arm never runs. The model follows the code: `Resolve` and `FromInput` return `InvalidInput` for such input.

## Model

| member | source | states |
|---|---|---|
| `Pythagoras.AbC` | src/lib.rs:19-21 | ab_c (also src/utils.rs:3-5) is a non-negative c with c^2 = rise^2 + run^2 |
| `Pythagoras.BcA` | src/lib.rs:25-27 | bc_a (also src/utils.rs:9-11): for b^2 <= c^2, a non-negative a with a^2 + b^2 = c^2 |
| `Pythagoras.AcB` | src/lib.rs:31-33 | ac_b (also src/utils.rs:15-17): for a^2 <= c^2, a non-negative b with a^2 + b^2 = c^2 |
| `Pythagoras.AcR` | src/lib.rs:37-39 | ac_r: for c /= 0 and a^2 <= c^2, an angle with c * sin r = a and cos r >= 0; a / c is proved to lie in [-1, 1] |
| `Pythagoras.AbR` | src/lib.rs:43-45 | ab_r: for b /= 0, an angle with b * tan r = a and cos r > 0 |
| `Pythagoras.BcR` | src/lib.rs:49-51 | bc_r: for c /= 0 and b^2 <= c^2, an angle with c * cos r = b and sin r >= 0 |
| `Pythagoras.RaB` | src/lib.rs:55-57 | ra_b: where tan r /= 0, the run b with b * tan r = a |
| `Pythagoras.RaC` | src/lib.rs:61-63 | ra_c: where sin r /= 0, the hypotenuse c with c * sin r = a |
| `Pythagoras.RbA` | src/lib.rs:67-69 | rb_a: where cos r /= 0, the rise a with a * cos r = b * sin r |
| `Pythagoras.RbC` | src/lib.rs:73-75 | rb_c: where cos r /= 0, the hypotenuse c with c * cos r = b |
| `Pythagoras.RcA` | src/lib.rs:79-81 | rc_a: a rise never longer than the hypotenuse, a^2 <= c^2 |
| `Pythagoras.RcB` | src/lib.rs:85-87 | rc_b: a run never longer than the hypotenuse, b^2 <= c^2 |
| `Pythagoras.RbAc` | src/lib.rs:90-94 | rb_ac (also src/utils.rs:74-78): the rise is rb_a(r, b), and the hypotenuse is non-negative with c^2 = a^2 + b^2 whatever the trigonometry returns |
| `Pythagoras.RaBc` | src/lib.rs:97-101 | ra_bc (also src/utils.rs:81-85): the run is ra_b(r, a), and the hypotenuse is non-negative with c^2 = a^2 + b^2 whatever the trigonometry returns |
| `Pythagoras.RcAb` | src/lib.rs:104-108 | rc_ab (also src/utils.rs:88-92): the pair (rc_a(r, c), rc_b(r, c)), computed independently, with a^2 + b^2 = c^2 |
| `Pythagoras.AbCSymmetric` | src/lib.rs:19-21 | ab_c(a, b) = ab_c(b, a) |
| `Pythagoras.BcAIsAcB` | src/lib.rs:25-33 | bc_a(x, c) = ac_b(x, c) for all x and c (also src/utils.rs:9-17) |
| `Pythagoras.LegRoundTrip` | src/lib.rs:19-33 | for a >= 0, bc_a(b, ab_c(a, b)) = a; for b >= 0, ac_b(a, ab_c(a, b)) = b (also src/utils.rs:3-17) |
| `Pythagoras.ThreeFourFive` | src/utils.rs:102-115 | the 3-4-5 assertions of the tests hold exactly: ab_c(3, 4) = 5, bc_a(4, 5) = 3, ac_b(3, 5) = 4 |
| `Pythagoras.HypotenuseBounds` | src/lib.rs:19-21 | with a non-zero leg, ab_c(a, b) is positive and its square bounds the square of either leg |
| `Pythagoras.TanRoundTrip` | src/lib.rs:43-69 | the angle ab_r(a, b) gives the rise back through rb_a and, for a /= 0, the run back through ra_b |
| `Pythagoras.SinRoundTrip` | src/lib.rs:37-81 | the angle ac_r(a, c) gives the rise back through rc_a and, for a /= 0, the hypotenuse back through ra_c |
| `Pythagoras.CosRoundTrip` | src/lib.rs:49-87 | the angle bc_r(b, c) gives the run back through rc_b and, for b /= 0, the hypotenuse back through rb_c |
| `Pythagoras.AngleOfLegs` | src/lib.rs:19-45 | for b > 0, ab_r(a, b) agrees with the triangle: ab_c(a, b) * sin = a and ab_c(a, b) * cos = b |
| `Pythagoras.AcRFits` | src/lib.rs:19-39 | for b > 0, the angle ac_r finds from a and ab_c(a, b) agrees with both legs |
| `Pythagoras.BcRFits` | src/lib.rs:19-51 | for a > 0, the angle bc_r finds from b and ab_c(a, b) agrees with both legs |
| `Pythagoras.RbAcRoundTrip` | src/lib.rs:90-94 | rb_ac(ab_r(a, b), b) = (a, ab_c(a, b)) for b > 0 |
| `Pythagoras.RaBcRoundTrip` | src/lib.rs:97-101 | ra_bc(ab_r(a, b), a) = (b, ab_c(a, b)) for a /= 0 and b > 0 |
| `Pythagoras.RcAbRoundTrip` | src/lib.rs:104-108 | rc_ab(ab_r(a, b), ab_c(a, b)) = (a, b) for b > 0 |
| `RightAngles.SideCount` | src/right_angle.rs:229-238 | the number of sides present, at most 3; 0 exactly when no side is present, 3 exactly when all are; the angle is not counted |
| `RightAngles.OneSide` | src/right_angle.rs:100-134 | no angle gives AngleRequired, checked before the sides; with an angle, success exactly when one side is present, TooFewSides for none, TooManySides for more; the angle and side are copied, and the other two sides are the components of ra_bc, rb_ac or rc_ab in the order returned; the result satisfies Pythagoras |
| `RightAngles.TwoSides` | src/right_angle.rs:138-166 | success exactly when at least two sides are present, otherwise TooFewSides; supplied fields are copied, and a supplied angle is kept with no check against the sides; the missing side is ab_c, ac_b or bc_a of the pair; a missing angle is ab_r, ac_r or bc_r of the pair, and ab_r(rise, run) when all three sides are given; the result satisfies Pythagoras when the supplied sides allow it |
| `RightAngles.ThreeSides` | src/right_angle.rs:168-183 | always succeeds with all three sides copied; a missing angle is ab_r(rise, run), so the diagonal never influences it; the result is Pythagorean exactly when the supplied sides are |
| `RightAngles.Resolve` | src/right_angle.rs:228-248 | dispatch on the side count (1: one_side, 2: two_sides, 3: three_sides); success exactly when two or more sides are present, or one side and the angle; the only errors are InvalidInput (no side) and AngleRequired (one side, no angle), so TooFewSides and TooManySides never escape; supplied fields are copied; the result is Pythagorean when the supplied sides allow it |
| `RightAngles.FromInput` | src/right_angle.rs:228-248 | the side count is accumulated by three conditional increments, and the result equals `Resolve` |
| `RightAngles.RoundTrip` | src/right_angle.rs:228-248 | for a triangle with positive legs, hiding measurements and resolving gives back all three sides whenever what is shown fixes the triangle (two sides, or a side and the angle), with an angle that agrees with them. When the angle or both legs were shown, the whole triangle comes back exactly. This is the shape of the tests at src/right_angle.rs:299-393 |

## Left out

- `TryFrom<&str>` (`src/right_angle.rs:215-221`) is not modelled: it parses JSON with `serde_json`, which is not part of this model. A parse error is returned before `from_input` runs.
- `TryFrom<&RightAngleInput>` (`src/right_angle.rs:185-190`) is not modelled: it only turns the error into its display string. The messages are library formatting; errors are modelled as the `RightAngleError` variants.
- The serde attributes on the structs (`src/right_angle.rs:78-96`) are not modelled: they are serialisation plumbing.
- `f32` rounding, NaN and infinities are not modelled. The formulas are exact real expressions. Square root, division and the trigonometric functions are total but unspecified outside the domains their predicates cover: a negative square root, a zero divisor, or `asin`/`acos` outside [-1, 1].
- The tests that involve an angle are not modelled as concrete cases. They depend on the numeric values of the trigonometric functions and on `f32` rounding. The angle tests at `src/utils.rs:117-187` and `src/right_angle.rs:266-393` compare `f32` values or six-decimal renderings; `RightAngles.RoundTrip` and the round-trip lemmas of `Pythagoras` state their real-number shape instead. The angle tests at `src/lib.rs:138-235` compare rounded values.
- The side tests are covered. The exact assertions at `src/utils.rs:102-115` hold over the reals, and `Pythagoras.ThreeFourFive` proves them; it also covers the rounded side checks at `src/lib.rs:114-136`.
- `RightAngles.RoundTrip` does not claim that the angle recomputed from rise and diagonal (ac_r) or from run and diagonal (bc_r) equals ab_r of the legs. It proves that the angle agrees with both legs through sin and cos. Equality of the angles would need the periodicity and principal ranges of the trigonometric functions, which `TrigSound` does not state.

/**
 * Completing a right triangle from a partial set of measurements (src/right_angle.rs).
 *
 * The resolver counts how many of the three sides the input supplies, hands the
 * input to the one-, two- or three-side strategy, and returns either the complete
 * triangle or the error that classifies the input. Supplied measurements are copied
 * unchanged; each missing one is computed by one formula of `Pythagoras`.
 */
module RightAngles {
  import opened Wrappers
  import opened FloatOps
  import opened Pythagoras

  datatype RightAngleError = TooFewSides | TooManySides | AngleRequired | InvalidInput

  /** A complete triangle: the angle and the three sides. */
  datatype RightAngle = RightAngle(radians: real, rise: real, run: real, diagonal: real)

  /** A partial triangle: each measurement is present or absent, and absent is not zero. */
  datatype RightAngleInput = RightAngleInput(
    radians: Option<real>,
    rise: Option<real>,
    run: Option<real>,
    diagonal: Option<real>)

  /** How many of the three sides the input supplies; the angle is not a side. */
  function SideCount(input: RightAngleInput): (n: nat)
    ensures n <= 3
    ensures n == 0 <==> input.rise.None? && input.run.None? && input.diagonal.None?
    ensures n == 3 <==> input.rise.Some? && input.run.Some? && input.diagonal.Some?
  {
    (if input.rise.Some? then 1 else 0)
    + (if input.run.Some? then 1 else 0)
    + (if input.diagonal.Some? then 1 else 0)
  }

  /** Every measurement the input supplies appears unchanged in the triangle `t`. */
  predicate Keeps(input: RightAngleInput, t: RightAngle) {
    && (input.radians.Some? ==> t.radians == input.radians.value)
    && (input.rise.Some? ==> t.rise == input.rise.value)
    && (input.run.Some? ==> t.run == input.run.value)
    && (input.diagonal.Some? ==> t.diagonal == input.diagonal.value)
  }

  /** The three sides satisfy rise^2 + run^2 == diagonal^2. */
  predicate Pythagorean(t: RightAngle) {
    t.rise * t.rise + t.run * t.run == t.diagonal * t.diagonal
  }

  /**
   * The supplied sides do not already rule out a right triangle: no supplied leg is
   * longer than a supplied hypotenuse, and three supplied sides satisfy Pythagoras.
   */
  predicate Attainable(input: RightAngleInput) {
    && (input.rise.Some? && input.diagonal.Some? ==>
          input.rise.value * input.rise.value <= input.diagonal.value * input.diagonal.value)
    && (input.run.Some? && input.diagonal.Some? ==>
          input.run.value * input.run.value <= input.diagonal.value * input.diagonal.value)
    && (input.rise.Some? && input.run.Some? && input.diagonal.Some? ==>
          input.rise.value * input.rise.value + input.run.value * input.run.value
          == input.diagonal.value * input.diagonal.value)
  }

  /**
   * one_side: the angle and one side give the other two sides. A missing angle is
   * reported before the sides are looked at; no side, or more than one, is an error.
   */
  function OneSide(ops: F32Ops, input: RightAngleInput): (res: Result<RightAngle, RightAngleError>)
    ensures input.radians.None? ==> res == Err(AngleRequired)
    ensures input.radians.Some? ==> (res.Ok? <==> SideCount(input) == 1)
    ensures input.radians.Some? && SideCount(input) == 0 ==> res == Err(TooFewSides)
    ensures input.radians.Some? && SideCount(input) > 1 ==> res == Err(TooManySides)
    ensures res.Ok? ==> Keeps(input, res.value)
    ensures res.Ok? && input.rise.Some? ==>
              (res.value.run, res.value.diagonal) == RaBc(ops, input.radians.value, input.rise.value)
    ensures res.Ok? && input.run.Some? ==>
              (res.value.rise, res.value.diagonal) == RbAc(ops, input.radians.value, input.run.value)
    ensures res.Ok? && input.diagonal.Some? ==>
              (res.value.rise, res.value.run) == RcAb(ops, input.radians.value, input.diagonal.value)
    ensures res.Ok? && SqrtSound(ops) && TrigSound(ops) ==> Pythagorean(res.value)
  {
    if input.radians.None? then
      Err(AngleRequired)
    else
      var radians := input.radians.value;
      match (input.rise, input.run, input.diagonal)
      case (Some(a), None, None) =>
        var bc := RaBc(ops, radians, a);
        Ok(RightAngle(radians, a, bc.0, bc.1))
      case (None, Some(b), None) =>
        var ac := RbAc(ops, radians, b);
        Ok(RightAngle(radians, ac.0, b, ac.1))
      case (None, None, Some(c)) =>
        var ab := RcAb(ops, radians, c);
        Ok(RightAngle(radians, ab.0, ab.1, c))
      case (None, None, None) => Err(TooFewSides)
      case _ => Err(TooManySides)
  }

  /**
   * two_sides: two sides give the third. A supplied angle is kept as it is, with no
   * check against the sides; a missing one is computed from the two given sides.
   * Fewer than two sides is an error; three sides are all kept.
   */
  function TwoSides(ops: F32Ops, input: RightAngleInput): (res: Result<RightAngle, RightAngleError>)
    ensures res.Ok? <==> SideCount(input) >= 2
    ensures res.Err? ==> res.error == TooFewSides
    ensures res.Ok? ==> Keeps(input, res.value)
    ensures input.rise.Some? && input.run.Some? && input.diagonal.Some? ==>
              res.value.radians == input.radians.UnwrapOr(AbR(ops, input.rise.value, input.run.value))
    ensures input.rise.Some? && input.run.Some? && input.diagonal.None? ==>
              res.value.diagonal == AbC(ops, input.rise.value, input.run.value)
              && res.value.radians == input.radians.UnwrapOr(AbR(ops, input.rise.value, input.run.value))
    ensures input.rise.Some? && input.run.None? && input.diagonal.Some? ==>
              res.value.run == AcB(ops, input.rise.value, input.diagonal.value)
              && res.value.radians == input.radians.UnwrapOr(AcR(ops, input.rise.value, input.diagonal.value))
    ensures input.rise.None? && input.run.Some? && input.diagonal.Some? ==>
              res.value.rise == BcA(ops, input.run.value, input.diagonal.value)
              && res.value.radians == input.radians.UnwrapOr(BcR(ops, input.run.value, input.diagonal.value))
    ensures res.Ok? && SqrtSound(ops) && Attainable(input) ==> Pythagorean(res.value)
  {
    match (input.rise, input.run, input.diagonal)
    case (Some(a), Some(b), Some(c)) =>
      Ok(RightAngle(input.radians.UnwrapOr(AbR(ops, a, b)), a, b, c))
    case (Some(a), Some(b), None) =>
      Ok(RightAngle(input.radians.UnwrapOr(AbR(ops, a, b)), a, b, AbC(ops, a, b)))
    case (Some(a), None, Some(c)) =>
      Ok(RightAngle(input.radians.UnwrapOr(AcR(ops, a, c)), a, AcB(ops, a, c), c))
    case (None, Some(b), Some(c)) =>
      Ok(RightAngle(input.radians.UnwrapOr(BcR(ops, b, c)), BcA(ops, b, c), b, c))
    case _ => Err(TooFewSides)
  }

  /**
   * three_sides: all three sides are kept; a missing angle is atan(rise / run),
   * so the diagonal never influences it. The source unwraps the three sides.
   */
  function ThreeSides(ops: F32Ops, input: RightAngleInput): (res: Result<RightAngle, RightAngleError>)
    requires input.rise.Some? && input.run.Some? && input.diagonal.Some?
    ensures res.Ok? && Keeps(input, res.value)
    ensures input.radians.None? ==> res.value.radians == AbR(ops, input.rise.value, input.run.value)
    ensures Pythagorean(res.value) <==> Attainable(input)
  {
    var rise := input.rise.value;
    var run := input.run.value;
    var diagonal := input.diagonal.value;
    var radians := match input.radians
      case Some(r) => r
      case None => AbR(ops, rise, run);
    Ok(RightAngle(radians, rise, run, diagonal))
  }

  /**
   * What `from_input` computes: one side goes to one_side, two to two_sides, three
   * to three_sides, and no side at all is InvalidInput, whether or not an angle is
   * given. The only errors that can arise are InvalidInput and AngleRequired.
   */
  function Resolve(ops: F32Ops, input: RightAngleInput): (res: Result<RightAngle, RightAngleError>)
    ensures SideCount(input) == 1 ==> res == OneSide(ops, input)
    ensures SideCount(input) == 2 ==> res == TwoSides(ops, input)
    ensures SideCount(input) == 3 ==> res == ThreeSides(ops, input)
    ensures res.Ok? <==> SideCount(input) >= 2 || (SideCount(input) == 1 && input.radians.Some?)
    ensures res.Err? ==> res.error == (if SideCount(input) == 0 then InvalidInput else AngleRequired)
    ensures res.Ok? ==> Keeps(input, res.value)
    ensures res.Ok? && Sound(ops) && Attainable(input) ==> Pythagorean(res.value)
  {
    match SideCount(input)
    case 1 => OneSide(ops, input)
    case 2 => TwoSides(ops, input)
    case 3 => ThreeSides(ops, input)
    case _ => Err(InvalidInput)
  }

  /** from_input: counts the supplied sides one by one, then dispatches on the count. */
  method FromInput(ops: F32Ops, input: RightAngleInput) returns (res: Result<RightAngle, RightAngleError>)
    ensures res == Resolve(ops, input)
  {
    var sideCount := 0;
    if input.rise.Some? {
      sideCount := sideCount + 1;
    }
    if input.run.Some? {
      sideCount := sideCount + 1;
    }
    if input.diagonal.Some? {
      sideCount := sideCount + 1;
    }
    match sideCount
    case 1 => res := OneSide(ops, input);
    case 2 => res := TwoSides(ops, input);
    case 3 => res := ThreeSides(ops, input);
    case _ => res := Err(InvalidInput);
  }

  // Round trip: hiding measurements of a triangle and resolving gives them back.

  /** Which measurements of a triangle are shown to the resolver. */
  datatype Mask = Mask(radians: bool, rise: bool, run: bool, diagonal: bool)

  /** The partial input that shows the measurements of `t` that `m` selects. */
  function Hide(t: RightAngle, m: Mask): (input: RightAngleInput)
    ensures Keeps(input, t)
  {
    RightAngleInput(
      if m.radians then Some(t.radians) else None,
      if m.rise then Some(t.rise) else None,
      if m.run then Some(t.run) else None,
      if m.diagonal then Some(t.diagonal) else None)
  }

  /** The triangle with legs a and b, hypotenuse ab_c(a, b) and angle ab_r(a, b). */
  function Canonical(ops: F32Ops, a: real, b: real): (t: RightAngle) {
    RightAngle(AbR(ops, a, b), a, b, AbC(ops, a, b))
  }

  /** The angle of `t` agrees with its sides: diagonal * sin == rise and diagonal * cos == run. */
  ghost predicate AngleFits(ops: F32Ops, t: RightAngle) {
    Fits(ops, t.radians, t.rise, t.run, t.diagonal)
  }

  /**
   * `res` gives back the sides of `t` with an angle that agrees with them, and,
   * when `exact` holds, gives back `t` itself.
   */
  ghost predicate Recovers(ops: F32Ops, t: RightAngle, res: Result<RightAngle, RightAngleError>, exact: bool) {
    && res.Ok?
    && res.value.rise == t.rise && res.value.run == t.run && res.value.diagonal == t.diagonal
    && AngleFits(ops, res.value)
    && (exact ==> res.value == t)
  }

  /**
   * Resolving any part of a triangle with positive legs that fixes it (two sides, or
   * one side and the angle) gives back its three sides and an angle that agrees with
   * them; that angle is the original one whenever it was shown or both legs were, so
   * then the whole triangle comes back.
   */
  lemma RoundTrip(ops: F32Ops, a: real, b: real, m: Mask)
    requires Sound(ops) && 0.0 < a && 0.0 < b
    requires m.rise || m.run || m.diagonal
    requires m.radians || (m.rise && m.run) || (m.rise && m.diagonal) || (m.run && m.diagonal)
    ensures var t := Canonical(ops, a, b);
            Recovers(ops, t, Resolve(ops, Hide(t, m)), m.radians || (m.rise && m.run))
  {
    if m.rise && m.run {
      RoundTripBothLegs(ops, a, b, m);
    } else if m.rise && m.diagonal {
      RoundTripRiseAndDiagonal(ops, a, b, m);
    } else if m.run && m.diagonal {
      RoundTripRunAndDiagonal(ops, a, b, m);
    } else if m.rise {
      RoundTripRiseAndAngle(ops, a, b, m);
    } else if m.run {
      RoundTripRunAndAngle(ops, a, b, m);
    } else {
      RoundTripDiagonalAndAngle(ops, a, b, m);
    }
  }

  lemma RoundTripRiseAndAngle(ops: F32Ops, a: real, b: real, m: Mask)
    requires Sound(ops) && 0.0 < a && 0.0 < b
    requires m == Mask(true, true, false, false)
    ensures var t := Canonical(ops, a, b);
            Recovers(ops, t, Resolve(ops, Hide(t, m)), true)
  {
    AngleOfLegs(ops, a, b);
    RaBcRoundTrip(ops, a, b);
  }

  lemma RoundTripRunAndAngle(ops: F32Ops, a: real, b: real, m: Mask)
    requires Sound(ops) && 0.0 < b
    requires m == Mask(true, false, true, false)
    ensures var t := Canonical(ops, a, b);
            Recovers(ops, t, Resolve(ops, Hide(t, m)), true)
  {
    AngleOfLegs(ops, a, b);
    RbAcRoundTrip(ops, a, b);
  }

  lemma RoundTripDiagonalAndAngle(ops: F32Ops, a: real, b: real, m: Mask)
    requires Sound(ops) && 0.0 < b
    requires m == Mask(true, false, false, true)
    ensures var t := Canonical(ops, a, b);
            Recovers(ops, t, Resolve(ops, Hide(t, m)), true)
  {
    AngleOfLegs(ops, a, b);
    RcAbRoundTrip(ops, a, b);
  }

  lemma RoundTripBothLegs(ops: F32Ops, a: real, b: real, m: Mask)
    requires Sound(ops) && 0.0 < b
    requires m.rise && m.run
    ensures var t := Canonical(ops, a, b);
            Recovers(ops, t, Resolve(ops, Hide(t, m)), true)
  {
    AngleOfLegs(ops, a, b);
  }

  lemma RoundTripRiseAndDiagonal(ops: F32Ops, a: real, b: real, m: Mask)
    requires Sound(ops) && 0.0 < a && 0.0 < b
    requires m.rise && !m.run && m.diagonal
    ensures var t := Canonical(ops, a, b);
            Recovers(ops, t, Resolve(ops, Hide(t, m)), m.radians)
  {
    LegRoundTrip(ops, a, b);
    ResolveRiseAndDiagonal(ops, a, b, m);
    var c := AbC(ops, a, b);
    if m.radians {
      AngleOfLegs(ops, a, b);
      RecoversWith(ops, a, b, AbR(ops, a, b), true);
    } else {
      AcRFits(ops, a, b);
      RecoversWith(ops, a, b, AcR(ops, a, c), false);
    }
  }

  lemma ResolveRiseAndDiagonal(ops: F32Ops, a: real, b: real, m: Mask)
    requires m.rise && !m.run && m.diagonal
    requires AcB(ops, a, AbC(ops, a, b)) == b
    ensures var c := AbC(ops, a, b);
            Resolve(ops, Hide(Canonical(ops, a, b), m)) ==
            Ok(RightAngle(if m.radians then AbR(ops, a, b) else AcR(ops, a, c), a, b, c))
  {
    assert SideCount(Hide(Canonical(ops, a, b), m)) == 2;
  }

  lemma RoundTripRunAndDiagonal(ops: F32Ops, a: real, b: real, m: Mask)
    requires Sound(ops) && 0.0 < a && 0.0 < b
    requires !m.rise && m.run && m.diagonal
    ensures var t := Canonical(ops, a, b);
            Recovers(ops, t, Resolve(ops, Hide(t, m)), m.radians)
  {
    LegRoundTrip(ops, a, b);
    ResolveRunAndDiagonal(ops, a, b, m);
    var c := AbC(ops, a, b);
    if m.radians {
      AngleOfLegs(ops, a, b);
      RecoversWith(ops, a, b, AbR(ops, a, b), true);
    } else {
      BcRFits(ops, a, b);
      RecoversWith(ops, a, b, BcR(ops, b, c), false);
    }
  }

  lemma ResolveRunAndDiagonal(ops: F32Ops, a: real, b: real, m: Mask)
    requires !m.rise && m.run && m.diagonal
    requires BcA(ops, b, AbC(ops, a, b)) == a
    ensures var c := AbC(ops, a, b);
            Resolve(ops, Hide(Canonical(ops, a, b), m)) ==
            Ok(RightAngle(if m.radians then AbR(ops, a, b) else BcR(ops, b, c), a, b, c))
  {
    assert SideCount(Hide(Canonical(ops, a, b), m)) == 2;
  }

  /**
   * The sides of the triangle with legs a and b, with an angle r that agrees with
   * them, recover it, and recover it exactly when r is its angle.
   */
  lemma RecoversWith(ops: F32Ops, a: real, b: real, r: real, exact: bool)
    requires Fits(ops, r, a, b, AbC(ops, a, b))
    requires exact ==> r == AbR(ops, a, b)
    ensures Recovers(ops, Canonical(ops, a, b), Ok(RightAngle(r, a, b, AbC(ops, a, b))), exact)
  {
  }
}

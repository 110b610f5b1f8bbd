/** Single-qubit gates by their Euler angles (`src/u3.rs`): construction and decomposition. */
module U3Gates {
  import opened Wrappers
  import opened Angles

  /** rz(lambda); ry(theta); rz(phi), up to global phase. */
  datatype U3 = U3(theta: Angle, phi: Angle, lambda: Angle)

  const I := U3(0, 0, 0)
  const X := U3(PI, PI, 0)
  const H := U3(PI_1_2, 0, PI)

  function New(theta: Angle, phi: Angle, lam: Angle): U3 {
    if theta == 0 then U3(theta, Wrap(phi + lam), 0)
    else if theta == PI then U3(theta, Wrap(phi - lam), 0)
    else if theta > PI then U3(Neg(theta), Wrap(phi + PI), Wrap(lam + PI))
    else U3(theta, phi, lam)
  }

  function Rx(a: Angle): U3 {
    New(a, PI_3_2, PI_1_2)
  }

  function Ry(a: Angle): U3 {
    New(a, 0, 0)
  }

  function Rz(a: Angle): U3 {
    U3(0, a, 0)
  }

  /** All angles are on the grid of the precision, which has quarter turns: any gate from precision 64 on. */
  predicate IsFine(g: U3, prec: nat) {
    prec >= 2 && OnGrid(g.theta, prec) && OnGrid(g.phi, prec) && OnGrid(g.lambda, prec)
  }

  predicate IsSfree(g: U3, prec: nat) {
    Round(g.theta, prec) == 0 || Round(g.theta, prec) == PI
  }

  /** Optionally x, then rz. */
  function ToCxRz(g: U3, prec: nat): Option<(bool, Angle)> {
    if Round(g.theta, prec) == 0 then Some((false, Wrap(g.phi + g.lambda)))
    else if Round(g.theta, prec) == PI then Some((true, Wrap(PI + g.phi - g.lambda)))
    else None
  }

  /** rz, then rx. */
  function ToRzRx(g: U3, prec: nat): Option<(Angle, Angle)> {
    if Round(g.theta, prec) == 0 then Some((Wrap(g.phi + g.lambda), 0))
    else if Round(g.theta, prec) == PI then Some((Wrap(PI - g.phi + g.lambda), PI))
    else if Round(g.phi, prec) == PI_3_2 then Some((Wrap(g.lambda - PI_1_2), g.theta))
    else if Round(g.phi, prec) == PI_1_2 then Some((Wrap(g.lambda + PI_1_2), Neg(g.theta)))
    else None
  }

  /** rz, then h, then rz. */
  function ToRzHRz(g: U3, prec: nat): Option<(Angle, Angle)> {
    if Round(g.theta, prec) != PI_1_2 then None else Some((Wrap(g.lambda - PI), g.phi))
  }

  /** Rounding does not take any angle of the gate, or of the parts it decomposes into, for a quarter turn that it is not:
      what the decompositions find is there. */
  predicate IsPlain(g: U3, prec: nat) {
    && Angles.IsPlain(g.theta, prec) && Angles.IsPlain(g.phi, prec)
    && (match ToCxRz(g, prec)
        case Some((_, rz)) => Angles.IsPlain(rz, prec)
        case None => true)
    && BothPlain(ToRzRx(g, prec), prec) && BothPlain(ToRzHRz(g, prec), prec)
  }

  predicate BothPlain(parts: Option<(Angle, Angle)>, prec: nat) {
    match parts
    case Some((a, b)) => Angles.IsPlain(a, prec) && Angles.IsPlain(b, prec)
    case None => true
  }

  /** The floating-point path of `from_yzy`. */
  type Numeric = (Angle, Angle, Angle) -> U3

  /** ry, then rz, then ry. */
  function FromYzy(numeric: Numeric, ry1: Angle, rz: Angle, ry2: Angle): U3 {
    if rz == 0 then Ry(Wrap(ry1 + ry2))
    else if rz == PI then New(Wrap(ry2 - ry1), 0, PI)
    else if ry1 == 0 then New(ry2, 0, rz)
    else if ry1 == PI then New(Wrap(ry2 + PI), 0, Neg(rz))
    else if ry2 == 0 then New(ry1, rz, 0)
    else if ry2 == PI then New(Wrap(ry1 + PI), Neg(rz), 0)
    else if ry1 == PI_1_2 && ry2 == PI_1_2 then New(Wrap(PI - rz), PI_1_2, PI_1_2)
    else numeric(ry1, rz, ry2)
  }

  /** No branch of `FromYzy` but the last one applies. */
  predicate IsNumeric(ry1: Angle, rz: Angle, ry2: Angle) {
    rz != 0 && rz != PI && ry1 != 0 && ry1 != PI && ry2 != 0 && ry2 != PI && !(ry1 == PI_1_2 && ry2 == PI_1_2)
  }

  /** `a`, then `b`. */
  function Compose(numeric: Numeric, a: U3, b: U3): U3 {
    var r := FromYzy(numeric, a.theta, Wrap(a.phi + b.lambda), b.theta);
    New(r.theta, Wrap(r.phi + b.phi), Wrap(a.lambda + r.lambda))
  }

  /** The rotations undone in reverse. */
  function Adjoint(g: U3): U3 {
    New(Neg(g.theta), Neg(g.lambda), Neg(g.phi))
  }
}

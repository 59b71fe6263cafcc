/**
 * The floating-point vocabulary shared by the model: array elements that may be
 * not-a-number, the outcome of a division (which may be infinite), and the
 * transcendental functions of the numeric library, which the model leaves
 * uninterpreted and passes around as a record of functions.
 */
module Numeric {

  /** numpy's pi: the float64 value nearest to the circle constant. */
  const PI: real := 3.141592653589793

  /** One element of a float64 array: a finite value or not-a-number. */
  datatype Num = Val(v: real) | NaN

  /** The outcome of the float64 division a / b. */
  datatype Quotient = Finite(q: real) | PosInf | NegInf | Undefined

  /** The elementwise functions of the numeric library (angles in radians). */
  datatype MathLib = MathLib(
    atan: real -> real,
    cos: real -> real,
    sin: real -> real,
    acos: real -> real,
    sqrt: real -> real)

  /** IEEE division: a non-zero numerator over zero is infinite, 0 / 0 is not a number. */
  function Divide(a: real, b: real): (q: Quotient)
    ensures q.Undefined? <==> a == 0.0 && b == 0.0
    ensures q.Finite? <==> b != 0.0
    ensures q.Finite? ==> q.q * b == a
    ensures q.PosInf? <==> b == 0.0 && a > 0.0
    ensures q.NegInf? <==> b == 0.0 && a < 0.0
  {
    if b != 0.0 then Finite(a / b)
    else if a > 0.0 then PosInf
    else if a < 0.0 then NegInf
    else Undefined
  }

  function Deg2Rad(x: real): real { x * PI / 180.0 }

  function Rad2Deg(x: real): real { x * 180.0 / PI }

  /** np.rad2deg(np.arctan(q)): arctan saturates at plus or minus pi/2 for infinite arguments. */
  function ArctanDeg(lib: MathLib, q: Quotient): Num
  {
    match q
    case Finite(x) => Val(Rad2Deg(lib.atan(x)))
    case PosInf => Val(Rad2Deg(PI / 2.0))
    case NegInf => Val(Rad2Deg(-PI / 2.0))
    case Undefined => NaN
  }

  /** np.arccos(q) in radians: not a number outside [-1, 1], for infinities and for NaN. */
  function Arccos(lib: MathLib, q: Quotient): Num
  {
    match q
    case Finite(x) => if -1.0 <= x <= 1.0 then Val(lib.acos(x)) else NaN
    case _ => NaN
  }

  /** x + c, with NaN absorbing. */
  function Plus(x: Num, c: real): Num
  {
    match x
    case Val(v) => Val(v + c)
    case NaN => NaN
  }

  /** x - y, with NaN absorbing. */
  function Minus(x: Num, y: Num): Num
  {
    match (x, y)
    case (Val(a), Val(b)) => Val(a - b)
    case _ => NaN
  }

  /** lo <= x <= hi; every comparison with NaN is false. */
  predicate Within(x: Num, lo: real, hi: real)
  {
    x.Val? && lo <= x.v <= hi
  }

  /**
   * What the lemmas assume of arctan (in radians): it lies strictly between
   * -pi/2 and pi/2 and has the sign of its argument.
   */
  ghost predicate ArctanSane(lib: MathLib)
  {
    forall x :: -PI / 2.0 < lib.atan(x) < PI / 2.0
      && (lib.atan(x) < 0.0 <==> x < 0.0)
      && (lib.atan(x) > 0.0 <==> x > 0.0)
  }

  /** What the lemmas assume of sqrt: non-negative on non-negative arguments, zero only at zero. */
  ghost predicate SqrtSane(lib: MathLib)
  {
    forall x :: x >= 0.0 ==> lib.sqrt(x) >= 0.0 && (lib.sqrt(x) == 0.0 <==> x == 0.0)
  }

  /** What the lemmas assume of arccos: on [-1, 1] its value lies in [0, pi]. */
  ghost predicate ArccosSane(lib: MathLib)
  {
    forall x :: -1.0 <= x <= 1.0 ==> 0.0 <= lib.acos(x) <= PI
  }
}

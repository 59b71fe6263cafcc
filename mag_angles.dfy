/**
 * Inclination and azimuth of the magnetic field in spacecraft coordinates
 * (`mag_angles`). The given magnitude B feeds the inclination; the azimuth
 * override uses a magnitude recomputed from the components.
 */
module MagAngles {
  import opened Numeric
  import opened Masking

  /** alpha = 90 - (180/pi) * arccos(Bn / B), in degrees. */
  function Alpha(lib: MathLib, b: real, bn: real): Num
  {
    match Arccos(lib, Divide(bn, b))
    case NaN => NaN
    case Val(theta) => Val(90.0 - 180.0 / PI * theta)
  }

  /** r = sqrt(Br^2 + Bt^2 + Bn^2), recomputed from the components. */
  function Magnitude(lib: MathLib, br: real, bt: real, bn: real): real
  {
    lib.sqrt(br * br + bt * bt + bn * bn)
  }

  /** The planar azimuth before the overrides: arccos(Br / sqrt(Br^2 + Bt^2)) * 180 / pi. */
  function BasePhi(lib: MathLib, br: real, bt: real): Num
  {
    match Arccos(lib, Divide(br, lib.sqrt(br * br + bt * bt)))
    case NaN => NaN
    case Val(a) => Val(a * 180.0 / PI)
  }

  /** The Bt < 0 override as written: 2*pi - phi, although phi is in degrees. */
  function Reflect2Pi(x: Num): Num
  {
    Minus(Val(2.0 * PI), x)
  }

  /** The evidently intended Bt < 0 rule: 360 - phi, the mirror image in degrees. */
  function Reflect360(x: Num): Num
  {
    Minus(Val(360.0), x)
  }

  /** The Bt < 0 write: the selected azimuths are replaced by their reflection. */
  method OverrideNegativeBt(phi: seq<Num>, bt: seq<real>, reflect: Num -> Num) returns (out: seq<Num>)
    requires |bt| == |phi|
    ensures |out| == |phi|
    ensures forall i :: 0 <= i < |phi| ==> out[i] == (if bt[i] < 0.0 then reflect(phi[i]) else phi[i])
  {
    var n := |phi|;
    var a := new Num[n](i requires 0 <= i < n => phi[i]);
    var sel := seq(n, i requires 0 <= i < n => bt[i] < 0.0);
    // The write happens only when the selection is not empty (count > 0).
    if exists i :: 0 <= i < n && sel[i] {
      MaskedMap(a, sel, reflect);
    } else {
      assert forall i :: 0 <= i < n ==> !sel[i];
    }
    assert forall i :: 0 <= i < n ==> a[i] == (if sel[i] then reflect(phi[i]) else phi[i]);
    out := a[..];
  }

  /** The r <= 0 write: the selected azimuths are replaced by 0. */
  method OverrideZeroField(phi: seq<Num>, r: seq<real>) returns (out: seq<Num>)
    requires |r| == |phi|
    ensures |out| == |phi|
    ensures forall i :: 0 <= i < |phi| ==> out[i] == (if r[i] <= 0.0 then Val(0.0) else phi[i])
  {
    var n := |phi|;
    var a := new Num[n](i requires 0 <= i < n => phi[i]);
    var sel := seq(n, i requires 0 <= i < n => r[i] <= 0.0);
    // The write happens only when the selection is not empty (count > 0).
    if exists i :: 0 <= i < n && sel[i] {
      MaskedMap(a, sel, _ => Val(0.0));
    } else {
      assert forall i :: 0 <= i < n ==> !sel[i];
    }
    assert forall i :: 0 <= i < n ==> a[i] == (if sel[i] then Val(0.0) else phi[i]);
    out := a[..];
  }

  /**
   * mag_angles: alpha from B and Bn alone; phi from the planar azimuth, then
   * the Bt < 0 write, then the r <= 0 write, which therefore wins.
   */
  method MagAngles(lib: MathLib, b: seq<real>, br: seq<real>, bt: seq<real>, bn: seq<real>)
    returns (alpha: seq<Num>, phi: seq<Num>)
    requires |br| == |b| && |bt| == |b| && |bn| == |b|
    ensures |alpha| == |b| && |phi| == |b|
    ensures forall i :: 0 <= i < |b| ==> alpha[i] == Alpha(lib, b[i], bn[i])
    ensures forall i :: 0 <= i < |b| && Magnitude(lib, br[i], bt[i], bn[i]) <= 0.0 ==>
      phi[i] == Val(0.0)
    ensures forall i :: 0 <= i < |b| && Magnitude(lib, br[i], bt[i], bn[i]) > 0.0 && bt[i] < 0.0 ==>
      phi[i] == Reflect2Pi(BasePhi(lib, br[i], bt[i]))
    ensures forall i :: 0 <= i < |b| && Magnitude(lib, br[i], bt[i], bn[i]) > 0.0 && bt[i] >= 0.0 ==>
      phi[i] == BasePhi(lib, br[i], bt[i])
  {
    var n := |b|;
    alpha := seq(n, i requires 0 <= i < n => Alpha(lib, b[i], bn[i]));
    var r := seq(n, i requires 0 <= i < n => Magnitude(lib, br[i], bt[i], bn[i]));
    var base := seq(n, i requires 0 <= i < n => BasePhi(lib, br[i], bt[i]));
    var reflected := OverrideNegativeBt(base, bt, Reflect2Pi);
    phi := OverrideZeroField(reflected, r);
  }

  /** mag_angles with the Bt < 0 rule corrected to 360 - phi; everything else as written. */
  method MagAnglesCorrected(lib: MathLib, b: seq<real>, br: seq<real>, bt: seq<real>, bn: seq<real>)
    returns (alpha: seq<Num>, phi: seq<Num>)
    requires |br| == |b| && |bt| == |b| && |bn| == |b|
    ensures |alpha| == |b| && |phi| == |b|
    ensures forall i :: 0 <= i < |b| ==> alpha[i] == Alpha(lib, b[i], bn[i])
    ensures forall i :: 0 <= i < |b| ==> phi[i] == CorrectedAzimuth(lib, br[i], bt[i], bn[i])
    ensures ArccosSane(lib) ==>
      forall i :: 0 <= i < |b| && BasePhi(lib, br[i], bt[i]).Val? ==> Within(phi[i], 0.0, 360.0)
  {
    var n := |b|;
    alpha := seq(n, i requires 0 <= i < n => Alpha(lib, b[i], bn[i]));
    var r := seq(n, i requires 0 <= i < n => Magnitude(lib, br[i], bt[i], bn[i]));
    var base := seq(n, i requires 0 <= i < n => BasePhi(lib, br[i], bt[i]));
    var reflected := OverrideNegativeBt(base, bt, Reflect360);
    phi := OverrideZeroField(reflected, r);
    if ArccosSane(lib) {
      forall i | 0 <= i < n && BasePhi(lib, br[i], bt[i]).Val?
        ensures Within(phi[i], 0.0, 360.0)
      {
        CorrectedAzimuthRange(lib, br[i], bt[i], bn[i]);
      }
    }
  }

  // ---------------------------------------------------------------------------
  // Properties of the per-sample rules.

  /** alpha is a number exactly when B != 0 and Bn / B lies in [-1, 1]; it depends on nothing else. */
  lemma AlphaDefined(lib: MathLib, b: real, bn: real)
    ensures Alpha(lib, b, bn).Val? <==> b != 0.0 && -1.0 <= bn / b <= 1.0
  {
  }

  /** Under a sane arccos the inclination lies in [-90, 90]. */
  lemma AlphaRange(lib: MathLib, b: real, bn: real)
    requires ArccosSane(lib)
    requires b != 0.0 && -1.0 <= bn / b <= 1.0
    ensures Within(Alpha(lib, b, bn), -90.0, 90.0)
  {
    assert Divide(bn, b) == Finite(bn / b);
    var theta := lib.acos(bn / b);
    assert 0.0 <= theta <= PI;
  }

  /** The product of two reals, kept as a function so that facts about it carry over to equal arguments. */
  function Mul(x: real, y: real): real { x * y }

  /** x**2, for the sign proofs below. */
  function Sq(x: real): real { Mul(x, x) }

  /** Two factors of the same strict sign have a positive product. */
  lemma ProductPositive(x: real, y: real)
    requires (x > 0.0 && y > 0.0) || (x < 0.0 && y < 0.0)
    ensures Mul(x, y) > 0.0
  {
  }

  /** A square is zero at zero and positive elsewhere. */
  lemma SquareSign(x: real)
    ensures x != 0.0 ==> Sq(x) > 0.0
    ensures x == 0.0 ==> Sq(x) == 0.0
  {
    if x != 0.0 {
      ProductPositive(x, x);
    }
  }

  /** The sum Br^2 + Bt^2 + Bn^2 vanishes exactly for the zero field and is positive otherwise. */
  lemma SumOfSquaresSign(br: real, bt: real, bn: real)
    ensures br == 0.0 && bt == 0.0 && bn == 0.0 ==> Sq(br) + Sq(bt) + Sq(bn) == 0.0
    ensures !(br == 0.0 && bt == 0.0 && bn == 0.0) ==> Sq(br) + Sq(bt) + Sq(bn) > 0.0
  {
    SquareSign(br);
    SquareSign(bt);
    SquareSign(bn);
  }

  /** Under a sane sqrt the r <= 0 override fires exactly for the zero field. */
  lemma ZeroFieldOverride(lib: MathLib, br: real, bt: real, bn: real)
    requires SqrtSane(lib)
    ensures Magnitude(lib, br, bt, bn) <= 0.0 <==> br == 0.0 && bt == 0.0 && bn == 0.0
  {
    SumOfSquaresSign(br, bt, bn);
    assert Sq(br) + Sq(bt) + Sq(bn) == br * br + bt * bt + bn * bn;
  }

  /**
   * The field along +R (Br = B = 1, Bt = Bn = 0) has alpha = 0 and phi = 0
   * when arccos(0) = pi/2, arccos(1) = 0 and sqrt(1) = 1.
   */
  lemma RadialFieldAngles(lib: MathLib)
    requires lib.acos(0.0) == PI / 2.0 && lib.acos(1.0) == 0.0 && lib.sqrt(1.0) == 1.0
    ensures Alpha(lib, 1.0, 0.0) == Val(0.0)
    ensures Magnitude(lib, 1.0, 0.0, 0.0) > 0.0
    ensures BasePhi(lib, 1.0, 0.0) == Val(0.0)
  {
    assert Divide(0.0, 1.0) == Finite(0.0);
    assert Divide(1.0, lib.sqrt(1.0)) == Finite(1.0);
  }

  /**
   * The as-written Bt < 0 rule leaves the degree range: for Br = Bn = 0,
   * Bt = -1 (the field along -T, whose azimuth should be 270 degrees) the
   * planar azimuth is 90 and the override yields 2*pi - 90, a negative angle.
   */
  lemma AsWrittenAzimuthNegative(lib: MathLib)
    requires lib.acos(0.0) == PI / 2.0 && lib.sqrt(1.0) == 1.0
    ensures Magnitude(lib, 0.0, -1.0, 0.0) > 0.0
    ensures BasePhi(lib, 0.0, -1.0) == Val(90.0)
    ensures Reflect2Pi(BasePhi(lib, 0.0, -1.0)) == Val(2.0 * PI - 90.0)
    ensures Reflect2Pi(BasePhi(lib, 0.0, -1.0)).v < 0.0
  {
    assert 0.0 * 0.0 + -1.0 * -1.0 + 0.0 * 0.0 == 1.0;
    assert Divide(0.0, lib.sqrt(1.0)) == Finite(0.0);
  }

  /** The evidently intended azimuth: the Bt < 0 rule mirrors the degree angle as 360 - phi. */
  function CorrectedAzimuth(lib: MathLib, br: real, bt: real, bn: real): Num
  {
    if Magnitude(lib, br, bt, bn) <= 0.0 then Val(0.0)
    else if bt < 0.0 then Reflect360(BasePhi(lib, br, bt))
    else BasePhi(lib, br, bt)
  }

  /**
   * With a sane arccos the corrected azimuth stays in [0, 360]: [0, 180] for
   * Bt >= 0 and [180, 360] for Bt < 0 whenever the planar azimuth is a number.
   */
  lemma CorrectedAzimuthRange(lib: MathLib, br: real, bt: real, bn: real)
    requires ArccosSane(lib)
    requires BasePhi(lib, br, bt).Val?
    ensures Within(CorrectedAzimuth(lib, br, bt, bn), 0.0, 360.0)
    ensures Magnitude(lib, br, bt, bn) > 0.0 && bt < 0.0 ==> Within(CorrectedAzimuth(lib, br, bt, bn), 180.0, 360.0)
    ensures Magnitude(lib, br, bt, bn) > 0.0 && bt >= 0.0 ==> Within(CorrectedAzimuth(lib, br, bt, bn), 0.0, 180.0)
  {
    var q := Divide(br, lib.sqrt(br * br + bt * bt));
    assert q.Finite? && -1.0 <= q.q <= 1.0;
    assert 0.0 <= lib.acos(q.q) <= PI;
  }
}

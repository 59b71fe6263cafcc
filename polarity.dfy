/**
 * Magnetic-field polarity sectors relative to the nominal Parker spiral
 * (`polarity_rtn`). The Python works on whole arrays through ordered masked
 * writes; the methods here perform those writes in the same order, and the
 * functions say what each sample ends up holding.
 */
module Polarity {
  import opened Numeric
  import opened Masking

  /** The astronomical unit, in km. */
  const AU_KM: real := 149597870.7

  /** The solar sidereal rotation rate, in rad/s. */
  const OMEGA: real := 2.0 * PI / (25.38 * 24.0 * 60.0 * 60.0)

  /** The default solar wind speed of polarity_rtn, in km/s. */
  const DEFAULT_V: real := 400.0

  /** The default half-width of the ambiguous bands around 90 and 270 degrees. */
  const DEFAULT_DELTA: real := 10.0

  /** Nominal Parker-spiral angle (degrees) at distance r (AU) for solar wind speed v (km/s). */
  function PhiNominal(lib: MathLib, r: real, v: real): Num
  {
    ArctanDeg(lib, Divide(OMEGA * r * AU_KM, v))
  }

  /** Bx in the frame whose meridian is centred on the spacecraft, at latitude `lat` (degrees). */
  function Bx(lib: MathLib, br: real, bn: real, lat: real): real
  {
    br * lib.cos(Deg2Rad(lat)) - bn * lib.sin(Deg2Rad(lat))
  }

  /** The quadrant offset added to arctan(-By/Bx); By is Bt itself. */
  function PhiFix(bx: real, bt: real): real
  {
    if bx > 0.0 && bt > 0.0 then 360.0
    else if bx < 0.0 then 180.0
    else 0.0
  }

  /** The field's azimuth (degrees) from the restricted arctangent and the quadrant offset. */
  function Phi(lib: MathLib, bx: real, bt: real): Num
  {
    Plus(ArctanDeg(lib, Divide(-bt, bx)), PhiFix(bx, bt))
  }

  /** The single-step fold of a relative angle: subtract 360 above 360, then add 360 below 0. */
  function Fold(x: Num): Num
  {
    match x
    case NaN => NaN
    case Val(a) => if a > 360.0 then Val(a - 360.0) else if a < 0.0 then Val(a + 360.0) else x
  }

  /** The relative angle one sample ends with: azimuth minus nominal angle, folded once. */
  function RelativeAngle(lib: MathLib, bx: real, bt: real, nominal: Num): Num
  {
    Fold(Minus(Phi(lib, bx, bt), nominal))
  }

  /** The sample satisfies the mask of the first write (+1, toward). */
  predicate TowardMask(x: Num, delta: real)
  {
    Within(x, 0.0, 90.0 - delta) || Within(x, 270.0 + delta, 360.0)
  }

  /** The sample satisfies the mask of the second write (-1, away). */
  predicate AwayMask(x: Num, delta: real)
  {
    Within(x, 90.0 + delta, 270.0 - delta)
  }

  /** The sample satisfies the mask of the third write (0, ambiguous). */
  predicate AmbiguousMask(x: Num, delta: real)
  {
    Within(x, 90.0 - delta, 90.0 + delta) || Within(x, 270.0 - delta, 270.0 + delta)
  }

  /**
   * The polarity one sample ends with after the NaN initialisation and the
   * three writes in the order toward, away, ambiguous: the last write whose
   * mask holds decides.
   */
  function Classify(x: Num, delta: real): Num
  {
    if AmbiguousMask(x, delta) then Val(0.0)
    else if AwayMask(x, delta) then Val(-1.0)
    else if TowardMask(x, delta) then Val(1.0)
    else NaN
  }

  /** The quadrant offsets, written as zeros followed by two masked writes. */
  method QuadrantFix(bx: seq<real>, bt: seq<real>) returns (fix: seq<real>)
    requires |bt| == |bx|
    ensures |fix| == |bx|
    ensures forall i :: 0 <= i < |bx| && bx[i] > 0.0 && bt[i] > 0.0 ==> fix[i] == 360.0
    ensures forall i :: 0 <= i < |bx| && bx[i] < 0.0 ==> fix[i] == 180.0
    ensures forall i :: 0 <= i < |bx| && ((bx[i] > 0.0 && bt[i] <= 0.0) || bx[i] == 0.0) ==> fix[i] == 0.0
    ensures forall i :: 0 <= i < |bx| ==> fix[i] == PhiFix(bx[i], bt[i])
  {
    var n := |bx|;
    var a := new real[n](_ => 0.0);
    MaskedMap(a, seq(n, i requires 0 <= i < n => bx[i] > 0.0 && bt[i] > 0.0), _ => 360.0);
    MaskedMap(a, seq(n, i requires 0 <= i < n => bx[i] < 0.0), _ => 180.0);
    fix := a[..];
  }

  /** `phi - phi_nominal`, then the two in-place corrections of the relative angle, in order. */
  method FoldRelative(phi: seq<Num>, nominal: Num) returns (rel: seq<Num>)
    ensures |rel| == |phi|
    ensures forall i :: 0 <= i < |phi| ==> rel[i] == Fold(Minus(phi[i], nominal))
  {
    var n := |phi|;
    var a := new Num[n](i requires 0 <= i < n => Minus(phi[i], nominal));
    var s := a[..];
    MaskedMap(a, seq(n, i requires 0 <= i < n => s[i].Val? && s[i].v > 360.0), (x: Num) => Plus(x, -360.0));
    // The second mask is taken from the array as the first write left it.
    s := a[..];
    MaskedMap(a, seq(n, i requires 0 <= i < n => s[i].Val? && s[i].v < 0.0), (x: Num) => Plus(x, 360.0));
    rel := a[..];
  }

  /** The polarity array: NaN everywhere, then the toward, away and ambiguous writes. */
  method ClassifyPolarity(rel: seq<Num>, delta: real) returns (pol: seq<Num>)
    ensures |pol| == |rel|
    ensures forall i :: 0 <= i < |rel| ==> pol[i] == Classify(rel[i], delta)
  {
    var n := |rel|;
    var a := new Num[n](_ => NaN);
    MaskedMap(a, seq(n, i requires 0 <= i < n => TowardMask(rel[i], delta)), _ => Val(1.0));
    MaskedMap(a, seq(n, i requires 0 <= i < n => AwayMask(rel[i], delta)), _ => Val(-1.0));
    MaskedMap(a, seq(n, i requires 0 <= i < n => AmbiguousMask(rel[i], delta)), _ => Val(0.0));
    pol := a[..];
  }

  /**
   * polarity_rtn: the polarity sector and the relative angle of every sample.
   * `lat` holds the latitude of each sample (a constant sequence for a fixed latitude).
   */
  method PolarityRtn(lib: MathLib, br: seq<real>, bt: seq<real>, bn: seq<real>,
                     r: real, lat: seq<real>, v: real, delta: real)
    returns (pol: seq<Num>, phiRelative: seq<Num>)
    requires |bt| == |br| && |bn| == |br| && |lat| == |br|
    ensures |pol| == |br| && |phiRelative| == |br|
    ensures forall i :: 0 <= i < |br| ==>
      phiRelative[i] == RelativeAngle(lib, Bx(lib, br[i], bn[i], lat[i]), bt[i], PhiNominal(lib, r, v))
    ensures forall i :: 0 <= i < |br| ==> pol[i] == Classify(phiRelative[i], delta)
  {
    var nominal := PhiNominal(lib, r, v);
    var n := |br|;
    var bx := seq(n, i requires 0 <= i < n => Bx(lib, br[i], bn[i], lat[i]));
    var fix := QuadrantFix(bx, bt);
    var phi := seq(n, i requires 0 <= i < n => Plus(ArctanDeg(lib, Divide(-bt[i], bx[i])), fix[i]));
    phiRelative := FoldRelative(phi, nominal);
    pol := ClassifyPolarity(phiRelative, delta);
  }

  // ---------------------------------------------------------------------------
  // What the writes amount to.

  /**
   * The fold brings a raw relative angle into [0, 360] exactly when it starts
   * in [-360, 720]; it moves it by a multiple of 360 and keeps 360 itself.
   */
  lemma FoldRange(x: real)
    ensures Fold(Val(x)).Val?
    ensures var y := Fold(Val(x)).v; y == x || y == x - 360.0 || y == x + 360.0
    ensures Within(Fold(Val(x)), 0.0, 360.0) <==> -360.0 <= x <= 720.0
    ensures x == 360.0 ==> Fold(Val(x)) == Val(360.0)
    ensures 0.0 <= x <= 360.0 ==> Fold(Val(x)) == Val(x)
  {
  }

  /** Toward (+1) holds exactly on [0, 90-delta) and (270+delta, 360]. */
  lemma TowardSector(x: real, delta: real)
    requires 0.0 <= delta < 90.0
    ensures Classify(Val(x), delta) == Val(1.0) <==>
      (0.0 <= x < 90.0 - delta) || (270.0 + delta < x <= 360.0)
  {
  }

  /** Away (-1) holds exactly on (90+delta, 270-delta). */
  lemma AwaySector(x: real, delta: real)
    requires 0.0 <= delta < 90.0
    ensures Classify(Val(x), delta) == Val(-1.0) <==> 90.0 + delta < x < 270.0 - delta
  {
  }

  /** Ambiguous (0) holds exactly on the closed bands around 90 and 270, boundaries included. */
  lemma AmbiguousSector(x: real, delta: real)
    requires 0.0 <= delta
    ensures Classify(Val(x), delta) == Val(0.0) <==>
      (90.0 - delta <= x <= 90.0 + delta) || (270.0 - delta <= x <= 270.0 + delta)
  {
  }

  /**
   * With 0 <= delta < 90 every relative angle in [0, 360] receives one of
   * +1, -1, 0; the NaN sentinel remains exactly outside [0, 360] and for NaN.
   */
  lemma ClassifyTotal(x: Num, delta: real)
    requires 0.0 <= delta < 90.0
    ensures Classify(x, delta) in {Val(1.0), Val(-1.0), Val(0.0)} <==> Within(x, 0.0, 360.0)
    ensures Classify(x, delta) == NaN <==> !Within(x, 0.0, 360.0)
  {
  }

  /** Under a sane arctan the nominal spiral angle lies in [0, 90) for r >= 0 and v > 0. */
  lemma PhiNominalRange(lib: MathLib, r: real, v: real)
    requires ArctanSane(lib)
    requires r >= 0.0 && v > 0.0
    ensures PhiNominal(lib, r, v).Val?
    ensures 0.0 <= PhiNominal(lib, r, v).v < 90.0
  {
    var arg := OMEGA * r * AU_KM / v;
    assert OMEGA * r * AU_KM >= 0.0;
    assert arg >= 0.0;
    assert Divide(OMEGA * r * AU_KM, v) == Finite(arg);
    var t := lib.atan(arg);
    assert 0.0 <= t < PI / 2.0;
  }

  /**
   * The restricted arctangent plus the quadrant offset gives the clockwise
   * azimuth of (Bx, By) in [0, 360), except on the Bx = 0 axis, where By > 0
   * gives -90 (one turn below 270) and By = 0 gives NaN.
   */
  lemma PhiQuadrant(lib: MathLib, bx: real, bt: real)
    requires ArctanSane(lib)
    ensures bx > 0.0 && bt > 0.0 ==> Within(Phi(lib, bx, bt), 270.0, 360.0) && Phi(lib, bx, bt).v != 270.0 && Phi(lib, bx, bt).v != 360.0
    ensures bx > 0.0 && bt == 0.0 ==> Phi(lib, bx, bt) == Val(0.0)
    ensures bx > 0.0 && bt < 0.0 ==> Within(Phi(lib, bx, bt), 0.0, 90.0) && Phi(lib, bx, bt).v != 0.0 && Phi(lib, bx, bt).v != 90.0
    ensures bx < 0.0 && bt < 0.0 ==> Within(Phi(lib, bx, bt), 90.0, 180.0) && Phi(lib, bx, bt).v != 90.0 && Phi(lib, bx, bt).v != 180.0
    ensures bx < 0.0 && bt == 0.0 ==> Phi(lib, bx, bt) == Val(180.0)
    ensures bx < 0.0 && bt > 0.0 ==> Within(Phi(lib, bx, bt), 180.0, 270.0) && Phi(lib, bx, bt).v != 180.0 && Phi(lib, bx, bt).v != 270.0
    ensures bx == 0.0 && bt < 0.0 ==> Phi(lib, bx, bt) == Val(90.0)
    ensures bx == 0.0 && bt > 0.0 ==> Phi(lib, bx, bt) == Val(-90.0)
    ensures bx == 0.0 && bt == 0.0 ==> Phi(lib, bx, bt) == NaN
  {
    if bx != 0.0 {
      var x := -bt / bx;
      assert Divide(-bt, bx) == Finite(x);
      assert -PI / 2.0 < lib.atan(x) < PI / 2.0;
      if bx > 0.0 && bt > 0.0 {
        assert x < 0.0;
      } else if bx > 0.0 && bt < 0.0 {
        assert x > 0.0;
      } else if bx < 0.0 && bt < 0.0 {
        assert x < 0.0;
      } else if bx < 0.0 && bt > 0.0 {
        assert x > 0.0;
      } else {
        assert x == 0.0;
      }
    }
  }

  /**
   * Under a sane arctan and a nominal angle in [0, 90), the folded relative
   * angle of every sample lies in [0, 360) -- so 360 itself never arises --
   * unless Bx = By = 0, where it is NaN.
   */
  lemma RelativeAngleRange(lib: MathLib, bx: real, bt: real, nominal: Num)
    requires ArctanSane(lib)
    requires nominal.Val? && 0.0 <= nominal.v < 90.0
    ensures bx == 0.0 && bt == 0.0 ==> RelativeAngle(lib, bx, bt, nominal) == NaN
    ensures !(bx == 0.0 && bt == 0.0) ==>
      Within(RelativeAngle(lib, bx, bt, nominal), 0.0, 360.0) && RelativeAngle(lib, bx, bt, nominal).v != 360.0
  {
    PhiQuadrant(lib, bx, bt);
    if !(bx == 0.0 && bt == 0.0) {
      var p := Phi(lib, bx, bt);
      assert p.Val? && -90.0 <= p.v < 360.0;
      FoldRange(p.v - nominal.v);
    }
  }

  /**
   * End to end: for r >= 0, v > 0, 0 <= delta < 90 and a sane arctan, a sample
   * receives a polarity in {+1, -1, 0} exactly when its (Bx, By) is not the
   * zero vector; the zero vector keeps the NaN sentinel.
   */
  lemma PolarityDefined(lib: MathLib, bx: real, bt: real, r: real, v: real, delta: real)
    requires ArctanSane(lib)
    requires r >= 0.0 && v > 0.0 && 0.0 <= delta < 90.0
    ensures var p := Classify(RelativeAngle(lib, bx, bt, PhiNominal(lib, r, v)), delta);
      (p in {Val(1.0), Val(-1.0), Val(0.0)} <==> !(bx == 0.0 && bt == 0.0))
      && (p == NaN <==> bx == 0.0 && bt == 0.0)
  {
    PhiNominalRange(lib, r, v);
    RelativeAngleRange(lib, bx, bt, PhiNominal(lib, r, v));
    ClassifyTotal(RelativeAngle(lib, bx, bt, PhiNominal(lib, r, v)), delta);
  }

  /**
   * With the default wind speed and band half-width, every sample at r >= 0
   * whose (Bx, By) is not the zero vector receives one of +1, -1, 0, and the
   * bands around 90 and 270 are [80, 100] and [260, 280].
   */
  lemma PolarityAtDefaults(lib: MathLib, bx: real, bt: real, r: real)
    requires ArctanSane(lib)
    requires r >= 0.0
    ensures var p := Classify(RelativeAngle(lib, bx, bt, PhiNominal(lib, r, DEFAULT_V)), DEFAULT_DELTA);
      (p in {Val(1.0), Val(-1.0), Val(0.0)} <==> !(bx == 0.0 && bt == 0.0))
    ensures forall x :: Classify(Val(x), DEFAULT_DELTA) == Val(0.0) <==>
      (80.0 <= x <= 100.0) || (260.0 <= x <= 280.0)
  {
    PolarityDefined(lib, bx, bt, r, DEFAULT_V, DEFAULT_DELTA);
    forall x: real
      ensures Classify(Val(x), DEFAULT_DELTA) == Val(0.0) <==> (80.0 <= x <= 100.0) || (260.0 <= x <= 280.0)
    {
      AmbiguousSector(x, DEFAULT_DELTA);
    }
  }
}

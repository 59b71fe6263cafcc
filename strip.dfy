/**
 * The polarity strip drawn above a panel (`polarity_panel`): which samples of
 * the relative angle become bars, and the value each bar's colour is taken
 * from on the 0..180 colour scale. Rendering itself is not modelled.
 */
module Strip {
  import opened Numeric
  import opened Wrappers
  import Polarity

  /** The two bar series, drawn one after the other. */
  datatype Band = Lower | Upper

  /** A bar of height 1 at time datetimes[sample] whose colour is read from `value`. */
  datatype Bar = Bar(sample: nat, value: real)

  /** Both series and the common bar width, datetimes[2] - datetimes[1]. */
  datatype PolarityStrip = PolarityStrip(width: int, lower: seq<Bar>, upper: seq<Bar>)

  /** The Python raises IndexError for fewer than three timestamps or a length mismatch. */
  datatype StripError = IndexError

  /** The mask of each series: [0, 180) for the first, [180, 360) for the second. */
  predicate InBand(x: Num, band: Band)
  {
    match band
    case Lower => x.Val? && 0.0 <= x.v < 180.0
    case Upper => x.Val? && 180.0 <= x.v < 360.0
  }

  /** The colour value: the angle itself in the first series, |360 - angle| in the second. */
  function Colour(x: Num, band: Band): real
    requires InBand(x, band)
  {
    match band
    case Lower => x.v
    case Upper => if 360.0 - x.v >= 0.0 then 360.0 - x.v else x.v - 360.0
  }

  /** The bars of one series, in sample order. */
  function Bars(phi: seq<Num>, band: Band): (bars: seq<Bar>)
    ensures forall b :: b in bars ==>
      b.sample < |phi| && InBand(phi[b.sample], band) && b.value == Colour(phi[b.sample], band)
        && 0.0 <= b.value <= 180.0
    ensures forall i :: 0 <= i < |phi| && InBand(phi[i], band) ==> Bar(i, Colour(phi[i], band)) in bars
    ensures forall j, k :: 0 <= j < k < |bars| ==> bars[j].sample < bars[k].sample
    decreases |phi|
  {
    if |phi| == 0 then []
    else
      var last := |phi| - 1;
      var init := Bars(phi[..last], band);
      if InBand(phi[last], band) then init + [Bar(last, Colour(phi[last], band))] else init
  }

  /**
   * polarity_panel without the drawing: with at least three timestamps, one per
   * angle, a sample in [0, 180) becomes a bar of the first series coloured by
   * its angle, a sample in [180, 360) a bar of the second series coloured by
   * 360 minus its angle, and no other sample is drawn.
   */
  function PolarityPanel(datetimes: seq<int>, phi: seq<Num>): (r: Result<PolarityStrip, StripError>)
    ensures r.Success? <==> |datetimes| >= 3 && |datetimes| == |phi|
    ensures r.Success? ==> r.value.width == datetimes[2] - datetimes[1]
    ensures r.Success? ==> forall b :: b in r.value.lower + r.value.upper ==> 0.0 <= b.value <= 180.0
    ensures r.Success? ==> forall b :: b in r.value.lower ==>
      b.sample < |phi| && phi[b.sample].Val? && 0.0 <= phi[b.sample].v < 180.0 && b.value == phi[b.sample].v
    ensures r.Success? ==> forall b :: b in r.value.upper ==>
      b.sample < |phi| && phi[b.sample].Val? && 180.0 <= phi[b.sample].v < 360.0 && b.value == 360.0 - phi[b.sample].v
    ensures r.Success? ==> forall i :: 0 <= i < |phi| && phi[i].Val? && 0.0 <= phi[i].v < 180.0 ==>
      Bar(i, phi[i].v) in r.value.lower
    ensures r.Success? ==> forall i :: 0 <= i < |phi| && phi[i].Val? && 180.0 <= phi[i].v < 360.0 ==>
      Bar(i, 360.0 - phi[i].v) in r.value.upper
  {
    if |datetimes| < 3 || |datetimes| != |phi| then Failure(IndexError)
    else Success(PolarityStrip(datetimes[2] - datetimes[1], Bars(phi, Lower), Bars(phi, Upper)))
  }

  /**
   * A sample is drawn in at most one series, and in one exactly when its
   * relative angle lies in [0, 360): 360 itself, angles outside and NaN are
   * not drawn.
   */
  lemma BandsPartition(x: Num)
    ensures !(InBand(x, Lower) && InBand(x, Upper))
    ensures InBand(x, Lower) || InBand(x, Upper) <==> x.Val? && 0.0 <= x.v < 360.0
  {
  }

  /** The second series' colour value mirrors the angle about 360: it is 360 - angle. */
  lemma UpperColourMirrors(x: real)
    requires 180.0 <= x < 360.0
    ensures Colour(Val(x), Upper) == 360.0 - x
    ensures 0.0 < Colour(Val(x), Upper) <= 180.0
  {
  }

  /**
   * Every sample that polarity_rtn can classify is drawn exactly once: under
   * a sane arctan and a nominal angle in [0, 90), a sample whose (Bx, By) is
   * not the zero vector falls in exactly one series.
   */
  lemma ClassifiedSamplesDrawnOnce(lib: MathLib, bx: real, bt: real, nominal: Num)
    requires ArctanSane(lib)
    requires nominal.Val? && 0.0 <= nominal.v < 90.0
    ensures var x := Polarity.RelativeAngle(lib, bx, bt, nominal);
      (InBand(x, Lower) || InBand(x, Upper) <==> !(bx == 0.0 && bt == 0.0))
      && !(InBand(x, Lower) && InBand(x, Upper))
  {
    Polarity.RelativeAngleRange(lib, bx, bt, nominal);
    BandsPartition(Polarity.RelativeAngle(lib, bx, bt, nominal));
  }
}

# Decision logic of the multi-instrument plot helpers

This project models, in Dafny, the rule-based core of
`multi_inst_plots/other_tools.py`. The file supplies the helpers behind the
multi-instrument solar-energetic-particle overview plots. The model covers four
pieces.

- **`polarity_rtn`** assigns each magnetic-field sample a polarity sector
  relative to the nominal Parker spiral:
  - +1 toward, −1 away, 0 ambiguous;
  - a NaN sentinel where no sector applies.

  The steps are the quadrant offset of the azimuth, a single-step fold of the
  relative angle, and three ordered masked writes. Across the three writes,
  the last one whose mask holds decides.
- **`mag_angles`** computes the inclination `alpha` and the azimuth `phi` of the
  field. `phi` then receives two ordered overrides:
  - Bt < 0 gives `2π − phi`;
  - a recomputed magnitude r ≤ 0 gives `0`.
- **`polarity_panel`** selects which samples become bars of the polarity strip,
  and the value on the 0..180 colour scale each bar is coloured with.
- **`make_fig_axs`** lays out the figure:
  - the per-spacecraft OR of the particle instrument toggles;
  - the panel count;
  - the `panel_ratios` list (ones, overwritten with 2 at computed indices);
  - the figure height and the title.

Numbers are modelled as follows.

- Float64 values are `real`.
- A float array element is `Num = Val(v) | NaN`.
- A division is a `Quotient` (finite, ±∞ or 0/0). So `Bx = 0` behaves as in
  numpy: `arctan(±∞) = ±π/2`, and `0/0` is NaN.
- arctan, cos, sin, arccos and sqrt are the fields of a `MathLib` record of
  functions. They are left uninterpreted.
- Lemmas that need their shape assume it through `ArctanSane`, `SqrtSane` or
  `ArccosSane`: range, sign, and zero only at zero. The two example lemmas
  `MagAngles.RadialFieldAngles` and `MagAngles.AsWrittenAzimuthNegative`
  also fix arccos(0) = π/2, arccos(1) = 0 and sqrt(1) = 1.
- `PI` is numpy's float64 value 3.141592653589793.

Where the source writes into arrays step by step, the model does the same.

- Masked assignment `a[mask] = f(a[mask])` is the method `Masking.MaskedMap`,
  which works on an `array`.
- `panel_ratios` is an `array` of ones that `Layout.PanelRatios` overwrites in
  the source's order.
- Each such method is specified by a per-sample function:
  - `Polarity.Fold`, `Polarity.Classify` and `Polarity.RelativeAngle`;
  - `MagAngles.BasePhi` and `MagAngles.Magnitude`;
  - `Layout.Doubled`.
- The lemmas state what those functions mean.

Modules:

- `Wrappers`: `Option` and `Result`.
- `Numeric`: `Num`, `Quotient`, `MathLib` and the float helpers.
- `Masking`: the masked write.
- `Polarity`: `polarity_rtn`.
- `Strip`: `polarity_panel`.
- `MagAngles`: `mag_angles`.
- `Layout`: `make_fig_axs`.

## Model

| member | source | states |
|---|---|---|
| Numeric.Divide | multi_inst_plots/other_tools.py:33 | IEEE division: the quotient is finite exactly when the divisor is non-zero, and then times the divisor it gives the numerator; a positive numerator over zero gives +∞, a negative one −∞, and 0/0 is undefined (NaN) |
| Polarity.PhiNominal | multi_inst_plots/other_tools.py:26 | the nominal Parker angle `rad2deg(arctan(omega·r·au/V))`; its range [0, 90) is `Polarity.PhiNominalRange` |
| Polarity.Bx | multi_inst_plots/other_tools.py:28 | `Bx = Br·cos(lat) − Bn·sin(lat)` with the latitude in degrees; the cosine and sine are left uninterpreted |
| Polarity.PhiFix | multi_inst_plots/other_tools.py:30-32 | the quadrant offset of one sample: 360 for Bx > 0 and By > 0, 180 for Bx < 0, else 0; `Polarity.QuadrantFix` proves the array writes produce it |
| Polarity.Phi | multi_inst_plots/other_tools.py:33 | `rad2deg(arctan(−By/Bx)) + phi_fix` with IEEE division; its quadrant table is `Polarity.PhiQuadrant` |
| Polarity.Fold | multi_inst_plots/other_tools.py:36-37 | the single-step fold (`> 360` subtracts 360, then `< 0` adds 360, NaN stays); its range and congruence are `Polarity.FoldRange` |
| Polarity.Classify | multi_inst_plots/other_tools.py:38-42 | the last-write-wins result of the NaN start and the three writes; its sectors are `Polarity.TowardSector`, `AwaySector`, `AmbiguousSector` and `ClassifyTotal` |
| Masking.MaskedMap | multi_inst_plots/other_tools.py:36-37 | a masked in-place write: every element whose mask entry is set becomes `f` of its old value, every other element keeps its old value |
| Polarity.QuadrantFix | multi_inst_plots/other_tools.py:30-32 | zeros followed by the two masked writes: 360 where Bx > 0 and By > 0, 180 where Bx < 0, 0 for Bx > 0 with By ≤ 0 and for Bx = 0; same length as the input |
| Polarity.FoldRelative | multi_inst_plots/other_tools.py:35-37 | `phi − phi_nominal`, then the `> 360` write, then the `< 0` write; every sample ends as the single-step fold of its raw relative angle |
| Polarity.ClassifyPolarity | multi_inst_plots/other_tools.py:38-42 | NaN everywhere, then the toward, away and ambiguous writes in that order; every sample ends with the value of the last write whose mask holds |
| Polarity.PolarityRtn | multi_inst_plots/other_tools.py:15-43 | both outputs have the input's length; each relative angle is the folded azimuth of (Bx, By) minus the nominal Parker angle, and each polarity is the sector classification of that angle |
| Polarity.FoldRange | multi_inst_plots/other_tools.py:36-37 | the fold moves a relative angle by 0 or ±360; its result is in [0, 360] exactly when the raw angle is in [−360, 720]; an exact 360 and everything in [0, 360] are left unchanged |
| Polarity.TowardSector | multi_inst_plots/other_tools.py:40-42 | for 0 ≤ δ < 90, +1 holds exactly on [0, 90−δ) ∪ (270+δ, 360] |
| Polarity.AwaySector | multi_inst_plots/other_tools.py:41-42 | for 0 ≤ δ < 90, −1 holds exactly on (90+δ, 270−δ) |
| Polarity.AmbiguousSector | multi_inst_plots/other_tools.py:42 | 0 holds exactly on the closed bands [90−δ, 90+δ] and [270−δ, 270+δ]: the boundary values go to 0 because that write is last |
| Polarity.ClassifyTotal | multi_inst_plots/other_tools.py:38-42 | for 0 ≤ δ < 90 a relative angle receives one of +1, −1, 0 exactly when it lies in [0, 360]; outside that range and for NaN the NaN sentinel remains |
| Polarity.PhiNominalRange | multi_inst_plots/other_tools.py:23-26 | for r ≥ 0 and V > 0 the nominal Parker spiral angle (degrees) is a number in [0, 90) |
| Polarity.PhiQuadrant | multi_inst_plots/other_tools.py:30-33 | the quadrant table of `arctan(−By/Bx) + phi_fix`: each open quadrant of (Bx, By) maps to its own open 90-degree range of [0, 360), the axes to 0, 90 or 180, By > 0 on Bx = 0 to −90, and the zero vector to NaN |
| Polarity.RelativeAngleRange | multi_inst_plots/other_tools.py:30-37 | with a nominal angle in [0, 90), the zero vector (Bx, By) gives NaN and every other sample a folded relative angle in [0, 360) — 360 never arises |
| Polarity.PolarityDefined | multi_inst_plots/other_tools.py:15-43 | end to end, for r ≥ 0, V > 0, 0 ≤ δ < 90: a sample gets a polarity in {+1, −1, 0} exactly when (Bx, By) is not the zero vector, and keeps NaN exactly when it is |
| Polarity.PolarityAtDefaults | multi_inst_plots/other_tools.py:15 | with the defaults V = 400 and delta_angle = 10, every non-zero (Bx, By) at r ≥ 0 gets a polarity in {+1, −1, 0}, and the ambiguous bands are exactly [80, 100] and [260, 280] |
| Strip.Colour | multi_inst_plots/other_tools.py:76-77 | the colour value of a drawn sample: the angle in the first series, `abs(360 − angle)` in the second; its range is `Strip.UpperColourMirrors` and `Strip.Bars` |
| Strip.Bars | multi_inst_plots/other_tools.py:76-77 | a bar series holds exactly the samples in its band, in sample order, each with its colour value, and every value lies in [0, 180] |
| Strip.PolarityPanel | multi_inst_plots/other_tools.py:72-77 | IndexError unless there are at least three timestamps, one per angle; otherwise the bar width is `datetimes[2] − datetimes[1]`, every sample with an angle in [0, 180) is a first-series bar valued by its angle, every sample in [180, 360) a second-series bar valued 360 − angle, no other sample is drawn, and every value lies in [0, 180] |
| Strip.BandsPartition | multi_inst_plots/other_tools.py:76-77 | no sample is drawn twice, and a sample is drawn exactly when its relative angle lies in [0, 360); 360 itself, angles outside and NaN are dropped |
| Strip.UpperColourMirrors | multi_inst_plots/other_tools.py:77 | in the second series the colour value `abs(360 − phi)` is `360 − phi` and lies in (0, 180] |
| Strip.ClassifiedSamplesDrawnOnce | multi_inst_plots/other_tools.py:76-77 | every sample whose (Bx, By) is not the zero vector is drawn in exactly one series; the zero vector is not drawn |
| MagAngles.OverrideNegativeBt | multi_inst_plots/other_tools.py:87-90 | where Bt < 0 the azimuth is replaced by its reflection, elsewhere it is kept; an empty selection writes nothing |
| MagAngles.OverrideZeroField | multi_inst_plots/other_tools.py:91-94 | where r ≤ 0 the azimuth becomes 0, elsewhere it is kept |
| MagAngles.MagAngles | multi_inst_plots/other_tools.py:80-96 | alpha of a sample depends only on B and Bn; a sample with r ≤ 0 ends with phi = 0 even when Bt < 0; Bt < 0 with r > 0 ends with `2π − base`; every other sample keeps the base azimuth |
| MagAngles.MagAnglesCorrected | multi_inst_plots/other_tools.py:80-96 | the same two overrides with the Bt < 0 rule as `360 − base`: each azimuth is the corrected per-sample azimuth, and under a sane arccos every numeric azimuth lies in [0, 360] |
| MagAngles.Alpha | multi_inst_plots/other_tools.py:81-82 | `90 − (180/π)·arccos(Bn/B)`, NaN where arccos is undefined; its domain and range are `MagAngles.AlphaDefined` and `AlphaRange` |
| MagAngles.Magnitude | multi_inst_plots/other_tools.py:84 | `sqrt(Br² + Bt² + Bn²)`; where it is ≤ 0 is `MagAngles.ZeroFieldOverride` |
| MagAngles.BasePhi | multi_inst_plots/other_tools.py:85 | `arccos(Br / sqrt(Br² + Bt²))·180/π`, NaN where arccos is undefined (including 0/0) |
| MagAngles.AlphaDefined | multi_inst_plots/other_tools.py:81-82 | alpha is a number exactly when B ≠ 0 and Bn/B lies in [−1, 1] |
| MagAngles.AlphaRange | multi_inst_plots/other_tools.py:81-82 | where alpha is a number it lies in [−90, 90] |
| MagAngles.ZeroFieldOverride | multi_inst_plots/other_tools.py:84-94 | the r ≤ 0 override fires exactly for the zero field (0, 0, 0) |
| MagAngles.RadialFieldAngles | multi_inst_plots/other_tools.py:80-85 | the field along +R (B = Br = 1, Bt = Bn = 0) has alpha = 0, r > 0 and base azimuth 0 |
| MagAngles.AsWrittenAzimuthNegative | multi_inst_plots/other_tools.py:85-90 | for the field along −T (Br = Bn = 0, Bt = −1) the base azimuth is 90 degrees, and the Bt < 0 rule as written yields `2π − 90`, a negative angle |
| MagAngles.CorrectedAzimuthRange | multi_inst_plots/other_tools.py:85-94 | where the base azimuth is a number, the corrected azimuth lies in [0, 360]; for Bt < 0 with r > 0 it lies in [180, 360], and for Bt ≥ 0 with r > 0 in [0, 180] |
| Layout.SpacecraftNamesDistinct | multi_inst_plots/other_tools.py:218-244 | the four drop-down values are pairwise distinct, so exactly one mission branch applies |
| Layout.ParticleToggleIff | multi_inst_plots/other_tools.py:218-244 | `plot_electrons` / `plot_protons` hold exactly when some detector toggle of the selected spacecraft for that species is on; other missions' toggles have no effect |
| Layout.ParticleToggle | multi_inst_plots/other_tools.py:218-244 | `plot_electrons` / `plot_protons` as the per-mission ORs of lines 223-244; `Layout.ParticleToggleIff` relates them to the detector table |
| Layout.Panels | multi_inst_plots/other_tools.py:249-255 | the per-mission panel sums; their relations are `Layout.PanelsByMission` and `Layout.NoPanelsIff` |
| Layout.ParticleSlot | multi_inst_plots/other_tools.py:263-272 | the first particle index `radio + stix + goes` (`stix + goes` on Solar Orbiter); `Layout.ParticleSlotFits` keeps it in bounds |
| Layout.FigureHeight | multi_inst_plots/other_tools.py:277-280 | 4 per panel for three panels, 3 per panel otherwise; `Layout.FigureHeightMonotone` |
| Layout.Title | multi_inst_plots/other_tools.py:290-297 | the title of each mission; `Layout.TitleIdentifies` |
| Layout.Select | multi_inst_plots/other_tools.py:200-244 | the shared toggles pass through unchanged; the electron (proton) panel is selected exactly when some detector of the selected mission measuring electrons (protons) is toggled on |
| Layout.PanelsByMission | multi_inst_plots/other_tools.py:249-255 | L1 and STEREO count the same panels; PSP counts one more when the dynamic pressure is selected; Solar Orbiter one fewer when the radio is; at most twelve panels |
| Layout.NoPanelsIff | multi_inst_plots/other_tools.py:249-255 | the count is zero exactly when every panel toggle the mission counts is off |
| Layout.ParticleSlotFits | multi_inst_plots/other_tools.py:262-275 | every write to `panel_ratios` is in bounds: the particle slot is a panel when either species is shown, the next slot too when both are, and slot 0 (radio) differs from the particle slot |
| Layout.PanelRatios | multi_inst_plots/other_tools.py:257-275 | a list of `panels` ones, then the writes in order; the result has length `panels` and is 2 exactly at the radio slot 0 (not on Solar Orbiter), at the particle slot when either species is shown and at the next slot when both are, 1 everywhere else |
| Layout.DoubledInRange | multi_inst_plots/other_tools.py:257-275 | every doubled index is a panel; panel 0 is doubled exactly for the radio, or for the particles when they come first |
| Layout.FigureHeightMonotone | multi_inst_plots/other_tools.py:277-280 | the height is 3 per panel except 4 per panel for three panels; more panels never make the figure shorter, and three and four panels are both 12 high |
| Layout.TitleIdentifies | multi_inst_plots/other_tools.py:290-297 | the titles of different missions differ, whichever STEREO spacecraft is named |
| Layout.MakeFigAxs | multi_inst_plots/other_tools.py:198-297 | the plot window comes from the range slider when there is one, else from the start and end times. There is a figure exactly when the count is positive. Its height follows the height rule and its title is the mission's title. The ratios are passed on exactly when the count is not 3, and then they are `panel_ratios` |

## Left out

- Floating-point rounding, overflow and underflow: values are real numbers. In particular, a square of a tiny non-zero component underflows to 0 in float64. So `MagAngles.ZeroFieldOverride` holds for the real-number model, not for every float input.
- The numeric values of arctan, cos, sin, arccos, sqrt and `rad2deg` are uninterpreted. The general lemmas assume only the sign and range facts in `ArctanSane`, `SqrtSane` and `ArccosSane`. The two example lemmas `MagAngles.RadialFieldAngles` and `MagAngles.AsWrittenAzimuthNegative` also fix exact values: arccos(0) = π/2 and sqrt(1) = 1 for both, and arccos(1) = 0 for the first.
- Input arrays are finite reals; a NaN or an infinity passed in is not modelled. NaN arises only from `0/0` and from arccos outside [−1, 1].
- Negative zero: `Bx = −0.0` would flip the sign of the infinite quotient. The model treats every zero as +0.
- The default arguments V = 400 and delta_angle = 10 are the constants `Polarity.DEFAULT_V` and `Polarity.DEFAULT_DELTA`. `Polarity.PolarityRtn` takes both explicitly.
- `lat` is a per-sample sequence, and `r` and `V` are scalars. A scalar latitude is the constant sequence; an array `r` or `V` is not modelled.
- The documented range of the relative angle is [0, 360). The fold's strict `> 360` test keeps an exact 360, and the model follows the code (`Polarity.FoldRange`). Under a sane arctan, 360 never arises (`Polarity.RelativeAngleRange`).
- MagAngles.MagAngles: keeps the Bt < 0 rule as written (`2π − phi` on a degree angle). The corrected rule is in `MagAngles.MagAnglesCorrected` (see Findings).
- `polarity_colorwheel`, `plot_solo_stix`, `plot_goes_xrs`, the inset axes, the colour map, bar drawing, axis formatting, dpi and the `print` calls: these are rendering and console output. `Normalize(..., clip=True)` does not matter, because every drawn value already lies in [0, 180].
- `load_solo_stix` and `load_goes_xrs`: network downloads, interactive input and dataframes.
- Layout.MakeFigAxs: the widget objects become an immutable `Options` record holding a spacecraft enumeration. Four consequences:
  - A drop-down value outside the four missions cannot be expressed. In the code it leaves `plot_electrons` unbound.
  - The plot window is returned rather than written into `options`.
  - With zero panels the model reports `NoInstruments`. This stands for the failure of that call: `plt.subplots` runs with `nrows=0` before the zero-panel test, and matplotlib (not part of this model) rejects zero rows. So the message and the `(None, None)` return would not be reached.
  - The figure, axes and `(None, None)` return values are not modelled; only the layout decisions are.

## Findings

| source | as written | input that shows it | evidently intended | confidence | as-written member | corrected member |
|---|---|---|---|---|---|---|
| multi_inst_plots/other_tools.py:90 | `phi[sel] = 2*np.pi - phi[sel]` on an azimuth already converted to degrees (line 85) | Br = 0, Bt = −1, Bn = 0 (field along −T): base azimuth 90, result 2π − 90 ≈ −83.7 | `360 - phi[sel]`, so the Bt < 0 half-plane maps to [180, 360] (here 270) | not executed | MagAngles.AsWrittenAzimuthNegative | MagAngles.MagAnglesCorrected |

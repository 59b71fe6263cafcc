/**
 * Panel layout of the multi-instrument figure (`make_fig_axs`): which panels
 * are drawn, how tall each one is relative to the others, the figure height
 * and the title. The widget objects become an immutable `Options` record;
 * the matplotlib calls themselves are not modelled.
 */
module Layout {
  import opened Wrappers

  datatype Spacecraft = L1 | PSP | SolO | STEREO

  /** The value the spacecraft drop-down holds for each mission. */
  function SpacecraftName(sc: Spacecraft): string
  {
    match sc
    case L1 => "L1 (Wind/SOHO)"
    case PSP => "PSP"
    case SolO => "SolO"
    case STEREO => "STEREO"
  }

  /** The four drop-down values are distinct, so exactly one mission branch is taken. */
  lemma SpacecraftNamesDistinct(a: Spacecraft, b: Spacecraft)
    ensures SpacecraftName(a) == SpacecraftName(b) <==> a == b
  {
    if a != b {
      var na, nb := SpacecraftName(a), SpacecraftName(b);
      assert |na| != |nb|;
    }
  }

  /** The option values `make_fig_axs` reads; times are instants on one integer clock. */
  datatype Options = Options(
    spacecraft: Spacecraft,
    sterSc: string,
    radio: bool, mag: bool, magAngles: bool, vsw: bool, n: bool, t: bool,
    pDyn: bool, stix: bool, goes: bool,
    l1WindE: bool, l1WindP: bool, l1Ephin: bool, l1Erne: bool,
    pspEpiloE: bool, pspEpihiE: bool, pspEpiloP: bool, pspEpihiP: bool,
    soloElectrons: bool, soloProtons: bool,
    sterHetE: bool, sterHetP: bool, sterSeptE: bool, sterSeptP: bool,
    startdt: int, enddt: int,
    plotRange: Option<(int, int)>)

  datatype Species = Electrons | Protons

  /** Every particle instrument toggle the options offer. */
  datatype Detector =
    | WindE | WindP | Ephin | Erne
    | EpiloE | EpihiE | EpiloP | EpihiP
    | SoloE | SoloP
    | HetE | HetP | SeptE | SeptP

  /** The spacecraft a detector toggle belongs to. */
  function Carrier(d: Detector): Spacecraft
  {
    match d
    case WindE | WindP | Ephin | Erne => L1
    case EpiloE | EpihiE | EpiloP | EpihiP => PSP
    case SoloE | SoloP => SolO
    case HetE | HetP | SeptE | SeptP => STEREO
  }

  /** The particle species the toggle adds to the electron or the proton panel. */
  function Measures(d: Detector): Species
  {
    match d
    case WindE | Ephin | EpiloE | EpihiE | SoloE | HetE | SeptE => Electrons
    case WindP | Erne | EpiloP | EpihiP | SoloP | HetP | SeptP => Protons
  }

  function Toggled(o: Options, d: Detector): bool
  {
    match d
    case WindE => o.l1WindE
    case WindP => o.l1WindP
    case Ephin => o.l1Ephin
    case Erne => o.l1Erne
    case EpiloE => o.pspEpiloE
    case EpihiE => o.pspEpihiE
    case EpiloP => o.pspEpiloP
    case EpihiP => o.pspEpihiP
    case SoloE => o.soloElectrons
    case SoloP => o.soloProtons
    case HetE => o.sterHetE
    case HetP => o.sterHetP
    case SeptE => o.sterSeptE
    case SeptP => o.sterSeptP
  }

  /** plot_electrons / plot_protons: the OR of the mission's own toggles for that species. */
  function ParticleToggle(o: Options, sp: Species): bool
  {
    match (o.spacecraft, sp)
    case (L1, Electrons) => o.l1WindE || o.l1Ephin
    case (L1, Protons) => o.l1WindP || o.l1Erne
    case (PSP, Electrons) => o.pspEpiloE || o.pspEpihiE
    case (PSP, Protons) => o.pspEpiloP || o.pspEpihiP
    case (SolO, Electrons) => o.soloElectrons
    case (SolO, Protons) => o.soloProtons
    case (STEREO, Electrons) => o.sterHetE || o.sterSeptE
    case (STEREO, Protons) => o.sterHetP || o.sterSeptP
  }

  /**
   * A species panel is requested exactly when some detector of the selected
   * spacecraft measuring that species is toggled on; other missions' toggles
   * are ignored.
   */
  lemma ParticleToggleIff(o: Options, sp: Species)
    ensures ParticleToggle(o, sp) <==>
      exists d :: Carrier(d) == o.spacecraft && Measures(d) == sp && Toggled(o, d)
  {
    if ParticleToggle(o, sp) {
      var d :=
        match (o.spacecraft, sp)
        case (L1, Electrons) => if o.l1WindE then WindE else Ephin
        case (L1, Protons) => if o.l1WindP then WindP else Erne
        case (PSP, Electrons) => if o.pspEpiloE then EpiloE else EpihiE
        case (PSP, Protons) => if o.pspEpiloP then EpiloP else EpihiP
        case (SolO, Electrons) => SoloE
        case (SolO, Protons) => SoloP
        case (STEREO, Electrons) => if o.sterHetE then HetE else SeptE
        case (STEREO, Protons) => if o.sterHetP then HetP else SeptP;
      assert Carrier(d) == o.spacecraft && Measures(d) == sp && Toggled(o, d);
    }
  }

  /** The panel toggles once the particle ORs are taken. */
  datatype Selection = Selection(
    radio: bool, stix: bool, goes: bool, electrons: bool, protons: bool,
    magAngles: bool, mag: bool, vsw: bool, n: bool, t: bool, pDyn: bool)

  /**
   * The selection passes the shared toggles through unchanged and shows a
   * species exactly when some detector of the selected mission measuring it
   * is toggled on.
   */
  function Select(o: Options): (s: Selection)
    ensures s.radio == o.radio && s.stix == o.stix && s.goes == o.goes
    ensures s.magAngles == o.magAngles && s.mag == o.mag && s.vsw == o.vsw
    ensures s.n == o.n && s.t == o.t && s.pDyn == o.pDyn
    ensures s.electrons <==>
      exists d :: Carrier(d) == o.spacecraft && Measures(d) == Electrons && Toggled(o, d)
    ensures s.protons <==>
      exists d :: Carrier(d) == o.spacecraft && Measures(d) == Protons && Toggled(o, d)
  {
    ParticleToggleIff(o, Electrons);
    ParticleToggleIff(o, Protons);
    Selection(o.radio, o.stix, o.goes, ParticleToggle(o, Electrons), ParticleToggle(o, Protons),
              o.magAngles, o.mag, o.vsw, o.n, o.t, o.pDyn)
  }

  /** A Python bool in arithmetic: True counts 1, False counts 0. */
  function Count(b: bool): nat
  {
    if b then 1 else 0
  }

  /**
   * The panel count: one per toggle and two for the magnetic angles; PSP adds
   * the dynamic pressure, Solar Orbiter leaves out the radio panel.
   */
  function Panels(sc: Spacecraft, s: Selection): nat
  {
    var shared := Count(s.stix) + Count(s.goes) + Count(s.electrons) + Count(s.protons)
      + 2 * Count(s.magAngles) + Count(s.mag) + Count(s.vsw) + Count(s.n) + Count(s.t);
    match sc
    case PSP => Count(s.radio) + shared + Count(s.pDyn)
    case SolO => shared
    case _ => Count(s.radio) + shared
  }

  /**
   * How the missions' counts relate: L1 and STEREO agree, PSP has one more
   * panel when the dynamic pressure is selected, Solar Orbiter one fewer when
   * the radio is; and no mission draws more than twelve panels.
   */
  lemma PanelsByMission(s: Selection)
    ensures Panels(STEREO, s) == Panels(L1, s)
    ensures Panels(PSP, s) == Panels(L1, s) + Count(s.pDyn)
    ensures Panels(SolO, s) + Count(s.radio) == Panels(L1, s)
    ensures Panels(PSP, s) <= 12
  {
  }

  /** Nothing is drawn exactly when none of the mission's panel toggles is on. */
  lemma NoPanelsIff(sc: Spacecraft, s: Selection)
    ensures Panels(sc, s) == 0 <==>
      !s.stix && !s.goes && !s.electrons && !s.protons && !s.magAngles && !s.mag
      && !s.vsw && !s.n && !s.t
      && (sc == SolO || !s.radio)
      && (sc != PSP || !s.pDyn)
  {
  }

  /** The index of the first particle panel: after the radio (not on Solar Orbiter), STIX and GOES panels. */
  function ParticleSlot(sc: Spacecraft, s: Selection): nat
  {
    (if sc == SolO then 0 else Count(s.radio)) + Count(s.stix) + Count(s.goes)
  }

  /**
   * The particle panels fit: when either species is shown its slot is a panel,
   * when both are the next one is too, and the radio slot 0 is never the
   * particle slot.
   */
  lemma ParticleSlotFits(sc: Spacecraft, s: Selection)
    ensures s.electrons || s.protons ==> ParticleSlot(sc, s) < Panels(sc, s)
    ensures s.electrons && s.protons ==> ParticleSlot(sc, s) + 1 < Panels(sc, s)
    ensures sc != SolO && s.radio ==> 0 < ParticleSlot(sc, s) && 0 < Panels(sc, s)
  {
  }

  /** The panels drawn at double height: the radio spectrogram and the particle panels. */
  predicate Doubled(sc: Spacecraft, s: Selection, i: int)
  {
    var off := ParticleSlot(sc, s);
    (sc != SolO && s.radio && i == 0)
    || ((s.electrons || s.protons) && i == off)
    || (s.electrons && s.protons && i == off + 1)
  }

  /**
   * panel_ratios: a list of ones, then the radio slot (not on Solar Orbiter)
   * and the particle slots overwritten with 2, in the source's order.
   */
  method PanelRatios(sc: Spacecraft, s: Selection) returns (ratios: seq<int>)
    ensures |ratios| == Panels(sc, s)
    ensures forall i :: 0 <= i < |ratios| ==> ratios[i] == (if Doubled(sc, s, i) then 2 else 1)
  {
    var panels := Panels(sc, s);
    ParticleSlotFits(sc, s);
    var a := new int[panels](_ => 1);
    var off := ParticleSlot(sc, s);
    if sc == SolO {
      if s.electrons && s.protons {
        a[off] := 2;
        a[off + 1] := 2;
      }
      if s.electrons || s.protons {
        a[off] := 2;
      }
    } else {
      if s.radio {
        a[0] := 2;
      }
      if s.electrons && s.protons {
        a[off] := 2;
        a[off + 1] := 2;
      }
      if s.electrons || s.protons {
        a[off] := 2;
      }
    }
    ratios := a[..];
  }

  /**
   * Every doubled index is a panel, and panel 0 is doubled for the radio or,
   * when there is neither radio, STIX nor GOES panel, for the particles.
   */
  lemma DoubledInRange(sc: Spacecraft, s: Selection)
    ensures Doubled(sc, s, 0) <==> (sc != SolO && s.radio) || ((s.electrons || s.protons) && ParticleSlot(sc, s) == 0)
    ensures forall i :: Doubled(sc, s, i) ==> 0 <= i < Panels(sc, s)
  {
    ParticleSlotFits(sc, s);
  }

  /** The figure is 4 inches per panel for exactly three panels and 3 inches per panel otherwise. */
  function FigureHeight(panels: nat): nat
  {
    if panels == 3 then 4 * panels else 3 * panels
  }

  /** Adding panels never makes the figure shorter; three and four panels give the same height. */
  lemma FigureHeightMonotone(p: nat, q: nat)
    requires p <= q
    ensures FigureHeight(p) <= FigureHeight(q)
    ensures FigureHeight(3) == FigureHeight(4) == 12
    ensures p != 3 ==> FigureHeight(p) == 3 * p
  {
  }

  /** The title above the first panel. */
  function Title(sc: Spacecraft, sterSc: string): string
  {
    match sc
    case L1 => "Near-Earth spacecraft (Wind, SOHO)"
    case PSP => "Parker Solar Probe"
    case STEREO => "STEREO " + sterSc
    case SolO => "Solar Orbiter"
  }

  /** The title tells the missions apart, whichever STEREO spacecraft is named. */
  lemma TitleIdentifies(a: Spacecraft, b: Spacecraft, sa: string, sb: string)
    requires a != b
    ensures Title(a, sa) != Title(b, sb)
  {
    var ta, tb := Title(a, sa), Title(b, sb);
    assert ta[1] != tb[1] || ta[0] != tb[0];
  }

  datatype Figure = Figure(
    panels: nat, width: nat, height: nat,
    heightRatios: Option<seq<int>>, title: string)

  datatype LayoutError = NoInstruments

  /**
   * make_fig_axs: sets the plot window from the range slider when there is
   * one, counts the panels, builds the ratios and then the figure; without
   * any panel there is no figure. For exactly three panels the ratios are not
   * passed on.
   */
  method MakeFigAxs(o: Options) returns (plotStart: int, plotEnd: int, fig: Result<Figure, LayoutError>)
    ensures o.plotRange.None? ==> plotStart == o.startdt && plotEnd == o.enddt
    ensures o.plotRange.Some? ==> plotStart == o.plotRange.value.0 && plotEnd == o.plotRange.value.1
    ensures fig.Success? <==> Panels(o.spacecraft, Select(o)) > 0
    ensures fig.Failure? ==> fig.error == NoInstruments
    ensures fig.Success? ==>
      var s := Select(o);
      var f := fig.value;
      && f.panels == Panels(o.spacecraft, s)
      && f.width == 12
      && f.height == FigureHeight(f.panels)
      && f.title == Title(o.spacecraft, o.sterSc)
      && (f.heightRatios.None? <==> f.panels == 3)
      && (f.heightRatios.Some? ==>
            |f.heightRatios.value| == f.panels
            && forall i :: 0 <= i < f.panels ==>
                 f.heightRatios.value[i] == (if Doubled(o.spacecraft, s, i) then 2 else 1))
  {
    match o.plotRange {
      case None =>
        plotStart, plotEnd := o.startdt, o.enddt;
      case Some(range) =>
        plotStart, plotEnd := range.0, range.1;
    }
    var s := Select(o);
    var panels := Panels(o.spacecraft, s);
    var ratios := PanelRatios(o.spacecraft, s);
    if panels == 0 {
      fig := Failure(NoInstruments);
      return;
    }
    var heightRatios := if panels == 3 then None else Some(ratios);
    fig := Success(Figure(panels, 12, FigureHeight(panels), heightRatios, Title(o.spacecraft, o.sterSc)));
  }
}

/**
 * The moon: the fraction-to-name mapping of `_calculateMoonPhase`, the override by
 * a moon entity (`_getMoonPhase`), the shadow table and ellipse geometry of
 * `_drawPhaseShadow`, the glow table of `_drawMoonGlow` and the visibility
 * decision of `_drawMoon`. Phase names are strings because an entity may report
 * any state; the drawing functions act on the string exactly as the card does.
 */
module Moon {
  import opened Wrappers
  import Text
  import Environment

  datatype Phase =
    | NewMoon | WaxingCrescent | FirstQuarter | WaxingGibbous
    | FullMoon | WaningGibbous | LastQuarter | WaningCrescent
  {
    function Name(): string {
      match this
      case NewMoon => "new_moon"
      case WaxingCrescent => "waxing_crescent"
      case FirstQuarter => "first_quarter"
      case WaxingGibbous => "waxing_gibbous"
      case FullMoon => "full_moon"
      case WaningGibbous => "waning_gibbous"
      case LastQuarter => "last_quarter"
      case WaningCrescent => "waning_crescent"
    }

    /** Position in the lunar cycle, 0 (new) to 7 (waning crescent). */
    function Index(): nat {
      match this
      case NewMoon => 0
      case WaxingCrescent => 1
      case FirstQuarter => 2
      case WaxingGibbous => 3
      case FullMoon => 4
      case WaningGibbous => 5
      case LastQuarter => 6
      case WaningCrescent => 7
    }
  }

  /** The eighth of the cycle a fraction in [0, 1) falls into, centred on the named phases. */
  function Band(f: real): int {
    ((f + 0.0625) * 8.0).Floor % 8
  }

  /**
   * The name table of `_calculateMoonPhase`. Any fraction is accepted: a negative
   * one (the JavaScript `%` of a date before the reference new moon) reads as new moon.
   */
  function PhaseOfFraction(f: real): (p: Phase)
    ensures f < 0.0625 || f >= 0.9375 ==> p == NewMoon
    ensures 0.0 <= f < 1.0 ==> p.Index() == Band(f)
  {
    if f < 0.0625 then NewMoon
    else if f < 0.1875 then WaxingCrescent
    else if f < 0.3125 then FirstQuarter
    else if f < 0.4375 then WaxingGibbous
    else if f < 0.5625 then FullMoon
    else if f < 0.6875 then WaningGibbous
    else if f < 0.8125 then LastQuarter
    else if f < 0.9375 then WaningCrescent
    else NewMoon
  }

  /** Between the two new-moon bands the phase never goes backwards as the fraction grows. */
  lemma PhaseOrdered(f: real, g: real)
    requires 0.0625 <= f <= g < 0.9375
    ensures 1 <= PhaseOfFraction(f).Index() <= PhaseOfFraction(g).Index() <= 7
  {
  }

  /** `_getMoonPhase`: the state of the moon entity when there is one, otherwise the computed name. */
  function MoonPhaseName(entityState: Option<string>, f: real): (name: string)
    ensures entityState.Some? ==> name == entityState.value
    ensures entityState.None? ==> name == PhaseOfFraction(f).Name()
  {
    match entityState
    case Some(s) => s
    case None => PhaseOfFraction(f).Name()
  }

  datatype Side = Left | Right

  /** `NoShadow` for full moon; otherwise the shadowed side and the illumination used. */
  datatype Shadow = NoShadow | Shade(side: Side, illumination: real)

  /** The `switch` of `_drawPhaseShadow`; an unknown name keeps the defaults (left, 0.5). */
  function ShadowOf(name: string): (s: Shadow)
    ensures s.NoShadow? <==> name == "full_moon"
    ensures s.Shade? ==> s.illumination in {0.0, 0.15, 0.5, 0.85}
    ensures s.Shade? && s.side == Right <==> name in ["waning_gibbous", "last_quarter", "waning_crescent"]
    ensures (name !in ["new_moon", "waxing_crescent", "first_quarter", "waxing_gibbous", "full_moon",
                       "waning_gibbous", "last_quarter", "waning_crescent"]) ==> s == Shade(Left, 0.5)
  {
    if name == "new_moon" then Shade(Left, 0.0)
    else if name == "waxing_crescent" then Shade(Left, 0.15)
    else if name == "first_quarter" then Shade(Left, 0.5)
    else if name == "waxing_gibbous" then Shade(Left, 0.85)
    else if name == "full_moon" then NoShadow
    else if name == "waning_gibbous" then Shade(Right, 0.85)
    else if name == "last_quarter" then Shade(Right, 0.5)
    else if name == "waning_crescent" then Shade(Right, 0.15)
    else Shade(Left, 0.5)
  }

  predicate Waxing(p: Phase) {
    p in {WaxingCrescent, FirstQuarter, WaxingGibbous}
  }

  predicate Waning(p: Phase) {
    p in {WaningGibbous, LastQuarter, WaningCrescent}
  }

  /** Illumination by shape: crescent 0.15, quarter 0.5, gibbous 0.85. */
  function ShapeIllumination(p: Phase): real {
    match p
    case WaxingCrescent | WaningCrescent => 0.15
    case FirstQuarter | LastQuarter => 0.5
    case WaxingGibbous | WaningGibbous => 0.85
    case NewMoon => 0.0
    case FullMoon => 1.0
  }

  /** Waxing phases shade the left side, waning phases the right, with the shape's illumination; full moon has no shadow. */
  lemma ShadowTable(p: Phase)
    ensures p == FullMoon <==> ShadowOf(p.Name()).NoShadow?
    ensures Waxing(p) ==> ShadowOf(p.Name()) == Shade(Left, ShapeIllumination(p))
    ensures Waning(p) ==> ShadowOf(p.Name()) == Shade(Right, ShapeIllumination(p))
    ensures p == NewMoon ==> ShadowOf(p.Name()) == Shade(Left, 0.0)
  {
  }

  function Abs(x: real): real {
    if x < 0.0 then -x else x
  }

  /**
   * The shadow ellipse: horizontal offset of its centre from the moon's centre,
   * its semi-width (the semi-height is the moon's size), and whether it is cut
   * out of a dark disc (`destination-out`) rather than painted as the shadow.
   */
  datatype Ellipse = Ellipse(dx: real, semiWidth: real, cutOut: bool)

  function Geometry(side: Side, illumination: real, size: real): (e: Ellipse)
    ensures e.semiWidth == size * Abs(1.0 - 2.0 * illumination)
    ensures e.cutOut <==> illumination < 0.5
  {
    var width := size * Abs(1.0 - illumination * 2.0);
    if illumination < 0.5 then
      Ellipse(if side == Left then size * (0.5 - illumination) else -(size * (0.5 - illumination)), width, true)
    else
      Ellipse(if side == Left then -(size * (illumination - 0.5)) else size * (illumination - 0.5), width, false)
  }

  /** Both branches place the ellipse centre at `size * (0.5 - illumination)` from the middle, mirrored for the right side. */
  lemma CentreOffset(side: Side, illumination: real, size: real)
    ensures Geometry(side, illumination, size).dx
         == (if side == Left then 1.0 else -1.0) * size * (0.5 - illumination)
  {
  }

  /** A waning phase draws the mirror image of its waxing counterpart. */
  lemma WaningMirrorsWaxing(waxing: Phase, waning: Phase, size: real)
    requires (waxing, waning) in {(WaxingCrescent, WaningCrescent), (FirstQuarter, LastQuarter), (WaxingGibbous, WaningGibbous)}
    ensures ShadowOf(waxing.Name()).Shade? && ShadowOf(waning.Name()).Shade?
    ensures var a := ShadowOf(waxing.Name()); var b := ShadowOf(waning.Name());
      var ga := Geometry(a.side, a.illumination, size); var gb := Geometry(b.side, b.illumination, size);
      gb.dx == -ga.dx && gb.semiWidth == ga.semiWidth && gb.cutOut == ga.cutOut
  {
    ShadowTable(waxing);
    ShadowTable(waning);
  }

  /**
   * Crescents are cut out of a dark disc, gibbous phases paint a shadow, both with
   * an ellipse of semi-width 0.7 * size; a quarter paints an ellipse of width 0,
   * that is no visible shadow at all.
   */
  lemma ShapesOfShadow(p: Phase, size: real)
    requires p != NewMoon && p != FullMoon
    ensures ShadowOf(p.Name()).Shade?
    ensures var s := ShadowOf(p.Name()); var g := Geometry(s.side, s.illumination, size);
      && (g.cutOut <==> p in {WaxingCrescent, WaningCrescent})
      && (p in {FirstQuarter, LastQuarter} ==> g.semiWidth == 0.0 && !g.cutOut)
      && (p !in {FirstQuarter, LastQuarter} ==> g.semiWidth == 0.7 * size)
  {
  }

  /** `_drawMoonGlow`'s intensity: full moon 0.6, then by substring gibbous 0.45, quarter 0.35, crescent 0.25, else 0.3. */
  function GlowIntensity(name: string): (g: real)
    ensures 0.25 <= g <= 0.6
    ensures g == 0.6 <==> name == "full_moon"
    ensures (name != "full_moon" && !Text.Contains(name, "gibbous") && !Text.Contains(name, "quarter")
             && !Text.Contains(name, "crescent")) ==> g == 0.3
  {
    if name == "full_moon" then 0.6
    else if Text.Contains(name, "gibbous") then 0.45
    else if Text.Contains(name, "quarter") then 0.35
    else if Text.Contains(name, "crescent") then 0.25
    else 0.3
  }

  /** Glow by shape of the moon. */
  function ShapeGlow(p: Phase): real {
    match p
    case FullMoon => 0.6
    case WaxingGibbous | WaningGibbous => 0.45
    case FirstQuarter | LastQuarter => 0.35
    case WaxingCrescent | WaningCrescent => 0.25
    case NewMoon => 0.3
  }

  /** The substring tests of `_drawMoonGlow` give each named phase the glow of its shape. */
  lemma GlowTable(p: Phase)
    ensures GlowIntensity(p.Name()) == ShapeGlow(p)
  {
    match p
    case FullMoon =>
    case WaxingGibbous => 
      assert "waxing_" + "gibbous" == "waxing_gibbous";
      GlowNamed("waxing_", "gibbous", 0.45);
    case WaningGibbous => 
      assert "waning_" + "gibbous" == "waning_gibbous";
      GlowNamed("waning_", "gibbous", 0.45);
    case FirstQuarter => 
      assert "first_" + "quarter" == "first_quarter";
      GlowNamed("first_", "quarter", 0.35);
    case LastQuarter => 
      assert "last_" + "quarter" == "last_quarter";
      GlowNamed("last_", "quarter", 0.35);
    case WaxingCrescent => 
      assert "waxing_" + "crescent" == "waxing_crescent";
      GlowNamed("waxing_", "crescent", 0.25);
    case WaningCrescent => 
      assert "waning_" + "crescent" == "waning_crescent";
      GlowNamed("waning_", "crescent", 0.25);
    case NewMoon =>
      Text.MissingCharNotContained("new_moon", "gibbous", 'b');
      Text.MissingCharNotContained("new_moon", "quarter", 'q');
      Text.MissingCharNotContained("new_moon", "crescent", 'c');
  }

  /** A name made of a prefix without 'b' or 'q' and a shape word gets that word's glow. */
  lemma GlowNamed(prefix: string, shape: string, glow: real)
    requires (shape, glow) in {("gibbous", 0.45), ("quarter", 0.35), ("crescent", 0.25)}
    requires 'b' !in prefix && 'q' !in prefix && prefix + shape != "full_moon"
    ensures GlowIntensity(prefix + shape) == glow
  {
    Text.ContainsJoin(prefix, shape, "");
    assert prefix + shape + "" == prefix + shape;
    if shape != "gibbous" {
      Text.MissingCharNotContained(prefix + shape, "gibbous", 'b');
    }
    if shape == "crescent" {
      Text.MissingCharNotContained(prefix + shape, "quarter", 'q');
    }
  }

  /** Among the visible phases, a more illuminated shape glows more. */
  lemma GlowFollowsIllumination(p: Phase, q: Phase)
    requires p != NewMoon && q != NewMoon
    requires ShapeIllumination(p) < ShapeIllumination(q)
    ensures GlowIntensity(p.Name()) < GlowIntensity(q.Name())
  {
    GlowTable(p);
    GlowTable(q);
  }

  /** What `_drawMoon` does in one frame. */
  datatype MoonFrame = Hidden | Drawn(alpha: real, glow: Option<real>, shadow: Shadow)

  function MoonPlan(isNight: bool, name: string, coverage: real, glowEnabled: bool): (m: MoonFrame)
    ensures m.Drawn? <==> isNight && name != "new_moon" && coverage < 112.5
    ensures m.Drawn? ==> m.alpha > 0.1 && m.shadow == ShadowOf(name)
    ensures m.Drawn? ==> (m.glow.Some? <==> glowEnabled)
    ensures m.Drawn? && glowEnabled ==> m.glow.value == GlowIntensity(name)
  {
    if !isNight || name == "new_moon" then Hidden
    else
      var alpha := Environment.MoonOcclusion(coverage);
      if alpha <= 0.1 then Hidden
      else Drawn(alpha, if glowEnabled then Some(GlowIntensity(name)) else None, ShadowOf(name))
  }

  /** At night, with coverage in range, every phase except the new moon is drawn. */
  lemma VisibleMoon(name: string, coverage: real, glowEnabled: bool)
    requires name != "new_moon" && 0.0 <= coverage <= 100.0
    ensures MoonPlan(true, name, coverage, glowEnabled).Drawn?
    ensures MoonPlan(true, name, coverage, glowEnabled).alpha >= 0.2
  {
    Environment.MoonSurvivesAnyCoverage(coverage);
  }
}

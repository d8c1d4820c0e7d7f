/**
 * The per-frame environment read by `_animate`: wind (`_getWindData`), cloud
 * coverage (`_getCloudCoverage`), the derived frame scalars (wind direction sign,
 * clamped move speed, cloud density and target), the star and moon cloud
 * cut-offs, and which subsystems run for a given weather string.
 *
 * An entity reading is an `Option<Option<real>>`: `None` when the entity is not
 * configured or has no state, `Some(None)` when `parseFloat` of its state is NaN,
 * `Some(Some(v))` otherwise. A weather attribute is an `Option<real>`; JavaScript
 * treats a numeric 0 attribute as false, so it is read as absent.
 */
module Environment {
  import opened Wrappers

  datatype Wind = Wind(speed: real, bearing: real)

  /** Truthiness of a numeric attribute: present and non-zero. */
  predicate Truthy(attr: Option<real>) {
    attr.Some? && attr.value != 0.0
  }

  /**
   * One wind quantity: the dedicated entity wins, then the weather attribute,
   * then `unset`; a reading that does not parse becomes `unparsed`.
   */
  function WindValue(entity: Option<Option<real>>, attr: Option<real>, unset: real, unparsed: real): (v: real)
    ensures entity == Some(None) ==> v == unparsed
    ensures entity.Some? && entity.value.Some? ==> v == entity.value.value
    ensures entity.None? && Truthy(attr) ==> v == attr.value
    ensures entity.None? && !Truthy(attr) ==> v == unset
  {
    match entity
    case Some(parsed) => parsed.GetOr(unparsed)
    case None => if Truthy(attr) then attr.value else unset
  }

  /** `_getWindData`: speed 10 and bearing 270 without any source, 5 and 270 for unreadable readings. */
  function WindData(speedEntity: Option<Option<real>>, speedAttr: Option<real>,
                    bearingEntity: Option<Option<real>>, bearingAttr: Option<real>): (w: Wind)
    ensures speedEntity.None? && !Truthy(speedAttr) ==> w.speed == 10.0
    ensures bearingEntity.None? && !Truthy(bearingAttr) ==> w.bearing == 270.0
    ensures speedEntity == Some(None) ==> w.speed == 5.0
    ensures bearingEntity == Some(None) ==> w.bearing == 270.0
    ensures speedEntity.Some? && speedEntity.value.Some? ==> w.speed == speedEntity.value.value
    ensures bearingEntity.Some? && bearingEntity.value.Some? ==> w.bearing == bearingEntity.value.value
    ensures speedEntity.None? && Truthy(speedAttr) ==> w.speed == speedAttr.value
    ensures bearingEntity.None? && Truthy(bearingAttr) ==> w.bearing == bearingAttr.value
  {
    Wind(WindValue(speedEntity, speedAttr, 10.0, 5.0), WindValue(bearingEntity, bearingAttr, 270.0, 270.0))
  }

  /** `_getCloudCoverage`: the parsed entity state, or 0 when it is missing or does not parse. */
  function CloudCoverage(entity: Option<Option<real>>): (c: real)
    ensures entity.Some? && entity.value.Some? ==> c == entity.value.value
    ensures !(entity.Some? && entity.value.Some?) ==> c == 0.0
  {
    match entity
    case Some(Some(v)) => v
    case _ => 0.0
  }

  /** Horizontal drift sign: +1 for bearings above 180 or below 0, otherwise -1. */
  function WindDirX(bearing: real): (d: int)
    ensures d == 1 || d == -1
    ensures d == 1 <==> bearing > 180.0 || bearing < 0.0
  {
    if bearing > 180.0 || bearing < 0.0 then 1 else -1
  }

  /** For a compass bearing in [0, 360), particles drift right exactly for the western half (180, 360). */
  lemma WindDirXOnCompass(bearing: real)
    requires 0.0 <= bearing < 360.0
    ensures WindDirX(bearing) == 1 <==> 180.0 < bearing
  {
  }

  /** `moveSpeed`: speed / 15 clamped to [0.2, 6]. */
  function MoveSpeed(speed: real): (m: real)
    ensures 0.2 <= m <= 6.0
    ensures 0.2 <= speed / 15.0 <= 6.0 ==> m == speed / 15.0
    ensures speed / 15.0 < 0.2 ==> m == 0.2
    ensures speed / 15.0 > 6.0 ==> m == 6.0
  {
    var m := speed / 15.0;
    if m < 0.2 then 0.2 else if m > 6.0 then 6.0 else m
  }

  lemma MoveSpeedMonotone(a: real, b: real)
    requires a <= b
    ensures MoveSpeed(a) <= MoveSpeed(b)
  {
  }

  /** Cloud density: 1, then 1.5 above 50 % coverage, then 2 above 80 %. */
  function CloudDensity(coverage: real): (d: real)
    ensures d == 1.0 || d == 1.5 || d == 2.0
    ensures d == 2.0 <==> coverage > 80.0
    ensures d == 1.0 <==> coverage <= 50.0
  {
    var d := 1.0;
    var d := if coverage > 50.0 then 1.5 else d;
    if coverage > 80.0 then 2.0 else d
  }

  /** Number of clouds `_drawClouds` steers toward: `floor(5 * density)`. */
  function CloudTarget(density: real): int {
    (5.0 * density).Floor
  }

  /** The three densities give 5, 7 and 10 clouds; more coverage never means fewer clouds. */
  lemma CloudTargetByCoverage(c: real, e: real)
    requires c <= e
    ensures CloudTarget(CloudDensity(c)) in {5, 7, 10}
    ensures CloudTarget(CloudDensity(c)) <= CloudTarget(CloudDensity(e))
  {
    assert (5.0 * 1.5).Floor == 7;
  }

  /** Star visibility factor `max(0, 1 - coverage / 80)`; stars are drawn when it is positive. */
  function StarVisibility(coverage: real): (v: real)
    ensures 0.0 <= v
    ensures v > 0.0 <==> coverage < 80.0
    ensures coverage >= 0.0 ==> v <= 1.0
  {
    var v := 1.0 - coverage / 80.0;
    if v < 0.0 then 0.0 else v
  }

  /** Moon opacity `max(0, 1 - coverage / 100 * 0.8)`; the moon is skipped at 0.1 or less. */
  function MoonOcclusion(coverage: real): (o: real)
    ensures 0.0 <= o
    ensures o > 0.1 <==> coverage < 112.5
  {
    var o := 1.0 - (coverage / 100.0) * 0.8;
    if o < 0.0 then 0.0 else o
  }

  /** Within the 0..100 % coverage range the moon is never fully occluded (its opacity stays at least 0.2). */
  lemma MoonSurvivesAnyCoverage(coverage: real)
    requires 0.0 <= coverage <= 100.0
    ensures MoonOcclusion(coverage) >= 0.2
  {
  }

  datatype Precipitation = NoPrecipitation | Rain(intensity: nat) | Snow

  /** Which parts of the scene one `_animate` frame updates. */
  datatype Plan = Plan(
    stars: bool,
    moon: bool,
    shootingStars: bool,
    seasonal: bool,
    fog: bool,
    clouds: bool,
    precipitation: Precipitation,
    lightning: bool)

  /**
   * A weather state as `_animate` tells them apart: the ten states it names,
   * `NoState` for a missing state (the empty string) and `Other` for any other.
   */
  datatype Weather =
    | NoState | ClearNight | Sunny | Cloudy | Fog | Rainy | Pouring
    | Lightning | LightningRainy | Snowy | SnowyRainy
    | Other(name: string)
  {
    /** The state string this weather stands for. */
    function Name(): string {
      match this
      case NoState => ""
      case ClearNight => "clear-night"
      case Sunny => "sunny"
      case Cloudy => "cloudy"
      case Fog => "fog"
      case Rainy => "rainy"
      case Pouring => "pouring"
      case Lightning => "lightning"
      case LightningRainy => "lightning-rainy"
      case Snowy => "snowy"
      case SnowyRainy => "snowy-rainy"
      case Other(n) => n
    }

    predicate Rains() { Rainy? || Pouring? || Lightning? || LightningRainy? }

    predicate Snows() { Snowy? || SnowyRainy? }

    predicate Thunders() { Lightning? || LightningRainy? }

    /** A missing state and the two clear states are the only ones without clouds of their own. */
    predicate Clear() { NoState? || ClearNight? || Sunny? }
  }

  /** Reads a state string: a named state when it is one, `Other` otherwise. */
  function Classify(w: string): (k: Weather)
    ensures k.Name() == w
    ensures k.Other? <==> forall v: Weather :: !v.Other? ==> v.Name() != w
  {
    if w == "" then NoState
    else if w == "clear-night" then ClearNight
    else if w == "sunny" then Sunny
    else if w == "cloudy" then Cloudy
    else if w == "fog" then Fog
    else if w == "rainy" then Rainy
    else if w == "pouring" then Pouring
    else if w == "lightning" then Lightning
    else if w == "lightning-rainy" then LightningRainy
    else if w == "snowy" then Snowy
    else if w == "snowy-rainy" then SnowyRainy
    else Other(w)
  }

  /** Reading the name of a named state gives that state back. */
  lemma ClassifyName(k: Weather)
    requires !k.Other?
    ensures Classify(k.Name()) == k
  {
  }

  /**
   * The dispatch of `_animate` for weather `k`: stars, moon and shooting stars
   * only at night, fog for fog or at night for rain/cloud, clouds for any weather
   * except a clear one or above 20 % coverage, rain (intensity 2 only when
   * pouring) or snow, and lightning for the two thunderstorm states.
   */
  function FramePlan(k: Weather, isNight: bool, coverage: real, shootingStars: bool, seasonal: bool): (p: Plan)
    ensures p.stars == p.moon == isNight
    ensures p.shootingStars <==> isNight && shootingStars
    ensures p.seasonal == seasonal
    ensures p.fog <==> k.Fog? || (isNight && (k.Rainy? || k.Cloudy?))
    ensures p.clouds <==> !k.Clear() || coverage > 20.0
    ensures p.precipitation.Rain? <==> k.Rains()
    ensures p.precipitation.Snow? <==> k.Snows()
    ensures p.precipitation.Rain? ==> (p.precipitation.intensity == 2 <==> k.Pouring?)
    ensures p.precipitation.Rain? ==> p.precipitation.intensity in {1, 2}
    ensures p.lightning <==> k.Thunders()
  {
    Plan(
      stars := isNight,
      moon := isNight,
      shootingStars := isNight && shootingStars,
      seasonal := seasonal,
      fog := k.Fog? || (isNight && (k.Rainy? || k.Cloudy?)),
      clouds := !k.Clear() || coverage > 20.0,
      precipitation :=
        if k.Rains() then Rain(if k.Pouring? then 2 else 1)
        else if k.Snows() then Snow
        else NoPrecipitation,
      lightning := k.Thunders())
  }

  /** The same dispatch read off the state string itself, as `_animate` compares it. */
  lemma FramePlanByName(w: string, isNight: bool, coverage: real, shootingStars: bool, seasonal: bool)
    ensures var p := FramePlan(Classify(w), isNight, coverage, shootingStars, seasonal);
      && (p.fog <==> w == "fog" || (isNight && (w == "rainy" || w == "cloudy")))
      && (p.clouds <==> (w != "" && w != "clear-night" && w != "sunny") || coverage > 20.0)
      && (p.precipitation.Rain? <==> w in ["rainy", "pouring", "lightning", "lightning-rainy"])
      && (p.precipitation.Snow? <==> w in ["snowy", "snowy-rainy"])
      && (p.precipitation.Rain? ==> (p.precipitation.intensity == 2 <==> w == "pouring"))
      && (p.lightning <==> w in ["lightning", "lightning-rainy"])
  {
  }

  /** Thunderstorms always rain, and a weather state the card does not know brings no precipitation and no lightning. */
  lemma StormsRainAndUnknownWeatherIsDry(k: Weather, isNight: bool, coverage: real, s: bool, q: bool)
    ensures FramePlan(k, isNight, coverage, s, q).lightning ==> FramePlan(k, isNight, coverage, s, q).precipitation.Rain?
    ensures k.Other? ==>
      FramePlan(k, isNight, coverage, s, q).precipitation == NoPrecipitation && !FramePlan(k, isNight, coverage, s, q).lightning
  {
  }
}

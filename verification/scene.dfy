/**
 * The scene engine: the particle arrays, frame counters, bolt, flash and moon
 * glow phase that `_animate` updates once per frame. `SceneState` is a snapshot
 * of those fields, `NextFrame` the frame as a function of a snapshot, and
 * `Engine` the object whose methods update the fields in place, each proved to
 * agree with the function.
 */
module Scene {
  import opened Wrappers
  import Environment
  import Moon
  import Cooldown
  import ForEach
  import P = Particles
  import Lightning

  /** The random draws of one frame, one stream or roll per subsystem. */
  datatype Draws = Draws(
    shootingRoll: real, shootingStar: P.Stream,
    seasonalRoll: real, seasonal: P.Stream,
    fog: P.Stream, cloud: P.Stream, drop: P.Stream,
    lightningRoll: real, bolt: P.Stream)

  ghost predicate Fair(d: Draws) {
    P.Uniform(d.shootingStar) && P.Uniform(d.seasonal) && P.Uniform(d.fog)
    && P.Uniform(d.cloud) && P.Uniform(d.drop) && P.Uniform(d.bolt)
  }

  /**
   * What a frame reads outside the engine: the weather state as `Environment.Classify`
   * reads it, the wind from `_getWindData`, night, coverage, the moon phase name,
   * the card options (`None` for an unset `??` option), the canvas size, the
   * clock, `Math.sin`/`Math.cos` and the draws.
   */
  datatype FrameInput = FrameInput(
    weather: Environment.Weather, wind: Environment.Wind, isNight: bool, coverage: real,
    moonPhase: string, moonGlow: bool,
    shootingStarsOn: bool, shootingStarFrequency: Option<real>,
    seasonalOn: bool, testSeason: string, seasonState: string, seasonalDensity: Option<real>,
    width: real, height: real, now: real, sine: real -> real, cosine: real -> real,
    draws: Draws)

  function PlanOf(i: FrameInput): Environment.Plan {
    Environment.FramePlan(i.weather, i.isNight, i.coverage, i.shootingStarsOn, i.seasonalOn)
  }

  /** `_drawMoon` reaches `_drawMoonGlow`, which advances the glow phase: night, not a new moon, visible through the clouds, glow enabled. */
  predicate GlowPulses(isNight: bool, phase: string, coverage: real, glowOn: bool) {
    isNight && phase != "new_moon" && Environment.MoonOcclusion(coverage) > 0.1 && glowOn
  }

  /** The glow phase advances exactly in the frames where the moon is drawn with its glow. */
  lemma GlowPulsesWhenGlowDrawn(isNight: bool, phase: string, coverage: real, glowOn: bool)
    ensures GlowPulses(isNight, phase, coverage, glowOn) <==>
      var m := Moon.MoonPlan(isNight, phase, coverage, glowOn); m.Drawn? && m.glow.Some?
  {
  }

  datatype SceneState = SceneState(
    particles: seq<P.Drop>,
    fog: seq<P.FogBlob>,
    clouds: seq<P.Cloud>,
    stars: seq<P.Star>,
    shootingStars: seq<P.ShootingStar>,
    shootingStarTimer: int,
    seasonal: seq<P.SeasonalParticle>,
    storm: Lightning.Storm,
    moonGlowPhase: real)

  /** Rain at intensity 2 is the largest population of the shared drop array. */
  const MaxDrops := 300
  /** `floor(5 * 2)` clouds at the highest density. */
  const MaxClouds := 10

  /** The bounds every frame keeps. */
  ghost predicate Bounded(s: SceneState) {
    && |s.particles| <= MaxDrops
    && |s.fog| <= P.FogCap
    && |s.clouds| <= MaxClouds
    && 0 <= s.shootingStarTimer
    && 0 <= s.storm.timer
    && (forall k :: 0 <= k < |s.shootingStars| ==> P.TrailBounded(s.shootingStars[k]))
    && (s.storm.bolt.Some? ==> 0 <= s.storm.bolt.value.life <= 10)
    && -0.05 < s.storm.flash <= 0.5
  }

  /** The moon glow phase after a frame. */
  function GlowAfter(phase: real, plan: Environment.Plan, i: FrameInput): real {
    if plan.moon && GlowPulses(i.isNight, i.moonPhase, i.coverage, i.moonGlow) then phase + 0.02 else phase
  }

  /** The shooting-star counter tick of a frame. */
  function ShootingTick(timer: int, i: FrameInput): Cooldown.Tick {
    Cooldown.Step(timer, 60, i.coverage <= 70.0, i.draws.shootingRoll < i.shootingStarFrequency.GetOr(0.002))
  }

  function TimerAfter(timer: int, plan: Environment.Plan, i: FrameInput): int {
    if plan.shootingStars then ShootingTick(timer, i).timer else timer
  }

  function ShootingAfter(stars: seq<P.ShootingStar>, timer: int, plan: Environment.Plan, i: FrameInput): seq<P.ShootingStar>
    requires P.Uniform(i.draws.shootingStar)
  {
    if plan.shootingStars && i.coverage <= 70.0
    then P.ShootingStarsFrame(stars, ShootingTick(timer, i).fired,
           P.NewShootingStar(i.draws.shootingStar, i.width, i.height, i.sine, i.cosine), i.width, i.height)
    else stars
  }

  function SeasonalAfter(ps: seq<P.SeasonalParticle>, plan: Environment.Plan, i: FrameInput): seq<P.SeasonalParticle>
    requires P.Uniform(i.draws.seasonal)
  {
    var dirX := Environment.WindDirX(i.wind.bearing);
    var season := P.SeasonOf(i.testSeason, i.seasonState);
    if plan.seasonal
    then P.SeasonalFrame(ps, season, P.SeasonalCap(i.seasonalDensity.GetOr(1.0)), i.draws.seasonalRoll,
           P.NewSeasonalParticle(season, dirX, i.draws.seasonal, i.width, i.height),
           P.SeasonalStep(dirX, Environment.MoveSpeed(i.wind.speed), i.sine, i.now), i.width, i.height)
    else ps
  }

  function FogAfter(fog: seq<P.FogBlob>, plan: Environment.Plan, i: FrameInput): seq<P.FogBlob>
    requires P.Uniform(i.draws.fog)
  {
    if plan.fog
    then ForEach.Map(P.WithSpawn(fog, P.FogCap, P.NewFogBlob(i.draws.fog, i.width, i.height)),
                     P.FogStep(Environment.MoveSpeed(i.wind.speed), i.width))
    else fog
  }

  function CloudsAfter(clouds: seq<P.Cloud>, plan: Environment.Plan, i: FrameInput): seq<P.Cloud>
    requires P.Uniform(i.draws.cloud)
  {
    var dirX := Environment.WindDirX(i.wind.bearing);
    if plan.clouds
    then P.CloudsFrame(clouds, Environment.CloudTarget(Environment.CloudDensity(i.coverage)),
           P.NewCloud(i.draws.cloud, dirX, i.width), dirX, Environment.MoveSpeed(i.wind.speed), i.width)
    else clouds
  }

  /** The rain or snow step of a frame, by the plan's precipitation. */
  function DropsAfter(particles: seq<P.Drop>, plan: Environment.Plan, i: FrameInput): seq<P.Drop>
    requires P.Uniform(i.draws.drop)
  {
    var dirX := Environment.WindDirX(i.wind.bearing);
    var speed := Environment.MoveSpeed(i.wind.speed);
    match plan.precipitation
    case Rain(k) =>
      P.Precipitate(particles, P.RainCap(k), P.NewRaindrop(i.draws.drop, i.width, speed),
                    P.RainStep(dirX as real * (speed * 1.5)), i.width, i.height)
    case Snow =>
      P.Precipitate(particles, P.SnowCap, P.NewSnowflake(i.draws.drop, i.width),
                    P.SnowStep(dirX, speed, i.sine), i.width, i.height)
    case NoPrecipitation => particles
  }

  /** The lightning step, when the weather is stormy, followed by the flash decay. */
  function StormAfter(storm: Lightning.Storm, plan: Environment.Plan, i: FrameInput): Lightning.Storm
    requires P.Uniform(i.draws.bolt)
  {
    var st := if plan.lightning
      then Lightning.StormFrame(storm, i.draws.lightningRoll, i.draws.bolt, i.width, i.height)
      else storm;
    st.(flash := Lightning.FlashStep(st.flash))
  }

  /** One `_animate` frame on a snapshot, in the card's dispatch order; the stars are only drawn. */
  function NextFrame(s: SceneState, i: FrameInput): (n: SceneState)
    requires Fair(i.draws)
    ensures n.stars == s.stars
    ensures n.moonGlowPhase == s.moonGlowPhase || n.moonGlowPhase == s.moonGlowPhase + 0.02
  {
    var plan := PlanOf(i);
    SceneState(
      particles := DropsAfter(s.particles, plan, i),
      fog := FogAfter(s.fog, plan, i),
      clouds := CloudsAfter(s.clouds, plan, i),
      stars := s.stars,
      shootingStars := ShootingAfter(s.shootingStars, s.shootingStarTimer, plan, i),
      shootingStarTimer := TimerAfter(s.shootingStarTimer, plan, i),
      seasonal := SeasonalAfter(s.seasonal, plan, i),
      storm := StormAfter(s.storm, plan, i),
      moonGlowPhase := GlowAfter(s.moonGlowPhase, plan, i))
  }

  lemma DropsStayCapped(particles: seq<P.Drop>, plan: Environment.Plan, i: FrameInput)
    requires P.Uniform(i.draws.drop) && |particles| <= MaxDrops
    requires plan.precipitation.Rain? ==> plan.precipitation.intensity <= 2
    ensures |DropsAfter(particles, plan, i)| <= MaxDrops
  {
    var dirX := Environment.WindDirX(i.wind.bearing);
    var speed := Environment.MoveSpeed(i.wind.speed);
    match plan.precipitation {
      case Rain(k) =>
        P.PrecipitationFrame(particles, P.RainCap(k), P.NewRaindrop(i.draws.drop, i.width, speed),
                             P.RainStep(dirX as real * (speed * 1.5)), i.width, i.height);
      case Snow =>
        P.PrecipitationFrame(particles, P.SnowCap, P.NewSnowflake(i.draws.drop, i.width),
                             P.SnowStep(dirX, speed, i.sine), i.width, i.height);
      case NoPrecipitation =>
    }
  }

  lemma CloudsStayCapped(clouds: seq<P.Cloud>, plan: Environment.Plan, i: FrameInput)
    requires P.Uniform(i.draws.cloud) && |clouds| <= MaxClouds
    ensures |CloudsAfter(clouds, plan, i)| <= MaxClouds
  {
    var dirX := Environment.WindDirX(i.wind.bearing);
    var target := Environment.CloudTarget(Environment.CloudDensity(i.coverage));
    Environment.CloudTargetByCoverage(i.coverage, i.coverage);
    P.CloudsFrameBounded(clouds, target, P.NewCloud(i.draws.cloud, dirX, i.width), dirX,
                         Environment.MoveSpeed(i.wind.speed), i.width);
  }

  lemma TrailsStayBounded(stars: seq<P.ShootingStar>, timer: int, plan: Environment.Plan, i: FrameInput)
    requires P.Uniform(i.draws.shootingStar)
    requires forall k :: 0 <= k < |stars| ==> P.TrailBounded(stars[k])
    ensures var r := ShootingAfter(stars, timer, plan, i);
      forall k :: 0 <= k < |r| ==> P.TrailBounded(r[k])
  {
    P.ShootingStarsFrameKeepsTrails(stars, ShootingTick(timer, i).fired,
      P.NewShootingStar(i.draws.shootingStar, i.width, i.height, i.sine, i.cosine), i.width, i.height);
  }

  lemma StormStaysBounded(storm: Lightning.Storm, plan: Environment.Plan, i: FrameInput)
    requires P.Uniform(i.draws.bolt)
    requires 0 <= storm.timer && -0.05 < storm.flash <= 0.5
    requires storm.bolt.Some? ==> 0 <= storm.bolt.value.life <= 10
    ensures var n := StormAfter(storm, plan, i);
      && 0 <= n.timer && -0.05 < n.flash <= 0.5
      && (n.bolt.Some? ==> 0 <= n.bolt.value.life <= 10)
  {
    Lightning.StrikeShape(storm, i.draws.lightningRoll, i.draws.bolt, i.width, i.height);
  }

  /** Every frame keeps the population caps, the trail bounds, the counters, the bolt life and the flash range. */
  lemma FrameKeepsBounds(s: SceneState, i: FrameInput)
    requires Bounded(s) && Fair(i.draws)
    ensures Bounded(NextFrame(s, i))
  {
    var plan := PlanOf(i);
    DropsStayCapped(s.particles, plan, i);
    CloudsStayCapped(s.clouds, plan, i);
    TrailsStayBounded(s.shootingStars, s.shootingStarTimer, plan, i);
    StormStaysBounded(s.storm, plan, i);
  }

  /**
   * A frame changes only what the weather plan runs: the stars never change,
   * a subsystem that does not run keeps its state, shooting stars freeze above
   * 70 % cover, and seasonal particles vanish out of season.
   */
  lemma FrameTouchesOnlyPlannedParts(s: SceneState, i: FrameInput)
    requires Fair(i.draws)
    ensures var n := NextFrame(s, i); var plan := PlanOf(i);
      && n.stars == s.stars
      && (!plan.fog ==> n.fog == s.fog)
      && (!plan.clouds ==> n.clouds == s.clouds)
      && (plan.precipitation.NoPrecipitation? ==> n.particles == s.particles)
      && ((!plan.shootingStars || i.coverage > 70.0) ==>
            n.shootingStars == s.shootingStars && n.shootingStarTimer == s.shootingStarTimer)
      && (!plan.seasonal ==> n.seasonal == s.seasonal)
      && (plan.seasonal && !P.SeasonActive(P.SeasonOf(i.testSeason, i.seasonState)) ==> n.seasonal == [])
      && (!plan.lightning ==> n.storm == s.storm.(flash := Lightning.FlashStep(s.storm.flash)))
      && (!i.isNight ==> n.moonGlowPhase == s.moonGlowPhase)
  {
  }

  /** The engine's fields, as the card keeps them. */
  class Engine {
    var particles: seq<P.Drop>
    var fog: seq<P.FogBlob>
    var clouds: seq<P.Cloud>
    var stars: seq<P.Star>
    var shootingStars: seq<P.ShootingStar>
    var shootingStarTimer: int
    var seasonal: seq<P.SeasonalParticle>
    var lightningTimer: int
    var bolt: Option<P.Bolt>
    var flash: real
    var moonGlowPhase: real

    function Snapshot(): SceneState
      reads this
    {
      SceneState(particles, fog, clouds, stars, shootingStars, shootingStarTimer, seasonal,
                 Lightning.Storm(lightningTimer, bolt, flash), moonGlowPhase)
    }

    ghost predicate Valid()
      reads this
    {
      Bounded(Snapshot())
    }

    /** Empty arrays, zero counters, no bolt, no flash. */
    constructor ()
      ensures Valid()
      ensures Snapshot() == SceneState([], [], [], [], [], 0, [], Lightning.Storm(0, None, 0.0), 0.0)
    {
      particles, fog, clouds, stars, shootingStars, seasonal := [], [], [], [], [], [];
      shootingStarTimer, lightningTimer := 0, 0;
      bolt, flash, moonGlowPhase := None, 0.0, 0.0;
    }

    /** `_initStars`: sixty stars scattered over the canvas. */
    method InitStars(rand: P.Stream, width: real, height: real)
      requires P.Uniform(rand)
      requires width >= 0.0 && height >= 0.0
      modifies this`stars
      ensures |stars| == P.StarCount
      ensures forall k :: 0 <= k < |stars| ==> stars[k] == P.NewStar(rand, 5 * k, width, height)
      ensures forall k :: 0 <= k < |stars| ==> P.StarOnCanvas(stars[k], width, height)
    {
      stars := [];
      var i := 0;
      while i < P.StarCount
        invariant 0 <= i <= P.StarCount && |stars| == i
        invariant forall k :: 0 <= k < i ==> stars[k] == P.NewStar(rand, 5 * k, width, height)
      {
        stars := stars + [P.NewStar(rand, 5 * i, width, height)];
        i := i + 1;
      }
    }

    /** The glow-phase update of `_drawMoon`/`_drawMoonGlow`. */
    method DrawMoon(isNight: bool, phase: string, coverage: real, glowOn: bool)
      modifies this`moonGlowPhase
      ensures moonGlowPhase == old(moonGlowPhase) + (if GlowPulses(isNight, phase, coverage, glowOn) then 0.02 else 0.0)
    {
      if !isNight || phase == "new_moon" {
        return;
      }
      var occlusion := Environment.MoonOcclusion(coverage);
      if occlusion <= 0.1 {
        return;
      }
      if glowOn {
        moonGlowPhase := moonGlowPhase + 0.02;
      }
    }

    /** `_handleShootingStars` (the spawn is `_spawnShootingStar`). */
    method HandleShootingStars(coverage: real, frequency: real, roll: real, rand: P.Stream,
                               width: real, height: real, sine: real -> real, cosine: real -> real)
      requires P.Uniform(rand)
      modifies this`shootingStarTimer, this`shootingStars
      ensures var tick := Cooldown.Step(old(shootingStarTimer), 60, coverage <= 70.0, roll < frequency);
        && shootingStarTimer == tick.timer
        && shootingStars == if coverage <= 70.0
             then P.ShootingStarsFrame(old(shootingStars), tick.fired,
                    P.NewShootingStar(rand, width, height, sine, cosine), width, height)
             else old(shootingStars)
    {
      if coverage > 70.0 {
        return;
      }
      ghost var tick := Cooldown.Step(shootingStarTimer, 60, true, roll < frequency);
      var spawned := P.NewShootingStar(rand, width, height, sine, cosine);
      shootingStarTimer := shootingStarTimer + 1;
      if shootingStarTimer > 60 && roll < frequency {
        shootingStars := shootingStars + [spawned];
        shootingStarTimer := 0;
      }
      assert shootingStarTimer == tick.timer;
      assert shootingStars == old(shootingStars) + (if tick.fired then [spawned] else []);
      shootingStars := ForEach.RunForEachSplice(shootingStars, P.ShootingStarStep, P.ShootingStarGone(width, height));
    }

    /** `_drawSeasonalParticles` (the spawn is `_spawnSeasonalParticle`). */
    method DrawSeasonalParticles(season: string, windDirX: int, windSpeed: real, density: real, roll: real,
                                 rand: P.Stream, width: real, height: real, sine: real -> real, now: real)
      requires P.Uniform(rand)
      modifies this`seasonal
      ensures seasonal == P.SeasonalFrame(old(seasonal), season, P.SeasonalCap(density), roll,
        P.NewSeasonalParticle(season, windDirX, rand, width, height),
        P.SeasonalStep(windDirX, windSpeed, sine, now), width, height)
    {
      if !P.SeasonActive(season) {
        seasonal := [];
        return;
      }
      var maxParticles := P.SeasonalCap(density);
      if |seasonal| < maxParticles && roll < 0.1 {
        seasonal := seasonal + [P.NewSeasonalParticle(season, windDirX, rand, width, height)];
      }
      seasonal := ForEach.RunForEachSplice(seasonal, P.SeasonalStep(windDirX, windSpeed, sine, now), P.SeasonalGone(width, height));
    }

    /** `_drawFog`: spawn below ten blobs, then move every blob (nothing is removed). */
    method DrawFog(speed: real, rand: P.Stream, width: real, height: real)
      requires P.Uniform(rand)
      modifies this`fog
      ensures fog == ForEach.Map(P.WithSpawn(old(fog), P.FogCap, P.NewFogBlob(rand, width, height)), P.FogStep(speed, width))
    {
      if |fog| < P.FogCap {
        fog := fog + [P.NewFogBlob(rand, width, height)];
      }
      ghost var spawned := fog;
      var i := 0;
      while i < |fog|
        invariant 0 <= i <= |fog| == |spawned|
        invariant forall k :: 0 <= k < i ==> fog[k] == P.FogStep(speed, width)(spawned[k])
        invariant forall k :: i <= k < |fog| ==> fog[k] == spawned[k]
      {
        fog := fog[i := P.FogStep(speed, width)(fog[i])];
        i := i + 1;
      }
    }

    /** `_drawClouds` (the new cloud comes from `_createCloud`). */
    method DrawClouds(dirX: int, baseSpeed: real, density: real, rand: P.Stream, width: real)
      requires P.Uniform(rand)
      modifies this`clouds
      ensures clouds == P.CloudsFrame(old(clouds), Environment.CloudTarget(density), P.NewCloud(rand, dirX, width),
                                      dirX, baseSpeed, width)
    {
      var target := Environment.CloudTarget(density);
      if |clouds| < target {
        var c := P.CreateCloud(rand, dirX, width);
        clouds := clouds + [c];
      }
      if |clouds| > target && clouds != [] {
        clouds := clouds[..|clouds| - 1];
      }
      clouds := ForEach.RunForEachSplice(clouds, P.CloudStep(baseSpeed, dirX), P.CloudGone(dirX, width));
    }

    /** `_drawRain`. */
    method DrawRain(intensity: nat, windDirX: int, windSpeed: real, rand: P.Stream, width: real, height: real)
      requires P.Uniform(rand)
      modifies this`particles
      ensures particles == P.Precipitate(old(particles), P.RainCap(intensity), P.NewRaindrop(rand, width, windSpeed),
                                         P.RainStep(windDirX as real * (windSpeed * 1.5)), width, height)
    {
      if |particles| < P.RainCap(intensity) {
        particles := particles + [P.NewRaindrop(rand, width, windSpeed)];
      }
      var angleX := windDirX as real * (windSpeed * 1.5);
      particles := ForEach.RunIndexSplice(particles, P.RainStep(angleX), P.DropGone(width, height));
    }

    /** `_drawSnow`. */
    method DrawSnow(windDirX: int, windSpeed: real, rand: P.Stream, width: real, height: real, sine: real -> real)
      requires P.Uniform(rand)
      modifies this`particles
      ensures particles == P.Precipitate(old(particles), P.SnowCap, P.NewSnowflake(rand, width),
                                         P.SnowStep(windDirX, windSpeed, sine), width, height)
    {
      if |particles| < P.SnowCap {
        particles := particles + [P.NewSnowflake(rand, width)];
      }
      particles := ForEach.RunIndexSplice(particles, P.SnowStep(windDirX, windSpeed, sine), P.DropGone(width, height));
    }

    /** `_triggerLightning`: build the path segment by segment, then set the bolt and the flash. */
    method TriggerLightning(rand: P.Stream, width: real, height: real)
      requires P.Uniform(rand)
      modifies this`bolt, this`flash
      ensures bolt == Some(Lightning.Strike(rand, width, height)) && flash == 0.5
    {
      var reach := Lightning.Reach(height);
      var start := P.Point(rand(0) * width, 0.0);
      ghost var full := Lightning.PathFrom(rand, 0, start, reach);
      var here := start;
      var path := [start];
      var k := 0;
      while here.y < reach
        invariant path + Lightning.PathFrom(rand, k, here, reach)[1..] == full
        decreases (reach - here.y).Floor
      {
        var q := Lightning.Segment(here, rand(2 * k + 1), rand(2 * k + 2));
        ghost var rest := Lightning.PathFrom(rand, k + 1, q, reach);
        assert Lightning.PathFrom(rand, k, here, reach)[1..] == rest;
        assert rest == [q] + rest[1..];
        assert (path + [q]) + rest[1..] == path + rest;
        path := path + [q];
        here := q;
        k := k + 1;
      }
      assert Lightning.PathFrom(rand, k, here, reach)[1..] == [];
      assert path == full;
      bolt := Some(P.Bolt(path, 10));
      flash := 0.5;
    }

    /** `_handleLightning`. */
    method HandleLightning(roll: real, rand: P.Stream, width: real, height: real)
      requires P.Uniform(rand)
      modifies this`lightningTimer, this`bolt, this`flash
      ensures Lightning.Storm(lightningTimer, bolt, flash)
        == Lightning.StormFrame(old(Lightning.Storm(lightningTimer, bolt, flash)), roll, rand, width, height)
    {
      lightningTimer := lightningTimer + 1;
      if lightningTimer > 200 && roll > 0.98 {
        TriggerLightning(rand, width, height);
        lightningTimer := 0;
      }
      if bolt.Some? && bolt.value.life > 0 {
        bolt := Some(bolt.value.(life := bolt.value.life - 1));
      }
    }

    /** The rain/snow branch of `_animate`: rain (intensity 2 for "pouring") or snow, by the plan. */
    method RunPrecipitation(plan: Environment.Plan, windDirX: int, moveSpeed: real, input: FrameInput)
      requires P.Uniform(input.draws.drop)
      requires windDirX == Environment.WindDirX(input.wind.bearing) && moveSpeed == Environment.MoveSpeed(input.wind.speed)
      modifies this`particles
      ensures particles == DropsAfter(old(particles), plan, input)
    {
      match plan.precipitation {
        case Rain(intensity) => DrawRain(intensity, windDirX, moveSpeed, input.draws.drop, input.width, input.height);
        case Snow => DrawSnow(windDirX, moveSpeed, input.draws.drop, input.width, input.height, input.sine);
        case NoPrecipitation =>
      }
    }

    /** The end of `_animate`: lightning when stormy, then the flash fades by 0.05 while positive. */
    method RunLightningAndFlash(plan: Environment.Plan, input: FrameInput)
      requires P.Uniform(input.draws.bolt)
      modifies this`lightningTimer, this`bolt, this`flash
      ensures Lightning.Storm(lightningTimer, bolt, flash) == StormAfter(old(Lightning.Storm(lightningTimer, bolt, flash)), plan, input)
    {
      if plan.lightning {
        HandleLightning(input.draws.lightningRoll, input.draws.bolt, input.width, input.height);
      }
      if flash > 0.0 {
        flash := flash - 0.05;
      }
    }

    /** The moon line of `_animate`: `_drawMoon` at night. */
    method RunMoon(plan: Environment.Plan, input: FrameInput)
      modifies this`moonGlowPhase
      ensures moonGlowPhase == GlowAfter(old(moonGlowPhase), plan, input)
    {
      if plan.moon {
        DrawMoon(input.isNight, input.moonPhase, input.coverage, input.moonGlow);
      }
    }

    /** The shooting-star line of `_animate`, with the `shooting_star_frequency` default of 0.002. */
    method RunShootingStars(plan: Environment.Plan, input: FrameInput)
      requires P.Uniform(input.draws.shootingStar)
      modifies this`shootingStarTimer, this`shootingStars
      ensures shootingStarTimer == TimerAfter(old(shootingStarTimer), plan, input)
      ensures shootingStars == ShootingAfter(old(shootingStars), old(shootingStarTimer), plan, input)
    {
      if plan.shootingStars {
        HandleShootingStars(input.coverage, input.shootingStarFrequency.GetOr(0.002), input.draws.shootingRoll,
                            input.draws.shootingStar, input.width, input.height, input.sine, input.cosine);
      }
    }

    /** The seasonal line of `_animate`, with the season resolved as `_drawSeasonalParticles` does and density default 1. */
    method RunSeasonal(plan: Environment.Plan, windDirX: int, moveSpeed: real, input: FrameInput)
      requires P.Uniform(input.draws.seasonal)
      requires windDirX == Environment.WindDirX(input.wind.bearing) && moveSpeed == Environment.MoveSpeed(input.wind.speed)
      modifies this`seasonal
      ensures seasonal == SeasonalAfter(old(seasonal), plan, input)
    {
      if plan.seasonal {
        var season := P.SeasonOf(input.testSeason, input.seasonState);
        DrawSeasonalParticles(season, windDirX, moveSpeed, input.seasonalDensity.GetOr(1.0), input.draws.seasonalRoll,
                              input.draws.seasonal, input.width, input.height, input.sine, input.now);
      }
    }

    /** The fog line of `_animate`. */
    method RunFog(plan: Environment.Plan, moveSpeed: real, input: FrameInput)
      requires P.Uniform(input.draws.fog)
      requires moveSpeed == Environment.MoveSpeed(input.wind.speed)
      modifies this`fog
      ensures fog == FogAfter(old(fog), plan, input)
    {
      if plan.fog {
        DrawFog(moveSpeed, input.draws.fog, input.width, input.height);
      }
    }

    /** The cloud line of `_animate`, with the density of the coverage. */
    method RunClouds(plan: Environment.Plan, windDirX: int, moveSpeed: real, input: FrameInput)
      requires P.Uniform(input.draws.cloud)
      requires windDirX == Environment.WindDirX(input.wind.bearing) && moveSpeed == Environment.MoveSpeed(input.wind.speed)
      modifies this`clouds
      ensures clouds == CloudsAfter(old(clouds), plan, input)
    {
      if plan.clouds {
        DrawClouds(windDirX, moveSpeed, Environment.CloudDensity(input.coverage), input.draws.cloud, input.width);
      }
    }

    /** The state updates of one `_animate` frame, in its dispatch order, ending with the flash decay. */
    method Advance(input: FrameInput)
      requires Fair(input.draws)
      modifies this`particles, this`fog, this`clouds, this`shootingStars, this`shootingStarTimer, this`seasonal,
               this`lightningTimer, this`bolt, this`flash, this`moonGlowPhase
      ensures Snapshot() == NextFrame(old(Snapshot()), input)
    {
      var plan := PlanOf(input);
      var windDirX := Environment.WindDirX(input.wind.bearing);
      var moveSpeed := Environment.MoveSpeed(input.wind.speed);
      AdvanceSky(plan, windDirX, moveSpeed, input);
      AdvanceWeather(plan, windDirX, moveSpeed, input);
    }

    /** The first half of the dispatch: moon glow, shooting stars, seasonal particles. */
    method AdvanceSky(plan: Environment.Plan, windDirX: int, moveSpeed: real, input: FrameInput)
      requires P.Uniform(input.draws.shootingStar) && P.Uniform(input.draws.seasonal)
      requires windDirX == Environment.WindDirX(input.wind.bearing) && moveSpeed == Environment.MoveSpeed(input.wind.speed)
      modifies this`shootingStars, this`shootingStarTimer, this`seasonal, this`moonGlowPhase
      ensures moonGlowPhase == GlowAfter(old(moonGlowPhase), plan, input)
      ensures shootingStarTimer == TimerAfter(old(shootingStarTimer), plan, input)
      ensures shootingStars == ShootingAfter(old(shootingStars), old(shootingStarTimer), plan, input)
      ensures seasonal == SeasonalAfter(old(seasonal), plan, input)
    {
      RunMoon(plan, input);
      RunShootingStars(plan, input);
      RunSeasonal(plan, windDirX, moveSpeed, input);
    }

    /** The second half of the dispatch: fog, clouds, rain or snow, lightning and the flash decay. */
    method AdvanceWeather(plan: Environment.Plan, windDirX: int, moveSpeed: real, input: FrameInput)
      requires P.Uniform(input.draws.fog) && P.Uniform(input.draws.cloud)
      requires P.Uniform(input.draws.drop) && P.Uniform(input.draws.bolt)
      requires windDirX == Environment.WindDirX(input.wind.bearing) && moveSpeed == Environment.MoveSpeed(input.wind.speed)
      modifies this`particles, this`fog, this`clouds, this`lightningTimer, this`bolt, this`flash
      ensures fog == FogAfter(old(fog), plan, input)
      ensures clouds == CloudsAfter(old(clouds), plan, input)
      ensures particles == DropsAfter(old(particles), plan, input)
      ensures Lightning.Storm(lightningTimer, bolt, flash) == StormAfter(old(Lightning.Storm(lightningTimer, bolt, flash)), plan, input)
    {
      RunFog(plan, moveSpeed, input);
      RunClouds(plan, windDirX, moveSpeed, input);
      RunPrecipitation(plan, windDirX, moveSpeed, input);
      RunLightningAndFlash(plan, input);
    }

    /** One frame keeps the engine within its caps and bounds. */
    method Frame(input: FrameInput)
      requires Valid() && Fair(input.draws)
      modifies this`particles, this`fog, this`clouds, this`shootingStars, this`shootingStarTimer, this`seasonal,
               this`lightningTimer, this`bolt, this`flash, this`moonGlowPhase
      ensures Snapshot() == NextFrame(old(Snapshot()), input)
      ensures Valid()
    {
      ghost var before := Snapshot();
      Advance(input);
      FrameKeepsBounds(before, input);
    }
  }
}

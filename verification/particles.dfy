/**
 * The particles of the scene and what one frame does to each of them: rain and
 * snow drops (one shared array), fog blobs, clouds, background stars, shooting
 * stars and seasonal leaves and petals. `Math.random` is a `Stream` of draws in
 * [0, 1) read in the order the card calls it; `Math.sin` and `Math.cos` are
 * parameters. Drawing calls are not modelled.
 */
module Particles {
  import ForEach
  import Text

  type Stream = nat -> real

  ghost predicate Uniform(rand: Stream) {
    forall k :: 0.0 <= rand(k) < 1.0
  }

  /** A draw in [0, 1) scales a non-negative extent to a point inside it. */
  lemma Scaled(r: real, w: real)
    requires 0.0 <= r < 1.0
    ensures 0.0 <= w ==> 0.0 <= r * w <= w
    ensures 0.0 < w ==> r * w < w
  {
    if 0.0 <= w {
      assert (1.0 - r) * w >= 0.0;
    }
    if 0.0 < w {
      assert (1.0 - r) * w > 0.0;
    }
  }

  /** `Math.PI` as a double. */
  const Pi: real := 3.141592653589793

  datatype Point = Point(x: real, y: real)

  // ---------------------------------------------------------------- rain and snow

  /** A drop of the shared `_particles` array; `size` is a raindrop's length or a snowflake's radius. */
  datatype Drop = Drop(x: real, y: real, speed: real, size: real)

  /** Push `spawned` when the array is below `cap` (the spawn step of rain, snow and fog). */
  function WithSpawn<T>(s: seq<T>, cap: int, spawned: T): (r: seq<T>)
    ensures |s| < cap ==> r == s + [spawned]
    ensures |s| >= cap ==> r == s
  {
    if |s| < cap then s + [spawned] else s
  }

  /** Rain cap: 150 drops per unit of intensity. */
  function RainCap(intensity: nat): int {
    150 * intensity
  }

  const SnowCap := 100

  function NewRaindrop(rand: Stream, width: real, windSpeed: real): (d: Drop)
    requires Uniform(rand)
    ensures d.y == -20.0 && d.speed == 15.0 + windSpeed && 15.0 <= d.size < 25.0
    ensures width >= 0.0 ==> 0.0 <= d.x <= width
  {
    Scaled(rand(0), width);
    Drop(rand(0) * width, -20.0, 15.0 + windSpeed, 15.0 + rand(1) * 10.0)
  }

  function NewSnowflake(rand: Stream, width: real): (d: Drop)
    requires Uniform(rand)
    ensures d.y == -10.0 && 1.0 <= d.speed < 2.0 && 1.5 <= d.size < 2.5
    ensures width >= 0.0 ==> 0.0 <= d.x <= width
  {
    Scaled(rand(0), width);
    Drop(rand(0) * width, -10.0, 1.0 + rand(1), 1.5 + rand(2))
  }

  /** Rain falls by its speed and drifts by `angleX = windDirX * windSpeed * 1.5`. */
  function RainStep(angleX: real): Drop -> Drop {
    (d: Drop) => d.(y := d.y + d.speed, x := d.x + angleX)
  }

  /** Snow falls by its speed, then sways by `sin(y * 0.03) * 0.5` at its new height and drifts with the wind. */
  function SnowStep(windDirX: int, windSpeed: real, sine: real -> real): Drop -> Drop {
    (d: Drop) =>
      var y := d.y + d.speed;
      d.(y := y, x := d.x + sine(y * 0.03) * 0.5 + windDirX as real * windSpeed * 0.5)
  }

  /** A drop leaves below the canvas or more than 50 px beside it. */
  function DropGone(width: real, height: real): Drop -> bool {
    (d: Drop) => d.y > height || d.x > width + 50.0 || d.x < -50.0
  }

  /** One rain or snow frame on the shared array: spawn below the cap, advance, remove the drops that left. */
  function Precipitate(drops: seq<Drop>, cap: int, spawned: Drop, step: Drop -> Drop, width: real, height: real): (r: seq<Drop>)
    ensures |r| <= |drops| + 1
    ensures forall i :: 0 <= i < |r| ==> !DropGone(width, height)(r[i])
  {
    ForEach.IndexSplice(WithSpawn(drops, cap, spawned), step, DropGone(width, height))
  }

  /**
   * A precipitation frame adds at most one drop and never takes the array above
   * its cap; every drop left is on the canvas (within 50 px sideways), and the
   * survivors are the advanced drops in their old order.
   */
  lemma PrecipitationFrame(drops: seq<Drop>, cap: int, spawned: Drop, step: Drop -> Drop, width: real, height: real)
    ensures var r := Precipitate(drops, cap, spawned, step, width, height);
      && |r| <= |drops| + 1
      && (|drops| <= cap ==> |r| <= cap)
      && (|drops| >= cap ==> |r| <= |drops|)
      && (forall i :: 0 <= i < |r| ==> r[i].y <= height && -50.0 <= r[i].x <= width + 50.0)
      && r == ForEach.Filter(ForEach.Map(WithSpawn(drops, cap, spawned), step), DropGone(width, height))
  {
    var r := Precipitate(drops, cap, spawned, step, width, height);
    ForEach.IndexSpliceIsFilterOfMap(WithSpawn(drops, cap, spawned), step, DropGone(width, height));
    assert forall i :: 0 <= i < |r| ==> !DropGone(width, height)(r[i]);
  }

  // ---------------------------------------------------------------- fog

  datatype FogBlob = FogBlob(x: real, y: real, radius: real, speed: real)

  const FogCap := 10

  function NewFogBlob(rand: Stream, width: real, height: real): (f: FogBlob)
    requires Uniform(rand)
    ensures height - 50.0 < f.y <= height && 50.0 <= f.radius < 100.0 && 0.05 <= f.speed < 0.25
    ensures width >= 0.0 ==> 0.0 <= f.x <= width
  {
    Scaled(rand(0), width);
    FogBlob(rand(0) * width, height - rand(1) * 50.0, 50.0 + rand(2) * 50.0, rand(3) * 0.2 + 0.05)
  }

  /** Fog drifts right at half the move speed and re-enters at -100 once past `width + 100`. */
  function FogStep(moveSpeed: real, width: real): FogBlob -> FogBlob {
    (f: FogBlob) =>
      var x := f.x + f.speed * (moveSpeed * 0.5);
      f.(x := if x > width + 100.0 then -100.0 else x)
  }

  /** After a step no blob is right of `width + 100`, and a blob either moved right by its share or wrapped to -100. */
  lemma FogStaysInBand(f: FogBlob, moveSpeed: real, width: real)
    requires width >= -200.0
    ensures FogStep(moveSpeed, width)(f).x <= width + 100.0
    ensures var g := FogStep(moveSpeed, width)(f);
      g.x == -100.0 || g.x == f.x + f.speed * (moveSpeed * 0.5)
    ensures FogStep(moveSpeed, width)(f).(x := f.x) == f
  {
  }

  // ---------------------------------------------------------------- clouds

  datatype Puff = Puff(xOffset: real, yOffset: real, radius: real, opacity: real)

  datatype Cloud = Cloud(x: real, y: real, scale: real, puffs: seq<Puff>)

  predicate PuffInRange(p: Puff) {
    -90.0 <= p.xOffset <= 90.0 && -15.0 <= p.yOffset < 15.0 && 25.0 <= p.radius < 45.0 && 0.1 <= p.opacity < 0.3
  }

  /** One puff from four draws: anywhere across the cloud's width, up to 15 px off its centre line. */
  function MakePuff(cloudWidth: real, a: real, b: real, c: real, d: real): (p: Puff)
    requires 100.0 <= cloudWidth < 180.0
    requires 0.0 <= a < 1.0 && 0.0 <= b < 1.0 && 0.0 <= c < 1.0 && 0.0 <= d < 1.0
    ensures PuffInRange(p)
  {
    Scaled(a, cloudWidth);
    Puff(a * cloudWidth - cloudWidth / 2.0, b * 30.0 - 15.0, 25.0 + c * 20.0, 0.1 + d * 0.2)
  }

  /** The puffs `_createCloud` draws: puff `j` uses draws `2 + 4j` to `5 + 4j`. */
  function Puffs(rand: Stream, cloudWidth: real, n: nat): (ps: seq<Puff>)
    requires Uniform(rand)
    requires 100.0 <= cloudWidth < 180.0
    ensures |ps| == n
    ensures forall i :: 0 <= i < n ==> PuffInRange(ps[i])
  {
    seq(n, j requires 0 <= j < n =>
      MakePuff(cloudWidth, rand(2 + 4 * j), rand(3 + 4 * j), rand(4 + 4 * j), rand(5 + 4 * j)))
  }

  /**
   * `_createCloud(false)` with the position `_drawClouds` then gives it: 4 to 7
   * puffs over a width of 100 to 180 px, entering 200 px outside the edge the wind
   * blows from.
   */
  function NewCloud(rand: Stream, dirX: int, width: real): (c: Cloud)
    requires Uniform(rand)
    ensures 4 <= |c.puffs| <= 7
    ensures forall i :: 0 <= i < |c.puffs| ==> PuffInRange(c.puffs[i])
    ensures c.x == if dirX > 0 then -200.0 else width + 200.0
    ensures 0.0 <= c.y < 100.0 && 0.8 <= c.scale < 1.2
  {
    var n := 4 + Pick(rand(0), 4);
    var k := 2 + 4 * n;
    Cloud(if dirX > 0 then -200.0 else width + 200.0, rand(k) * 100.0, 0.8 + rand(k + 1) * 0.4,
          Puffs(rand, 100.0 + rand(1) * 80.0, n))
  }

  /** `_createCloud`'s puff loop, pushing one puff per iteration. */
  method DrawPuffs(rand: Stream, cloudWidth: real, numPuffs: nat) returns (puffs: seq<Puff>)
    requires Uniform(rand)
    requires 100.0 <= cloudWidth < 180.0
    ensures puffs == Puffs(rand, cloudWidth, numPuffs)
  {
    ghost var all := Puffs(rand, cloudWidth, numPuffs);
    puffs := [];
    var j := 0;
    while j < numPuffs
      invariant 0 <= j <= numPuffs
      invariant puffs == all[..j]
    {
      var k := 2 + 4 * j;
      puffs := puffs + [MakePuff(cloudWidth, rand(k), rand(k + 1), rand(k + 2), rand(k + 3))];
      assert all[..j + 1] == all[..j] + [all[j]];
      j := j + 1;
    }
    assert all[..numPuffs] == all;
  }

  /** `_createCloud(false)`, then the entry position `_drawClouds` gives the new cloud. */
  method CreateCloud(rand: Stream, dirX: int, width: real) returns (c: Cloud)
    requires Uniform(rand)
    ensures c == NewCloud(rand, dirX, width)
  {
    var numPuffs := 4 + Pick(rand(0), 4);
    var cloudWidth := 100.0 + rand(1) * 80.0;
    Scaled(rand(1), 80.0);
    var puffs := DrawPuffs(rand, cloudWidth, numPuffs);
    var k := 2 + 4 * numPuffs;
    c := Cloud(if dirX > 0 then -200.0 else width + 200.0, rand(k) * 100.0, 0.8 + rand(k + 1) * 0.4, puffs);
  }

  /** Push one cloud when below `target`, otherwise pop one (if any) when above it. */
  function AdjustClouds(clouds: seq<Cloud>, target: int, spawned: Cloud): (r: seq<Cloud>)
    ensures |clouds| < target ==> r == clouds + [spawned]
    ensures |clouds| > target && clouds != [] ==> r == clouds[..|clouds| - 1]
    ensures |clouds| >= target && clouds == [] ==> r == []
    ensures |clouds| == target ==> r == clouds
  {
    if |clouds| < target then clouds + [spawned]
    else if |clouds| > target && clouds != [] then clouds[..|clouds| - 1]
    else clouds
  }

  /** The cloud count moves one step toward a non-negative target, never past it. */
  lemma AdjustTowardTarget(clouds: seq<Cloud>, target: nat, spawned: Cloud)
    ensures var n := |AdjustClouds(clouds, target, spawned)|;
      if |clouds| < target then n == |clouds| + 1 && n <= target
      else if |clouds| > target then n == |clouds| - 1 && n >= target
      else n == target
  {
  }

  function CloudStep(baseSpeed: real, dirX: int): Cloud -> Cloud {
    (c: Cloud) => c.(x := c.x + baseSpeed * 0.3 * dirX as real)
  }

  /** A cloud leaves 200 px past the edge the wind blows toward. */
  function CloudGone(dirX: int, width: real): Cloud -> bool {
    (c: Cloud) => (dirX > 0 && c.x > width + 200.0) || (dirX < 0 && c.x < -200.0)
  }

  /** One `_drawClouds` frame: adjust the count toward the target, then advance with the `forEach` removal. */
  function CloudsFrame(clouds: seq<Cloud>, target: int, spawned: Cloud, dirX: int, baseSpeed: real, width: real): (r: seq<Cloud>)
    ensures |r| <= |clouds| + 1
    ensures |clouds| >= target ==> |r| <= |clouds|
  {
    ForEach.ForEachSplice(AdjustClouds(clouds, target, spawned), CloudStep(baseSpeed, dirX), CloudGone(dirX, width))
  }

  /** A cloud frame adds at most one cloud, never rises above a target it started under, and drops one when above it. */
  lemma CloudsFrameBounded(clouds: seq<Cloud>, target: nat, spawned: Cloud, dirX: int, baseSpeed: real, width: real)
    ensures var r := CloudsFrame(clouds, target, spawned, dirX, baseSpeed, width);
      && |r| <= |clouds| + 1
      && (|clouds| <= target ==> |r| <= target)
      && (|clouds| > target ==> |r| <= |clouds| - 1)
  {
    AdjustTowardTarget(clouds, target, spawned);
  }

  // ---------------------------------------------------------------- background stars

  datatype Star = Star(x: real, y: real, size: real, opacity: real, speed: real)

  const StarCount := 60

  predicate StarOnCanvas(s: Star, width: real, height: real) {
    0.0 <= s.x <= width && 0.0 <= s.y <= height && 0.0 <= s.size < 1.5
    && 0.0 <= s.opacity < 1.0 && 0.01 <= s.speed < 0.03
  }

  /** The star `_initStars` draws from rolls `k` to `k + 4`. */
  function NewStar(rand: Stream, k: nat, width: real, height: real): (s: Star)
    requires Uniform(rand)
    requires width >= 0.0 && height >= 0.0
    ensures StarOnCanvas(s, width, height)
  {
    Scaled(rand(k), width);
    Scaled(rand(k + 1), height);
    Star(rand(k) * width, rand(k + 1) * height, rand(k + 2) * 1.5, rand(k + 3), 0.01 + rand(k + 4) * 0.02)
  }

  // ---------------------------------------------------------------- shooting stars

  datatype ShootingStar = ShootingStar(
    x: real, y: real, speedX: real, speedY: real, size: real,
    life: real, trail: seq<Point>, trailLength: nat, brightness: real)

  /** `_spawnShootingStar`: upper-left sky, heading 30 to 75 degrees below the horizontal. */
  function NewShootingStar(rand: Stream, width: real, height: real, sine: real -> real, cosine: real -> real): (s: ShootingStar)
    requires Uniform(rand)
    ensures s.trail == [] && 12 <= s.trailLength <= 19 && 40.0 <= s.life < 70.0
    ensures 1.5 <= s.size < 3.0 && 0.8 <= s.brightness < 1.0
    ensures width >= 0.0 && height >= 0.0 ==> 0.0 <= s.x <= width * 0.8 && 0.0 <= s.y <= height * 0.3
  {
    Scaled(rand(0), width);
    Scaled(rand(1), height);
    var angle := Pi / 6.0 + rand(2) * (Pi / 4.0);
    var speed := 8.0 + rand(3) * 6.0;
    ShootingStar(
      x := rand(0) * width * 0.8,
      y := rand(1) * height * 0.3,
      speedX := cosine(angle) * speed,
      speedY := sine(angle) * speed,
      size := 1.5 + rand(4) * 1.5,
      life := 40.0 + rand(5) * 30.0,
      trail := [],
      trailLength := 12 + (rand(6) * 8.0).Floor,
      brightness := 0.8 + rand(7) * 0.2)
  }

  /** Move, lose one unit of life, put the new head first in the trail and drop the oldest point beyond `trailLength`. */
  function ShootingStarStep(s: ShootingStar): ShootingStar {
    var x := s.x + s.speedX;
    var y := s.y + s.speedY;
    var trail := [Point(x, y)] + s.trail;
    s.(x := x, y := y, life := s.life - 1.0,
       trail := if |trail| > s.trailLength then trail[..|trail| - 1] else trail)
  }

  /** The trail stays within its length, starts at the new head, and keeps the previous points in order. */
  lemma ShootingStarTrail(s: ShootingStar)
    requires |s.trail| <= s.trailLength
    ensures var t := ShootingStarStep(s);
      && |t.trail| <= t.trailLength == s.trailLength
      && |t.trail| == (if |s.trail| < s.trailLength then |s.trail| + 1 else s.trailLength)
      && (t.trail != [] ==> t.trail[0] == Point(t.x, t.y) && t.trail[1..] == s.trail[..|t.trail| - 1])
    ensures ShootingStarStep(s).life == s.life - 1.0
  {
  }

  /** A shooting star dies when its life runs out or it passes 50 px beyond the right or bottom edge. */
  function ShootingStarGone(width: real, height: real): ShootingStar -> bool {
    (s: ShootingStar) => s.life <= 0.0 || s.x > width + 50.0 || s.y > height + 50.0
  }

  predicate TrailBounded(s: ShootingStar) {
    |s.trail| <= s.trailLength
  }

  /** One frame of `_handleShootingStars` after the timer: push the spawned star if one fired, then advance with the `forEach` removal. */
  function ShootingStarsFrame(stars: seq<ShootingStar>, fired: bool, spawned: ShootingStar, width: real, height: real): (r: seq<ShootingStar>)
    ensures |r| <= |stars| + (if fired then 1 else 0)
  {
    ForEach.ForEachSplice(stars + (if fired then [spawned] else []), ShootingStarStep, ShootingStarGone(width, height))
  }

  /** Every trail stays within its length across a frame, and only a spawn can add a star. */
  lemma ShootingStarsFrameKeepsTrails(stars: seq<ShootingStar>, fired: bool, spawned: ShootingStar, width: real, height: real)
    requires forall i :: 0 <= i < |stars| ==> TrailBounded(stars[i])
    requires spawned.trail == []
    ensures var r := ShootingStarsFrame(stars, fired, spawned, width, height);
      && (forall i :: 0 <= i < |r| ==> TrailBounded(r[i]))
      && |r| <= |stars| + (if fired then 1 else 0)
  {
    var s := stars + (if fired then [spawned] else []);
    forall x: ShootingStar | TrailBounded(x)
      ensures TrailBounded(ShootingStarStep(x))
    {
      ShootingStarTrail(x);
    }
    ForEach.ForEachSpliceKeeps(s, ShootingStarStep, ShootingStarGone(width, height), TrailBounded);
  }

  // ---------------------------------------------------------------- seasonal particles

  /** A leaf has one of 6 colours and 3 shapes (maple, oak, oval); a petal one of 4 colours. */
  datatype Kind = Leaf(colour: nat, shape: nat) | Petal(colour: nat)

  datatype SeasonalParticle = SeasonalParticle(
    kind: Kind, x: real, y: real, size: real, rotation: real, rotationSpeed: real,
    fallSpeed: real, swayAmount: real, swayOffset: real)

  /** `test_season_state`, else the lower-cased season entity state, else "summer". */
  function SeasonOf(testSeason: string, entityState: string): (season: string)
    ensures season != ""
    ensures testSeason != "" ==> season == testSeason
    ensures testSeason == "" && entityState != "" ==> season == Text.ToLower(entityState)
    ensures testSeason == "" && entityState == "" ==> season == "summer"
  {
    if testSeason != "" then testSeason
    else if Text.ToLower(entityState) != "" then Text.ToLower(entityState)
    else "summer"
  }

  predicate IsAutumn(season: string) {
    season == "autumn" || season == "fall"
  }

  predicate SeasonActive(season: string) {
    IsAutumn(season) || season == "spring"
  }

  /** Population cap `floor(25 * density)`. */
  function SeasonalCap(density: real): int {
    (25.0 * density).Floor
  }

  /** An index `floor(r * n)` into a palette of `n` entries. */
  function Pick(r: real, n: nat): (i: nat)
    requires 0.0 <= r < 1.0 && n > 0
    ensures i < n
    ensures i as real <= r * n as real < i as real + 1.0
  {
    var x := r * n as real;
    Scaled(r, n as real);
    assert 0.0 <= x < n as real;
    x.Floor
  }

  /**
   * `_spawnSeasonalParticle`: three times in ten from the side the wind blows
   * from, otherwise from the top; a leaf in autumn, a petal in spring.
   */
  function NewSeasonalParticle(season: string, windDirX: int, rand: Stream, width: real, height: real): (p: SeasonalParticle)
    requires Uniform(rand)
    ensures p.kind.Leaf? <==> IsAutumn(season)
    ensures p.kind.Leaf? ==> p.kind.colour < 6 && p.kind.shape < 3 && 6.0 <= p.size < 12.0
    ensures p.kind.Petal? ==> p.kind.colour < 4 && 4.0 <= p.size < 8.0
    ensures rand(0) < 0.3 ==> p.x == (if windDirX > 0 then -20.0 else width + 20.0)
    ensures rand(0) >= 0.3 ==> p.y == -20.0
  {
    var fromSide := rand(0) < 0.3;
    var x := if fromSide then (if windDirX > 0 then -20.0 else width + 20.0) else rand(1) * width;
    var y := if fromSide then rand(1) * height * 0.5 else -20.0;
    if IsAutumn(season) then
      SeasonalParticle(
        kind := Leaf(Pick(rand(2), 6), Pick(rand(9), 3)),
        x := x, y := y,
        size := 6.0 + rand(3) * 6.0,
        rotation := rand(4) * Pi * 2.0,
        rotationSpeed := (rand(5) - 0.5) * 0.08,
        fallSpeed := 0.8 + rand(6) * 1.2,
        swayAmount := 1.0 + rand(7) * 2.0,
        swayOffset := rand(8) * Pi * 2.0)
    else
      SeasonalParticle(
        kind := Petal(Pick(rand(2), 4)),
        x := x, y := y,
        size := 4.0 + rand(3) * 4.0,
        rotation := rand(4) * Pi * 2.0,
        rotationSpeed := (rand(5) - 0.5) * 0.05,
        fallSpeed := 0.5 + rand(6) * 0.8,
        swayAmount := 1.5 + rand(7) * 2.0,
        swayOffset := rand(8) * Pi * 2.0)
  }

  /** Drift with the wind plus a sway of `sin(swayOffset + now * 0.002) * swayAmount`; fall, spin, advance the sway phase. */
  function SeasonalStep(windDirX: int, windSpeed: real, sine: real -> real, now: real): SeasonalParticle -> SeasonalParticle {
    (p: SeasonalParticle) => p.(
      x := p.x + windDirX as real * windSpeed * 0.8 + sine(p.swayOffset + now * 0.002) * p.swayAmount,
      y := p.y + p.fallSpeed,
      rotation := p.rotation + p.rotationSpeed,
      swayOffset := p.swayOffset + 0.02)
  }

  function SeasonalGone(width: real, height: real): SeasonalParticle -> bool {
    (p: SeasonalParticle) => p.y > height + 20.0 || p.x < -50.0 || p.x > width + 50.0
  }

  /**
   * One `_drawSeasonalParticles` frame: off season the array is emptied;
   * otherwise `spawned` is pushed when the count is below `cap` and the roll is
   * below 0.1, and the particles advance with the `forEach` removal.
   */
  function SeasonalFrame(ps: seq<SeasonalParticle>, season: string, cap: int, roll: real, spawned: SeasonalParticle,
                         step: SeasonalParticle -> SeasonalParticle, width: real, height: real): (r: seq<SeasonalParticle>)
    ensures !SeasonActive(season) ==> r == []
    ensures |r| <= |ps| + 1
  {
    if !SeasonActive(season) then []
    else
      var grown := if |ps| < cap && roll < 0.1 then ps + [spawned] else ps;
      ForEach.ForEachSplice(grown, step, SeasonalGone(width, height))
  }

  /** Off season nothing is left; in season at most one particle is added, only on a low roll and only while the count is below the cap. */
  lemma SeasonalFrameBounded(ps: seq<SeasonalParticle>, season: string, cap: int, roll: real, spawned: SeasonalParticle,
                             step: SeasonalParticle -> SeasonalParticle, width: real, height: real)
    ensures var r := SeasonalFrame(ps, season, cap, roll, spawned, step, width, height);
      && (!SeasonActive(season) ==> r == [])
      && |r| <= |ps| + 1
      && (roll >= 0.1 ==> |r| <= |ps|)
      && (|ps| <= cap ==> |r| <= cap)
      && (|ps| >= cap ==> |r| <= |ps|)
  {
  }

  // ---------------------------------------------------------------- lightning

  /** A bolt: its jagged path and the frames it stays visible. */
  datatype Bolt = Bolt(path: seq<Point>, life: int)
}

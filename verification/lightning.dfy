/**
 * Lightning: `_triggerLightning` builds a jagged path from the top of the canvas
 * down past 80 % of its height, `_handleLightning` fires a strike on the frame
 * counter and ages the bolt, and the frame loop fades the white flash a strike
 * starts by 0.05 per frame.
 */
module Lightning {
  import opened Wrappers
  import Cooldown
  import P = Particles

  /** The vertical extent a bolt must reach: 80 % of the canvas height. */
  function Reach(height: real): real {
    height * 0.8
  }

  /** Each segment of a path goes 20 to 60 px down and up to 30 px sideways. */
  ghost predicate Jagged(path: seq<P.Point>) {
    forall i :: 0 < i < |path| ==>
      20.0 <= path[i].y - path[i - 1].y < 60.0 && -30.0 <= path[i].x - path[i - 1].x < 30.0
  }

  /** One segment of the path from draws `a` (down) and `b` (sideways). */
  function Segment(from: P.Point, a: real, b: real): (q: P.Point)
    requires 0.0 <= a < 1.0 && 0.0 <= b < 1.0
    ensures 20.0 <= q.y - from.y < 60.0 && -30.0 <= q.x - from.x < 30.0
  {
    P.Scaled(a, 40.0);
    P.Scaled(b, 60.0);
    P.Point(from.x + b * 60.0 - 30.0, from.y + a * 40.0 + 20.0)
  }

  /** The path from point `p`, the `k`-th point: segment `k` uses draws `2k + 1` and `2k + 2`. */
  function PathFrom(rand: P.Stream, k: nat, p: P.Point, reach: real): (path: seq<P.Point>)
    requires P.Uniform(rand)
    ensures path != [] && path[0] == p
    decreases (reach - p.y).Floor
  {
    if p.y < reach then [p] + PathFrom(rand, k + 1, Segment(p, rand(2 * k + 1), rand(2 * k + 2)), reach)
    else [p]
  }

  /** Every segment of a path goes 20 to 60 px down and up to 30 px sideways. */
  lemma {:induction false} PathJagged(rand: P.Stream, k: nat, p: P.Point, reach: real)
    requires P.Uniform(rand)
    ensures Jagged(PathFrom(rand, k, p, reach))
    decreases (reach - p.y).Floor
  {
    if p.y < reach {
      var q := Segment(p, rand(2 * k + 1), rand(2 * k + 2));
      var rest := PathFrom(rand, k + 1, q, reach);
      PathJagged(rand, k + 1, q, reach);
      var path := [p] + rest;
      forall i | 0 < i < |path|
        ensures 20.0 <= path[i].y - path[i - 1].y < 60.0 && -30.0 <= path[i].x - path[i - 1].x < 30.0
      {
        if i == 1 {
          assert path[1] == rest[0] == q;
        } else {
          assert path[i] == rest[i - 1] && path[i - 1] == rest[i - 2];
        }
      }
    }
  }

  /**
   * Every point of a path but the last lies above the reach and the last is at or
   * below it: the bolt stops at the first point past 80 % of the height.
   */
  lemma {:induction false} PathStopsPastReach(rand: P.Stream, k: nat, p: P.Point, reach: real)
    requires P.Uniform(rand)
    ensures var path := PathFrom(rand, k, p, reach);
      && (forall i :: 0 <= i < |path| - 1 ==> path[i].y < reach)
      && path[|path| - 1].y >= reach
    decreases (reach - p.y).Floor
  {
    if p.y < reach {
      var q := Segment(p, rand(2 * k + 1), rand(2 * k + 2));
      var rest := PathFrom(rand, k + 1, q, reach);
      PathStopsPastReach(rand, k + 1, q, reach);
      var path := [p] + rest;
      assert path[|path| - 1] == rest[|rest| - 1];
      forall i | 0 <= i < |path| - 1
        ensures path[i].y < reach
      {
        if i > 0 {
          assert path[i] == rest[i - 1];
        }
      }
    }
  }

  /** The bolt `_triggerLightning` builds: draw 0 places the start on the top edge, and it lives 10 frames. */
  function Strike(rand: P.Stream, width: real, height: real): (b: P.Bolt)
    requires P.Uniform(rand)
    ensures b.life == 10 && b.path != [] && b.path[0] == P.Point(rand(0) * width, 0.0)
  {
    P.Bolt(PathFrom(rand, 0, P.Point(rand(0) * width, 0.0), Reach(height)), 10)
  }

  /** A bolt with life left loses one frame of it; a spent or absent bolt stays as it is. */
  function Age(bolt: Option<P.Bolt>): (b: Option<P.Bolt>)
    ensures b.Some? <==> bolt.Some?
    ensures bolt.Some? && bolt.value.life > 0 ==> b.value == bolt.value.(life := bolt.value.life - 1)
    ensures bolt.Some? && bolt.value.life <= 0 ==> b == bolt
  {
    if bolt.Some? && bolt.value.life > 0 then Some(bolt.value.(life := bolt.value.life - 1)) else bolt
  }

  /** The lightning part of the engine state. */
  datatype Storm = Storm(timer: int, bolt: Option<P.Bolt>, flash: real)

  /**
   * `_handleLightning`: the counter fires past 200 frames on a draw above 0.98,
   * replacing the bolt and setting the flash to 0.5; then a live bolt ages.
   */
  function StormFrame(s: Storm, roll: real, rand: P.Stream, width: real, height: real): (n: Storm)
    requires P.Uniform(rand)
    ensures n.timer == 0 || n.timer == s.timer + 1
    ensures n.flash != s.flash ==> n.flash == 0.5 && n.timer == 0
    ensures s.bolt.Some? ==> n.bolt.Some?
  {
    var t := Cooldown.Step(s.timer, 200, true, roll > 0.98);
    var bolt := if t.fired then Some(Strike(rand, width, height)) else s.bolt;
    Storm(t.timer, Age(bolt), if t.fired then 0.5 else s.flash)
  }

  /** A strike shows its bolt for ten frames counting the one it fires in, and only a strike resets the flash. */
  lemma StrikeShape(s: Storm, roll: real, rand: P.Stream, width: real, height: real)
    requires P.Uniform(rand)
    ensures var n := StormFrame(s, roll, rand, width, height);
      var fired := s.timer + 1 > 200 && roll > 0.98;
      && (fired ==> n.timer == 0 && n.flash == 0.5 && n.bolt == Some(Strike(rand, width, height).(life := 9)))
      && (!fired ==> n.timer == s.timer + 1 && n.flash == s.flash && n.bolt == Age(s.bolt))
  {
  }

  /** The flash after one frame: drawn and faded by 0.05 while positive. */
  function FlashStep(flash: real): (f: real)
    ensures flash > 0.0 ==> f == flash - 0.05
    ensures flash <= 0.0 ==> f == flash
  {
    if flash > 0.0 then flash - 0.05 else flash
  }

  /** The flash after `n` frames. */
  function FlashAfter(flash: real, n: nat): real
    decreases n
  {
    if n == 0 then flash else FlashAfter(FlashStep(flash), n - 1)
  }

  /** A flash fades in steps of 0.05 and never drops more than one step below zero. */
  lemma {:induction false} FlashFades(flash: real, n: nat)
    requires -0.05 < flash
    ensures -0.05 < FlashAfter(flash, n) <= flash
    ensures n as real * 0.05 <= flash ==> FlashAfter(flash, n) == flash - n as real * 0.05
    decreases n
  {
    if n > 0 {
      FlashFades(FlashStep(flash), n - 1);
    }
  }

  /** The full flash of a strike, 0.5, is gone after ten frames. */
  lemma FlashOfStrikeLastsTenFrames()
    ensures FlashAfter(0.5, 9) > 0.0
    ensures FlashAfter(0.5, 10) <= 0.0
  {
    FlashFades(0.5, 9);
    FlashFades(0.5, 10);
  }
}

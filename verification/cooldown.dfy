/**
 * The frame counters that gate shooting stars (`_shootingStarTimer`, gap 60) and
 * lightning (`_lightningTimer`, gap 200): in an active frame the counter goes up
 * by one, and an event may fire only once it exceeds the gap, resetting it to 0.
 * A frozen frame (shooting stars under more than 70 % cloud) leaves it alone.
 */
module Cooldown {

  /** The outcome of one frame: the new counter and whether the event fired. */
  datatype Tick = Tick(timer: int, fired: bool)

  /** One frame: `active` is whether the counter runs, `chance` the random test that follows `timer > gap`. */
  function Step(timer: int, gap: int, active: bool, chance: bool): (t: Tick)
    ensures !active ==> t == Tick(timer, false)
    ensures t.fired <==> active && timer + 1 > gap && chance
    ensures t.fired ==> t.timer == 0
    ensures active && !t.fired ==> t.timer == timer + 1
  {
    if !active then Tick(timer, false)
    else if timer + 1 > gap && chance then Tick(0, true)
    else Tick(timer + 1, false)
  }

  /** What a frame sees: whether the counter runs and how the random test came out. */
  datatype Frame = Frame(active: bool, chance: bool)

  /** Which frames of a run fire, starting from counter `timer`. */
  function Fires(timer: int, gap: int, frames: seq<Frame>): (f: seq<bool>)
    ensures |f| == |frames|
    decreases |frames|
  {
    if frames == [] then []
    else
      var t := Step(timer, gap, frames[0].active, frames[0].chance);
      [t.fired] + Fires(t.timer, gap, frames[1..])
  }

  /** A frame `j` of a run can fire only once the counter plus `j` frames exceeds the gap. */
  lemma {:induction false} FireNeedsGap(timer: int, gap: int, frames: seq<Frame>, j: nat)
    requires 0 <= timer
    requires j < |frames| && Fires(timer, gap, frames)[j]
    ensures timer + j >= gap
    decreases |frames|
  {
    var t := Step(timer, gap, frames[0].active, frames[0].chance);
    if j > 0 {
      assert Fires(t.timer, gap, frames[1..])[j - 1];
      FireNeedsGap(t.timer, gap, frames[1..], j - 1);
    }
  }

  /** Two events are always more than `gap` frames apart, whatever the random tests say. */
  lemma {:induction false} FiringsAreSpaced(timer: int, gap: int, frames: seq<Frame>, i: nat, j: nat)
    requires 0 <= timer
    requires i < j < |frames|
    requires Fires(timer, gap, frames)[i] && Fires(timer, gap, frames)[j]
    ensures j - i >= gap + 1
    decreases |frames|
  {
    var t := Step(timer, gap, frames[0].active, frames[0].chance);
    assert Fires(t.timer, gap, frames[1..])[j - 1];
    if i == 0 {
      FireNeedsGap(0, gap, frames[1..], j - 1);
    } else {
      assert Fires(t.timer, gap, frames[1..])[i - 1];
      FiringsAreSpaced(t.timer, gap, frames[1..], i - 1, j - 1);
    }
  }
}

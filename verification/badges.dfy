/**
 * The threshold classifiers behind the room badges and window lights:
 * `_getTempColorClass`, `_getCo2Color` and the window-light opacity.
 */
module Badges {
  import opened Wrappers

  datatype TempClass = Cold | Optimal | Warm | Hot {
    /** The CSS class the badge receives. */
    function Name(): string {
      match this
      case Cold => "is-cold"
      case Optimal => "is-optimal"
      case Warm => "is-warm"
      case Hot => "is-hot"
    }

    function Rank(): nat {
      match this
      case Cold => 0
      case Optimal => 1
      case Warm => 2
      case Hot => 3
    }
  }

  datatype Co2Level = Good | Moderate | Bad {
    /** The CSS colour the ppm figure receives. */
    function Name(): string {
      match this
      case Good => "var(--color-opt)"
      case Moderate => "var(--color-warm)"
      case Bad => "var(--color-hot)"
    }

    function Rank(): nat {
      match this
      case Good => 0
      case Moderate => 1
      case Bad => 2
    }
  }

  /** Number of thresholds in `bounds` that `t` has reached (an independent reading of a band table). */
  function Reached(bounds: seq<real>, t: real): (n: nat)
    ensures n <= |bounds|
  {
    if bounds == [] then 0
    else (if bounds[0] <= t then 1 else 0) + Reached(bounds[1..], t)
  }

  const TempBounds: seq<real> := [19.0, 23.0, 25.0]
  const Co2Bounds: seq<real> := [1000.0, 1600.0]

  /** `_getTempColorClass`: the band of the reading, each band closed below and open above. */
  function TempColorClass(t: real): (c: TempClass)
    ensures c == Cold <==> t < 19.0
    ensures c == Optimal <==> 19.0 <= t < 23.0
    ensures c == Warm <==> 23.0 <= t < 25.0
    ensures c == Hot <==> 25.0 <= t
  {
    if t < 19.0 then Cold
    else if t < 23.0 then Optimal
    else if t < 25.0 then Warm
    else Hot
  }

  /** `_getCo2Color`: the band of the ppm reading, each band closed below and open above. */
  function Co2Color(level: int): (c: Co2Level)
    ensures c == Good <==> level < 1000
    ensures c == Moderate <==> 1000 <= level < 1600
    ensures c == Bad <==> 1600 <= level
  {
    if level < 1000 then Good
    else if level < 1600 then Moderate
    else Bad
  }

  /** The temperature class is the number of thresholds (19, 23, 25 degrees) the reading has reached. */
  lemma TempClassIsBand(t: real)
    ensures TempColorClass(t).Rank() == Reached(TempBounds, t)
  {
    var b1, b2, b3: seq<real> := [23.0, 25.0], [25.0], [];
    assert TempBounds[1..] == b1 && b1[1..] == b2 && b2[1..] == b3;
    assert Reached(b2, t) == if 25.0 <= t then 1 else 0;
    assert Reached(b1, t) == (if 23.0 <= t then 1 else 0) + Reached(b2, t);
    assert Reached(TempBounds, t) == (if 19.0 <= t then 1 else 0) + Reached(b1, t);
  }

  /** The CO2 colour is the number of thresholds (1000, 1600 ppm) the reading has reached. */
  lemma Co2ColorIsBand(level: int)
    ensures Co2Color(level).Rank() == Reached(Co2Bounds, level as real)
  {
    var b1, b2: seq<real> := [1600.0], [];
    assert Co2Bounds[1..] == b1 && b1[1..] == b2;
    assert Reached(b1, level as real) == if 1600.0 <= level as real then 1 else 0;
    assert Reached(Co2Bounds, level as real) == (if 1000.0 <= level as real then 1 else 0) + Reached(b1, level as real);
  }

  /** A warmer room never gets a cooler class. */
  lemma TempClassMonotone(t: real, u: real)
    requires t <= u
    ensures TempColorClass(t).Rank() <= TempColorClass(u).Rank()
  {
  }

  /** More CO2 never gets a better colour. */
  lemma Co2ColorMonotone(a: int, b: int)
    requires a <= b
    ensures Co2Color(a).Rank() <= Co2Color(b).Rank()
  {
  }

  /**
   * Window-light opacity: 0 when the light is off, 1 when it is on without a
   * brightness attribute, otherwise `max(0.3, brightness / 255)`. `None` stands
   * for an undefined attribute only; a `null` brightness is passed as
   * `Some(0.0)`, since `null / 255` is 0 and the light then gets 0.3.
   */
  function WindowOpacity(isOn: bool, brightness: Option<real>): (o: real)
    ensures !isOn ==> o == 0.0
    ensures isOn && brightness.None? ==> o == 1.0
    ensures isOn && brightness.Some? ==>
      o >= 0.3 && o >= brightness.value / 255.0 && (o == 0.3 || o == brightness.value / 255.0)
    ensures isOn && brightness.Some? && brightness.value <= 255.0 ==> 0.3 <= o <= 1.0
  {
    if !isOn then 0.0
    else if brightness.None? then 1.0
    else if 0.3 < brightness.value / 255.0 then brightness.value / 255.0
    else 0.3
  }
}

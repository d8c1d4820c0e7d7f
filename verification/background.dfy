/**
 * `_calculateImage`: the background picture for the season, the time of day and
 * the weather, with a fixed holiday picture from 14 December to 14 January.
 * Strings that JavaScript would treat as missing (`undefined`, null or empty)
 * are the empty string here; `||` picks the first non-empty one.
 */
module Background {
  import Text

  const DefaultPath := "/local/community/fork_u-house_card/images/"

  /** The options the function reads: `image_path`, `test_season_state` and the `img_*` keys set to `true`. */
  datatype ImageConfig = ImageConfig(imagePath: string, testSeason: string, trueKeys: set<string>)

  /** JavaScript `a || b` on strings. */
  function Or(a: string, b: string): string {
    if a != "" then a else b
  }

  function TimeOfDay(sunState: string): (t: string)
    ensures t == "night" <==> sunState == "below_horizon"
    ensures t == "night" || t == "day"
  {
    if sunState == "below_horizon" then "night" else "day"
  }

  predicate InHolidayWindow(month: int, day: int) {
    (month == 12 && day >= 14) || (month == 1 && day <= 14)
  }

  /** The weather part of a picture name: "" when the weather has none. */
  function WeatherSuffix(raw: string): (suffix: string)
    ensures suffix in {"", "lightning", "rainy", "snowy", "fog"}
    ensures suffix == "lightning" <==> Text.ToLower(raw) in ["lightning", "lightning-rainy"]
    ensures suffix == "rainy" <==> Text.ToLower(raw) in ["rainy", "pouring"]
    ensures suffix == "snowy" <==> Text.ToLower(raw) in ["snowy", "snowy-rainy"]
    ensures suffix == "fog" <==> Text.ToLower(raw) == "fog"
  {
    var s := Text.ToLower(raw);
    if s in ["lightning", "lightning-rainy"] then "lightning"
    else if s in ["rainy", "pouring"] then "rainy"
    else if s in ["snowy", "snowy-rainy"] then "snowy"
    else if s == "fog" then "fog"
    else ""
  }

  /** The season part of a picture name: the test season, else the entity state, else "summer", lower-cased. */
  function Season(cfg: ImageConfig, seasonState: string): (s: string)
    ensures s != ""
    ensures forall i :: 0 <= i < |s| ==> !Text.IsUpper(s[i])
    ensures cfg.testSeason != "" ==> s == Text.ToLower(cfg.testSeason)
    ensures cfg.testSeason == "" && seasonState != "" ==> s == Text.ToLower(seasonState)
    ensures cfg.testSeason == "" && seasonState == "" ==> s == "summer"
  {
    Text.ToLower(Or(cfg.testSeason, Or(seasonState, "summer")))
  }

  function ImageKey(season: string, tod: string, suffix: string): string {
    "img_" + season + "_" + tod + "_" + suffix
  }

  /** A picture name `<base><middle>_<time>.png`. */
  function Picture(base: string, middle: string, tod: string): (path: string)
    ensures Text.IsPrefix(base, path)
    ensures Text.EndsWith(path, "_" + tod + ".png")
  {
    var tail := "_" + tod + ".png";
    assert base + middle + "_" + tod + ".png" == base + (middle + tail);
    base + (middle + tail)
  }

  function CalculateImage(cfg: ImageConfig, sunState: string, month: int, day: int,
                          seasonState: string, weatherState: string): (path: string)
    ensures Text.IsPrefix(Or(cfg.imagePath, DefaultPath), path)
    ensures Text.EndsWith(path, "_" + TimeOfDay(sunState) + ".png")
    ensures InHolidayWindow(month, day) ==>
      path == Picture(Or(cfg.imagePath, DefaultPath), "winter_xmas", TimeOfDay(sunState))
  {
    var base := Or(cfg.imagePath, DefaultPath);
    var tod := TimeOfDay(sunState);
    if InHolidayWindow(month, day) then
      Picture(base, "winter_xmas", tod)
    else
      var season := Season(cfg, seasonState);
      var suffix := WeatherSuffix(weatherState);
      if suffix != "" && ImageKey(season, tod, suffix) in cfg.trueKeys then
        Picture(base, season + "_" + suffix, tod)
      else
        Picture(base, season, tod)
  }

  /** In the holiday window neither season nor weather matters. */
  lemma HolidayIgnoresSeasonAndWeather(cfg: ImageConfig, sun: string, month: int, day: int,
                                       s1: string, w1: string, s2: string, w2: string)
    requires InHolidayWindow(month, day)
    ensures CalculateImage(cfg, sun, month, day, s1, w1) == CalculateImage(cfg, sun, month, day, s2, w2)
  {
  }

  /** Outside the window the picture is `<path><season>_<time>.png` unless the weather has a suffix and its key is enabled. */
  lemma PlainPictureUnlessEnabled(cfg: ImageConfig, sun: string, month: int, day: int, season: string, weather: string)
    requires !InHolidayWindow(month, day)
    requires WeatherSuffix(weather) == ""
          || ImageKey(Season(cfg, season), TimeOfDay(sun), WeatherSuffix(weather)) !in cfg.trueKeys
    ensures CalculateImage(cfg, sun, month, day, season, weather)
         == Picture(Or(cfg.imagePath, DefaultPath), Season(cfg, season), TimeOfDay(sun))
  {
  }

  /** Outside the window, a weather with a suffix whose key is enabled gives `<path><season>_<suffix>_<time>.png`. */
  lemma WeatherPictureWhenEnabled(cfg: ImageConfig, sun: string, month: int, day: int, season: string, weather: string)
    requires !InHolidayWindow(month, day)
    requires WeatherSuffix(weather) != ""
    requires ImageKey(Season(cfg, season), TimeOfDay(sun), WeatherSuffix(weather)) in cfg.trueKeys
    ensures CalculateImage(cfg, sun, month, day, season, weather)
         == Picture(Or(cfg.imagePath, DefaultPath), Season(cfg, season) + "_" + WeatherSuffix(weather), TimeOfDay(sun))
  {
  }

  /** The weather is read case-insensitively, and "pouring" shares the rainy picture. */
  lemma WeatherCaseInsensitive(raw: string)
    ensures WeatherSuffix(Text.ToLower(raw)) == WeatherSuffix(raw)
    ensures WeatherSuffix("pouring") == WeatherSuffix("rainy") == "rainy"
  {
    Text.ToLowerIdempotent(raw);
    assert Text.ToLower("pouring") == "pouring";
    assert Text.ToLower("rainy") == "rainy";
  }

  /** A season reported in capitals picks the same picture as in lower case. */
  lemma SeasonCaseInsensitive(cfg: ImageConfig, sun: string, month: int, day: int, season: string, weather: string)
    requires cfg.testSeason == ""
    ensures CalculateImage(cfg, sun, month, day, Text.ToLower(season), weather)
         == CalculateImage(cfg, sun, month, day, season, weather)
  {
    Text.ToLowerIdempotent(season);
    Text.ToLowerIdempotent("summer");
    assert Text.ToLower(season) == "" <==> season == "";
  }
}

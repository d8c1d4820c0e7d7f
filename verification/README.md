# House card scene engine

A Dafny model of the animated weather scene of the House Card, a Home Assistant
Lovelace card written as one JavaScript web component (`house-card.js`). On every
`requestAnimationFrame` tick the card reads the weather, wind, sun, cloud cover and
moon entities, decides which parts of the sky to run, and updates its particle arrays
and frame counters in place: rain and snow, fog, clouds, shooting stars, autumn
leaves and spring petals, lightning with its white flash, and the pulsing glow of
the moon. Around that loop sits a small lifecycle that stops and restarts the
animation as the card leaves or enters the viewport or the browser tab is hidden.
Beside the loop are the pure decisions the card makes from entity states: the colour
parser, the moon phase tables, the temperature and CO2 badge classes, the
window-light opacity and the background picture name.

The modules follow the structure of the card:

- `Colour`, `Badges`, `Environment`, `Moon` and `Background` hold the pure decoders
  and classifiers, as functions with lemmas.
- `ForEach` models the two array-removal loops the card uses while it advances
  particles:
  - the rain and snow `for` loop with `splice(i, 1); i--`, which removes exactly
    the particles that leave;
  - `forEach` with `splice(index, 1)`, used for clouds, shooting stars and
    seasonal particles, which passes over the element that slides into the
    removed slot.
- `Cooldown` models the frame counters that gate shooting stars and lightning.
- `Particles` and `Lightning` describe one frame of each subsystem as a function
  of its array.
- `Scene` holds `SceneState`, a snapshot of the engine's fields, and `NextFrame`,
  one `_animate` frame as a function of that snapshot.
  - `Scene.Engine` is the object that owns those fields.
  - Its methods update the fields in place, with the card's loops, and each is
    proved to agree with the functions.
  - `Engine.Frame` also keeps the `Bounded` invariant: the population caps, the
    trail buffers, the counters, the bolt's life and the flash range.
- `Card.HouseCard` is the lifecycle state machine. It keeps:
  - the `_animationFrame` handle;
  - `_isVisible`;
  - the document-hidden flag;
  - the presence of canvas, context and `hass`;
  - the set of frame callbacks the browser still holds.

  Its invariant `Valid` says that at most one callback is outstanding, and that
  it is the one the card holds.

Randomness, the clock and trigonometry are inputs:
- `Math.random` is a `Stream`, a function from draw index to a value in [0, 1),
  read in the order the card calls it.
- `Date.now()` is the number `now`.
- `Math.sin` and `Math.cos` are function parameters.

Entity readings are `Option` values. `parseFloat` failing is `Some(None)` and a
missing entity is `None`. Strings that JavaScript treats as falsy are the empty
string.
The weather state string is read once, by `Environment.Classify`, into a `Weather`
value that names the ten states the frame dispatch compares against, a missing
state, or any other string; `FramePlanByName` restates the dispatch on the string.

The moon's shadow follows the code of `_drawPhaseShadow`:
- The shadow ellipse's semi-width is `size * |1 - 2 * illumination|`.
- The illumination comes from the phase name, so a moon entity that overrides
  the name also changes the shadow.

## Model

| member | source | states |
|---|---|---|
| Colour.HexToRgb | house-card.js:544-564 | a colour is returned exactly when the string is six or three hex digits after an optional '#'; every channel is below 256 and the six-digit form gives the three digit pairs |
| Colour.PairValue | house-card.js:548-551 | `parseInt` of two hex digits is a channel value below 256 |
| Colour.RoundTrip | house-card.js:544-552 | writing any colour as `#rrggbb` and parsing it gives the colour back |
| Colour.ShortIsDoubledLong | house-card.js:555-562 | three digits parse, to the same colour as the six digits with each digit doubled, with or without '#' |
| Colour.HashIsOptional | house-card.js:546-556 | the leading '#' is optional: with or without it the same colour (or null) results |
| Colour.CaseInsensitive | house-card.js:546-556 | lower-casing the string never changes the result (the `/i` flag) |
| Badges.TempClassIsBand | house-card.js:409-411 | the temperature class is the number of thresholds 19, 23, 25 the reading has reached |
| Badges.TempColorClass | house-card.js:409-411 | each class holds exactly on its band: cold below 19, optimal on [19, 23), warm on [23, 25), hot from 25 |
| Badges.TempClassMonotone | house-card.js:409-411 | a warmer reading never gets a cooler class |
| Badges.Co2ColorIsBand | house-card.js:413-417 | the CO2 colour is the number of thresholds 1000, 1600 ppm the reading has reached |
| Badges.Co2Color | house-card.js:413-417 | each colour holds exactly on its band: good below 1000 ppm, moderate on [1000, 1600), bad from 1600 |
| Badges.Co2ColorMonotone | house-card.js:413-417 | more CO2 never gets a better colour |
| Badges.WindowOpacity | house-card.js:456-459 | 0 when off, 1 when on with brightness undefined (a `null` brightness is passed as 0), otherwise the larger of 0.3 and brightness/255, so within [0.3, 1] for brightness up to 255 |
| Environment.WindValue | house-card.js:567-576 | the dedicated entity wins over the weather attribute, which wins over the default; an unparsable entity gives the NaN fallback |
| Environment.WindData | house-card.js:566-579 | with no source speed 10 and bearing 270; unparsable readings give speed 5 and bearing 270; otherwise the reading |
| Environment.CloudCoverage | house-card.js:581-588 | the parsed coverage entity, or 0 when it is missing or unparsable |
| Environment.WindDirX | house-card.js:1025 | the drift sign is +1 exactly when the bearing is above 180 or below 0, otherwise -1 |
| Environment.WindDirXOnCompass | house-card.js:1025 | for a compass bearing in [0, 360) particles drift right exactly for bearings above 180 |
| Environment.MoveSpeed | house-card.js:1026 | speed/15 clamped to [0.2, 6], equal to speed/15 inside the range |
| Environment.MoveSpeedMonotone | house-card.js:1026 | more wind never means slower particles |
| Environment.CloudDensity | house-card.js:1041-1042 | density 2 exactly above 80 % cover, 1 exactly at or below 50 %, otherwise 1.5 |
| Environment.CloudTargetByCoverage | house-card.js:1099 | the cloud target `floor(5 * density)` is 5, 7 or 10 and grows with the coverage |
| Environment.StarVisibility | house-card.js:1061-1062 | star visibility is non-negative, at most 1 for non-negative cover, and positive exactly below 80 % cover |
| Environment.MoonOcclusion | house-card.js:635-636 | the moon's opacity is non-negative and above the 0.1 cut-off exactly below 112.5 % cover |
| Environment.MoonSurvivesAnyCoverage | house-card.js:635-636 | for cover within 0..100 % the moon's opacity is at least 0.2 |
| Environment.Classify | house-card.js:1023 | the state string is read as the named state it spells, or as `Other` exactly when it names none; the name is kept either way |
| Environment.ClassifyName | house-card.js:1023 | reading a named state's string gives that state back |
| Environment.FramePlan | house-card.js:1034-1049 | which parts run for a weather state: stars and moon at night, fog for fog or night rain/cloud, clouds for any weather but a clear or missing one or above 20 % cover, rain (intensity 2 exactly when pouring) or snow, lightning for the two thunder states |
| Environment.FramePlanByName | house-card.js:1038-1049 | the same dispatch stated on the state string with the card's own literals: "fog", "rainy"/"cloudy" at night, all but ""/"clear-night"/"sunny" for clouds, the four rain strings, the two snow strings, "pouring" for intensity 2, the two lightning strings |
| Environment.StormsRainAndUnknownWeatherIsDry | house-card.js:1044-1049 | thunder always brings rain; a weather state the card does not name brings neither precipitation nor lightning |
| Moon.PhaseOfFraction | house-card.js:608-619 | below 0.0625 or from 0.9375 the phase is new moon; otherwise the phase index is the fraction's 0.125-wide band |
| Moon.PhaseOrdered | house-card.js:608-619 | between the new-moon bands the phase never goes backwards as the fraction grows |
| Moon.MoonPhaseName | house-card.js:590-598 | a moon entity's state overrides the computed name |
| Moon.ShadowTable | house-card.js:727-758 | waxing phases shade the left, waning the right, with illumination 0.15/0.5/0.85 for crescent/quarter/gibbous; only full moon has no shadow |
| Moon.ShadowOf | house-card.js:722-758 | no shadow exactly for "full_moon"; illumination is 0, 0.15, 0.5 or 0.85; the right side is shaded exactly for the three waning names; an unknown name keeps the defaults, left and 0.5 |
| Moon.Geometry | house-card.js:768-804 | the ellipse semi-width is `size * abs(1 - 2 * illumination)` and the cut-out branch runs exactly below illumination 0.5 |
| Moon.CentreOffset | house-card.js:783-802 | both branches put the ellipse centre at `size * (0.5 - illumination)` from the middle, mirrored for the right side |
| Moon.WaningMirrorsWaxing | house-card.js:727-804 | each waning phase draws the mirror image of its waxing counterpart |
| Moon.ShapesOfShadow | house-card.js:768-804 | crescents are cut out of a dark disc, gibbous phases paint a shadow, both 0.7 * size wide; quarters draw an ellipse of width 0 |
| Moon.GlowTable | house-card.js:675-679 | the substring tests give full 0.6, gibbous 0.45, quarter 0.35, crescent 0.25 and new moon 0.3 |
| Moon.GlowIntensity | house-card.js:675-679 | the intensity lies in [0.25, 0.6], is 0.6 exactly for "full_moon", and is 0.3 for a name with no shape word |
| Moon.GlowNamed | house-card.js:675-679 | a name built from a prefix and a shape word gets that word's glow |
| Moon.GlowFollowsIllumination | house-card.js:675-679 | among visible phases a more illuminated shape glows more |
| Moon.MoonPlan | house-card.js:622-646 | the moon is drawn exactly at night, not at new moon and below 112.5 % cover, with the shadow of its name and a glow exactly when enabled |
| Moon.VisibleMoon | house-card.js:622-636 | at night with cover in 0..100 % every phase but new moon is drawn, at opacity at least 0.2 |
| Background.TimeOfDay | house-card.js:184-185 | "night" exactly when the sun is below the horizon, otherwise "day" |
| Background.WeatherSuffix | house-card.js:197-206 | the lower-cased state gives suffix "lightning" exactly for lightning/lightning-rainy, "rainy" exactly for rainy/pouring, "snowy" exactly for snowy/snowy-rainy, "fog" exactly for fog, and none otherwise |
| Background.Season | house-card.js:194-195 | the season is never empty and has no capitals: the lower-cased test season when set, else the lower-cased entity state when set, else "summer" |
| Background.Picture | house-card.js:209-214 | a picture name starts with the image path and ends with `_<time>.png` |
| Background.CalculateImage | house-card.js:182-215 | every picture starts with the image path (default when unset) and ends with the time of day; in the 14 Dec to 14 Jan window it is the holiday picture; the other two cases are `PlainPictureUnlessEnabled` and `WeatherPictureWhenEnabled` |
| Background.HolidayIgnoresSeasonAndWeather | house-card.js:190-192 | in the holiday window neither season nor weather changes the picture |
| Background.PlainPictureUnlessEnabled | house-card.js:208-214 | outside the window the picture is `<season>_<time>.png` unless the weather has a suffix whose `img_` key is true |
| Background.WeatherPictureWhenEnabled | house-card.js:208-212 | outside the window, a weather with a suffix whose `img_<season>_<time>_<suffix>` key is true gives `<path><season>_<suffix>_<time>.png` |
| Background.WeatherCaseInsensitive | house-card.js:200-205 | the weather is read case-insensitively and "pouring" shares the rainy picture |
| Background.SeasonCaseInsensitive | house-card.js:194-195 | a season in capitals picks the same picture as in lower case |
| Text.ToLower | house-card.js:195 | `toLowerCase` keeps the length, lower-cases each ASCII letter and leaves no capital |
| ForEach.IndexSplice | house-card.js:1127-1131 | the `i--` loop keeps no element that is gone and never grows the array |
| ForEach.ForEachSplice | house-card.js:1105-1107 | `forEach` with `splice` never grows the array |
| ForEach.Map | house-card.js:1084-1086 | a `forEach` without removal advances every element in place |
| ForEach.IndexSpliceIsFilterOfMap | house-card.js:1127-1131 | the `i--` loop equals advancing every element and then keeping those that stay, in order |
| ForEach.NoExitMeansMap | house-card.js:1105-1107 | when nothing leaves, both loops advance every element and keep all of them |
| ForEach.ForEachSkipsSuccessor | house-card.js:1105-1107 | after a removal, `forEach` passes over the next element, which stays unadvanced |
| ForEach.ForEachDiffersFromIndexLoop | house-card.js:1127-1131 | two leaving elements: `forEach` keeps the second, the `i--` loop keeps neither |
| ForEach.RunIndexSplice | house-card.js:1127-1131 | the in-place `i--` loop computes `IndexSplice` |
| ForEach.RunForEachSplice | house-card.js:1163-1177 | the in-place `forEach`-with-`splice` loop computes `ForEachSplice` |
| ForEach.ForEachSpliceKeeps | house-card.js:1163-1177 | a property every element has and advancing keeps still holds of every element after a `forEach` frame |
| Cooldown.Step | house-card.js:1155-1160 | an inactive frame leaves the counter; an active one fires exactly when counter + 1 exceeds the gap and the draw succeeds, resetting it to 0, else counts up |
| Cooldown.FireNeedsGap | house-card.js:1156-1159 | an event can fire only once the counter has run past the gap |
| Cooldown.FiringsAreSpaced | house-card.js:1156-1159 | two events are always at least gap + 1 frames apart (61 for shooting stars, 201 for lightning) |
| Particles.WithSpawn | house-card.js:1124 | one element is pushed exactly when the array is below its cap |
| Particles.NewRaindrop | house-card.js:1124 | a new raindrop starts at y = -20 within the width, with speed 15 + wind and length in [15, 25) |
| Particles.NewSnowflake | house-card.js:1137 | a new snowflake starts at y = -10 within the width, with speed in [1, 2) and radius in [1.5, 2.5) |
| Particles.PrecipitationFrame | house-card.js:1123-1143 | a rain/snow frame adds at most one drop, never takes a capped array over its cap, leaves only drops on the canvas (within 50 px sideways) and keeps the survivors' order |
| Particles.Precipitate | house-card.js:1123-1147 | a rain or snow frame adds at most one drop and keeps only drops still on the canvas |
| Particles.NewFogBlob | house-card.js:1075-1080 | a new fog blob lies in the bottom 50 px, with radius in [50, 100) and speed in [0.05, 0.25) |
| Particles.FogStaysInBand | house-card.js:1084-1086 | a fog blob moves right by its share of the wind or wraps to -100, never right of width + 100, and nothing else changes |
| Particles.MakePuff | house-card.js:1119 | a puff lies across the cloud's width, within 15 px of its centre line, with radius in [25, 45) and opacity in [0.1, 0.3) |
| Particles.Puffs | house-card.js:1118-1119 | the puff list has the drawn count and every puff is in range |
| Particles.NewCloud | house-card.js:1100-1101 | a new cloud has 4 to 7 puffs in range and enters 200 px beyond the edge the wind blows from, with y in [0, 100) and scale in [0.8, 1.2) |
| Particles.DrawPuffs | house-card.js:1118-1119 | the `for` loop pushes exactly the puffs `Puffs` describes, in order |
| Particles.CreateCloud | house-card.js:1117-1121 | `_createCloud` with the entry position builds exactly `NewCloud` |
| Particles.AdjustClouds | house-card.js:1099-1103 | push when below the target, pop one when above, otherwise unchanged |
| Particles.AdjustTowardTarget | house-card.js:1099-1103 | the cloud count moves one step toward the target and never past it |
| Particles.CloudsFrameBounded | house-card.js:1098-1108 | a cloud frame adds at most one cloud, never rises above a target it started under, and loses at least one when above it |
| Particles.CloudsFrame | house-card.js:1098-1116 | a cloud frame adds at most one cloud, and none when the count is at or above the target |
| Particles.NewStar | house-card.js:1004-1013 | every star `_initStars` draws lies on the canvas, with size below 1.5 and speed in [0.01, 0.03) |
| Particles.NewShootingStar | house-card.js:1180-1200 | a new shooting star starts in the upper-left sky with an empty trail, trail length 12..19, life in [40, 70), size in [1.5, 3) and brightness in [0.8, 1) |
| Particles.ShootingStarTrail | house-card.js:1167-1171 | a step loses one unit of life, puts the new head first in the trail and keeps it within its length, older points in order |
| Particles.ShootingStarsFrameKeepsTrails | house-card.js:1149-1178 | after a frame every trail is within its length and only a spawn can add a star |
| Particles.ShootingStarsFrame | house-card.js:1149-1178 | only a fired spawn can add a shooting star, and then only one |
| Particles.Pick | house-card.js:1305 | `floor(random * n)` is an index below n |
| Particles.SeasonOf | house-card.js:1250 | the season is never empty: the test season when set, else the lower-cased entity state, else "summer" |
| Particles.NewSeasonalParticle | house-card.js:1283-1335 | a leaf exactly in autumn (6 colours, 3 shapes, size 6..12) and otherwise a petal (4 colours, size 4..8), entering from the wind side on a draw below 0.3 and from the top otherwise |
| Particles.SeasonalFrameBounded | house-card.js:1248-1281 | off season the array is emptied; in season at most one particle is added, only on a draw below 0.1 and only while the count is below `floor(25 * density)`: a count under the cap stays within it, and a count at or above it never grows |
| Particles.SeasonalFrame | house-card.js:1248-1281 | off season the array is emptied; in season at most one particle is added |
| Lightning.Segment | house-card.js:1424 | each segment goes 20 to 60 px down and up to 30 px sideways |
| Lightning.PathFrom | house-card.js:1423-1424 | the path is not empty and starts at the start point |
| Lightning.PathJagged | house-card.js:1424 | every segment of a bolt goes 20 to 60 px down and up to 30 px sideways |
| Lightning.PathStopsPastReach | house-card.js:1424 | every point but the last lies above 80 % of the height and the last at or below it |
| Lightning.Strike | house-card.js:1422-1426 | a strike starts on the top edge at the first draw and lives 10 frames |
| Lightning.Age | house-card.js:1420 | a bolt with life left loses one frame of it; a spent or absent bolt stays |
| Lightning.StrikeShape | house-card.js:1417-1421 | a firing frame resets the counter, sets the flash to 0.5 and leaves the new bolt with 9 frames; otherwise the counter counts up, the flash stays and the bolt ages |
| Lightning.StormFrame | house-card.js:1417-1426 | the counter either resets to 0 or counts up by one; the flash changes only to 0.5 on a reset; a live bolt is never lost in a frame |
| Lightning.FlashStep | house-card.js:1051-1055 | the flash fades by 0.05 while positive and otherwise stays |
| Lightning.FlashFades | house-card.js:1051-1055 | a flash never rises, never drops more than one step below zero, and after n frames is flash - 0.05n while that is non-negative |
| Lightning.FlashOfStrikeLastsTenFrames | house-card.js:1051-1055 | the 0.5 flash of a strike is still visible after 9 frames and gone after 10 |
| Scene.GlowPulsesWhenGlowDrawn | house-card.js:641-643 | the glow phase advances exactly in the frames where the moon is drawn with its glow |
| Scene.DropsStayCapped | house-card.js:1044-1048 | the shared drop array stays within 300 |
| Scene.CloudsStayCapped | house-card.js:1040-1043 | the cloud array stays within 10 |
| Scene.TrailsStayBounded | house-card.js:1036 | every shooting-star trail stays within its length across a frame |
| Scene.StormStaysBounded | house-card.js:1049-1055 | the lightning counter stays non-negative, the bolt's life within 0..10 and the flash within (-0.05, 0.5] |
| Scene.FrameKeepsBounds | house-card.js:1015-1058 | every frame keeps the caps, trail bounds, counters, bolt life and flash range |
| Scene.FrameTouchesOnlyPlannedParts | house-card.js:1034-1055 | a frame leaves the stars and every part the weather does not run unchanged; shooting stars freeze above 70 % cover; seasonal particles vanish out of season |
| Scene.NextFrame | house-card.js:1015-1058 | a frame keeps the background stars and advances the glow phase by 0.02 or not at all |
| Scene.Engine.constructor | house-card.js:28-40 | empty arrays, zero counters, no bolt, no flash, and the bounds hold |
| Scene.Engine.InitStars | house-card.js:1004-1013 | sixty stars, star k from draws 5k..5k+4, all on the canvas |
| Scene.Engine.DrawMoon | house-card.js:622-672 | the glow phase goes up by 0.02 exactly when the moon is drawn with its glow |
| Scene.Engine.HandleShootingStars | house-card.js:1149-1178 | the counter ticks as `Cooldown.Step` with gap 60 and the stars become `ShootingStarsFrame`; above 70 % cover both stay |
| Scene.Engine.DrawSeasonalParticles | house-card.js:1248-1281 | the particle array becomes `SeasonalFrame` of the old one |
| Scene.Engine.DrawFog | house-card.js:1073-1096 | the fog array becomes the spawned array with every blob advanced |
| Scene.Engine.DrawClouds | house-card.js:1098-1116 | the cloud array becomes `CloudsFrame` of the old one |
| Scene.Engine.DrawRain | house-card.js:1123-1134 | the drop array becomes `Precipitate` with the rain cap, spawn and step |
| Scene.Engine.DrawSnow | house-card.js:1136-1147 | the drop array becomes `Precipitate` with the snow cap, spawn and step |
| Scene.Engine.TriggerLightning | house-card.js:1422-1426 | the segment loop builds exactly `Strike`, and the flash is 0.5 |
| Scene.Engine.HandleLightning | house-card.js:1417-1421 | counter, bolt and flash become `StormFrame` of the old ones |
| Scene.Engine.RunMoon | house-card.js:1035 | the glow phase becomes `GlowAfter` |
| Scene.Engine.RunShootingStars | house-card.js:1036 | counter and stars become `TimerAfter` and `ShootingAfter`, with frequency default 0.002 |
| Scene.Engine.RunSeasonal | house-card.js:1037 | the seasonal array becomes `SeasonalAfter`, with density default 1 |
| Scene.Engine.RunFog | house-card.js:1038 | the fog array becomes `FogAfter` |
| Scene.Engine.RunClouds | house-card.js:1040-1043 | the cloud array becomes `CloudsAfter` |
| Scene.Engine.RunPrecipitation | house-card.js:1044-1048 | the drop array becomes `DropsAfter` |
| Scene.Engine.RunLightningAndFlash | house-card.js:1049-1055 | counter, bolt and flash become `StormAfter` |
| Scene.Engine.Advance | house-card.js:1034-1055 | the engine's new state is `NextFrame` of the old one |
| Scene.Engine.AdvanceSky | house-card.js:1035-1037 | glow phase, shooting-star counter and array, and seasonal array become their `*After` values |
| Scene.Engine.AdvanceWeather | house-card.js:1038-1055 | fog, cloud and drop arrays and the storm become their `*After` values |
| Scene.Engine.Frame | house-card.js:1015-1058 | the engine's new state is `NextFrame` of the old one, and the bounds still hold |
| Card.HouseCard.constructor | house-card.js:19-45 | no handle, nothing requested, not visible, no canvas, context or `hass`, and the document-hidden flag as the browser reports it; the scene starts empty (no particles, counters 0, no bolt, no flash, glow phase 0); the invariant holds |
| Card.HouseCard.Render | house-card.js:989-992 | canvas and context exist and the card counts as visible |
| Card.HouseCard.Stop | house-card.js:160-165 | the handle is null afterwards and its callback is cancelled; with no handle nothing changes, so a second stop is a no-op |
| Card.HouseCard.Animate | house-card.js:1015-1057 | without canvas, context or `hass` the handle is null, nothing is scheduled and the scene is unchanged; otherwise the scene advances by `NextFrame` and then exactly one new callback is requested |
| Card.HouseCard.RequestFrame | house-card.js:1057 | a fresh handle becomes the only pending callback |
| Card.HouseCard.FrameFired | house-card.js:1057 | the fired callback runs one frame and keeps at most one callback outstanding |
| Card.HouseCard.Start | house-card.js:176-178 | stars are seeded only when there are none, star k from draws 5k to 5k+4, then the engine advances by `NextFrame` with the seeded stars and a frame is requested |
| Card.HouseCard.Restart | house-card.js:167-180 | nothing happens while hidden or out of view; otherwise the old request is cancelled; a card that is not ready is left with no request and an untouched scene, a ready one holds exactly one new request and advances by `NextFrame`, keeping its stars when it had some and seeding `StarCount` fresh ones (star k from draws 5k to 5k+4) only when it had none |
| Card.HouseCard.OnVisibilityChange | house-card.js:151-158 | hiding the document stops the animation and leaves the scene untouched; showing it leaves a card out of view as it was, and restarts a card in view: no request and an untouched scene when not ready, else exactly one new request and one `NextFrame` step, with existing stars kept and stars seeded only when there were none |
| Card.HouseCard.OnIntersection | house-card.js:123-134 | no change of visibility does nothing; leaving the viewport stops with the scene untouched; entering it while the document is hidden changes nothing else, when not ready leaves no request and the scene untouched, and when ready holds exactly one new request after one `NextFrame` step, with existing stars kept and stars seeded only when there were none |
| Card.HouseCard.Disconnected | house-card.js:141-149 | detaching the card leaves no callback outstanding |
| Card.HouseCard.SetHass | house-card.js:278-282 | setting `hass` starts the animation only when none is pending and the card is shown, and then the engine advances by `NextFrame`, with existing stars kept and stars seeded only when there were none; a pending request is kept |

## Left out

- Canvas drawing is not modelled. That covers every gradient, arc, ellipse fill,
  crater, leaf and petal shape, bolt stroke and the twinkle of `_drawStars`, which
  changes no state. The model keeps the state these functions update and the
  decisions that gate them.
- Shadow-DOM construction, `_render` (except that it creates the canvas and
  context and marks the card visible), `_resizeCanvas`, `setConfig`, badges and
  nav-link HTML, click handlers and more-info events are not modelled: they are
  DOM and foreign calls.
- Registering observers and listeners (`connectedCallback`) is not modelled, and
  neither is the `Image.onload` background swap.
  - The intersection callback is modelled as one call per entry.
  - `requestAnimationFrame` handles are positive numbers.
  - The browser's pending callbacks are a set.
- Card.HouseCard.Animate requires that no callback is outstanding on entry. That
  is how the card calls it: from the callback that just fired, after
  `_stopAnimation`, or from the auto-start when no handle is held.
- `Math.random` is read as one stream, or one roll, per subsystem per frame
  rather than as one shared sequence. The model therefore says nothing about
  which subsystem's draw comes first.
- `Date.now()` is one instant per frame.
- The epoch arithmetic of `_calculateMoonPhase`, from the reference new moon to a
  fraction, is not modelled; only the fraction-to-name table is.
- Numbers are exact reals, not IEEE doubles.
  - Lightning.FlashOfStrikeLastsTenFrames holds over reals. With doubles, ten
    subtractions of 0.05 from 0.5 leave a tiny positive remainder, so the card
    paints one more, invisible, flash frame.
  - Float drift of positions is likewise not modelled.
- `toLowerCase` is modelled on ASCII letters only.
- `parseFloat` of an entity state is an input: a number or "not a number".
  Weather attributes are numbers or absent, and a numeric 0 counts as absent
  because JavaScript treats it as false.
- A raindrop's `length` and a snowflake's `radius` are one field, `size`, because
  rain and snow share the `_particles` array.
- The canvas-size fallbacks (300 x 200) of `_initStars` and the `randomX` branch
  of `_createCloud` are not modelled. Every call in the card has a canvas, and
  `_createCloud` is only called with `false`.

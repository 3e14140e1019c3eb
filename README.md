# Local Weather: a Dafny model of the page's data handling

The page (`scripts/app.js`) fetches the current conditions and a daily
forecast from a weather provider and, for locations in the United States,
an hourly UV-index forecast from a UV provider. It merges both into one
snapshot, adds Celsius fields, draws the snapshot in Fahrenheit or Celsius
according to a unit flag, and picks a background class from the time of day
and the weather condition.

This project models that data handling:

- `Digits` — `parseInt` on strings of decimal digits and `toString` on
  non-negative integers, with the round trip between them.
- `Units` — `fahrenheitToCelsius`, computed on integers.
- `Clock` — the two 12-hour to 24-hour conversions: the UV provider's hour
  rule inside `loadWeather`, and `convertTo24` as written (no padding, "12 am"
  kept as twelve), plus the current-hour key.
- `WeatherModel` — the snapshot and the shapes of both providers' responses.
- `Aggregator` — `loadWeather`'s merge: the forecast split, the conversion of
  the hourly UV records, the `reduce` that yields the day's highest UV value
  and the current hour's UV value, and the whole snapshot.
- `Presenter` — `displayWeather` as a projection of a snapshot and the unit flag.
- `Background` — the `codes` table, the `for…in` bucket search, the day/night
  prefix, and the corrected lookups next to the code as written.
- `Page` — the module-level state (`metric`, `bgClass`, `loadedWeather`) as a
  class, with the unit-toggle handler, `changeBackground` and `loadWeather`.

Regular-expression matches are inputs: a time of day arrives as the groups
its pattern captures (`Clock.TimeText`), and a UV record arrives as its hour
digits, meridiem and UV text (`WeatherModel.EpaRecord`). Temperatures and
condition codes are the integers `parseInt` reads. The browser clock arrives
as hours and minutes. Each HTTP response arrives as a parameter.

The two 12-hour conversions disagree, and the model keeps both as written:
the UV rule (lines 175-185) turns "12 am" into "00", while `convertTo24`
(lines 302-310) keeps "12 am" as twelve. The current-hour key is built
with `convertTo24` and compared with hours built by the UV rule, so
between midnight and 12:50 am the page reads the noon UV value, and from
11:50 pm on the key "24" matches no reading (`Clock.MidnightKeyedAsNoon`,
`Clock.LateEveningKey`, `Clock.EpaHourNever24`). The padding branch of
`convertTo24` never runs as its author evidently meant: line 306 is the
comma expression `time[1],length === 1`, whose value is `length === 1` on
the page's global `length`, the number of frames, normally 0. The model
assumes it is 0 (see the last line under "## Left out"), so `convertTo24`
never pads the hour. The background suffix is always "Clouds" (see
"## Findings").

## Model

| member | source | states |
|---|---|---|
| Units.FahrenheitToCelsius | scripts/app.js:313-315 | the result lies within half a degree of (f − 32) / 1.8, the rounding `Math.round` performs |
| Units.NeverHalfway | scripts/app.js:313-315 | (f − 32) / 1.8 is never exactly halfway between two integers, so half-up and half-away-from-zero agree |
| Units.NearestIsUnique | scripts/app.js:313-315 | the conversion's result is the only integer within half a degree of the exact value |
| Units.Monotone | scripts/app.js:313-315 | a higher Fahrenheit reading never converts to a lower Celsius one |
| Units.DocumentedReadings | scripts/app.js:28-77 | 89→32, 91→33, 72→22, 90→32, 85→29, 71→22 as in the example snapshot, and 32→0, 212→100 |
| Clock.EpaHour | scripts/app.js:171-185 | the UV rule's hour is a digit string of at least two characters |
| Clock.EpaHourIsClockHour | scripts/app.js:175-185 | on hours "01".."12" the UV rule gives two characters naming (h mod 12), plus 12 for pm: a 24-hour hour in 0..23 |
| Clock.DocumentedEpaHours | scripts/app.js:175-185 | "12" am → "00", "12" pm → "12", "07" pm → "19", "07" am → "07" |
| Clock.ConvertTo24 | scripts/app.js:295-311 | the result is digits, at least three characters, ending in the captured minutes |
| Clock.ConvertTo24Value | scripts/app.js:300-310 | `parseInt(convertTo24(t))` is 100 × hour + minutes, where twelve is added only for lower-case "pm" on an hour other than "12" |
| Clock.ConvertTo24Unpadded | scripts/app.js:302-310 | a one-digit hour that is not "pm" yields three characters; "12" reads as 1200 + minutes whatever the meridiem |
| Clock.DocumentedTimes | scripts/app.js:21-22 | "6:14 am" → "614" and "7:51 pm" → "1951" |
| Clock.CurrentHourKey | scripts/app.js:195-199 | the key is a numeral of at least two characters naming the whole hour nearest to the HHMM number |
| Clock.CurrentHourKeyRoundsUp | scripts/app.js:195-199 | the key has two characters and names the 24-hour hour, plus one from minute 50 on |
| Clock.DocumentedHourKey | scripts/app.js:27 | the observation time "12:53 pm" gives the key "13" |
| Clock.MidnightKeyedAsNoon | scripts/app.js:175-203 | an observation at "12:30 am" is keyed "12", which the UV rule uses for noon (midnight is "00"), so the current UV is read from the noon reading |
| Clock.LateEveningKey | scripts/app.js:195-199 | at "11:55 pm" the current-hour key is "24" |
| Clock.EpaHourNever24 | scripts/app.js:175-185 | the UV rule never names an hour "24", so from 11:50 pm on no reading matches the key and the current UV is left unset |
| Digits.Pad2 | scripts/app.js:197-199 | a text shorter than two characters gets exactly one zero on the left (one character longer, the original text after a single zero); longer texts are unchanged |
| Aggregator.SplitForecast | scripts/app.js:144-152 | `today` is the first raw entry and `forecast` holds entries 1..n−1 in order, each with altHigh/altLow the Celsius of its high/low and nothing else changed |
| WeatherModel.Annotate | scripts/app.js:149-150 | a forecast entry gets altHigh and altLow, the Celsius of its high and low, and keeps every other field |
| Aggregator.ConvertHourly | scripts/app.js:169-191 | the hourly list has one entry per record, in provider order, each hour converted by the UV rule and the UV text kept |
| Aggregator.FoldUV | scripts/app.js:202-212 | highUV is "0" on an empty list, is at least every reading, and is "0" or the text of the first reading that attains the maximum; currently.uv takes the UV of the last reading whose hour equals the key, and is left untouched when none does |
| Aggregator.HighUVUnique | scripts/app.js:202-212 | at most one accumulator text meets the highUV description, so it fixes the result |
| Aggregator.CurrentUVUnique | scripts/app.js:202-205 | at most one current-UV value meets its description |
| Aggregator.FoldExample | scripts/app.js:202-212 | readings 07:0, 08:1, 14:8 at current hour "14" give highUV "8" and currently.uv "8" |
| Aggregator.Aggregate | scripts/app.js:135-212 | no snapshot when the raw forecast is empty; otherwise the snapshot copies link, location (lat/long from the item) and astronomy, adds every Celsius field, splits the forecast, and carries UV data exactly when the location is "United States" and the UV response is present |
| Aggregator.AggregateDetermined | scripts/app.js:135-212 | the two responses determine the snapshot: two snapshots meeting the description are equal |
| Aggregator.AggregateIsConverted | scripts/app.js:143-152 | every Celsius field of the snapshot is computed from its Fahrenheit field |
| Presenter.Display | scripts/app.js:229-257 | an undefined snapshot draws nothing; the UV line appears exactly when highUV is set and non-empty, as "<highUV>/12" |
| Presenter.MetricViewIsCelsius | scripts/app.js:235-245 | the metric view is the imperial view with temperature, high and low converted to Celsius and the unit "C" for "F", nothing else changed |
| Presenter.RegionsShowSnapshot | scripts/app.js:235-257 | for every snapshot, temperature, high and low come from altTemp/altHigh/altLow with unit "C" under the metric flag and from temp/high/low with "F" otherwise; condition texts, link and "city, region" are copied |
| Presenter.NoUVStillDisplays | scripts/app.js:249-257 | without highUV the UV region is cleared and the temperature and place label are still drawn |
| Presenter.ToggleText | scripts/app.js:121-125 | the button reads "°" followed by the unit letter the view uses after the next click, the other unit from the one shown |
| Background.FirstBucket | scripts/app.js:274-279 | None exactly when no bucket lists the code; otherwise the name of the first bucket that lists it |
| Background.FindBucket | scripts/app.js:273-279 | the `for…in` loop with `break` returns the first bucket listing the probed code |
| Background.DayPrefix | scripts/app.js:270 | the prefix is "day" exactly when the time lies strictly between sunrise and sunset, otherwise "night" |
| Background.LocalClock | scripts/app.js:262-263 | hours and minutes written side by side read as hours shifted left by the number of digits the minutes take, plus the minutes |
| Background.LocalClockValue | scripts/app.js:262-263 | the local clock number is 10 × hours + minutes for minutes 0..9 and 100 × hours + minutes otherwise |
| Background.AfternoonReadsAsNight | scripts/app.js:262-270 | at 14:05 with sunrise "6:14 am" and sunset "7:51 pm" the clock reads 145 and the prefix is "night", though the time lies between them |
| Background.HHMMOrder | scripts/app.js:266-270 | HHMM numbers order times of day as the times themselves are ordered |
| Background.ClockHHMMPrefix | scripts/app.js:266-270 | with the clock as an HHMM number, the prefix is "day" exactly when the time lies strictly between sunrise and sunset |
| Background.ProbeIgnoresCondition | scripts/app.js:274-279 | the probed code 28 is in "Clouds", while the rain code 9 is in "Rain" |
| Background.OnlyBucket | scripts/app.js:87-100 | a code listed in a bucket is found in that bucket |
| Background.CodesDisjoint | scripts/app.js:87-100 | no code is listed in two buckets |
| Background.CodesCover | scripts/app.js:87-100 | every code 0..47 is listed in some bucket |
| Background.CodesInRange | scripts/app.js:87-100 | every listed code is in 0..47 and no bucket is named "Unknown" |
| Background.LookupTotalOnCodes | scripts/app.js:87-100 | the bucket search finds a bucket exactly for the codes 0..47 |
| Background.IntendedSuffix | scripts/app.js:272-279 | the suffix is a bucket listing the code exactly when the code is in 0..47, and "Unknown" otherwise |
| Background.IntendedSuffixExamples | scripts/app.js:87-100 | code 9 → "Rain", code 30 → "Clouds", code 3200 → "Unknown" |
| Page.IntendedBackgroundClass | scripts/app.js:260-288 | the intended class is "day" exactly between sunrise and sunset, otherwise "night", followed by the bucket of the snapshot's code |
| Page.BackgroundClass | scripts/app.js:260-287 | as written: "day" exactly when the unpadded clock number lies strictly between 100 × hour + minutes of sunrise and of sunset, otherwise "night", then "Clouds" whatever the condition code |
| Page.App.constructor | scripts/app.js:101-103 | the page starts imperial, with no background class and no snapshot |
| Page.App.ToggleUnit | scripts/app.js:119-127 | the flag flips, so two clicks restore it; the button names the other unit; the last snapshot is redrawn with the new flag |
| Page.App.ChangeBackground | scripts/app.js:260-289 | the class becomes the day/night prefix of the unpadded clock against sunrise and sunset, followed by "Clouds" |
| Page.App.LoadWeather | scripts/app.js:129-226 | with an empty raw forecast nothing changes, whatever the sunrise and sunset texts; otherwise the stored snapshot is the aggregate, it is drawn with the current flag and the background is recomputed |

## Findings

| source | as written | input that shows it | evidently intended | confidence | as-written member | corrected member |
|---|---|---|---|---|---|---|
| scripts/app.js:274-279 | every bucket is tested for the constant 28, so the suffix is always "Clouds" | a snapshot whose condition code is 9 (showers) | the bucket listing `weather.currently.code` ("Rain" for 9) | high; not executed | Background.ProbeIgnoresCondition | Background.IntendedSuffix |
| scripts/app.js:262-263 | hours and minutes are joined without padding the minutes | 14:05 local time, sunrise "6:14 am", sunset "7:51 pm": the clock reads 145 < 614, prefix "night" | the HHMM number 1405, prefix "day" | high; not executed | Background.AfternoonReadsAsNight | Background.ClockHHMMPrefix |

`Page.App` follows the code as written, so that its contracts describe the
page as it runs. `Page.IntendedBackgroundClass` is the background class with
both corrections applied.

## Left out

- The HTTP requests, their URLs and the `.done`/`.always` callback order (lines 131-134, 159-162). The model takes each response as a parameter. It also leaves out the race in which the last response to arrive wins.
- Geolocation and the search form's submit handler (lines 106-116). These are browser event wiring; `Page.App.LoadWeather` stands for one call.
- The DOM updates and HTML strings of `displayWeather`, the toggle handler and `changeBackground` (lines 122-124, 235-257, 282-288). Only the values written are modelled. Removing the old background class is not modelled.
- `new Date()` and the regular expressions (lines 171, 262-263, 300). Their results are parameters. A pattern that fails to match throws in the page; here it is excluded by the preconditions `Matched`, `WellFormedRecords` and `Parsable`, and only on the paths that run the pattern.
- `parseInt` on text that is not a numeral (NaN). Temperatures and codes are integers, and UV texts are required to be numerals.
- Floating point: `Units.FahrenheitToCelsius` uses exact rational arithmetic. The double-precision quotient by 1.8 is not modelled. Since the exact value is never halfway, this only matters for readings far outside the weather range.
- In-place mutation and aliasing: `loadWeather` fills a fresh object, shifts the provider's forecast array and adds fields to the provider's own entries. The model builds the snapshot as a value and does not track that the snapshot shares objects with the response.
- Condition-code and temperature fields are kept as integers, not as the provider's strings. The displayed text of a temperature is its integer.
- `Clock.ConvertTo24` is modelled without padding, on the assumption that the page's global `length` (the number of frames) is 0. A page with exactly one frame would prefix a zero to every hour, one- or two-digit ("7:51 pm" would give "01951"); the value `parseInt` reads would not change, and `Clock.ConvertTo24`'s at-least-three-characters clause would still hold, but the three-character clause of `Clock.ConvertTo24Unpadded` would not.

/**
 * `displayWeather` as a projection: which snapshot field fills each display
 * region for a given unit flag. The markup around the values is not modelled.
 */
module Presenter {
  import opened Wrappers
  import opened Units
  import opened WeatherModel

  /** The values written into the page's regions; `uvHigh` None means the UV region is cleared. */
  datatype View = View(
    link: string, temp: int, unit: string, conditionText: string,
    high: int, low: int, dayText: string, uvHigh: Option<string>, place: string)

  /**
   * The projection of snapshot `w` under unit flag `metric`; an undefined
   * snapshot draws nothing. The UV region shows "<highUV>/12" whenever
   * `highUV` is set to a non-empty text, "0" included.
   */
  function Display(w: Option<Weather>, metric: bool): (v: Option<View>)
    ensures v.None? <==> w.None?
    ensures v.Some? ==> (v.value.uvHigh.Some? <==> w.value.today.highUV.Some? && w.value.today.highUV.value != "")
    ensures v.Some? && v.value.uvHigh.Some? ==> v.value.uvHigh.value == w.value.today.highUV.value + "/12"
  {
    match w
    case None => None
    case Some(x) =>
      Some(View(
        x.link,
        if metric then x.currently.altTemp else x.currently.temp,
        if metric then "C" else "F",
        x.currently.text,
        if metric then x.today.day.altHigh else x.today.day.high,
        if metric then x.today.day.altLow else x.today.day.low,
        x.today.day.text,
        if x.today.highUV.Some? && x.today.highUV.value != "" then Some(x.today.highUV.value + "/12") else None,
        x.location.city + ", " + x.location.region))
  }

  /**
   * On a snapshot whose Celsius fields were computed at aggregation, the
   * metric view is the imperial view with each temperature converted and
   * the unit letter changed, and nothing else differs.
   */
  lemma MetricViewIsCelsius(w: Weather)
    requires Converted(w)
    ensures Display(Some(w), false).Some? && Display(Some(w), true).Some?
    ensures Display(Some(w), false).value.unit == "F" && Display(Some(w), true).value.unit == "C"
    ensures var f, c := Display(Some(w), false).value, Display(Some(w), true).value;
      c == f.(temp := FahrenheitToCelsius(f.temp), unit := "C",
              high := FahrenheitToCelsius(f.high), low := FahrenheitToCelsius(f.low))
  {
  }

  /**
   * Every snapshot, whatever its UV data, fills each region from its own
   * field: the temperature, high and low from the Celsius fields under the
   * metric flag and from the Fahrenheit fields otherwise, with the matching
   * unit letter, and the texts, link and place label as they are.
   */
  lemma RegionsShowSnapshot(w: Weather, metric: bool)
    ensures Display(Some(w), metric).Some?
    ensures var v := Display(Some(w), metric).value;
      && v.temp == (if metric then w.currently.altTemp else w.currently.temp)
      && v.unit == (if metric then "C" else "F")
      && v.high == (if metric then w.today.day.altHigh else w.today.day.high)
      && v.low == (if metric then w.today.day.altLow else w.today.day.low)
      && v.conditionText == w.currently.text && v.dayText == w.today.day.text
      && v.link == w.link && v.place == w.location.city + ", " + w.location.region
  {
  }

  /** A snapshot without UV data (outside the US, or no UV response) still shows every other region. */
  lemma NoUVStillDisplays(w: Weather, metric: bool)
    requires w.today.highUV.None?
    ensures Display(Some(w), metric).Some?
    ensures Display(Some(w), metric).value.uvHigh.None?
    ensures Display(Some(w), metric).value.temp == (if metric then w.currently.altTemp else w.currently.temp)
    ensures Display(Some(w), metric).value.place == w.location.city + ", " + w.location.region
  {
  }

  /** The unit-toggle button names the unit a click would switch to. */
  function ToggleText(metric: bool): (t: string)
    ensures |t| == 2 && t[0] == '\U{B0}'
    ensures forall w: Weather :: Display(Some(w), !metric).value.unit == t[1..]
  {
    if metric then "\U{B0}F" else "\U{B0}C"
  }
}

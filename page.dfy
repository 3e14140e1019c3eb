/**
 * The page's module-level state — the unit flag, the applied background
 * class and the last loaded snapshot — and the handlers that update it.
 * The browser's clock, the regular expressions and the two HTTP requests
 * are outside the model: their results arrive as parameters.
 */
module Page {
  import opened Wrappers
  import opened Digits
  import opened Clock
  import opened WeatherModel
  import opened Aggregator
  import opened Presenter
  import opened Background

  /**
   * The background class `changeBackground` applies, as the code is written:
   * "day" exactly when the unpadded clock number lies strictly between the
   * HHMM numbers of sunrise and sunset, then "Clouds" whatever the weather.
   */
  function BackgroundClass(w: Weather, hours: nat, minutes: nat): (cls: string)
    requires Matched(w.astronomy.sunrise) && Matched(w.astronomy.sunset)
    ensures cls == (if 100 * Hour24(w.astronomy.sunrise) + ParseDigits(w.astronomy.sunrise.minutes) < LocalClock(hours, minutes)
                       < 100 * Hour24(w.astronomy.sunset) + ParseDigits(w.astronomy.sunset.minutes)
                    then "day" else "night") + "Clouds"
  {
    ConvertTo24Value(w.astronomy.sunrise);
    ConvertTo24Value(w.astronomy.sunset);
    DayPrefix(LocalClock(hours, minutes),
              ParseDigits(ConvertTo24(w.astronomy.sunrise)),
              ParseDigits(ConvertTo24(w.astronomy.sunset))) + "Clouds"
  }

  /**
   * The background class the code evidently intends: the clock read as an
   * HHMM number and the suffix looked up from the snapshot's own condition
   * code. The prefix is "day" exactly when the time of day lies strictly
   * between sunrise and sunset.
   */
  function IntendedBackgroundClass(w: Weather, hours: nat, minutes: nat): (cls: string)
    requires minutes < 60 && Matched(w.astronomy.sunrise) && Matched(w.astronomy.sunset)
    ensures cls == (if MinuteOfDay(w.astronomy.sunrise) < 60 * hours + minutes < MinuteOfDay(w.astronomy.sunset)
                    then "day" else "night") + IntendedSuffix(w.currently.code)
  {
    ClockHHMMPrefix(hours, minutes, w.astronomy.sunrise, w.astronomy.sunset);
    DayPrefix(ClockHHMM(hours, minutes),
              ParseDigits(ConvertTo24(w.astronomy.sunrise)),
              ParseDigits(ConvertTo24(w.astronomy.sunset))) + IntendedSuffix(w.currently.code)
  }

  class App {
    var metric: bool
    var bgClass: Option<string>
    var loadedWeather: Option<Weather>

    /** The state when the document is ready: imperial units, no background class, nothing loaded. */
    constructor ()
      ensures !metric && bgClass.None? && loadedWeather.None?
    {
      metric := false;
      bgClass := None;
      loadedWeather := None;
    }

    /**
     * The `#unitToggle` click handler: flips the flag, relabels the button
     * with the other unit and redraws the last snapshot without fetching.
     */
    method ToggleUnit() returns (buttonText: string, view: Option<View>)
      modifies this`metric
      ensures metric == !old(metric)
      ensures buttonText == ToggleText(metric)
      ensures view == Display(loadedWeather, metric)
    {
      metric := !metric;
      buttonText := ToggleText(metric);
      view := Display(loadedWeather, metric);
    }

    /**
     * `changeBackground` at local time `hours`:`minutes`. The prefix compares
     * the unpadded clock number with the HHMM numbers of sunrise and sunset;
     * the suffix loop probes the constant code 28, so it is "Clouds" whatever
     * the snapshot's condition code.
     */
    method ChangeBackground(w: Weather, hours: nat, minutes: nat)
      requires Matched(w.astronomy.sunrise) && Matched(w.astronomy.sunset)
      modifies this`bgClass
      ensures bgClass == Some(BackgroundClass(w, hours, minutes))
    {
      var time := LocalClock(hours, minutes);
      var sunrise := ParseDigits(ConvertTo24(w.astronomy.sunrise));
      var sunset := ParseDigits(ConvertTo24(w.astronomy.sunset));
      var prefix := DayPrefix(time, sunrise, sunset);
      var suffix := FindBucket(Codes, 28);
      ProbeIgnoresCondition();
      bgClass := Some(prefix + if suffix.Some? then suffix.value else "undefined");
    }

    /**
     * `loadWeather` from the weather provider's channel `ch` and the UV
     * provider's response `epa`, at local time `hours`:`minutes`. A snapshot
     * replaces the stored one, is drawn and picks the background; when the
     * weather handler throws (empty forecast) nothing changes.
     */
    method LoadWeather(ch: Channel, epa: Option<seq<EpaRecord>>, hours: nat, minutes: nat) returns (view: Option<View>)
      requires Parsable(ch, epa)
      requires ch.forecast != [] ==> Matched(ch.astronomy.sunrise) && Matched(ch.astronomy.sunset)
      modifies this`loadedWeather, this`bgClass
      ensures ch.forecast == [] ==> loadedWeather == old(loadedWeather) && bgClass == old(bgClass) && view.None?
      ensures ch.forecast != [] ==>
        && loadedWeather.Some?
        && IsAggregate(ch, epa, loadedWeather.value)
        && view == Display(loadedWeather, metric)
        && bgClass == Some(BackgroundClass(loadedWeather.value, hours, minutes))
    {
      var weather := Aggregate(ch, epa);
      view := None;
      if weather.Some? {
        loadedWeather := weather;
        view := Display(weather, metric);
        ChangeBackground(weather.value, hours, minutes);
      }
    }
  }
}

/**
 * The normalized weather snapshot the page keeps, and the shapes of the
 * weather provider's channel and the UV provider's hourly records it is
 * built from. Temperatures and condition codes are the integers `parseInt`
 * reads from the providers' numeral strings.
 */
module WeatherModel {
  import opened Wrappers
  import opened Clock
  import opened Units

  datatype Location = Location(city: string, country: string, region: string, lat: string, long: string)

  datatype Astronomy = Astronomy(sunrise: TimeText, sunset: TimeText)

  /** `currently`: the observation, its Celsius temperature and, once known, the UV index of the current hour. */
  datatype Current = Current(code: int, date: TimeText, temp: int, text: string, altTemp: int, uv: Option<string>)

  /** One daily forecast entry with its Celsius high and low. */
  datatype Day = Day(code: int, date: string, day: string, high: int, low: int, text: string, altHigh: int, altLow: int)

  /** One hourly UV reading: a 24-hour hour text and the UV value text. */
  datatype HourlyUV = HourlyUV(hour: string, uv: string)

  /** `today`: the first forecast entry, enriched with the hourly UV list and its maximum for US locations. */
  datatype Today = Today(day: Day, uv: Option<seq<HourlyUV>>, highUV: Option<string>)

  datatype Weather = Weather(link: string, location: Location, astronomy: Astronomy, currently: Current, today: Today, forecast: seq<Day>)

  /** A forecast entry as the weather provider sends it. */
  datatype RawDay = RawDay(code: int, date: string, day: string, high: int, low: int, text: string)

  datatype RawCondition = RawCondition(code: int, date: TimeText, temp: int, text: string)

  /** The parts of the weather provider's channel the page reads. */
  datatype Channel = Channel(
    link: string, city: string, country: string, region: string,
    itemLat: string, itemLong: string, astronomy: Astronomy,
    condition: RawCondition, forecast: seq<RawDay>)

  /** One UV provider record after its time pattern matched: two hour digits, the meridiem, the UV value text. */
  datatype EpaRecord = EpaRecord(hour: string, meridiem: Meridiem, uv: string)

  /** `d` is the raw entry `raw` with its Celsius high and low added and nothing else changed. */
  predicate Annotates(d: Day, raw: RawDay)
  {
    && d.code == raw.code && d.date == raw.date && d.day == raw.day
    && d.high == raw.high && d.low == raw.low && d.text == raw.text
    && d.altHigh == FahrenheitToCelsius(raw.high) && d.altLow == FahrenheitToCelsius(raw.low)
  }

  function Annotate(raw: RawDay): (d: Day)
    ensures Annotates(d, raw)
  {
    Day(raw.code, raw.date, raw.day, raw.high, raw.low, raw.text,
        FahrenheitToCelsius(raw.high), FahrenheitToCelsius(raw.low))
  }

  /** Every Fahrenheit field of the snapshot has its Celsius field, computed from it once. */
  predicate Converted(w: Weather)
  {
    && w.currently.altTemp == FahrenheitToCelsius(w.currently.temp)
    && w.today.day.altHigh == FahrenheitToCelsius(w.today.day.high)
    && w.today.day.altLow == FahrenheitToCelsius(w.today.day.low)
    && forall i :: 0 <= i < |w.forecast| ==>
         w.forecast[i].altHigh == FahrenheitToCelsius(w.forecast[i].high)
         && w.forecast[i].altLow == FahrenheitToCelsius(w.forecast[i].low)
  }
}

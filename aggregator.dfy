/**
 * The merge performed by `loadWeather`: the forecast split with Celsius
 * fields, the UV provider's hourly records brought to 24-hour hours, and the
 * single fold that yields both the day's highest UV value and the UV value
 * of the current hour.
 */
module Aggregator {
  import opened Wrappers
  import opened Digits
  import opened Units
  import opened Clock
  import opened WeatherModel

  /**
   * `today` is the shifted-off first entry and `forecast` receives the rest,
   * one push per entry, each with its Celsius high and low added.
   */
  method SplitForecast(raw: seq<RawDay>) returns (today: Day, forecast: seq<Day>)
    requires |raw| >= 1
    ensures Annotates(today, raw[0])
    ensures |forecast| == |raw| - 1
    ensures forall i :: 0 <= i < |forecast| ==> Annotates(forecast[i], raw[i + 1])
  {
    today := Annotate(raw[0]);
    var rest := raw[1..];
    forecast := [];
    for i := 0 to |rest|
      invariant |forecast| == i
      invariant forall k :: 0 <= k < i ==> Annotates(forecast[k], rest[k])
    {
      forecast := forecast + [Annotate(rest[i])];
    }
  }

  /** Records the UV provider sent whose time pattern matched and whose UV values parse. */
  predicate WellFormedRecords(records: seq<EpaRecord>)
  {
    forall i :: 0 <= i < |records| ==> IsTwoDigits(records[i].hour) && IsNumeral(records[i].uv)
  }

  /** `hourly` is `records` in provider order, each hour converted by the UV provider's rule. */
  predicate ConvertsHourly(records: seq<EpaRecord>, hourly: seq<HourlyUV>)
    requires WellFormedRecords(records)
  {
    && |hourly| == |records|
    && forall i :: 0 <= i < |records| ==>
         hourly[i] == HourlyUV(EpaHour(records[i].hour, records[i].meridiem), records[i].uv)
  }

  /** The push loop over the UV provider's records. */
  method ConvertHourly(records: seq<EpaRecord>) returns (hourly: seq<HourlyUV>)
    requires WellFormedRecords(records)
    ensures ConvertsHourly(records, hourly)
    ensures forall i :: 0 <= i < |hourly| ==> AllDigits(hourly[i].hour) && |hourly[i].hour| >= 2 && IsNumeral(hourly[i].uv)
  {
    hourly := [];
    for i := 0 to |records|
      invariant |hourly| == i
      invariant forall k :: 0 <= k < i ==>
        hourly[k] == HourlyUV(EpaHour(records[k].hour, records[k].meridiem), records[k].uv)
    {
      hourly := hourly + [HourlyUV(EpaHour(records[i].hour, records[i].meridiem), records[i].uv)];
    }
  }

  predicate UVNumerals(hourly: seq<HourlyUV>)
  {
    forall i :: 0 <= i < |hourly| ==> IsNumeral(hourly[i].uv)
  }

  /**
   * `high` is what the fold leaves in its accumulator after the first `n`
   * readings: "0" when none of them exceeds zero, otherwise the text of the
   * first reading that attains the largest value.
   */
  ghost predicate HighUVUpTo(hourly: seq<HourlyUV>, n: nat, high: string)
    requires n <= |hourly| && UVNumerals(hourly)
  {
    || (high == "0" && forall j :: 0 <= j < n ==> ParseDigits(hourly[j].uv) == 0)
    || exists k :: 0 <= k < n && high == hourly[k].uv && ParseDigits(hourly[k].uv) > 0
         && (forall j :: 0 <= j < k ==> ParseDigits(hourly[j].uv) < ParseDigits(hourly[k].uv))
         && (forall j :: 0 <= j < n ==> ParseDigits(hourly[j].uv) <= ParseDigits(hourly[k].uv))
  }

  ghost predicate IsHighUV(hourly: seq<HourlyUV>, high: string)
    requires UVNumerals(hourly)
  {
    HighUVUpTo(hourly, |hourly|, high)
  }

  /**
   * `after` is the current-hour UV after the first `n` readings: the UV text
   * of the last of them whose hour equals `key`, or `before` if none does.
   */
  ghost predicate CurrentUVUpTo(hourly: seq<HourlyUV>, n: nat, key: string, before: Option<string>, after: Option<string>)
    requires n <= |hourly|
  {
    || (after == before && forall j :: 0 <= j < n ==> hourly[j].hour != key)
    || exists k :: 0 <= k < n && hourly[k].hour == key && after == Some(hourly[k].uv)
         && forall j :: k < j < n ==> hourly[j].hour != key
  }

  ghost predicate IsCurrentUV(hourly: seq<HourlyUV>, key: string, before: Option<string>, after: Option<string>)
  {
    CurrentUVUpTo(hourly, |hourly|, key, before, after)
  }

  /** The fold's state after `n` readings: the accumulator `high`, set last by reading `best` (-1: never). */
  ghost predicate HighTracked(hourly: seq<HourlyUV>, n: nat, high: string, best: int)
    requires n <= |hourly| && UVNumerals(hourly)
  {
    && IsNumeral(high) && -1 <= best < n
    && (best == -1 ==> high == "0" && forall j :: 0 <= j < n ==> ParseDigits(hourly[j].uv) == 0)
    && (best >= 0 ==> high == hourly[best].uv && ParseDigits(high) > 0
                      && forall j :: 0 <= j < best ==> ParseDigits(hourly[j].uv) < ParseDigits(high))
    && forall j :: 0 <= j < n ==> ParseDigits(hourly[j].uv) <= ParseDigits(high)
  }

  /** The side effect's state after `n` readings: `after`, set last by reading `last` (-1: never). */
  ghost predicate CurrentTracked(hourly: seq<HourlyUV>, n: nat, key: string, before: Option<string>, after: Option<string>, last: int)
    requires n <= |hourly|
  {
    && -1 <= last < n
    && (last == -1 ==> after == before && forall j :: 0 <= j < n ==> hourly[j].hour != key)
    && (last >= 0 ==> hourly[last].hour == key && after == Some(hourly[last].uv)
                      && forall j :: last < j < n ==> hourly[j].hour != key)
  }

  lemma HighStep(hourly: seq<HourlyUV>, i: nat, high: string, best: int)
    requires i < |hourly| && UVNumerals(hourly) && HighTracked(hourly, i, high, best)
    ensures ParseDigits(hourly[i].uv) > ParseDigits(high) ==> HighTracked(hourly, i + 1, hourly[i].uv, i)
    ensures ParseDigits(hourly[i].uv) <= ParseDigits(high) ==> HighTracked(hourly, i + 1, high, best)
  {
  }

  lemma CurrentStep(hourly: seq<HourlyUV>, i: nat, key: string, before: Option<string>, after: Option<string>, last: int)
    requires i < |hourly| && CurrentTracked(hourly, i, key, before, after, last)
    ensures hourly[i].hour == key ==> CurrentTracked(hourly, i + 1, key, before, Some(hourly[i].uv), i)
    ensures hourly[i].hour != key ==> CurrentTracked(hourly, i + 1, key, before, after, last)
  {
  }

  lemma TrackedMeans(hourly: seq<HourlyUV>, high: string, best: int, key: string, before: Option<string>, after: Option<string>, last: int)
    requires UVNumerals(hourly)
    requires HighTracked(hourly, |hourly|, high, best) && CurrentTracked(hourly, |hourly|, key, before, after, last)
    ensures IsHighUV(hourly, high) && IsCurrentUV(hourly, key, before, after)
  {
  }

  /**
   * The `reduce` over the hourly readings with initial accumulator "0": a
   * reading replaces the accumulator only when its value is strictly
   * greater, and a reading whose hour equals the current-hour key assigns
   * `currently.uv` as a side effect.
   */
  method FoldUV(hourly: seq<HourlyUV>, key: string, before: Option<string>) returns (high: string, after: Option<string>)
    requires UVNumerals(hourly)
    ensures IsNumeral(high)
    ensures forall i :: 0 <= i < |hourly| ==> ParseDigits(hourly[i].uv) <= ParseDigits(high)
    ensures hourly == [] ==> high == "0" && after == before
    ensures IsHighUV(hourly, high)
    ensures IsCurrentUV(hourly, key, before, after)
  {
    high, after := "0", before;
    assert ParseDigits("0") == 0 by { assert "0"[..0] == []; }
    ghost var best, last := -1, -1;
    for i := 0 to |hourly|
      invariant HighTracked(hourly, i, high, best)
      invariant CurrentTracked(hourly, i, key, before, after, last)
    {
      CurrentStep(hourly, i, key, before, after, last);
      if hourly[i].hour == key {
        after := Some(hourly[i].uv);
        last := i;
      }
      HighStep(hourly, i, high, best);
      if ParseDigits(hourly[i].uv) > ParseDigits(high) {
        high := hourly[i].uv;
        best := i;
      }
    }
    TrackedMeans(hourly, high, best, key, before, after, last);
  }

  /** The fold's accumulator is fixed by its specification: at most one text fits it. */
  lemma HighUVUnique(hourly: seq<HourlyUV>, h1: string, h2: string)
    requires UVNumerals(hourly)
    requires IsHighUV(hourly, h1) && IsHighUV(hourly, h2)
    ensures h1 == h2
  {
  }

  /** Likewise the current-hour UV: at most one value fits its specification. */
  lemma CurrentUVUnique(hourly: seq<HourlyUV>, key: string, before: Option<string>, a1: Option<string>, a2: Option<string>)
    requires IsCurrentUV(hourly, key, before, a1) && IsCurrentUV(hourly, key, before, a2)
    ensures a1 == a2
  {
  }

  /** The example of the hourly readings 07:0, 08:1, 14:8 at the current hour "14". */
  lemma FoldExample(high: string, after: Option<string>)
    requires IsHighUV([HourlyUV("07", "0"), HourlyUV("08", "1"), HourlyUV("14", "8")], high)
    requires IsCurrentUV([HourlyUV("07", "0"), HourlyUV("08", "1"), HourlyUV("14", "8")], "14", None, after)
    ensures high == "8" && after == Some("8")
  {
    var hourly := [HourlyUV("07", "0"), HourlyUV("08", "1"), HourlyUV("14", "8")];
    assert "0"[..0] == [] && "1"[..0] == [] && "8"[..0] == [];
    assert ParseDigits("0") == 0 && ParseDigits("1") == 1 && ParseDigits("8") == 8;
    assert HighUVUpTo(hourly, 3, "8");
    HighUVUnique(hourly, high, "8");
    assert CurrentUVUpTo(hourly, 3, "14", None, Some("8"));
    CurrentUVUnique(hourly, "14", None, after, Some("8"));
  }

  predicate IsUS(ch: Channel) { ch.country == "United States" }

  /**
   * What the UV enrichment needs to run without throwing: for a US location
   * with a UV response, the observation time and every record match their
   * time patterns and every UV value parses.
   */
  predicate Parsable(ch: Channel, epa: Option<seq<EpaRecord>>)
  {
    IsUS(ch) && epa.Some? ==> Matched(ch.condition.date) && WellFormedRecords(epa.value)
  }

  /**
   * The snapshot `loadWeather` finalizes from channel `ch` and UV response
   * `epa` (None when the response is empty or the request failed): the
   * channel's blocks copied, lat/long taken from the item, Celsius fields
   * added, the first forecast entry as `today` and the rest in order, and,
   * only for a US location with UV data, the converted hourly list, its
   * fold maximum and the current-hour UV.
   */
  ghost predicate IsAggregate(ch: Channel, epa: Option<seq<EpaRecord>>, w: Weather)
    requires ch.forecast != [] && Parsable(ch, epa)
  {
    && w.link == ch.link
    && w.location == Location(ch.city, ch.country, ch.region, ch.itemLat, ch.itemLong)
    && w.astronomy == ch.astronomy
    && w.currently.code == ch.condition.code && w.currently.date == ch.condition.date
    && w.currently.temp == ch.condition.temp && w.currently.text == ch.condition.text
    && w.currently.altTemp == FahrenheitToCelsius(ch.condition.temp)
    && Annotates(w.today.day, ch.forecast[0])
    && |w.forecast| == |ch.forecast| - 1
    && (forall i :: 0 <= i < |w.forecast| ==> Annotates(w.forecast[i], ch.forecast[i + 1]))
    && if IsUS(ch) && epa.Some? then
         && w.today.uv.Some? && ConvertsHourly(epa.value, w.today.uv.value)
         && UVNumerals(w.today.uv.value)
         && w.today.highUV.Some? && IsHighUV(w.today.uv.value, w.today.highUV.value)
         && IsCurrentUV(w.today.uv.value, CurrentHourKey(ch.condition.date), None, w.currently.uv)
       else
         w.today.uv.None? && w.today.highUV.None? && w.currently.uv.None?
  }

  /**
   * The `.done` handler of the weather request followed by the UV request's
   * handler. With an empty raw forecast `shift()` yields undefined and the
   * handler throws before anything is stored: no snapshot.
   */
  method Aggregate(ch: Channel, epa: Option<seq<EpaRecord>>) returns (w: Option<Weather>)
    requires Parsable(ch, epa)
    ensures w.None? <==> ch.forecast == []
    ensures w.Some? ==> IsAggregate(ch, epa, w.value) && Converted(w.value)
  {
    if ch.forecast == [] {
      return None;
    }
    var location := Location(ch.city, ch.country, ch.region, ch.itemLat, ch.itemLong);
    var currently := Current(ch.condition.code, ch.condition.date, ch.condition.temp, ch.condition.text,
                             FahrenheitToCelsius(ch.condition.temp), None);
    var today, forecast := SplitForecast(ch.forecast);
    var uv: Option<seq<HourlyUV>>, highUV: Option<string> := None, None;
    if IsUS(ch) && epa.Some? {
      var hourly := ConvertHourly(epa.value);
      var key := CurrentHourKey(ch.condition.date);
      var high, current := FoldUV(hourly, key, currently.uv);
      uv, highUV := Some(hourly), Some(high);
      currently := currently.(uv := current);
    }
    w := Some(Weather(ch.link, location, ch.astronomy, currently, Today(today, uv, highUV), forecast));
  }

  /** The snapshot is fully determined by the two responses: no two snapshots meet the description. */
  lemma {:induction false} AggregateDetermined(ch: Channel, epa: Option<seq<EpaRecord>>, w1: Weather, w2: Weather)
    requires ch.forecast != [] && Parsable(ch, epa)
    requires IsAggregate(ch, epa, w1) && IsAggregate(ch, epa, w2)
    ensures w1 == w2
  {
    assert w1.forecast == w2.forecast by {
      forall i | 0 <= i < |w1.forecast|
        ensures w1.forecast[i] == w2.forecast[i]
      {
        assert Annotates(w1.forecast[i], ch.forecast[i + 1]) && Annotates(w2.forecast[i], ch.forecast[i + 1]);
      }
    }
    if IsUS(ch) && epa.Some? {
      var hourly := w1.today.uv.value;
      assert hourly == w2.today.uv.value;
      HighUVUnique(hourly, w1.today.highUV.value, w2.today.highUV.value);
      CurrentUVUnique(hourly, CurrentHourKey(ch.condition.date), None, w1.currently.uv, w2.currently.uv);
    }
  }

  /** Every snapshot so built carries each Celsius field computed from its Fahrenheit field. */
  lemma AggregateIsConverted(ch: Channel, epa: Option<seq<EpaRecord>>, w: Weather)
    requires ch.forecast != [] && Parsable(ch, epa)
    requires IsAggregate(ch, epa, w)
    ensures Converted(w)
  {
  }
}

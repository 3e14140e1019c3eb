/**
 * The two 12-hour to 24-hour conversions of the page. They are deliberately
 * separate: the UV provider's hours go through one rule, and the provider's
 * sunrise, sunset and observation times through `convertTo24`, which differs
 * from it at midnight and never pads.
 */
module Clock {
  import opened Digits

  /** The meridiem the UV provider's time pattern captures (matched without regard to case). */
  datatype Meridiem = AM | PM

  predicate IsTwoDigits(s: string) { |s| == 2 && AllDigits(s) }

  /**
   * The UV provider's hour rule: "12 am" becomes "00", "12 pm" stays, any
   * other pm hour gains twelve, any other am hour is kept as captured.
   */
  function EpaHour(hour: string, m: Meridiem): (r: string)
    requires IsTwoDigits(hour)
    ensures AllDigits(r) && |r| >= 2
  {
    if hour == "12" then
      (if m == AM then "00" else hour)
    else if m == PM then
      NatToString(ParseDigits(hour) + 12)
    else
      hour
  }

  lemma TwoDigitTwelve(hour: string)
    requires IsTwoDigits(hour)
    ensures ParseDigits(hour) == 12 <==> hour == "12"
  {
  }

  /**
   * On the clock hours "01".."12" the UV rule is the usual 12-hour to 24-hour
   * conversion: two characters, naming hour (h mod 12) + 12 for pm, in 0..23.
   */
  lemma EpaHourIsClockHour(hour: string, m: Meridiem)
    requires IsTwoDigits(hour) && 1 <= ParseDigits(hour) <= 12
    ensures |EpaHour(hour, m)| == 2
    ensures ParseDigits(EpaHour(hour, m)) == ParseDigits(hour) % 12 + (if m == PM then 12 else 0)
    ensures ParseDigits(EpaHour(hour, m)) <= 23
  {
    TwoDigitTwelve(hour);
    var h := ParseDigits(hour);
    if hour == "12" {
      assert ParseDigits("00") == 0;
    } else if m == PM {
      ParseNatToString(h + 12);
      NatToStringWidth(h + 12);
    }
  }

  /**
   * What the time pattern `H:MM am|pm` captures: an hour of one or two digits
   * (the first of two at most 2), two minute digits (the first at most 5) and
   * the meridiem text exactly as written, "" when absent.
   */
  datatype TimeText = TimeText(hour: string, minutes: string, marker: string)

  predicate Matched(t: TimeText)
  {
    && ((|t.hour| == 1 && IsDigit(t.hour[0])) || (|t.hour| == 2 && '0' <= t.hour[0] <= '2' && IsDigit(t.hour[1])))
    && |t.minutes| == 2 && '0' <= t.minutes[0] <= '5' && IsDigit(t.minutes[1])
  }

  /** The hour `convertTo24` means: twelve is added only for a lower-case "pm" on an hour other than "12". */
  function Hour24(t: TimeText): nat
    requires Matched(t)
  {
    ParseDigits(t.hour) + (if t.marker == "pm" && t.hour != "12" then 12 else 0)
  }

  /**
   * `convertTo24`: the (possibly converted) hour text followed by the minute
   * text. The zero-padding branch does not run, because its condition is a
   * comma expression whose value is `length === 1` on the page's global
   * `length` (the number of frames, normally 0, and taken as 0 here).
   */
  function ConvertTo24(t: TimeText): (r: string)
    requires Matched(t)
    ensures AllDigits(r) && |r| >= 3
    ensures r[|r| - 2..] == t.minutes
  {
    var hour := if t.marker == "pm" && t.hour != "12" then NatToString(ParseDigits(t.hour) + 12) else t.hour;
    hour + t.minutes
  }

  /** `parseInt(convertTo24(t))` is the HHMM number of the 24-hour reading. */
  lemma ConvertTo24Value(t: TimeText)
    requires Matched(t)
    ensures ParseDigits(ConvertTo24(t)) == 100 * Hour24(t) + ParseDigits(t.minutes)
    ensures ParseDigits(t.minutes) < 60
  {
    var hour := if t.marker == "pm" && t.hour != "12" then NatToString(ParseDigits(t.hour) + 12) else t.hour;
    assert ConvertTo24(t) == hour + t.minutes;
    ParseAppendPair(hour, t.minutes);
    if t.marker == "pm" && t.hour != "12" {
      ParseNatToString(ParseDigits(t.hour) + 12);
    }
    MinutesValue(t.minutes);
  }

  /** Appending two digits multiplies the value read so far by a hundred. */
  lemma ParseAppendPair(a: string, b: string)
    requires AllDigits(a) && |b| == 2 && AllDigits(b)
    ensures AllDigits(a + b)
    ensures ParseDigits(a + b) == 100 * ParseDigits(a) + ParseDigits(b)
  {
    ParseConcat(a, b);
    assert Pow10(2) == 100;
  }

  lemma MinutesValue(m: string)
    requires |m| == 2 && '0' <= m[0] <= '5' && IsDigit(m[1])
    ensures ParseDigits(m) < 60
  {
  }

  /**
   * No padding and no midnight case: a one-digit morning hour yields three
   * characters, and "12:MM am" reads as twelve hundred, like noon.
   */
  lemma ConvertTo24Unpadded(t: TimeText)
    requires Matched(t)
    ensures |t.hour| == 1 && t.marker != "pm" ==> |ConvertTo24(t)| == 3
    ensures t.hour == "12" ==> ParseDigits(ConvertTo24(t)) == 1200 + ParseDigits(t.minutes)
  {
    ConvertTo24Value(t);
    if t.hour == "12" {
      TwoDigitTwelve(t.hour);
    }
  }

  /**
   * The hour key of the observation time: `Math.round(n / 100)` of
   * n = `parseInt(convertTo24(date))`, rendered and padded to two characters.
   * The key names the whole hour nearest to the HHMM number.
   */
  function CurrentHourKey(t: TimeText): (key: string)
    requires Matched(t)
    ensures IsNumeral(key) && |key| >= 2
    ensures 100 * ParseDigits(key) - 50 <= ParseDigits(ConvertTo24(t)) < 100 * ParseDigits(key) + 50
  {
    var n := ParseDigits(ConvertTo24(t));
    var rounded := (n + 50) / 100;
    ParseNatToString(rounded);
    Pad2Value(NatToString(rounded));
    Pad2(NatToString(rounded))
  }

  /** The key is the 24-hour reading's hour, one more from minute 50 on, always two characters. */
  lemma CurrentHourKeyRoundsUp(t: TimeText)
    requires Matched(t)
    ensures |CurrentHourKey(t)| == 2
    ensures ParseDigits(CurrentHourKey(t)) == Hour24(t) + (if ParseDigits(t.minutes) >= 50 then 1 else 0)
  {
    ConvertTo24Value(t);
    HourBelowThirty(t);
    var rounded := (ParseDigits(ConvertTo24(t)) + 50) / 100;
    assert rounded == Hour24(t) + (if ParseDigits(t.minutes) >= 50 then 1 else 0);
    assert CurrentHourKey(t) == Pad2(NatToString(rounded));
    KeyOfHour(rounded);
  }

  lemma HourBelowThirty(t: TimeText)
    requires Matched(t)
    ensures ParseDigits(t.hour) < 30
  {
  }

  /** Rendering and padding an hour below 100 gives two characters that read back as that hour. */
  lemma KeyOfHour(h: nat)
    requires h < 100
    ensures |Pad2(NatToString(h))| == 2
    ensures ParseDigits(Pad2(NatToString(h))) == h
  {
    NatToStringWidth(h);
    ParseNatToString(h);
    Pad2Value(NatToString(h));
  }

  /** The readings of the example snapshot in the file's header comment. */
  lemma DocumentedTimes()
    ensures ConvertTo24(TimeText("6", "14", "am")) == "614"
    ensures ConvertTo24(TimeText("7", "51", "pm")) == "1951"
  {
  }

  /** The observation time "12:53 pm" of the example snapshot falls in the hour keyed "13". */
  lemma DocumentedHourKey()
    ensures CurrentHourKey(TimeText("12", "53", "pm")) == "13"
  {
    var noon := TimeText("12", "53", "pm");
    assert ConvertTo24(noon) == "1253";
    assert "1253"[..3] == "125" && "125"[..2] == "12" && "12"[..1] == "1" && "1"[..0] == "";
    assert ParseDigits("1253") == 1253;
    assert NatToString(13) == "13";
  }

  /**
   * The two hour rules disagree at midnight: an observation at "12:30 am"
   * is keyed "12", which is the UV rule's name for noon, not for midnight.
   */
  lemma MidnightKeyedAsNoon()
    ensures CurrentHourKey(TimeText("12", "30", "am")) == "12"
    ensures EpaHour("12", PM) == "12" && EpaHour("12", AM) == "00"
  {
    DocumentedEpaHours();
    var t := TimeText("12", "30", "am");
    assert Matched(t);
    assert ConvertTo24(t) == "1230";
    assert "1230"[..3] == "123" && "123"[..2] == "12" && "12"[..1] == "1" && "1"[..0] == "";
    assert ParseDigits("1230") == 1230;
    assert (1230 + 50) / 100 == 12;
    assert NatToString(12) == "12";
    assert CurrentHourKey(t) == Pad2(NatToString(12));
  }

  /** From 11:50 pm on, the current-hour key is "24". */
  lemma LateEveningKey()
    ensures CurrentHourKey(TimeText("11", "55", "pm")) == "24"
  {
    var t := TimeText("11", "55", "pm");
    assert Matched(t);
    assert ConvertTo24(t) == "2355";
    assert "2355"[..3] == "235" && "235"[..2] == "23" && "23"[..1] == "2" && "2"[..0] == "";
    assert ParseDigits("2355") == 2355;
    assert (2355 + 50) / 100 == 24;
    assert NatToString(24) == "24";
    assert CurrentHourKey(t) == Pad2(NatToString(24));
  }

  /** The UV rule never names an hour "24", so no hourly reading matches the late-evening key. */
  lemma EpaHourNever24(hour: string, m: Meridiem)
    requires IsTwoDigits(hour) && 1 <= ParseDigits(hour) <= 12
    ensures EpaHour(hour, m) != "24"
  {
    EpaHourIsClockHour(hour, m);
    assert "24"[..1] == "2" && "2"[..0] == "";
    assert ParseDigits("24") == 24;
  }

  /** The UV rule on noon, midnight and seven o'clock. */
  lemma DocumentedEpaHours()
    ensures EpaHour("12", AM) == "00" && EpaHour("12", PM) == "12"
    ensures EpaHour("07", PM) == "19" && EpaHour("07", AM) == "07"
  {
  }
}

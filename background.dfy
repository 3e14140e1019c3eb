/**
 * `changeBackground`: a day/night prefix from the local clock against
 * sunrise and sunset, and a condition-category suffix from the `codes`
 * table.
 */
module Background {
  import opened Wrappers
  import opened Digits
  import opened Clock

  /** A named bucket of the weather provider's condition codes. */
  type Bucket = (string, seq<int>)

  /** The `codes` table, in the order its keys are declared (the order `for…in` visits them). */
  const Codes: seq<Bucket> := [
    ("Storms", [0, 1, 2, 3, 4, 37, 38, 39, 40, 45, 47]),
    ("WinteryPrecip", [5, 6, 7, 8, 10, 17, 18, 35]),
    ("Rain", [9, 11, 12]),
    ("Snow", [13, 14, 15, 16, 41, 42, 43, 46]),
    ("Dust", [19]),
    ("Fog", [20, 21, 22]),
    ("Wind", [23, 24]),
    ("Cold", [25]),
    ("Clouds", [26, 27, 28, 29, 30, 44]),
    ("Clear", [31, 32, 33, 34]),
    ("Hot", [36])
  ]

  /** The name of the first bucket of `table` that lists `target`, if any. */
  function FirstBucket(table: seq<Bucket>, target: int): (r: Option<string>)
    ensures r.None? <==> forall i :: 0 <= i < |table| ==> target !in table[i].1
    ensures r.Some? ==> exists i :: 0 <= i < |table| && table[i].0 == r.value && target in table[i].1
                                    && forall j :: 0 <= j < i ==> target !in table[j].1
  {
    if table == [] then None
    else if target in table[0].1 then Some(table[0].0)
    else
      var r := FirstBucket(table[1..], target);
      assert forall i :: 1 <= i < |table| ==> table[i] == table[1..][i - 1];
      r
  }

  /**
   * The `for…in` loop over the table: it stops at the first bucket whose
   * codes contain `target` and leaves the suffix undefined when none does.
   */
  method FindBucket(table: seq<Bucket>, target: int) returns (suffix: Option<string>)
    ensures suffix == FirstBucket(table, target)
  {
    suffix := None;
    var i := 0;
    while i < |table|
      invariant 0 <= i <= |table|
      invariant FirstBucket(table[i..], target) == FirstBucket(table, target)
    {
      if target in table[i].1 {
        suffix := Some(table[i].0);
        assert table[i..][0] == table[i];
        break;
      }
      assert table[i..][1..] == table[i + 1..];
      i := i + 1;
    }
  }

  /** The class prefix: "day" exactly when the time lies strictly between sunrise and sunset, "night" otherwise. */
  function DayPrefix(time: int, sunrise: int, sunset: int): (p: string)
    ensures p == "day" || p == "night"
    ensures p == "day" <==> sunrise < time < sunset
  {
    if sunrise < time && time < sunset then "day" else "night"
  }

  /**
   * The local clock as the page reads it: hours and minutes written side by
   * side, without padding, so the hours are shifted by as many decimal
   * places as the minutes take.
   */
  function LocalClock(hours: nat, minutes: nat): (r: nat)
    ensures r == hours * Pow10(|NatToString(minutes)|) + minutes
  {
    ParseConcat(NatToString(hours), NatToString(minutes));
    ParseNatToString(hours);
    ParseNatToString(minutes);
    ParseDigits(NatToString(hours) + NatToString(minutes))
  }

  /** Minutes 0..9 add one digit and 10..59 two, so 14:05 reads as 145 but 14:10 as 1410. */
  lemma LocalClockValue(hours: nat, minutes: nat)
    requires minutes < 60
    ensures LocalClock(hours, minutes) == (if minutes < 10 then 10 * hours + minutes else 100 * hours + minutes)
  {
    NatToStringWidth(minutes);
    assert Pow10(1) == 10 && Pow10(2) == 100;
  }

  /** The HHMM number of a time of day: hours times a hundred plus minutes. */
  function ClockHHMM(hours: nat, minutes: nat): nat
  {
    100 * hours + minutes
  }

  /** Minutes since midnight of a reading that `convertTo24` handles. */
  function MinuteOfDay(t: TimeText): nat
    requires Matched(t)
  {
    60 * Hour24(t) + ParseDigits(t.minutes)
  }

  /**
   * With the clock read as an HHMM number, the prefix is "day" exactly when
   * the time of day lies strictly between sunrise and sunset.
   */
  lemma ClockHHMMPrefix(hours: nat, minutes: nat, sunrise: TimeText, sunset: TimeText)
    requires minutes < 60 && Matched(sunrise) && Matched(sunset)
    ensures DayPrefix(ClockHHMM(hours, minutes), ParseDigits(ConvertTo24(sunrise)), ParseDigits(ConvertTo24(sunset))) == "day"
        <==> MinuteOfDay(sunrise) < 60 * hours + minutes < MinuteOfDay(sunset)
  {
    ConvertTo24Value(sunrise);
    ConvertTo24Value(sunset);
    HHMMOrder(Hour24(sunrise), ParseDigits(sunrise.minutes), hours, minutes);
    HHMMOrder(hours, minutes, Hour24(sunset), ParseDigits(sunset.minutes));
  }

  /** Read as HHMM numbers, two times of day compare as the times themselves do. */
  lemma HHMMOrder(h1: nat, m1: nat, h2: nat, m2: nat)
    requires m1 < 60 && m2 < 60
    ensures ClockHHMM(h1, m1) < ClockHHMM(h2, m2) <==> 60 * h1 + m1 < 60 * h2 + m2
  {
  }

  /**
   * As written: at 14:05 with the example sunrise "6:14 am" and sunset
   * "7:51 pm" the clock reads 145, below sunrise's 614, so the afternoon
   * gets the night prefix.
   */
  lemma AfternoonReadsAsNight()
    ensures LocalClock(14, 5) == 145
    ensures ParseDigits(ConvertTo24(TimeText("6", "14", "am"))) == 614
    ensures ParseDigits(ConvertTo24(TimeText("7", "51", "pm"))) == 1951
    ensures DayPrefix(LocalClock(14, 5), 614, 1951) == "night"
    ensures MinuteOfDay(TimeText("6", "14", "am")) < 60 * 14 + 5 < MinuteOfDay(TimeText("7", "51", "pm"))
  {
    LocalClockValue(14, 5);
    ConvertTo24Value(TimeText("6", "14", "am"));
    ConvertTo24Value(TimeText("7", "51", "pm"));
    assert "6"[..0] == [] && "14"[..1] == "1" && "1"[..0] == [] && "51"[..1] == "5" && "5"[..0] == [];
  }

  /** As written the lookup probes code 28, whose bucket is "Clouds"; a rain code such as 9 belongs to "Rain". */
  lemma ProbeIgnoresCondition()
    ensures FirstBucket(Codes, 28) == Some("Clouds")
    ensures FirstBucket(Codes, 9) == Some("Rain")
  {
    OnlyBucket(28, 8);
    OnlyBucket(9, 2);
  }

  /** A code listed in bucket `k` is found there and nowhere else. */
  lemma OnlyBucket(code: int, k: nat)
    requires k < |Codes| && code in Codes[k].1
    ensures FirstBucket(Codes, code) == Some(Codes[k].0)
  {
    var r := FirstBucket(Codes, code);
    var i :| 0 <= i < |Codes| && Codes[i].0 == r.value && code in Codes[i].1;
    CodesDisjoint(code, i, k);
  }

  /** No code is listed in two buckets, so the first bucket containing a code is its only bucket. */
  lemma CodesDisjoint(code: int, i: nat, j: nat)
    requires i < |Codes| && j < |Codes| && code in Codes[i].1 && code in Codes[j].1
    ensures i == j
  {
    if i < j {
      DisjointOrdered(code, i, j);
    } else if j < i {
      DisjointOrdered(code, j, i);
    }
  }

  lemma DisjointOrdered(code: int, i: nat, j: nat)
    requires i <= j < |Codes| && code in Codes[i].1 && code in Codes[j].1
    ensures i == j
  {
  }

  /** The table lists exactly the codes 0..47, and no bucket is named "Unknown". */
  lemma CodesCover(code: int) returns (k: nat)
    requires 0 <= code <= 47
    ensures k < |Codes| && code in Codes[k].1
  {
    if code in Codes[0].1 { return 0; }
    if code in Codes[1].1 { return 1; }
    if code in Codes[2].1 { return 2; }
    if code in Codes[3].1 { return 3; }
    if code in Codes[4].1 { return 4; }
    if code in Codes[5].1 { return 5; }
    if code in Codes[6].1 { return 6; }
    if code in Codes[7].1 { return 7; }
    if code in Codes[8].1 { return 8; }
    if code in Codes[9].1 { return 9; }
    return 10;
  }

  lemma CodesInRange(code: int, k: nat)
    requires k < |Codes| && code in Codes[k].1
    ensures 0 <= code <= 47 && Codes[k].0 != "Unknown"
  {
  }

  /** The table has a bucket, not named "Unknown", for every code 0..47 and for nothing else. */
  lemma LookupTotalOnCodes(code: int)
    ensures FirstBucket(Codes, code).Some? <==> 0 <= code <= 47
    ensures FirstBucket(Codes, code).Some? ==> FirstBucket(Codes, code).value != "Unknown"
  {
    if 0 <= code <= 47 {
      var k := CodesCover(code);
      OnlyBucket(code, k);
      CodesInRange(code, k);
    } else {
      forall k | 0 <= k < |Codes| ensures code !in Codes[k].1 {
        if code in Codes[k].1 {
          CodesInRange(code, k);
        }
      }
    }
  }

  /**
   * The lookup the table was built for: the bucket of the current condition
   * code, "Unknown" for a code no bucket lists (such as 3200, "not available").
   */
  function IntendedSuffix(code: int): (s: string)
    ensures s != "Unknown" <==> 0 <= code <= 47
    ensures s != "Unknown" ==> exists k :: 0 <= k < |Codes| && Codes[k].0 == s && code in Codes[k].1
  {
    LookupTotalOnCodes(code);
    match FirstBucket(Codes, code)
    case None => "Unknown"
    case Some(b) => b
  }

  /** The intended lookup on the rain code 9, the example snapshot's code 30 and the "not available" code 3200. */
  lemma IntendedSuffixExamples()
    ensures IntendedSuffix(9) == "Rain"
    ensures IntendedSuffix(30) == "Clouds"
    ensures IntendedSuffix(3200) == "Unknown"
  {
    OnlyBucket(9, 2);
    OnlyBucket(30, 8);
  }
}

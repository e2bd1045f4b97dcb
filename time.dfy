/**
 * `formatDuration` (frontend/src/lib/time.ts): whole seconds of a millisecond
 * duration as "MM:SS", or "H:MM:SS" once there is at least one hour.
 */
module Time {
  import opened Wrappers
  import opened Strings

  /** The three fields `formatDuration` computes from the whole seconds. */
  datatype Clock = Clock(hours: nat, minutes: nat, seconds: nat)

  /** The whole seconds a clock's three fields stand for. */
  function TotalSeconds(c: Clock): nat {
    c.hours * 3600 + c.minutes * 60 + c.seconds
  }

  function Fields(duration: nat): (c: Clock)
    ensures c.minutes < 60 && c.seconds < 60
    ensures TotalSeconds(c) == duration / 1000
    ensures c.hours > 0 <==> duration / 1000 >= 3600
  {
    var total := duration / 1000;
    var c := Clock(total / 3600, (total / 60) % 60, total % 60);
    FieldsSum(total);
    c
  }

  lemma FieldsSum(total: nat)
    ensures (total / 3600) * 3600 + ((total / 60) % 60) * 60 + total % 60 == total
  {
    var q := total / 60;
    assert total == 60 * q + total % 60;
    assert q == 60 * (q / 60) + q % 60;
    assert q / 60 == total / 3600;
  }

  /** `String(num).padStart(2, "0")` */
  function Pad(n: nat): (s: string)
  {
    PadStart(NatToString(n), 2, '0')
  }

  /** A field below 100 pads to exactly two digits that read back as the field. */
  lemma PadTwoDigits(n: nat)
    requires n < 100
    ensures |Pad(n)| == 2 && AllDigits(Pad(n)) && ':' !in Pad(n)
    ensures ParseNat(Pad(n)) == n
  {
    var s := NatToString(n);
    if n < 10 {
      var p := Pad(n);
      assert p == ['0'] + s;
      assert p[..1] == ['0'];
      assert ParseNat(p[..1]) == 0;
      assert DigitValue(p[1]) == n;
    } else {
      assert |NatToString(n / 10)| == 1;
      assert Pad(n) == s;
      ParseNatToString(n);
    }
  }

  /** The list `formatDuration` joins: the hours only when there are any, then the padded minutes and seconds. */
  function Parts(duration: nat): (parts: seq<string>)
    ensures |parts| == 3 <==> duration / 1000 >= 3600
    ensures |parts| == 2 <==> duration / 1000 < 3600
  {
    ClockParts(Fields(duration))
  }

  function ClockParts(c: Clock): (parts: seq<string>)
    ensures |parts| == (if c.hours > 0 then 3 else 2)
  {
    (if c.hours > 0 then [NatToString(c.hours)] else []) + [Pad(c.minutes), Pad(c.seconds)]
  }

  /** `formatDuration` */
  function FormatDuration(duration: nat): (r: string)
  {
    Join(Parts(duration), ":")
  }

  /** Reads "MM:SS" or "H:MM:SS" back to whole seconds; anything else is not a formatted duration. */
  function ParseDuration(s: string): Option<nat>
  {
    ReadFields(Split(s, ':'))
  }

  /** Reads the fields of a formatted duration: hours, minutes and seconds, or minutes and seconds. */
  function ReadFields(f: seq<string>): Option<nat>
  {
    if |f| == 3 && AllDigits(f[0]) && AllDigits(f[1]) && AllDigits(f[2]) then
      Some(TotalSeconds(Clock(ParseNat(f[0]), ParseNat(f[1]), ParseNat(f[2]))))
    else if |f| == 2 && AllDigits(f[0]) && AllDigits(f[1]) then
      Some(TotalSeconds(Clock(0, ParseNat(f[0]), ParseNat(f[1]))))
    else None
  }

  lemma DigitsHaveNoColon(s: string)
    requires AllDigits(s)
    ensures ':' !in s
  {
  }

  lemma FieldHasNoColon(c: Clock, k: nat)
    requires c.minutes < 60 && c.seconds < 60
    requires k < |ClockParts(c)|
    ensures AllDigits(ClockParts(c)[k]) && ':' !in ClockParts(c)[k]
  {
    var parts := ClockParts(c);
    if c.hours > 0 {
      ClockPartsWithHours(c);
      if k == 0 {
        DigitsHaveNoColon(NatToString(c.hours));
      } else if k == 1 {
        PadTwoDigits(c.minutes);
      } else {
        PadTwoDigits(c.seconds);
      }
    } else {
      ClockPartsNoHours(c);
      if k == 0 {
        PadTwoDigits(c.minutes);
      } else {
        PadTwoDigits(c.seconds);
      }
    }
  }

  /** No field contains the separator, so splitting the joined fields at ':' gives them back. */
  lemma SplitClockParts(c: Clock)
    requires c.minutes < 60 && c.seconds < 60
    ensures Split(Join(ClockParts(c), ":"), ':') == ClockParts(c)
  {
    var parts := ClockParts(c);
    forall k | 0 <= k < |parts|
      ensures ':' !in parts[k]
    {
      FieldHasNoColon(c, k);
    }
    SplitJoin(parts, ':');
  }

  /** Joining a clock's fields and reading the string back gives its total seconds. */
  lemma ClockRoundTrip(c: Clock)
    requires c.minutes < 60 && c.seconds < 60
    ensures ParseDuration(Join(ClockParts(c), ":")) == Some(TotalSeconds(c))
  {
    var parts := ClockParts(c);
    var joined := Join(parts, ":");
    SplitClockParts(c);
    assert ParseDuration(joined) == ReadFields(parts);
    ReadClockParts(c);
  }

  /** Reading a clock's fields gives its total seconds. */
  lemma ReadClockParts(c: Clock)
    requires c.minutes < 60 && c.seconds < 60
    ensures ReadFields(ClockParts(c)) == Some(TotalSeconds(c))
  {
    if c.hours > 0 {
      ReadClockPartsWithHours(c);
    } else {
      ReadClockPartsNoHours(c);
    }
  }

  lemma ReadClockPartsWithHours(c: Clock)
    requires c.hours > 0 && c.minutes < 60 && c.seconds < 60
    ensures ReadFields(ClockParts(c)) == Some(TotalSeconds(c))
  {
    ClockPartsWithHours(c);
    PadTwoDigits(c.minutes);
    PadTwoDigits(c.seconds);
    ReadHoursField(Pad(c.minutes), Pad(c.seconds), c);
  }

  lemma ClockPartsWithHours(c: Clock)
    requires c.hours > 0
    ensures ClockParts(c) == [NatToString(c.hours), Pad(c.minutes), Pad(c.seconds)]
  {
  }

  lemma ClockPartsNoHours(c: Clock)
    requires c.hours == 0
    ensures ClockParts(c) == [Pad(c.minutes), Pad(c.seconds)]
  {
  }

  lemma ReadHoursField(m: string, s: string, c: Clock)
    requires AllDigits(m) && AllDigits(s) && ParseNat(m) == c.minutes && ParseNat(s) == c.seconds
    ensures ReadFields([NatToString(c.hours), m, s]) == Some(TotalSeconds(c))
  {
    ParseNatToString(c.hours);
    ReadHoursMinutesSeconds([NatToString(c.hours), m, s], c);
  }

  lemma ReadClockPartsNoHours(c: Clock)
    requires c.hours == 0 && c.minutes < 60 && c.seconds < 60
    ensures ReadFields(ClockParts(c)) == Some(TotalSeconds(c))
  {
    ClockPartsNoHours(c);
    PadTwoDigits(c.minutes);
    PadTwoDigits(c.seconds);
    ReadMinutesSeconds(ClockParts(c), c);
  }

  lemma ReadHoursMinutesSeconds(f: seq<string>, c: Clock)
    requires |f| == 3 && AllDigits(f[0]) && AllDigits(f[1]) && AllDigits(f[2])
    requires ParseNat(f[0]) == c.hours && ParseNat(f[1]) == c.minutes && ParseNat(f[2]) == c.seconds
    ensures ReadFields(f) == Some(TotalSeconds(c))
  {
  }

  lemma ReadMinutesSeconds(f: seq<string>, c: Clock)
    requires |f| == 2 && AllDigits(f[0]) && AllDigits(f[1])
    requires c.hours == 0 && ParseNat(f[0]) == c.minutes && ParseNat(f[1]) == c.seconds
    ensures ReadFields(f) == Some(TotalSeconds(c))
  {
  }

  /**
   * The formatted string has three fields exactly when there is at least one hour;
   * the hours field is the unpadded decimal hours and the minutes and seconds
   * fields are two digits each.
   */
  lemma FormatDurationShape(duration: nat)
    ensures var f := Split(FormatDuration(duration), ':');
      (|f| == 3 <==> duration / 1000 >= 3600) && (|f| == 2 <==> duration / 1000 < 3600)
      && |f[|f| - 1]| == 2 && |f[|f| - 2]| == 2
      && (|f| == 3 ==> f[0] == NatToString(duration / 1000 / 3600))
  {
    var c := Fields(duration);
    SplitClockParts(c);
    ParseClockParts(c);
  }

  /** Reading the formatted string back gives the whole seconds of the duration. */
  lemma FormatDurationRoundTrip(duration: nat)
    ensures ParseDuration(FormatDuration(duration)) == Some(duration / 1000)
  {
    var c := Fields(duration);
    ClockRoundTrip(c);
  }

  /** Each field of a clock is all digits and reads back as that field. */
  lemma ParseClockParts(c: Clock)
    requires c.minutes < 60 && c.seconds < 60
    ensures var f := ClockParts(c);
      |f[|f| - 1]| == 2 && |f[|f| - 2]| == 2
      && AllDigits(f[|f| - 1]) && ParseNat(f[|f| - 1]) == c.seconds
      && AllDigits(f[|f| - 2]) && ParseNat(f[|f| - 2]) == c.minutes
      && (c.hours > 0 ==> (f[0] == NatToString(c.hours) && AllDigits(f[0]) && ParseNat(f[0]) == c.hours))
  {
    PadTwoDigits(c.minutes);
    PadTwoDigits(c.seconds);
    if c.hours > 0 {
      ClockPartsWithHours(c);
      ParseNatToString(c.hours);
    } else {
      ClockPartsNoHours(c);
    }
  }

  /** Sub-second remainders are ignored. */
  lemma SubSecondIgnored(duration: nat)
    ensures FormatDuration(duration) == FormatDuration(1000 * (duration / 1000))
  {
    assert (1000 * (duration / 1000)) / 1000 == duration / 1000;
  }

  /** The examples: no time, one minute and a second, and exactly one hour. */
  lemma FormatExamples()
    ensures FormatDuration(0) == "00:00"
    ensures FormatDuration(61000) == "01:01"
    ensures FormatDuration(3600000) == "1:00:00"
  {
    FormatNoTime();
    FormatMinuteAndSecond();
    FormatOneHour();
  }

  lemma FormatNoTime()
    ensures FormatDuration(0) == "00:00"
  {
    FormatUnderOneSecond(0);
  }

  /** Anything shorter than a second formats as no time at all. */
  lemma FormatUnderOneSecond(duration: nat)
    requires duration < 1000
    ensures FormatDuration(duration) == "00:00"
  {
    assert duration / 1000 == 0 == TotalSeconds(Clock(0, 0, 0));
    FormatExample(duration, Clock(0, 0, 0));
    NoTimeParts();
  }

  lemma NoTimeParts()
    ensures Join(ClockParts(Clock(0, 0, 0)), ":") == "00:00"
  {
    assert Pad(0) == "00";
    assert ClockParts(Clock(0, 0, 0)) == ["00", "00"];
  }

  lemma FormatMinuteAndSecond()
    ensures FormatDuration(61000) == "01:01"
  {
    FormatExample(61000, Clock(0, 1, 1));
    MinuteAndSecondParts();
  }

  lemma MinuteAndSecondParts()
    ensures Join(ClockParts(Clock(0, 1, 1)), ":") == "01:01"
  {
    assert Pad(1) == "01";
    assert ClockParts(Clock(0, 1, 1)) == ["01", "01"];
  }

  lemma FormatOneHour()
    ensures FormatDuration(3600000) == "1:00:00"
  {
    FormatExample(3600000, Clock(1, 0, 0));
    OneHourParts();
  }

  lemma OneHourParts()
    ensures Join(ClockParts(Clock(1, 0, 0)), ":") == "1:00:00"
  {
    assert Pad(0) == "00";
    assert NatToString(1) == "1";
    assert ClockParts(Clock(1, 0, 0)) == ["1", "00", "00"];
  }

  lemma FormatExample(duration: nat, c: Clock)
    requires TotalSeconds(c) == duration / 1000 && c.minutes < 60 && c.seconds < 60
    ensures FormatDuration(duration) == Join(ClockParts(c), ":")
  {
    FieldsUnique(Fields(duration), c);
  }

  /** The hours, minutes and seconds of a number of seconds are unique. */
  lemma FieldsUnique(a: Clock, b: Clock)
    requires a.minutes < 60 && a.seconds < 60 && b.minutes < 60 && b.seconds < 60
    requires TotalSeconds(a) == TotalSeconds(b)
    ensures a == b
  {
    var t := TotalSeconds(a);
    var ma := a.hours * 60 + a.minutes;
    var mb := b.hours * 60 + b.minutes;
    SplitSixty(ma, a.seconds);
    SplitSixty(mb, b.seconds);
    SplitSixty(a.hours, a.minutes);
    SplitSixty(b.hours, b.minutes);
  }

  lemma SplitSixty(q: nat, r: nat)
    requires r < 60
    ensures (q * 60 + r) / 60 == q && (q * 60 + r) % 60 == r
  {
  }
}

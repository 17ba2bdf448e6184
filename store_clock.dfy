/**
 * `formatTime` of src/lib/storage.js: the "HH:MM:SS" text the store shows
 * for a number of seconds, with the three fields proved to read back as
 * hours, minutes and seconds that recompose the input.
 */
module StoreClock {
  import opened JsText

  /** The text before the second-to-last colon of a clock text. */
  function HoursField(r: string): string
    requires |r| >= 6
  {
    r[..|r| - 6]
  }

  /** The two characters between the two colons. */
  function MinutesField(r: string): string
    requires |r| >= 6
  {
    r[|r| - 5..|r| - 3]
  }

  /** The last two characters. */
  function SecondsField(r: string): string
    requires |r| >= 6
  {
    r[|r| - 2..]
  }

  /** "H…H:MM:SS": at least two hour digits, then two minute digits and two second digits. */
  predicate IsClockText(r: string) {
    && |r| >= 8 && r[|r| - 3] == ':' && r[|r| - 6] == ':'
    && AllDigits(HoursField(r)) && AllDigits(MinutesField(r)) && AllDigits(SecondsField(r))
  }

  /**
   * `formatTime`: "HH:MM:SS" for a number of seconds. Reading the three
   * fields back gives minutes below 60 and seconds below 60 that, with the
   * hours, add up to the input; below 100 hours the text is exactly eight
   * characters long.
   */
  function FormatTime(seconds: nat): (r: string)
    ensures IsClockText(r)
    ensures DigitsValue(MinutesField(r)) < 60 && DigitsValue(SecondsField(r)) < 60
    ensures DigitsValue(HoursField(r)) * 3600 + DigitsValue(MinutesField(r)) * 60
            + DigitsValue(SecondsField(r)) == seconds
    ensures seconds < 100 * 3600 ==> |r| == 8
  {
    ClockSplit(seconds);
    FormatClock(seconds / 3600, (seconds % 3600) / 60, seconds % 60)
  }

  /** The clock text for given hour, minute and second values, each field reading back as its value. */
  function FormatClock(h: nat, m: nat, sec: nat): (r: string)
    requires m < 60 && sec < 60
    ensures IsClockText(r)
    ensures DigitsValue(HoursField(r)) == h
    ensures DigitsValue(MinutesField(r)) == m
    ensures DigitsValue(SecondsField(r)) == sec
    ensures h < 100 ==> |r| == 8
  {
    var a := Pad2(h);
    var b := Pad2(m);
    var c := Pad2(sec);
    ClockLayout(a, b, c);
    a + ":" + b + ":" + c
  }

  /** Where the parts of "a:b:c" sit when `b` and `c` have two characters. */
  lemma ClockLayout(a: string, b: string, c: string)
    requires |b| == 2 && |c| == 2
    ensures var r := a + ":" + b + ":" + c;
      && |r| == |a| + 6 && r[|r| - 3] == ':' && r[|r| - 6] == ':'
      && HoursField(r) == a && MinutesField(r) == b && SecondsField(r) == c
  {
    var r := a + ":" + b + ":" + c;
    assert r[..|r| - 6] == a;
    assert r[|r| - 5..|r| - 3] == b;
    assert r[|r| - 2..] == c;
  }

  /** The hour, minute and second fields `formatTime` computes recompose the input. */
  lemma ClockSplit(seconds: nat)
    ensures (seconds % 3600) / 60 < 60 && seconds % 60 < 60
    ensures (seconds / 3600) * 3600 + ((seconds % 3600) / 60) * 60 + seconds % 60 == seconds
    ensures seconds < 100 * 3600 ==> seconds / 3600 < 100
  {
  }
}

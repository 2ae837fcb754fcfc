/**
 * `SimController.getTimeMessage`: the progress message for the time left,
 * given in milliseconds, rounded to the nearest quarter hour once it is over
 * about an hour.
 */
module TimeMessages {
  import opened Numeric

  /** `TimeUnit.MILLISECONDS.toMinutes`: whole minutes, truncated toward zero. */
  function ToMinutes(ms: int): int
  {
    JavaDiv(ms, 60000)
  }

  /** `TimeUnit.MILLISECONDS.toHours`: whole hours, truncated toward zero. */
  function ToHours(ms: int): int
  {
    JavaDiv(ms, 3600000)
  }

  /** The message's hours and minutes: the minutes past the whole hours rounded to a multiple of 15, 60 rolling over. */
  function HoursAndQuarters(remaining: int): (int, int)
  {
    var hours := ToHours(remaining);
    var minutesOver := Round((ToMinutes(remaining) - hours * 60) as real / 15.0) * 15;
    if minutesOver == 60 then (hours + 1, 0) else (hours, minutesOver)
  }

  /** The message for `hours` and `minutesOver` after rounding, and the unrounded `minutes`. */
  function Message(hours: int, minutesOver: int, minutes: int): string
  {
    if hours == 1 && minutesOver == 0 then "About an hour remaining"
    else if hours > 0 && minutesOver == 0 then "About " + IntToString(hours) + " hours remaining"
    else if hours > 0 then
      "About " + IntToString(hours) + " " + (if hours == 1 then "hour" else "hours") + ", " + IntToString(minutesOver) + " minutes remaining"
    else if minutes == 1 then "About a minute remaining"
    else if minutes > 0 then "About " + IntToString(minutes) + " minutes remaining"
    else "Under a minute remaining"
  }

  /** `getTimeMessage`. */
  function TimeMessage(remaining: int): string
  {
    var (hours, minutesOver) := HoursAndQuarters(remaining);
    Message(hours, minutesOver, ToMinutes(remaining))
  }

  /** `Math.round(x / 15.0)` for a whole number of minutes `x >= 0` is the integer quotient `(2x + 15) / 30`. */
  lemma RoundQuarter(x: int)
    requires x >= 0
    ensures Round(x as real / 15.0) == (2 * x + 15) / 30
  {
    var q, r := (2 * x + 15) / 30, (2 * x + 15) % 30;
    assert 2 * x + 15 == 30 * q + r;
    assert x as real / 15.0 + 1.0 / 2.0 == q as real + r as real / 30.0;
    assert 0.0 <= r as real / 30.0 < 1.0;
  }

  /** The number of quarter hours the message rounds `minutes` to. */
  function Quarters(minutes: nat): nat
  {
    (2 * minutes + 15) / 30
  }

  /**
   * For a time that is not negative, the message's hours and minutes are the
   * whole minutes rounded to the nearest quarter hour, in hours and quarters.
   */
  lemma QuarterRounding(remaining: int)
    requires remaining >= 0
    ensures var q := Quarters(remaining / 60000);
      HoursAndQuarters(remaining) == (q / 4, 15 * (q % 4))
  {
    var t := remaining / 60000;
    assert ToMinutes(remaining) == t;
    assert ToHours(remaining) == t / 60;
    var over := t - (t / 60) * 60;
    assert over == t % 60;
    RoundQuarter(over);
    var r := (2 * over + 15) / 30;
    assert 2 * t + 15 == 30 * (4 * (t / 60)) + (2 * over + 15);
    assert Quarters(t) == 4 * (t / 60) + r;
    assert r <= 4;
  }

  /** Under a minute, and for any negative time, the message says so. */
  lemma UnderAMinute(remaining: int)
    requires remaining < 60000
    ensures TimeMessage(remaining) == "Under a minute remaining"
  {
    var minutes := ToMinutes(remaining);
    var hours := ToHours(remaining);
    assert minutes <= 0 && hours <= 0;
    var over := minutes - hours * 60;
    assert hours == 0 || remaining <= -3600000;
    assert -60 < over <= 0 by {
      if remaining < 0 {
        assert Abs(minutes) == Abs(remaining) / 60000;
        assert Abs(hours) == Abs(remaining) / 3600000;
        assert Abs(hours) == Abs(minutes) / 60;
      }
    }
    assert Round(over as real / 15.0) <= 0;
  }

  /** From one to two minutes the message is "About a minute remaining". */
  lemma AboutAMinute(remaining: int)
    requires 60000 <= remaining < 120000
    ensures TimeMessage(remaining) == "About a minute remaining"
  {
    QuarterRounding(remaining);
  }

  /** From 2 to 52 whole minutes the message counts the minutes. */
  lemma AboutMinutes(remaining: int)
    requires 2 <= remaining / 60000 <= 52 && remaining >= 0
    ensures TimeMessage(remaining) == "About " + IntToString(remaining / 60000) + " minutes remaining"
  {
    QuarterRounding(remaining);
  }

  /** From 53 to 67 whole minutes the rounding gives exactly an hour. */
  lemma AboutAnHour(remaining: int)
    requires 53 <= remaining / 60000 <= 67 && remaining >= 0
    ensures TimeMessage(remaining) == "About an hour remaining"
  {
    QuarterRounding(remaining);
  }

  /** A time that rounds to two or more whole hours gives the hours alone. */
  lemma WholeHours(remaining: int)
    requires remaining >= 0
    requires var q := Quarters(remaining / 60000); q % 4 == 0 && q / 4 >= 2
    ensures TimeMessage(remaining) == "About " + IntToString(Quarters(remaining / 60000) / 4) + " hours remaining"
  {
    QuarterRounding(remaining);
  }

  /** Past the hour and not on a whole hour, the message gives the hours and 15, 30 or 45 minutes. */
  lemma HoursAndMinutes(remaining: int)
    requires remaining >= 0
    requires var q := Quarters(remaining / 60000); q % 4 != 0 && q / 4 >= 1
    ensures var q := Quarters(remaining / 60000); var h := q / 4; var m := 15 * (q % 4);
      && (m == 15 || m == 30 || m == 45)
      && TimeMessage(remaining) == "About " + IntToString(h) + " " + (if h == 1 then "hour" else "hours") + ", " + IntToString(m) + " minutes remaining"
  {
    QuarterRounding(remaining);
  }
}

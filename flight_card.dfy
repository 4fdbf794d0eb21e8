/** One search result (`FlightCard.tsx`): the duration label and the Select Flight target. */
module FlightCard {
  import opened Wrappers
  import opened Text
  import opened Api

  /**
   * `Math.floor(minutes / 60)` and `minutes % 60`: the hours round down, while
   * JavaScript's remainder takes the sign of the minutes.
   */
  function DurationParts(minutes: int): (p: (int, int))
    ensures minutes >= 0 ==> p.0 >= 0 && 0 <= p.1 < 60 && p.0 * 60 + p.1 == minutes
    ensures minutes < 0 ==> p.0 < 0 && -60 < p.1 <= 0
  {
    var hours := minutes / 60;
    var mins := if minutes >= 0 then minutes % 60 else -((-minutes) % 60);
    (hours, mins)
  }

  /** For a negative duration off the hour the two parts no longer add up to it. */
  lemma NegativeDurationMisadds(minutes: int)
    requires minutes < 0 && minutes % 60 != 0
    ensures DurationParts(minutes).0 * 60 + DurationParts(minutes).1 != minutes
  {
    var p := DurationParts(minutes);
    assert p.0 * 60 <= minutes - (minutes % 60);
  }

  /** `formatDuration`: `{hours}h {mins}m`, without padding. */
  function FormatDuration(minutes: int): (text: string)
    ensures minutes >= 0 ==> text == NatToString(minutes / 60) + "h " + NatToString(minutes % 60) + "m"
    ensures |text| >= 4 && text[|text| - 1] == 'm'
  {
    var p := DurationParts(minutes);
    IntToString(p.0) + "h " + IntToString(p.1) + "m"
  }

  lemma LabelSplits(hs: string, ms: string)
    ensures hs + "h " + ms + "m" == hs + ("h " + ms + "m")
  {
  }

  /** Two `{h}h {m}m` labels built from numerals are equal only for equal hours and equal minutes. */
  lemma LabelInjective(h1: nat, m1: nat, h2: nat, m2: nat)
    requires NatToString(h1) + "h " + NatToString(m1) + "m" == NatToString(h2) + "h " + NatToString(m2) + "m"
    ensures h1 == h2 && m1 == m2
  {
    var a1, b1 := NatToString(h1), NatToString(m1);
    var a2, b2 := NatToString(h2), NatToString(m2);
    var t1, t2 := "h " + b1 + "m", "h " + b2 + "m";
    LabelSplits(a1, b1);
    LabelSplits(a2, b2);
    // the hours are the leading numeral, which stops at the `h`
    LeadingDigitsOfNumeral(a1, t1);
    LeadingDigitsOfNumeral(a2, t2);
    NatToStringInjective(h1, h2);
    // the minutes sit between the `h ` and the final `m`
    assert t1 == (a1 + t1)[|a1|..] && t2 == (a2 + t2)[|a2|..];
    assert b1 == t1[2..|t1| - 1] && b2 == t2[2..|t2| - 1];
    NatToStringInjective(m1, m2);
  }

  /** Distinct non-negative durations get distinct labels. */
  lemma FormatDurationInjective(a: nat, b: nat)
    requires FormatDuration(a) == FormatDuration(b)
    ensures a == b
  {
    var p, q := DurationParts(a), DurationParts(b);
    LabelInjective(p.0, p.1, q.0, q.1);
  }

  lemma SixtyFiveMinutes()
    ensures FormatDuration(65) == "1h 5m"
  {
    assert DurationParts(65) == (1, 5);
    assert NatToString(1) == "1" && NatToString(5) == "5";
  }

  /** Select Flight opens `/flight/{id}`. */
  function SelectFlightPath(flight: Flight): (path: string)
    ensures |path| > 8 && path[..8] == "/flight/"
  {
    "/flight/" + IntToString(flight.id)
  }

  /** The detail page's `parseInt` of the route segment gives the card's flight id back. */
  lemma SelectFlightRouteId(flight: Flight)
    ensures ParseInt(SelectFlightPath(flight)[8..]) == Some(flight.id)
  {
    var segment := IntToString(flight.id);
    assert SelectFlightPath(flight) == "/flight/" + segment;
    assert ("/flight/" + segment)[8..] == segment;
    if flight.id >= 0 {
      ParseIntOfNatToString(flight.id);
    } else {
      assert segment == "-" + NatToString(-flight.id);
      ParseIntNegative(-flight.id);
    }
  }
}

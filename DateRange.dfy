/** How the client turns a calendar date `YYYY-MM-DD` picked in a date input
    into the bounds of a server-side date filter: the first second of that
    day for a lower bound, the last second for an upper bound, both as local
    times. The conversion to an absolute instant (`toISOString`) is host
    time-zone arithmetic and is not part of this model. */
module DateRange {
  import opened Strings
  import opened Records

  const DayStartSuffix := "T00:00:00"
  const DayEndSuffix := "T23:59:59"

  function DayStart(date: string): string
  {
    date + DayStartSuffix
  }

  function DayEnd(date: string): string
  {
    date + DayEndSuffix
  }

  /** The seconds since midnight of a `Thh:mm:ss` time of day. */
  function ClockSeconds(t: string): Option<nat>
  {
    if |t| == 9 && t[0] == 'T' && t[3] == ':' && t[6] == ':' &&
       AllDigits(t[1..3]) && AllDigits(t[4..6]) && AllDigits(t[7..9])
    then Some(ParseNat(t[1..3]) * 3600 + ParseNat(t[4..6]) * 60 + ParseNat(t[7..9]))
    else None
  }

  /** Both bounds keep the picked date and differ only in the time of day:
      the lower one is the start of the day's first second, the upper one
      the start of its last second, so an inclusive upper bound leaves out
      the last 999 milliseconds of the day. */
  lemma DayBoundsSpanTheDay(date: string)
    ensures DayStart(date)[..|date|] == date && DayEnd(date)[..|date|] == date
    ensures ClockSeconds(DayStart(date)[|date|..]) == Some(0)
    ensures ClockSeconds(DayEnd(date)[|date|..]) == Some(24 * 3600 - 1)
  {
    assert DayStart(date)[|date|..] == DayStartSuffix;
    assert DayEnd(date)[|date|..] == DayEndSuffix;
    assert DayStartSuffix[1..3] == "00" && DayStartSuffix[4..6] == "00" && DayStartSuffix[7..9] == "00";
    assert DayEndSuffix[1..3] == "23" && DayEndSuffix[4..6] == "59" && DayEndSuffix[7..9] == "59";
    assert "00"[..1] == "0" && "23"[..1] == "2" && "59"[..1] == "5";
    assert ParseNat("0") == 0 by { assert "0"[..0] == ""; }
    assert ParseNat("2") == 2 by { assert "2"[..0] == ""; }
    assert ParseNat("5") == 5 by { assert "5"[..0] == ""; }
  }
}

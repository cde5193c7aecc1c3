/** Calendar days as integers. Day 0 is a Monday, so the weekday of a day is
    its remainder modulo 7 (0 = Monday … 4 = Friday, 5 = Saturday, 6 = Sunday),
    which is what Python's `date.weekday()` returns. Dafny's `%` is Euclidean,
    so days before day 0 get the right weekday too. */
module Calendar {

  /** Python's `date.weekday()`. */
  function Weekday(day: int): (w: int)
    ensures 0 <= w < 7
  {
    day % 7
  }

  /** A day the exchange trades: Monday to Friday (holidays are not known to the system). */
  predicate IsTradingDay(day: int) {
    Weekday(day) < 5
  }

  /** Among any three consecutive days at least one is a trading day,
      since a weekend is only two days long. */
  lemma ThreeDaysHoldATradingDay(day: int)
    ensures IsTradingDay(day) || IsTradingDay(day - 1) || IsTradingDay(day - 2)
  {
  }

  /** Between a Monday and the preceding Friday lie exactly two weekend days. */
  lemma WeekendNeighbours(day: int)
    ensures Weekday(day) == 5 ==> IsTradingDay(day - 1)
    ensures Weekday(day) == 6 ==> IsTradingDay(day - 2) && !IsTradingDay(day - 1)
  {
  }

  /** The weekday of the day before. */
  lemma WeekdayOfPreviousDay(day: int)
    ensures Weekday(day - 1) == if Weekday(day) == 0 then 6 else Weekday(day) - 1
  {
  }

  /** The latest trading day on or before `day`: walk back over a weekend. */
  function TradingDayAtOrBefore(day: int): (d: int)
    ensures d <= day && day - d <= 2 && IsTradingDay(d)
    ensures day - d == if Weekday(day) >= 5 then Weekday(day) - 4 else 0
    ensures forall k :: d < k <= day ==> !IsTradingDay(k)
    decreases if Weekday(day) >= 5 then Weekday(day) - 4 else 0
  {
    if IsTradingDay(day) then day
    else
      WeekdayOfPreviousDay(day);
      TradingDayAtOrBefore(day - 1)
  }
}

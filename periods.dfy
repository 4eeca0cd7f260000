/*
 * The date-range check both the dashboard and the categories page make
 * before asking the server for a period: both ends must be chosen and the
 * start must not come after the end.
 */
module Periods {
  import opened Wrappers
  import opened Calendar

  /** An error message and no request, or the inclusive period to request. */
  datatype PeriodCheck = Invalid(message: string) | Period(startDate: CivilDate, endDate: CivilDate)

  const NoRange: string := "Please select both start and end dates"
  const Reversed: string := "Start date cannot be after end date"

  /**
   * The two checks, in order.  Dates come from date inputs, `None` being the
   * empty input; comparing the parsed inputs compares the calendar dates.
   */
  function RangeCheck(startDate: Option<CivilDate>, endDate: Option<CivilDate>): (q: PeriodCheck)
    ensures startDate.None? || endDate.None? ==> q == Invalid(NoRange)
    ensures startDate.Some? && endDate.Some? ==>
              (q == Invalid(Reversed) <==> !DateLe(startDate.value, endDate.value))
    ensures q.Period? ==> startDate == Some(q.startDate) && endDate == Some(q.endDate)
  {
    if startDate.None? || endDate.None? then Invalid(NoRange)
    else if !DateLe(startDate.value, endDate.value) then Invalid(Reversed)
    else Period(startDate.value, endDate.value)
  }

  /**
   * A period that passes the check is well ordered in the day order the
   * server's inclusive windows use, and every ordered pair of dates passes.
   */
  lemma RangeCheckOrdered(startDate: Option<CivilDate>, endDate: Option<CivilDate>)
    ensures var q := RangeCheck(startDate, endDate);
      q.Period? ==> DayKey(q.startDate) <= DayKey(q.endDate)
    ensures startDate.Some? && endDate.Some? && DayKey(startDate.value) <= DayKey(endDate.value) ==>
              RangeCheck(startDate, endDate).Period?
  {
    if startDate.Some? && endDate.Some? {
      DayKeyOrder(startDate.value, endDate.value);
    }
  }
}

/**
 * The classification of the calendar page in the booking step: no calendar,
 * a calendar without available dates, or the first available date chosen.
 */
module Calendar {
  import opened Wrappers
  import opened Status

  datatype CalendarOutcome<D> = CalendarMissing | NoAvailableDates | FirstAvailable(date: D)

  /**
   * `calendar` is the page's answer: None when no calendar element is found,
   * otherwise the available dates in page order. A query of the page that
   * raises has the same effect on the ledger as a missing calendar (CALENDAR
   * ERROR, nothing else recorded), so it is given as None as well.
   */
  function ClassifyCalendar<D>(calendar: Option<seq<D>>): (o: CalendarOutcome<D>)
    ensures o.CalendarMissing? <==> calendar.None?
    ensures o.NoAvailableDates? <==> calendar.Some? && |calendar.value| == 0
    ensures o.FirstAvailable? <==> calendar.Some? && |calendar.value| > 0
    ensures o.FirstAvailable? ==> o.date == calendar.value[0]
  {
    match calendar
    case None => CalendarMissing
    case Some(dates) => if dates == [] then NoAvailableDates else FirstAvailable(dates[0])
  }

  /**
   * The status the step records and stops with, or None when it goes on to
   * the booking. `clicked` is whether the step got past the click on the
   * chosen date and the pause after it without an exception; any exception
   * there is caught as a calendar error.
   */
  function CalendarFailure<D>(o: CalendarOutcome<D>, clicked: bool): (s: Option<AccountStatus>)
    ensures s.None? <==> o.FirstAvailable? && clicked
    ensures o.NoAvailableDates? ==> s == Some(BookingFailed)
    ensures o.CalendarMissing? || (o.FirstAvailable? && !clicked) ==> s == Some(CalendarError)
    ensures s.Some? ==> IsErrorStatus(s.value)
  {
    match o
    case CalendarMissing => Some(CalendarError)
    case NoAvailableDates => Some(BookingFailed)
    case FirstAvailable(_) => if clicked then None else Some(CalendarError)
  }
}

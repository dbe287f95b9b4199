/**
 * The status taxonomy of the bot (class `AccountStatus`) and the fixed table
 * of workflow step labels (`TLSVisaBot.steps`).
 */
module Status {

  /** One constructor per constant of `AccountStatus`. */
  datatype AccountStatus =
    | Init
    | LoginFailed
    | LoggedIn
    | Booking
    | Booked
    | Failed
    | Cloudflare
    | BookingFailed
    | CalendarError
    | SessionExpired
    | NetworkError
    | Maintenance

  /** The string value each `AccountStatus` constant carries. */
  function Label(s: AccountStatus): string
  {
    match s
    case Init => "INITIALIZING"
    case LoginFailed => "LOGIN FAILED"
    case LoggedIn => "LOGGED IN"
    case Booking => "BOOKING"
    case Booked => "BOOKED"
    case Failed => "FAILED"
    case Cloudflare => "CLOUDFLARE BLOCKED"
    case BookingFailed => "BOOKING FAILED"
    case CalendarError => "CALENDAR ERROR"
    case SessionExpired => "SESSION EXPIRED"
    case NetworkError => "NETWORK ERROR"
    case Maintenance => "SITE MAINTENANCE"
  }

  /**
   * `update_account_status` compares statuses as strings; the labels are pairwise
   * distinct, so comparing constructors is the same comparison.
   */
  lemma LabelInjective(s: AccountStatus, t: AccountStatus)
    ensures Label(s) == Label(t) <==> s == t
  {
  }

  /** The four statuses for which an update overwrites `last_error`. */
  predicate IsErrorStatus(s: AccountStatus)
  {
    s == LoginFailed || s == Failed || s == BookingFailed || s == CalendarError
  }

  /** The eleven workflow step labels, indexed by `current_step`. */
  const Steps: seq<string> := [
    "Initialize Bot",
    "Bypass Cloudflare",
    "Authentication via OAuth",
    "Login Verification",
    "Country Selection",
    "City Selection",
    "Book Detail Page",
    "Personal Info Page",
    "Calendar Page",
    "Confirmation Page",
    "Payment Verification"
  ]

  /** The label stamped on a history entry for the given step index. */
  function StepLabel(step: nat): (name: string)
    ensures step < |Steps| ==> name == Steps[step]
    ensures name == "Unknown" <==> step >= |Steps|
  {
    if step < |Steps| then Steps[step] else "Unknown"
  }
}

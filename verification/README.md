# TLS visa bot: account ledger, login-form wait and calendar check

`tls_visa_bot.py` drives a browser through the TLScontact appointment flow.
This project models the part of it that the rest of the bot relies on for
bookkeeping and for the control decisions around it:

- the status vocabulary (`AccountStatus`) and the table of step names that
  stamp every history entry;
- the per-account ledger that `update_account_status` updates in place. Each
  record holds a status, an append-only history, an attempt counter, the time
  of the last update, the last error and a success flag. After every update
  the whole ledger is written to `account_history.json`;
- the text report `get_account_report` builds from one record;
- the bounded wait for the login form: at most three checks, a reload between
  failed checks, one ledger update per check, and LOGIN FAILED followed by an
  exception on exhaustion;
- the calendar check of the booking step, which tells a missing calendar, a
  calendar without available dates and a failed click apart.

Modules:

- `Status`: the statuses, their labels and the step table.
- `Text`: decimal rendering and line joining for the report.
- `Ledger`: the records as values, one update (`Recorded`/`Record`), runs of
  updates (`RecordAll`), and what they keep consistent.
- `Report`: the report lines.
- `LoginRetry`: which checks the wait makes and which updates it records.
- `Calendar`: the classification of the calendar page.
- `Bot`: the `VisaBot` class. Its `accountHistory` map is updated in place,
  and a ghost `persisted` field stands for the JSON file. `currentStep` is a
  public field that the workflow sets between steps; every member here reads
  it and none changes it.
  Its `Valid()` invariant says that the file equals the in-memory ledger and
  that every record agrees with its own history.

The record invariant (`Ledger.Consistent`) says four things:

- the counter equals the history length;
- entry i carries attempt number i+1;
- the status and the last update time are those of the last entry;
- `success` holds iff some entry is BOOKED, and `last_error` is the details of the last error-status entry.

Every update preserves it (`Ledger.RecordConsistent`), and
`Bot.VisaBot.UpdateAccountStatus` maintains it as part of `Valid()`.

Behaviour follows the code:

- The status names are the code's labels (e.g. "CLOUDFLARE BLOCKED",
  "SITE MAINTENANCE"), not the shorter names used in some descriptions.
- The report shows "Last Error" only when the stored error is a non-empty
  string, because Python's truthiness test drops `""` as well as `None`.
  Updates with an error status and no details therefore set `last_error` to
  `""`, which the report hides.

## Model

| member | source | states |
|---|---|---|
| Status.LabelInjective | tls_visa_bot.py:48-61 | the twelve statuses have pairwise distinct labels, so a stored label identifies its status |
| Status.StepLabel | tls_visa_bot.py:125 | a step index inside the table names that step, and the name is "Unknown" exactly when the index is past the table's end |
| Text.ParseNatToString | tls_visa_bot.py:154 | the decimal rendering of a counter in the report reads back as the same number |
| Ledger.RecordedUpdate | tls_visa_bot.py:98-128 | one update overwrites the status and raises the counter by one. It appends exactly one entry, carrying the new counter and the current step name, to the unchanged old history. It stamps the update time and sets success on BOOKED. It sets last_error to the details on the four error statuses, and otherwise keeps success and last_error. An absent account starts from an empty record |
| Ledger.RecordedConsistent | tls_visa_bot.py:98-128 | an update keeps a record consistent with its history (counter = history length, attempts numbered 1..n, status, time, success and last error read off the history) |
| Ledger.RecordConsistent | tls_visa_bot.py:98-128 | an update keeps every record of the ledger consistent |
| Ledger.RecordAllOthersUnchanged | tls_visa_bot.py:98-109 | updates of one account leave every other account's record untouched, and create the account exactly when there was at least one update |
| Ledger.RecordedAll | tls_visa_bot.py:98-106 | after a run of updates the account has a record exactly when it had one before or the run is non-empty |
| Ledger.RecordAllAt | tls_visa_bot.py:98-128 | the account's record after a run of ledger updates is the run applied to its prior record alone |
| Ledger.RecordedAllGrows | tls_visa_bot.py:108-127 | a run of n updates raises the counter by n, keeps the old history as a prefix and lengthens it by n. It leaves the last update's status, and `last_updated` is that update's clock reading |
| Ledger.RecordedAllEntries | tls_visa_bot.py:121-127 | the i-th update of a run lands at position (old length + i) of the history. It carries attempt number (old counter + i + 1), that update's own clock reading, its status and details, and the step label |
| Ledger.FreshAccountHistory | tls_visa_bot.py:98-127 | n updates of an unknown account give a history of exactly n entries numbered 1..n. In order, their timestamps, statuses and details are the updates' own |
| Ledger.RecordedAllSuccess | tls_visa_bot.py:105-115 | after a run, success holds iff it held before or some update of the run was BOOKED (it is never reset) |
| Ledger.RecordedAllLastError | tls_visa_bot.py:104-118 | after a run, last_error is the details of the run's last error-status update, or the earlier value when the run has none |
| Report.HistoryLinesAppend | tls_visa_bot.py:164-170 | the history section of a longer history is the section of the older part followed by the entries' blocks |
| Report.HistoryAttemptLines | tls_visa_bot.py:164-170 | the history section holds one "Attempt #" list element per entry |
| Report.HistoryDetailsLines | tls_visa_bot.py:169-170 | the history section holds one "Details: " list element per entry whose details are non-empty, and no other |
| Report.HistoryHasNoErrorLine | tls_visa_bot.py:164-170 | no list element of the history section starts with "Last Error: " |
| Report.ReportErrorLine | tls_visa_bot.py:159-160 | the report list holds exactly one "Last Error: " element when the last error is a non-empty string, and none otherwise |
| Report.ReportAttemptLines | tls_visa_bot.py:151-170 | the report list holds exactly one "Attempt #" element per history entry: none of the summary, error or heading elements starts that way |
| Report.ReportBlocksMatchAttempts | tls_visa_bot.py:151-170 | for a consistent record the report list's number of "Attempt #" elements equals its "Total Attempts" figure |
| Bot.VisaBot.constructor | tls_visa_bot.py:66-73 | a new bot has an empty ledger at step 0 |
| Bot.VisaBot.UpdateAccountStatus | tls_visa_bot.py:90-133 | the new ledger is the old one with the account replaced by its updated record (see Ledger.RecordedUpdate). The step is unchanged, the file holds the new ledger, and every record stays consistent |
| Bot.VisaBot.GetAccountReport | tls_visa_bot.py:138-172 | an unknown account yields the "No history found" sentence. A known one yields the header, the optional error line, the history heading and one block per entry, joined by newlines |
| LoginRetry.LoginFormEvents | tls_visa_bot.py:580-596 | the wait records one update per check made: "retrying (attempt k/3)" updates numbered 1, 2, … for the failed checks, then "form found" (INITIALIZING) or, after the third failure, "not found after 3 retries" (LOGIN FAILED) |
| LoginRetry.LoginFailedOnce | tls_visa_bot.py:588-592 | on exhaustion exactly three updates are recorded and exactly one of them, the last, is LOGIN FAILED; when the form appears none is |
| LoginRetry.CheckEvent | tls_visa_bot.py:581-594 | the update one check records is the first of the updates from that check on. The run ends with it when the form is there or the check was the last allowed one, and otherwise continues with the updates from the next check |
| LoginRetry.FormEventsWhenFound | tls_visa_bot.py:580-586 | when the form first appears at check k, k+1 checks are made and the updates are k retry updates followed by the "found" update |
| LoginRetry.FormEventsWhenExhausted | tls_visa_bot.py:587-592 | when no check finds the form, three checks are made and the updates are two retry updates followed by LOGIN FAILED |
| LoginRetry.ExhaustedLedger | tls_visa_bot.py:587-592 | after an exhausted wait the account's counter went up by three and its status is LOGIN FAILED. Its last error is the "not found" message. Its last history entry is that update, stamped with the third check's clock reading, which is also `last_updated` |
| LoginRetry.FoundLedger | tls_visa_bot.py:580-586 | after a successful wait the counter went up by the number of checks k and the status is INITIALIZING. The last history entry is the "found" update, stamped with the clock reading of check k, which is also `last_updated` |
| Bot.VisaBot.WaitForLoginForm | tls_visa_bot.py:576-596 | the loop reports the form found iff one of the first three checks finds it. It makes exactly the checks the rule above says, with one reload fewer than checks. The ledger afterwards is the old one with exactly the updates of LoginRetry.FormEvents recorded for the account, in order, the i-th stamped with the clock reading `clock(i)` taken at that update |
| Bot.VisaBot.CheckLoginForm | tls_visa_bot.py:581-594 | one pass of the loop reports whether the form is there and advances the retry count exactly on a miss. It records exactly that check's update (LoginRetry.CheckEvent) and keeps the ledger valid |
| Calendar.ClassifyCalendar | tls_visa_bot.py:839-852 | a missing calendar (or a query of the page that raises), a calendar without available dates and one with dates are told apart (each case iff its condition), and the date selected is the first available one |
| Calendar.CalendarFailure | tls_visa_bot.py:839-857 | no status is recorded iff a date exists and the click succeeds. No dates gives BOOKING FAILED. A missing calendar, or an exception at the click or the pause after it, gives CALENDAR ERROR. Every recorded status is an error status |
| Bot.VisaBot.CheckCalendar | tls_visa_bot.py:837-857 | a date is selected iff the calendar exists, has an available date and the click succeeds, and it is the first one. Otherwise the ledger gets exactly the failure update (with empty details), and on success it is unchanged |

## Left out

- The browser, Cloudflare handling, stealth scripts, human-like delays and
  typing, and every page interaction other than the login-form check and the
  calendar: they depend on a live site. The form checks are given as a
  sequence of answers, the calendar as an optional list of dates and the click
  as a boolean.
- Clock readings: `update_account_status` reads `datetime.now()` up to three
  times (tls_visa_bot.py:102, 122, 128). The model takes one reading per
  update, so within one update the creation time, the entry's timestamp and
  `last_updated` coincide. Separate updates take separate readings: the
  login-form wait is given a clock, one reading per update it records.
- File I/O: writing `account_history.json` is modelled by the ghost snapshot
  `persisted`. The JSON encoding, the booking results file and the alert log
  are not modelled.
- Logging calls and notifications: they have no effect on the ledger.
- The joined report text: the Report lemmas count elements of the list that
  `get_account_report` joins with newlines. Details or an error message that
  themselves contain a newline add lines to the joined text, which the model
  does not count.
- Bot.VisaBot.WaitForLoginForm: the exception raised after LOGIN FAILED is
  modelled as the result `found == false` rather than as control leaving the
  workflow.
- The wait inside the `start_workflow` method (tls_visa_bot.py:345-356)
  records no statuses. Its checks and reloads are the ones
  LoginRetry.ChecksMade counts, and it is not a separate member. The copy at
  tls_visa_bot.py:1155-1171 is the same loop as the one modelled.
- Python's dynamic typing: statuses are a closed datatype. A status string
  outside `AccountStatus` cannot be recorded, so code paths that name a status
  the class lacks are not part of this model.
- Workflow steps outside the login-form wait and the calendar check (country
  and city selection, forms, confirmation, payment) are not part of this
  model, and neither are the step transitions that assign `current_step`:
  the caller sets `currentStep`, and the members here only read it.

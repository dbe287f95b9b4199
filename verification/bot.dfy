/**
 * The bot object (`TLSVisaBot`) as far as its bookkeeping goes: the
 * account-history map it updates in place, the current step index that
 * stamps history entries, the snapshot written to `account_history.json`
 * after every update, and the two workflow rules that drive the ledger (the
 * login-form retry loop and the calendar check).
 */
module Bot {
  import opened Wrappers
  import opened Status
  import opened Text
  import opened Ledger
  import opened Report
  import opened LoginRetry
  import opened Calendar

  class VisaBot {
    /** `self.account_history`, keyed by e-mail. */
    var accountHistory: Accounts
    /**
     * `self.current_step`, the index into the step-label table. The workflow
     * sets it between steps; the members here only read it.
     */
    var currentStep: nat
    /** The content of `account_history.json`, rewritten whole after each update. */
    ghost var persisted: Accounts

    /**
     * The file holds the whole in-memory ledger, and every record agrees
     * with its own history.
     */
    ghost predicate Valid()
      reads this
    {
      persisted == accountHistory && AllConsistent(accountHistory)
    }

    constructor ()
      ensures Valid()
      ensures accountHistory == map[] && currentStep == 0
    {
      accountHistory := map[];
      currentStep := 0;
      persisted := map[];
    }

    /**
     * Records a status change of `email` at time `now`: creates the record on
     * first use, overwrites the status, counts the attempt, sets `success`
     * on a booking and `last_error` on an error status, appends a history
     * entry, then persists the whole ledger.
     */
    method UpdateAccountStatus(email: string, status: AccountStatus, details: string, now: string)
      requires Valid()
      modifies this
      ensures Valid()
      ensures currentStep == old(currentStep)
      ensures accountHistory == Record(old(accountHistory), email, Event(status, details), StepLabel(currentStep), now)
    {
      ghost var orig := accountHistory;
      ghost var prior := Lookup(orig, email);
      if email !in accountHistory {
        accountHistory := accountHistory[email := AccountRecord(status, [], now, 0, None, false)];
      }
      var account := accountHistory[email];
      assert account.history == PriorHistory(prior) && account.totalAttempts == PriorAttempts(prior);
      assert account.success == (prior.Some? && prior.value.success);
      assert account.lastError == if prior.Some? then prior.value.lastError else None;
      account := account.(status := status, totalAttempts := account.totalAttempts + 1);
      if status == Booked {
        account := account.(success := true);
      } else if IsErrorStatus(status) {
        account := account.(lastError := Some(details));
      }
      var entry := HistoryEntry(now, status, details, StepLabel(currentStep), account.totalAttempts);
      account := account.(history := account.history + [entry], lastUpdated := now);
      ghost var expected := Recorded(prior, Event(status, details), StepLabel(currentStep), now);
      assert account.history == expected.history;
      assert account == expected;
      accountHistory := accountHistory[email := account];
      assert accountHistory == Record(orig, email, Event(status, details), StepLabel(currentStep), now);
      RecordConsistent(orig, email, Event(status, details), StepLabel(currentStep), now);
      persisted := accountHistory;
    }

    /** The text report of one account, or the "no history" sentence for an unknown one. */
    function GetAccountReport(email: string): (report: string)
      reads this
      ensures email !in accountHistory ==> report == "No history found for account " + email
      ensures email in accountHistory ==> report == Join(ReportLines(email, accountHistory[email]), "\n")
    {
      if email !in accountHistory then "No history found for account " + email
      else Join(ReportLines(email, accountHistory[email]), "\n")
    }

    /**
     * The login-form wait of the authentication step. `checks` are the
     * page's answers to successive waits for the e-mail input, and
     * `clock(i)` is what `datetime.now()` reads during the update that check
     * i leads to. Returns whether the form was found (false:
     * `start_workflow` raises "Login form not found after retries"), how many
     * checks were made and how many reloads.
     */
    method WaitForLoginForm(email: string, checks: seq<bool>, clock: nat -> string) returns (found: bool, calls: nat, reloads: nat)
      requires Valid()
      modifies this
      ensures Valid()
      ensures currentStep == old(currentStep)
      ensures found == FormFound(checks)
      ensures calls == ChecksMade(checks) && reloads == calls - 1
      ensures accountHistory ==
        RecordAll(old(accountHistory), email, StampRun(FormEvents(checks, currentStep, 0), clock), StepLabel(currentStep))
    {
      ghost var step := currentStep;
      ghost var before := accountHistory;
      ghost var done: seq<Event> := [];
      found, calls, reloads := false, 0, 0;
      var retryCount := 0;
      while retryCount < MaxRetries && !found
        invariant Valid() && currentStep == step
        invariant 0 <= retryCount <= MaxRetries
        invariant MissedFirst(checks, retryCount)
        invariant accountHistory == RecordAll(before, email, StampRun(done, clock), StepLabel(step))
        invariant calls == |done|
        invariant !found && retryCount < MaxRetries ==>
          calls == reloads == retryCount && FormEvents(checks, step, 0) == done + FormEvents(checks, step, retryCount)
        invariant found ==> retryCount < MaxRetries && FormAppears(checks, retryCount)
        invariant found || retryCount == MaxRetries ==> reloads + 1 == calls && done == FormEvents(checks, step, 0)
        decreases MaxRetries - retryCount, if found then 0 else 1
      {
        var now := clock(calls);
        calls := calls + 1;
        ghost var ev := CheckEvent(checks, step, retryCount);
        FormEventsNext(checks, step, done, retryCount);
        found, retryCount := CheckLoginForm(email, checks, retryCount, now);
        AppendOne(before, email, StampRun(done, clock), Stamped(ev, now), StepLabel(step));
        StampRunAppend(done, ev, clock);
        done := done + [ev];
        if !found && retryCount < MaxRetries {
          // the pause and `page.reload()` before the next check
          reloads := reloads + 1;
        }
      }
      LoginFormEvents(checks, step);
      if !found {
        MissedFirstAll(checks, MaxRetries);
      }
    }

    /**
     * One pass of the wait: checks for the form and records "found",
     * "retrying" or, after the last allowed check, LOGIN FAILED (where
     * `start_workflow` then raises). Returns whether the form was there and the retry
     * count after the check.
     */
    method CheckLoginForm(email: string, checks: seq<bool>, retryCount: nat, now: string) returns (found: bool, next: nat)
      requires Valid() && retryCount < MaxRetries
      modifies this
      ensures Valid()
      ensures currentStep == old(currentStep)
      ensures found == FormAppears(checks, retryCount)
      ensures next == if found then retryCount else retryCount + 1
      ensures accountHistory ==
        Record(old(accountHistory), email, CheckEvent(checks, currentStep, retryCount), StepLabel(currentStep), now)
    {
      next := retryCount;
      if FormAppears(checks, retryCount) {
        found := true;
        UpdateAccountStatus(email, Init, FoundDetails(currentStep), now);
      } else {
        found := false;
        next := next + 1;
        if next == MaxRetries {
          UpdateAccountStatus(email, LoginFailed, NotFoundDetails(currentStep), now);
        } else {
          UpdateAccountStatus(email, Init, RetryDetails(currentStep, next), now);
        }
      }
    }

    /**
     * The calendar check of the booking step. Records CALENDAR ERROR when
     * there is no calendar or the click fails, BOOKING FAILED when no date
     * is available, and nothing when the first available date is chosen;
     * returns the chosen date.
     */
    method CheckCalendar<D>(email: string, calendar: Option<seq<D>>, clicked: bool, now: string) returns (selected: Option<D>)
      requires Valid()
      modifies this
      ensures Valid()
      ensures currentStep == old(currentStep)
      ensures selected.Some? <==> calendar.Some? && |calendar.value| > 0 && clicked
      ensures selected.Some? ==> selected.value == calendar.value[0]
      ensures var failure := CalendarFailure(ClassifyCalendar(calendar), clicked);
        accountHistory == if failure.Some?
          then Record(old(accountHistory), email, Event(failure.value, ""), StepLabel(currentStep), now)
          else old(accountHistory)
    {
      var outcome := ClassifyCalendar(calendar);
      match outcome
      case CalendarMissing =>
        UpdateAccountStatus(email, CalendarError, "", now);
        selected := None;
      case NoAvailableDates =>
        UpdateAccountStatus(email, BookingFailed, "", now);
        selected := None;
      case FirstAvailable(date) =>
        if clicked {
          selected := Some(date);
        } else {
          UpdateAccountStatus(email, CalendarError, "", now);
          selected := None;
        }
    }
  }

  /** Recording one more update extends a run by that update. */
  lemma AppendOne(accounts: Accounts, email: string, run: seq<Stamped>, call: Stamped, step: string)
    ensures RecordAll(accounts, email, run + [call], step) ==
      Record(RecordAll(accounts, email, run, step), email, call.event, step, call.time)
  {
    assert (run + [call])[..|run|] == run;
  }

}

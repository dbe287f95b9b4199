/**
 * The bounded wait for the login form inside `start_workflow`: at most
 * `max_retries` checks for the e-mail input, a reload between failed checks,
 * one ledger update per check, and a failure raised once on exhaustion.
 * This module specifies the checks made and the ledger updates recorded;
 * the loop itself is `Bot.VisaBot.WaitForLoginForm`.
 */
module LoginRetry {
  import opened Wrappers
  import opened Status
  import opened Text
  import opened Ledger

  const MaxRetries: nat := 3

  /**
   * Whether the check numbered `attempt` (from 0) found the login form. The
   * page's answers are given as a sequence; answers past its end read as
   * "not found".
   */
  predicate FormAppears(checks: seq<bool>, attempt: nat)
  {
    attempt < |checks| && checks[attempt]
  }

  /** Whether any of the allowed checks finds the form. */
  predicate FormFound(checks: seq<bool>)
  {
    exists i :: 0 <= i < MaxRetries && FormAppears(checks, i)
  }

  function FoundDetails(step: nat): string
  {
    "Step " + NatToString(step) + ": Login form found, starting authentication"
  }

  function NotFoundDetails(step: nat): string
  {
    "Step " + NatToString(step) + ": Login form not found after " + NatToString(MaxRetries) + " retries"
  }

  function RetryDetails(step: nat, retryCount: nat): string
  {
    "Step " + NatToString(step) + ": Retrying to find login form (attempt "
      + NatToString(retryCount) + "/" + NatToString(MaxRetries) + ")"
  }

  /** The first n checks all failed to find the form. */
  predicate MissedFirst(checks: seq<bool>, n: nat)
    decreases n
  {
    n == 0 || (!FormAppears(checks, n - 1) && MissedFirst(checks, n - 1))
  }

  /** `MissedFirst` says of every check below n that it failed. */
  lemma {:induction false} MissedFirstAll(checks: seq<bool>, n: nat)
    ensures MissedFirst(checks, n) <==> forall i :: 0 <= i < n ==> !FormAppears(checks, i)
    decreases n
  {
    if n > 0 {
      MissedFirstAll(checks, n - 1);
    }
  }

  /** The number of checks made from check `from` on: up to the first success, at most the limit. */
  function ChecksFrom(checks: seq<bool>, from: nat): nat
    requires from < MaxRetries
    decreases MaxRetries - from
  {
    if FormAppears(checks, from) || from + 1 == MaxRetries then from + 1 else ChecksFrom(checks, from + 1)
  }

  function ChecksMade(checks: seq<bool>): nat
  {
    ChecksFrom(checks, 0)
  }

  /** The ledger updates the loop makes from check `retryCount` on. */
  function FormEvents(checks: seq<bool>, step: nat, retryCount: nat): seq<Event>
    requires retryCount < MaxRetries
    decreases MaxRetries - retryCount
  {
    if FormAppears(checks, retryCount) then [Event(Init, FoundDetails(step))]
    else if retryCount + 1 == MaxRetries then [Event(LoginFailed, NotFoundDetails(step))]
    else [Event(Init, RetryDetails(step, retryCount + 1))] + FormEvents(checks, step, retryCount + 1)
  }

  /**
   * The update recorded by check `retryCount`: "found" when the form is
   * there, LOGIN FAILED when it is the last allowed check, "retrying" with
   * the new count otherwise. It heads the loop's updates from that check on,
   * and the loop goes on to the next check exactly when it was a retry.
   */
  function CheckEvent(checks: seq<bool>, step: nat, retryCount: nat): (ev: Event)
    requires retryCount < MaxRetries
    ensures FormAppears(checks, retryCount) || retryCount + 1 == MaxRetries ==>
      FormEvents(checks, step, retryCount) == [ev]
    ensures !FormAppears(checks, retryCount) && retryCount + 1 < MaxRetries ==>
      FormEvents(checks, step, retryCount) == [ev] + FormEvents(checks, step, retryCount + 1)
  {
    if FormAppears(checks, retryCount) then Event(Init, FoundDetails(step))
    else if retryCount + 1 == MaxRetries then Event(LoginFailed, NotFoundDetails(step))
    else Event(Init, RetryDetails(step, retryCount + 1))
  }

  /**
   * The loop's bookkeeping across one check: if the updates so far followed
   * by those from check `retryCount` on make up the whole run, then after
   * recording that check's update the same holds from the next check on.
   */
  lemma FormEventsNext(checks: seq<bool>, step: nat, done: seq<Event>, retryCount: nat)
    requires retryCount < MaxRetries
    requires FormEvents(checks, step, 0) == done + FormEvents(checks, step, retryCount)
    ensures FormAppears(checks, retryCount) || retryCount + 1 == MaxRetries ==>
      FormEvents(checks, step, 0) == done + [CheckEvent(checks, step, retryCount)]
    ensures !FormAppears(checks, retryCount) && retryCount + 1 < MaxRetries ==>
      FormEvents(checks, step, 0) == done + [CheckEvent(checks, step, retryCount)] + FormEvents(checks, step, retryCount + 1)
  {
    var ev := CheckEvent(checks, step, retryCount);
    if !FormAppears(checks, retryCount) && retryCount + 1 < MaxRetries {
      var rest := FormEvents(checks, step, retryCount + 1);
      assert done + ([ev] + rest) == (done + [ev]) + rest;
    }
  }

  /** The "retrying" updates recorded for the first n failed checks. */
  function RetryEvents(step: nat, n: nat): seq<Event>
    decreases n
  {
    if n == 0 then [] else RetryEvents(step, n - 1) + [Event(Init, RetryDetails(step, n))]
  }

  /** The number of updates in `evs` with the given status. */
  function CountStatus(evs: seq<Event>, s: AccountStatus): nat
    decreases |evs|
  {
    if evs == [] then 0 else (if evs[0].status == s then 1 else 0) + CountStatus(evs[1..], s)
  }

  /**
   * The shape of the updates from check `from` on, when the checks before it
   * all failed: one retry update per further failed check, then exactly one
   * closing update ("found" or the final LOGIN FAILED), as many updates as
   * checks, and the count of checks stops at the first success.
   */
  lemma {:induction false} FormEventsFrom(checks: seq<bool>, step: nat, from: nat)
    requires from < MaxRetries
    ensures
      var evs := FormEvents(checks, step, from);
      var k := ChecksFrom(checks, from);
      && from < k <= MaxRetries
      && |evs| == k - from
      && (forall i :: from <= i < k - 1 ==> !FormAppears(checks, i))
      && (forall i :: 0 <= i < k - 1 - from ==> evs[i] == Event(Init, RetryDetails(step, from + i + 1)))
      && (if FormAppears(checks, k - 1)
          then evs[k - 1 - from] == Event(Init, FoundDetails(step))
          else k == MaxRetries && evs[k - 1 - from] == Event(LoginFailed, NotFoundDetails(step)))
    decreases MaxRetries - from
  {
    if !FormAppears(checks, from) && from + 1 < MaxRetries {
      FormEventsFrom(checks, step, from + 1);
      var evs := FormEvents(checks, step, from);
      var rest := FormEvents(checks, step, from + 1);
      assert evs == [Event(Init, RetryDetails(step, from + 1))] + rest;
      forall i | 0 < i < ChecksFrom(checks, from) - 1 - from
        ensures evs[i] == Event(Init, RetryDetails(step, from + i + 1))
      {
        assert evs[i] == rest[i - 1];
      }
    }
  }

  /**
   * The updates of one whole loop: success at check k gives k-1 "retrying"
   * updates then one "found" update; three failures give two "retrying"
   * updates then LOGIN FAILED. One update per check, never more than three.
   */
  lemma LoginFormEvents(checks: seq<bool>, step: nat)
    ensures
      var evs := FormEvents(checks, step, 0);
      var k := ChecksMade(checks);
      && 1 <= k <= MaxRetries
      && |evs| == k
      && evs[..k - 1] == RetryEvents(step, k - 1)
      && (FormFound(checks) ==> FormAppears(checks, k - 1) && evs[k - 1] == Event(Init, FoundDetails(step)))
      && (FormFound(checks) ==> forall i :: 0 <= i < k - 1 ==> !FormAppears(checks, i))
      && (!FormFound(checks) ==> k == MaxRetries && evs[k - 1] == Event(LoginFailed, NotFoundDetails(step)))
  {
    var evs := FormEvents(checks, step, 0);
    var k := ChecksMade(checks);
    FormEventsFrom(checks, step, 0);
    RetryPrefix(step, k - 1, evs);
    if !FormAppears(checks, k - 1) {
      assert !FormFound(checks);
    }
  }

  /** A sequence whose first n updates are the retry updates 1..n starts with `RetryEvents(step, n)`. */
  lemma {:induction false} RetryPrefix(step: nat, n: nat, evs: seq<Event>)
    requires n <= |evs|
    requires forall i :: 0 <= i < n ==> evs[i] == Event(Init, RetryDetails(step, i + 1))
    ensures evs[..n] == RetryEvents(step, n)
    decreases n
  {
    if n > 0 {
      RetryPrefix(step, n - 1, evs);
      assert evs[..n] == evs[..n - 1] + [evs[n - 1]];
    }
  }

  /**
   * When the form is never found, the loop records LOGIN FAILED exactly once
   * (the one raise), as its third and last update; when it is found, it
   * records LOGIN FAILED never.
   */
  lemma LoginFailedOnce(checks: seq<bool>, step: nat)
    ensures !FormFound(checks) ==>
      var evs := FormEvents(checks, step, 0);
      |evs| == MaxRetries && evs[MaxRetries - 1].status == LoginFailed && CountStatus(evs, LoginFailed) == 1
    ensures FormFound(checks) ==> CountStatus(FormEvents(checks, step, 0), LoginFailed) == 0
  {
    var evs := FormEvents(checks, step, 0);
    LoginFormEvents(checks, step);
    var k := ChecksMade(checks);
    RetryEventsCount(step, k - 1);
    assert evs == evs[..k - 1] + [evs[k - 1]];
    CountStatusAppend(evs[..k - 1], [evs[k - 1]], LoginFailed);
  }

  lemma {:induction false} RetryEventsCount(step: nat, n: nat)
    ensures CountStatus(RetryEvents(step, n), LoginFailed) == 0
    decreases n
  {
    if n > 0 {
      RetryEventsCount(step, n - 1);
      CountStatusAppend(RetryEvents(step, n - 1), [Event(Init, RetryDetails(step, n))], LoginFailed);
    }
  }

  lemma {:induction false} CountStatusAppend(a: seq<Event>, b: seq<Event>, s: AccountStatus)
    ensures CountStatus(a + b, s) == CountStatus(a, s) + CountStatus(b, s)
    decreases |a|
  {
    if a == [] {
      assert a + b == b;
    } else {
      CountStatusAppend(a[1..], b, s);
      assert (a + b)[1..] == a[1..] + b;
    }
  }

  /** After n failed checks, the loop's updates are the n retry updates followed by those from check n on. */
  lemma {:induction false} FormEventsAfterRetries(checks: seq<bool>, step: nat, n: nat)
    requires n < MaxRetries
    requires forall i :: 0 <= i < n ==> !FormAppears(checks, i)
    ensures FormEvents(checks, step, 0) == RetryEvents(step, n) + FormEvents(checks, step, n)
    decreases n
  {
    if n > 0 {
      FormEventsAfterRetries(checks, step, n - 1);
      assert FormEvents(checks, step, n - 1) == [Event(Init, RetryDetails(step, n))] + FormEvents(checks, step, n);
    }
  }

  /** When check k is the first to find the form, k + 1 checks are made and the updates are k retries then "found". */
  lemma FormEventsWhenFound(checks: seq<bool>, step: nat, k: nat)
    requires k < MaxRetries && FormAppears(checks, k)
    requires forall i :: 0 <= i < k ==> !FormAppears(checks, i)
    ensures FormFound(checks) && ChecksMade(checks) == k + 1
    ensures FormEvents(checks, step, 0) == RetryEvents(step, k) + [Event(Init, FoundDetails(step))]
  {
    FormEventsAfterRetries(checks, step, k);
    FormEventsFrom(checks, step, 0);
  }

  /** When no allowed check finds the form, all are made and the updates are two retries then LOGIN FAILED. */
  lemma FormEventsWhenExhausted(checks: seq<bool>, step: nat)
    requires forall i :: 0 <= i < MaxRetries ==> !FormAppears(checks, i)
    ensures !FormFound(checks) && ChecksMade(checks) == MaxRetries
    ensures FormEvents(checks, step, 0) == RetryEvents(step, MaxRetries - 1) + [Event(LoginFailed, NotFoundDetails(step))]
  {
    FormEventsAfterRetries(checks, step, MaxRetries - 1);
    FormEventsFrom(checks, step, 0);
  }

  /**
   * What the ledger holds once the form was never found, the i-th update
   * stamped with the i-th clock reading: the account's counter went up by
   * exactly three, its status is LOGIN FAILED, its last error is the "not
   * found" message, and the history ends with that update, stamped with the
   * third reading.
   */
  lemma ExhaustedLedger(accounts: Accounts, email: string, checks: seq<bool>, step: nat, stepName: string, clock: nat -> string)
    requires !FormFound(checks)
    ensures email in RecordAll(accounts, email, StampRun(FormEvents(checks, step, 0), clock), stepName)
    ensures
      var r := RecordAll(accounts, email, StampRun(FormEvents(checks, step, 0), clock), stepName)[email];
      && r.totalAttempts == PriorAttempts(Lookup(accounts, email)) + MaxRetries
      && r.status == LoginFailed
      && r.lastError == Some(NotFoundDetails(step))
      && r.lastUpdated == clock(MaxRetries - 1)
      && r.history[|r.history| - 1] ==
         HistoryEntry(clock(MaxRetries - 1), LoginFailed, NotFoundDetails(step), stepName, r.totalAttempts)
  {
    var evs := FormEvents(checks, step, 0);
    var run := StampRun(evs, clock);
    LoginFormEvents(checks, step);
    RecordAllAt(accounts, email, run, stepName);
    var prior := Lookup(accounts, email);
    RecordedAllGrows(prior, run, stepName);
    RecordedAllEntries(prior, run, stepName, |run| - 1);
    RecordedAllLastError(prior, run, stepName);
    assert run[|run| - 1].event.status == LoginFailed;
  }

  /**
   * What the ledger holds once the form was found at check k, the i-th
   * update stamped with the i-th clock reading: the counter went up by k,
   * the status is INITIALIZING, and the history ends with the "found"
   * update, stamped with the k-th reading.
   */
  lemma FoundLedger(accounts: Accounts, email: string, checks: seq<bool>, step: nat, stepName: string, clock: nat -> string)
    requires FormFound(checks)
    ensures email in RecordAll(accounts, email, StampRun(FormEvents(checks, step, 0), clock), stepName)
    ensures
      var r := RecordAll(accounts, email, StampRun(FormEvents(checks, step, 0), clock), stepName)[email];
      && r.totalAttempts == PriorAttempts(Lookup(accounts, email)) + ChecksMade(checks)
      && r.status == Init
      && r.lastUpdated == clock(ChecksMade(checks) - 1)
      && r.history[|r.history| - 1] ==
         HistoryEntry(clock(ChecksMade(checks) - 1), Init, FoundDetails(step), stepName, r.totalAttempts)
  {
    var evs := FormEvents(checks, step, 0);
    var run := StampRun(evs, clock);
    LoginFormEvents(checks, step);
    RecordAllAt(accounts, email, run, stepName);
    var prior := Lookup(accounts, email);
    RecordedAllGrows(prior, run, stepName);
    RecordedAllEntries(prior, run, stepName, |run| - 1);
  }
}

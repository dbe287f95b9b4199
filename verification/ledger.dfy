/**
 * The per-account status ledger kept by `TLSVisaBot.update_account_status`:
 * a map from account e-mail to an aggregate record whose history list only
 * grows. This module holds the values and the pure specification of one
 * update and of a run of updates; the class in module Bot applies them in
 * place.
 */
module Ledger {
  import opened Wrappers
  import opened Status

  /** One entry of an account's `history` list. */
  datatype HistoryEntry = HistoryEntry(
    timestamp: string,
    status: AccountStatus,
    details: string,
    step: string,
    attempt: nat)

  /** The record stored under one e-mail in `account_history`. */
  datatype AccountRecord = AccountRecord(
    status: AccountStatus,
    history: seq<HistoryEntry>,
    lastUpdated: string,
    totalAttempts: nat,
    lastError: Option<string>,
    success: bool)

  /** The arguments of one `update_account_status` call besides the e-mail. */
  datatype Event = Event(status: AccountStatus, details: string)

  /** The whole ledger, keyed by e-mail. */
  type Accounts = map<string, AccountRecord>

  function Lookup(accounts: Accounts, email: string): (r: Option<AccountRecord>)
    ensures r.Some? <==> email in accounts
    ensures r.Some? ==> r.value == accounts[email]
  {
    if email in accounts then Some(accounts[email]) else None
  }

  /** The history before an update: empty for an account seen for the first time. */
  function PriorHistory(prior: Option<AccountRecord>): seq<HistoryEntry>
  {
    if prior.Some? then prior.value.history else []
  }

  /** The attempt counter before an update: 0 for an account seen for the first time. */
  function PriorAttempts(prior: Option<AccountRecord>): nat
  {
    if prior.Some? then prior.value.totalAttempts else 0
  }

  /**
   * The record after one update of an account whose record was `prior`
   * (None: no record yet), made while the bot was at the step labelled
   * `step`, at time `now`.
   */
  function Recorded(prior: Option<AccountRecord>, ev: Event, step: string, now: string): AccountRecord
  {
    var base := if prior.Some? then prior.value else AccountRecord(ev.status, [], now, 0, None, false);
    var attempt := base.totalAttempts + 1;
    var entry := HistoryEntry(now, ev.status, ev.details, step, attempt);
    AccountRecord(
      ev.status,
      base.history + [entry],
      now,
      attempt,
      if IsErrorStatus(ev.status) then Some(ev.details) else base.lastError,
      base.success || ev.status == Booked)
  }

  /**
   * One update: the status is overwritten, the counter goes up by one,
   * exactly one entry is appended (earlier ones kept) carrying the call's
   * status and details, the step label and the new counter; `success`
   * becomes true on a booking and otherwise keeps its value; `last_error`
   * takes the details on an error status and otherwise keeps its value.
   */
  lemma RecordedUpdate(prior: Option<AccountRecord>, ev: Event, step: string, now: string)
    ensures
      var r := Recorded(prior, ev, step, now);
      && r.status == ev.status
      && r.totalAttempts == PriorAttempts(prior) + 1
      && |r.history| == |PriorHistory(prior)| + 1
      && r.history[..|PriorHistory(prior)|] == PriorHistory(prior)
      && r.history[|r.history| - 1] == HistoryEntry(now, ev.status, ev.details, step, r.totalAttempts)
      && r.lastUpdated == now
      && (r.success <==> ev.status == Booked || (prior.Some? && prior.value.success))
      && r.lastError == (if IsErrorStatus(ev.status) then Some(ev.details)
                         else if prior.Some? then prior.value.lastError else None)
  {
    var r := Recorded(prior, ev, step, now);
    assert r.history[..|PriorHistory(prior)|] == PriorHistory(prior);
  }

  /** The whole ledger after one update of `email`. */
  function Record(accounts: Accounts, email: string, ev: Event, step: string, now: string): Accounts
  {
    accounts[email := Recorded(Lookup(accounts, email), ev, step, now)]
  }

  /**
   * One call of `update_account_status` in a run of calls: its arguments and
   * the clock reading (`datetime.now()`) that stamps what it records.
   */
  datatype Stamped = Stamped(event: Event, time: string)

  /** The calls `evs`, the i-th stamped with the i-th clock reading. */
  function StampRun(evs: seq<Event>, clock: nat -> string): (run: seq<Stamped>)
    ensures |run| == |evs|
    ensures forall i :: 0 <= i < |evs| ==> run[i].event == evs[i] && run[i].time == clock(i)
  {
    seq(|evs|, i requires 0 <= i < |evs| => Stamped(evs[i], clock(i)))
  }

  /** Stamping one more call extends the stamped run by that call and the next reading. */
  lemma StampRunAppend(evs: seq<Event>, ev: Event, clock: nat -> string)
    ensures StampRun(evs + [ev], clock) == StampRun(evs, clock) + [Stamped(ev, clock(|evs|))]
  {
    var a, b := StampRun(evs + [ev], clock), StampRun(evs, clock) + [Stamped(ev, clock(|evs|))];
    assert forall i :: 0 <= i < |a| ==> a[i] == b[i];
  }

  /** The whole ledger after a run of updates of `email`, oldest first. */
  function RecordAll(accounts: Accounts, email: string, run: seq<Stamped>, step: string): Accounts
    decreases |run|
  {
    if run == [] then accounts
    else
      var last := run[|run| - 1];
      Record(RecordAll(accounts, email, run[..|run| - 1], step), email, last.event, step, last.time)
  }

  /** True when some entry of `h` records a successful booking. */
  predicate EverBooked(h: seq<HistoryEntry>)
  {
    exists i :: 0 <= i < |h| && h[i].status == Booked
  }

  /** The details of the latest entry of `h` with an error status, if any. */
  function LastErrorIn(h: seq<HistoryEntry>): Option<string>
    decreases |h|
  {
    if h == [] then None
    else if IsErrorStatus(h[|h| - 1].status) then Some(h[|h| - 1].details)
    else LastErrorIn(h[..|h| - 1])
  }

  /**
   * What a record looks like once at least one update made it: its summary
   * fields are those its history determines. The counter equals the number
   * of entries, entries are numbered 1..n in order, the current status is
   * the latest entry's, `success` holds iff some entry is a booking, and
   * `last_error` is the details of the latest error entry.
   */
  predicate Consistent(r: AccountRecord)
  {
    && |r.history| > 0
    && r.totalAttempts == |r.history|
    && (forall i :: 0 <= i < |r.history| ==> r.history[i].attempt == i + 1)
    && r.status == r.history[|r.history| - 1].status
    && r.lastUpdated == r.history[|r.history| - 1].timestamp
    && r.success == EverBooked(r.history)
    && r.lastError == LastErrorIn(r.history)
  }

  predicate AllConsistent(accounts: Accounts)
  {
    forall email {:trigger Consistent(accounts[email])} :: email in accounts ==> Consistent(accounts[email])
  }

  /** One update keeps a record consistent with its history, and makes a new one consistent. */
  lemma RecordedConsistent(prior: Option<AccountRecord>, ev: Event, step: string, now: string)
    requires prior.Some? ==> Consistent(prior.value)
    ensures Consistent(Recorded(prior, ev, step, now))
  {
    RecordedUpdate(prior, ev, step, now);
    var r := Recorded(prior, ev, step, now);
    var h := PriorHistory(prior);
    assert r.history == h + [r.history[|h|]];
    assert r.history[..|h|] == h;
    if ev.status == Booked {
      assert r.history[|h|].status == Booked;
    } else if EverBooked(r.history) {
      var i :| 0 <= i < |r.history| && r.history[i].status == Booked;
      assert i < |h| && h[i].status == Booked;
    }
  }

  /** One update keeps every record of the ledger consistent. */
  lemma RecordConsistent(accounts: Accounts, email: string, ev: Event, step: string, now: string)
    requires AllConsistent(accounts)
    ensures AllConsistent(Record(accounts, email, ev, step, now))
  {
    RecordedConsistent(Lookup(accounts, email), ev, step, now);
  }

  /** A run of updates of one account leaves every other account's record as it was. */
  lemma {:induction false} RecordAllOthersUnchanged(accounts: Accounts, email: string, run: seq<Stamped>, step: string)
    ensures RecordAll(accounts, email, run, step) - {email} == accounts - {email}
    ensures email in RecordAll(accounts, email, run, step) <==> email in accounts || run != []
    decreases |run|
  {
    if run != [] {
      RecordAllOthersUnchanged(accounts, email, run[..|run| - 1], step);
    }
  }

  /** The record of one account after a run of updates of it, oldest first. */
  function RecordedAll(prior: Option<AccountRecord>, run: seq<Stamped>, step: string): (r: Option<AccountRecord>)
    ensures r.Some? <==> prior.Some? || run != []
    decreases |run|
  {
    if run == [] then prior
    else
      var last := run[|run| - 1];
      Some(Recorded(RecordedAll(prior, run[..|run| - 1], step), last.event, step, last.time))
  }

  /** The ledger-level run and the record-level run agree on the updated account. */
  lemma {:induction false} RecordAllAt(accounts: Accounts, email: string, run: seq<Stamped>, step: string)
    ensures Lookup(RecordAll(accounts, email, run, step), email) == RecordedAll(Lookup(accounts, email), run, step)
    decreases |run|
  {
    if run != [] {
      RecordAllAt(accounts, email, run[..|run| - 1], step);
    }
  }

  /**
   * A run of n updates of one account raises its counter by n, appends
   * exactly n entries and leaves the earlier entries as they were; the
   * current status and the time of the last update are the last call's.
   */
  lemma {:induction false} RecordedAllGrows(prior: Option<AccountRecord>, run: seq<Stamped>, step: string)
    requires run != []
    ensures
      var r := RecordedAll(prior, run, step).value;
      && r.totalAttempts == PriorAttempts(prior) + |run|
      && |r.history| == |PriorHistory(prior)| + |run|
      && r.history[..|PriorHistory(prior)|] == PriorHistory(prior)
      && r.status == run[|run| - 1].event.status
      && r.lastUpdated == run[|run| - 1].time
    decreases |run|
  {
    var init := run[..|run| - 1];
    if init != [] {
      RecordedAllGrows(prior, init, step);
      var mid := RecordedAll(prior, init, step).value;
      var r := RecordedAll(prior, run, step).value;
      var n := |PriorHistory(prior)|;
      assert r.history[..|mid.history|] == mid.history;
      assert r.history[..n] == mid.history[..n];
    }
  }

  /**
   * The entries a run of updates appends carry, in call order, each call's
   * clock reading, status and details, the step label, and attempt numbers
   * counting on from the previous counter.
   */
  lemma {:induction false} RecordedAllEntries(prior: Option<AccountRecord>, run: seq<Stamped>, step: string, i: nat)
    requires i < |run|
    ensures
      var r := RecordedAll(prior, run, step).value;
      && |PriorHistory(prior)| + i < |r.history|
      && r.history[|PriorHistory(prior)| + i] ==
         HistoryEntry(run[i].time, run[i].event.status, run[i].event.details, step, PriorAttempts(prior) + i + 1)
    decreases |run|
  {
    if i + 1 == |run| {
      RecordedAllLast(prior, run, step);
    } else {
      var init := run[..|run| - 1];
      RecordedAllEntries(prior, init, step, i);
      RecordedAllKeeps(prior, run, step, i);
      assert init[i] == run[i];
    }
  }

  /** The entry the last call of a run appends: its clock reading, status and details, numbered on. */
  lemma RecordedAllLast(prior: Option<AccountRecord>, run: seq<Stamped>, step: string)
    requires run != []
    ensures
      var r := RecordedAll(prior, run, step).value;
      var last := run[|run| - 1];
      && |r.history| == |PriorHistory(prior)| + |run|
      && r.history[|r.history| - 1] ==
         HistoryEntry(last.time, last.event.status, last.event.details, step, PriorAttempts(prior) + |run|)
  {
    var init := run[..|run| - 1];
    var last := run[|run| - 1];
    var mid := RecordedAll(prior, init, step);
    RecordedUpdate(mid, last.event, step, last.time);
    if init != [] {
      RecordedAllGrows(prior, init, step);
    }
  }

  /** The last call of a run leaves the entries of the earlier calls where they were. */
  lemma RecordedAllKeeps(prior: Option<AccountRecord>, run: seq<Stamped>, step: string, i: nat)
    requires i + 1 < |run|
    ensures
      var r := RecordedAll(prior, run, step).value;
      var mid := RecordedAll(prior, run[..|run| - 1], step).value;
      && |PriorHistory(prior)| + i < |mid.history| <= |r.history|
      && r.history[|PriorHistory(prior)| + i] == mid.history[|PriorHistory(prior)| + i]
  {
    var init := run[..|run| - 1];
    var last := run[|run| - 1];
    var mid := RecordedAll(prior, init, step);
    RecordedUpdate(mid, last.event, step, last.time);
    RecordedAllGrows(prior, init, step);
    var r := RecordedAll(prior, run, step).value;
    assert r.history[..|mid.value.history|] == mid.value.history;
  }

  /**
   * For an account with no record yet, n updates give a record whose counter
   * and history length are both n and whose entries are numbered 1..n and
   * carry the clock readings, statuses and details of the calls in order.
   */
  lemma FreshAccountHistory(accounts: Accounts, email: string, run: seq<Stamped>, step: string)
    requires email !in accounts && run != []
    ensures email in RecordAll(accounts, email, run, step)
    ensures
      var r := RecordAll(accounts, email, run, step)[email];
      && r.totalAttempts == |r.history| == |run|
      && forall i :: 0 <= i < |run| ==>
           r.history[i] == HistoryEntry(run[i].time, run[i].event.status, run[i].event.details, step, i + 1)
  {
    RecordAllAt(accounts, email, run, step);
    var r := RecordedAll(None, run, step).value;
    assert Lookup(accounts, email) == None;
    FreshRecordEntries(run, step);
  }

  /** The record-level half of `FreshAccountHistory`. */
  lemma FreshRecordEntries(run: seq<Stamped>, step: string)
    requires run != []
    ensures
      var r := RecordedAll(None, run, step).value;
      && r.totalAttempts == |r.history| == |run|
      && forall i :: 0 <= i < |run| ==>
           r.history[i] == HistoryEntry(run[i].time, run[i].event.status, run[i].event.details, step, i + 1)
  {
    RecordedAllGrows(None, run, step);
    var r := RecordedAll(None, run, step).value;
    forall i | 0 <= i < |run|
      ensures r.history[i] == HistoryEntry(run[i].time, run[i].event.status, run[i].event.details, step, i + 1)
    {
      RecordedAllEntries(None, run, step, i);
    }
  }

  /**
   * After a run of updates, the success flag is set iff it was already set
   * or one of the updates was a booking: once true it never goes back.
   */
  lemma {:induction false} RecordedAllSuccess(prior: Option<AccountRecord>, run: seq<Stamped>, step: string)
    requires run != []
    ensures RecordedAll(prior, run, step).value.success <==>
      (prior.Some? && prior.value.success) || exists i :: 0 <= i < |run| && run[i].event.status == Booked
    decreases |run|
  {
    var init := run[..|run| - 1];
    if init != [] {
      RecordedAllSuccess(prior, init, step);
      if exists i :: 0 <= i < |init| && init[i].event.status == Booked {
        var i :| 0 <= i < |init| && init[i].event.status == Booked;
        assert run[i].event.status == Booked;
      }
      if exists i :: 0 <= i < |run| && run[i].event.status == Booked {
        var i :| 0 <= i < |run| && run[i].event.status == Booked;
        if i < |init| {
          assert init[i].event.status == Booked;
        }
      }
    }
  }

  /** Reference definition: the last error details a run of updates leaves behind. */
  function LastErrorEvent(prior: Option<AccountRecord>, run: seq<Stamped>): Option<string>
    decreases |run|
  {
    if run == [] then (if prior.Some? then prior.value.lastError else None)
    else if IsErrorStatus(run[|run| - 1].event.status) then Some(run[|run| - 1].event.details)
    else LastErrorEvent(prior, run[..|run| - 1])
  }

  /**
   * After a run of updates, `last_error` holds the details of the latest
   * update with an error status, or what it held before when there was none.
   */
  lemma {:induction false} RecordedAllLastError(prior: Option<AccountRecord>, run: seq<Stamped>, step: string)
    requires run != []
    ensures RecordedAll(prior, run, step).value.lastError == LastErrorEvent(prior, run)
    decreases |run|
  {
    var init := run[..|run| - 1];
    if init != [] {
      RecordedAllLastError(prior, init, step);
    }
  }
}

/**
 * The text rendering of one account's record (`get_account_report`), as the
 * list of lines that function joins with newlines, and what that list shows.
 */
module Report {
  import opened Wrappers
  import opened Status
  import opened Text
  import opened Ledger

  /** Python truthiness of `last_error`: None and the empty string are both false. */
  predicate ErrorShown(lastError: Option<string>)
  {
    lastError.Some? && lastError.value != ""
  }

  /** The lines rendered for one history entry. */
  function EntryLines(e: HistoryEntry): seq<string>
  {
    ["\n[" + e.timestamp + "]",
     "Attempt #" + NatToString(e.attempt),
     "Status: " + Label(e.status),
     "Step: " + e.step]
    + (if e.details != "" then ["Details: " + e.details] else [])
  }

  /** The blocks `block` renders for each of `xs`, concatenated in order. */
  function Blocks<T>(block: T -> seq<string>, xs: seq<T>): seq<string>
    decreases |xs|
  {
    if xs == [] then [] else block(xs[0]) + Blocks(block, xs[1..])
  }

  /** The lines rendered for a history, entry by entry in order. */
  function HistoryLines(h: seq<HistoryEntry>): seq<string>
  {
    Blocks(EntryLines, h)
  }

  /** The five summary lines every report starts with. */
  function HeaderLines(email: string, r: AccountRecord): seq<string>
  {
    ["Account Report for " + email,
     "Current Status: " + Label(r.status),
     "Total Attempts: " + NatToString(r.totalAttempts),
     "Last Updated: " + r.lastUpdated,
     "Success: " + (if r.success then "Yes" else "No")]
  }

  /** The "Last Error" line, present only when `last_error` is truthy. */
  function ErrorLines(r: AccountRecord): seq<string>
  {
    if ErrorShown(r.lastError) then ["Last Error: " + r.lastError.value] else []
  }

  /** All lines of the report for an account that has a record. */
  function ReportLines(email: string, r: AccountRecord): seq<string>
  {
    HeaderLines(email, r) + ErrorLines(r) + ["\nDetailed History:"] + HistoryLines(r.history)
  }

  /** The number of lines that start with `p`. */
  function CountPrefixed(lines: seq<string>, p: string): nat
    decreases |lines|
  {
    if lines == [] then 0
    else Hit(lines[0], p) + CountPrefixed(lines[1..], p)
  }

  /** 1 when `line` starts with `p`, else 0. */
  function Hit(line: string, p: string): nat
  {
    if p <= line then 1 else 0
  }

  /** The number of entries whose details are non-empty. */
  function CountDetailed(h: seq<HistoryEntry>): nat
    decreases |h|
  {
    if h == [] then 0 else (if h[0].details != "" then 1 else 0) + CountDetailed(h[1..])
  }

  /** A line made of `q` followed by anything does not start with `p` when they differ at `k`. */
  lemma NotPrefix(p: string, q: string, rest: string, k: nat)
    requires k < |p| && k < |q| && p[k] != q[k]
    ensures !(p <= q + rest)
  {
    assert (q + rest)[k] == q[k];
  }

  /** Counting prefixed lines distributes over concatenation. */
  lemma {:induction false} CountPrefixedAppend(a: seq<string>, b: seq<string>, p: string)
    ensures CountPrefixed(a + b, p) == CountPrefixed(a, p) + CountPrefixed(b, p)
    decreases |a|
  {
    if a == [] {
      assert a + b == b;
    } else {
      CountPrefixedAppend(a[1..], b, p);
      assert (a + b)[1..] == a[1..] + b;
    }
  }

  /** Rendering blocks distributes over concatenation. */
  lemma {:induction false} BlocksAppend<T>(block: T -> seq<string>, a: seq<T>, b: seq<T>)
    ensures Blocks(block, a + b) == Blocks(block, a) + Blocks(block, b)
    decreases |a|
  {
    if a == [] {
      assert a + b == b;
    } else {
      BlocksAppend(block, a[1..], b);
      assert (a + b)[0] == a[0] && (a + b)[1..] == a[1..] + b;
    }
  }

  /** The rendering of a history is the renderings of its parts, in order. */
  lemma HistoryLinesAppend(a: seq<HistoryEntry>, b: seq<HistoryEntry>)
    ensures HistoryLines(a + b) == HistoryLines(a) + HistoryLines(b)
  {
    BlocksAppend(EntryLines, a, b);
  }

  lemma CountCons(x: string, rest: seq<string>, p: string)
    ensures CountPrefixed([x] + rest, p) == Hit(x, p) + CountPrefixed(rest, p)
  {
    assert ([x] + rest)[1..] == rest;
  }

  /** How many lines of one entry's block, followed by `rest`, start with `p`. */
  lemma EntryCount(e: HistoryEntry, rest: seq<string>, p: string)
    ensures CountPrefixed(EntryLines(e) + rest, p) ==
      Hit("\n[" + e.timestamp + "]", p) + Hit("Attempt #" + NatToString(e.attempt), p)
      + Hit("Status: " + Label(e.status), p) + Hit("Step: " + e.step, p)
      + (if e.details != "" then Hit("Details: " + e.details, p) else 0)
      + CountPrefixed(rest, p)
  {
    var l1, l2, l3, l4 := "\n[" + e.timestamp + "]", "Attempt #" + NatToString(e.attempt),
                          "Status: " + Label(e.status), "Step: " + e.step;
    var d := if e.details != "" then ["Details: " + e.details] else [];
    assert EntryLines(e) + rest == [l1] + ([l2] + ([l3] + ([l4] + (d + rest))));
    CountCons(l1, [l2] + ([l3] + ([l4] + (d + rest))), p);
    CountCons(l2, [l3] + ([l4] + (d + rest)), p);
    CountCons(l3, [l4] + (d + rest), p);
    CountCons(l4, d + rest, p);
    if e.details != "" {
      CountCons("Details: " + e.details, rest, p);
    } else {
      assert d + rest == rest;
    }
  }

  /** How many lines of the summary lines, followed by `rest`, start with `p`. */
  lemma HeaderCount(email: string, r: AccountRecord, rest: seq<string>, p: string)
    ensures CountPrefixed(HeaderLines(email, r) + rest, p) ==
      Hit("Account Report for " + email, p) + Hit("Current Status: " + Label(r.status), p)
      + Hit("Total Attempts: " + NatToString(r.totalAttempts), p) + Hit("Last Updated: " + r.lastUpdated, p)
      + Hit("Success: " + (if r.success then "Yes" else "No"), p)
      + CountPrefixed(rest, p)
  {
    var h := HeaderLines(email, r);
    assert h + rest == [h[0]] + ([h[1]] + ([h[2]] + ([h[3]] + ([h[4]] + rest))));
    CountCons(h[0], [h[1]] + ([h[2]] + ([h[3]] + ([h[4]] + rest))), p);
    CountCons(h[1], [h[2]] + ([h[3]] + ([h[4]] + rest)), p);
    CountCons(h[2], [h[3]] + ([h[4]] + rest), p);
    CountCons(h[3], [h[4]] + rest, p);
    CountCons(h[4], rest, p);
  }

  /** How many lines of a report start with `p`, part by part. */
  lemma ReportCount(email: string, r: AccountRecord, p: string)
    ensures CountPrefixed(ReportLines(email, r), p) ==
      CountPrefixed(HeaderLines(email, r), p) + CountPrefixed(ErrorLines(r), p)
      + Hit("\nDetailed History:", p) + CountPrefixed(HistoryLines(r.history), p)
  {
    var h, e, m := HeaderLines(email, r), ErrorLines(r), ["\nDetailed History:"];
    CountPrefixedAppend(h, e, p);
    CountPrefixedAppend(h + e, m, p);
    CountPrefixedAppend(h + e + m, HistoryLines(r.history), p);
    CountCons(m[0], [], p);
    assert m == [m[0]] + [];
  }

  /** Each history entry renders exactly one "Attempt #" line. */
  lemma {:induction false} HistoryAttemptLines(h: seq<HistoryEntry>)
    ensures CountPrefixed(HistoryLines(h), "Attempt #") == |h|
    decreases |h|
  {
    if h != [] {
      var e := h[0];
      HistoryAttemptLines(h[1..]);
      NotPrefix("Attempt #", "\n[", e.timestamp + "]", 0);
      NotPrefix("Attempt #", "Status: ", Label(e.status), 0);
      NotPrefix("Attempt #", "Step: ", e.step, 0);
      NotPrefix("Attempt #", "Details: ", e.details, 0);
      assert "\n[" + e.timestamp + "]" == "\n[" + (e.timestamp + "]");
      EntryCount(e, HistoryLines(h[1..]), "Attempt #");
    }
  }

  /** A "Details:" line is rendered exactly for the entries with non-empty details. */
  lemma {:induction false} HistoryDetailsLines(h: seq<HistoryEntry>)
    ensures CountPrefixed(HistoryLines(h), "Details: ") == CountDetailed(h)
    decreases |h|
  {
    if h != [] {
      var e := h[0];
      HistoryDetailsLines(h[1..]);
      NotPrefix("Details: ", "\n[", e.timestamp + "]", 0);
      NotPrefix("Details: ", "Attempt #", NatToString(e.attempt), 0);
      NotPrefix("Details: ", "Status: ", Label(e.status), 0);
      NotPrefix("Details: ", "Step: ", e.step, 0);
      assert "\n[" + e.timestamp + "]" == "\n[" + (e.timestamp + "]");
      EntryCount(e, HistoryLines(h[1..]), "Details: ");
    }
  }

  /** No line of a rendered history starts like the "Last Error" line. */
  lemma {:induction false} HistoryHasNoErrorLine(h: seq<HistoryEntry>)
    ensures CountPrefixed(HistoryLines(h), "Last Error: ") == 0
    decreases |h|
  {
    if h != [] {
      var e := h[0];
      HistoryHasNoErrorLine(h[1..]);
      NotPrefix("Last Error: ", "\n[", e.timestamp + "]", 0);
      NotPrefix("Last Error: ", "Attempt #", NatToString(e.attempt), 0);
      NotPrefix("Last Error: ", "Status: ", Label(e.status), 0);
      NotPrefix("Last Error: ", "Step: ", e.step, 0);
      NotPrefix("Last Error: ", "Details: ", e.details, 0);
      assert "\n[" + e.timestamp + "]" == "\n[" + (e.timestamp + "]");
      EntryCount(e, HistoryLines(h[1..]), "Last Error: ");
    }
  }

  /** The report has a "Last Error" line iff `last_error` is truthy, and then only one. */
  lemma ReportErrorLine(email: string, r: AccountRecord)
    ensures CountPrefixed(ReportLines(email, r), "Last Error: ") == if ErrorShown(r.lastError) then 1 else 0
  {
    var p := "Last Error: ";
    ReportCount(email, r, p);
    HeaderCount(email, r, [], p);
    assert HeaderLines(email, r) + [] == HeaderLines(email, r);
    NotPrefix(p, "Account Report for ", email, 0);
    NotPrefix(p, "Current Status: ", Label(r.status), 0);
    NotPrefix(p, "Total Attempts: ", NatToString(r.totalAttempts), 0);
    NotPrefix(p, "Last Updated: ", r.lastUpdated, 5);
    NotPrefix(p, "Success: ", if r.success then "Yes" else "No", 0);
    NotPrefix(p, "\nDetailed History:", "", 0);
    assert "\nDetailed History:" == "\nDetailed History:" + "";
    if ErrorShown(r.lastError) {
      CountCons("Last Error: " + r.lastError.value, [], p);
      assert ErrorLines(r) == ["Last Error: " + r.lastError.value] + [];
    }
    HistoryHasNoErrorLine(r.history);
  }

  /** None of the summary lines starts like a history block's attempt line. */
  lemma HeaderHasNoAttemptLine(email: string, r: AccountRecord)
    ensures CountPrefixed(HeaderLines(email, r), "Attempt #") == 0
  {
    var p := "Attempt #";
    HeaderCount(email, r, [], p);
    assert HeaderLines(email, r) + [] == HeaderLines(email, r);
    NotPrefix(p, "Account Report for ", email, 1);
    NotPrefix(p, "Current Status: ", Label(r.status), 0);
    NotPrefix(p, "Total Attempts: ", NatToString(r.totalAttempts), 0);
    NotPrefix(p, "Last Updated: ", r.lastUpdated, 0);
    NotPrefix(p, "Success: ", if r.success then "Yes" else "No", 0);
  }

  /** A report has exactly one "Attempt #" line per history entry. */
  lemma ReportAttemptLines(email: string, r: AccountRecord)
    ensures CountPrefixed(ReportLines(email, r), "Attempt #") == |r.history|
  {
    var p := "Attempt #";
    ReportCount(email, r, p);
    HeaderHasNoAttemptLine(email, r);
    NotPrefix(p, "\nDetailed History:", "", 0);
    assert "\nDetailed History:" == "\nDetailed History:" + "";
    if ErrorShown(r.lastError) {
      NotPrefix(p, "Last Error: ", r.lastError.value, 0);
      CountCons("Last Error: " + r.lastError.value, [], p);
      assert ErrorLines(r) == ["Last Error: " + r.lastError.value] + [];
    }
    HistoryAttemptLines(r.history);
  }

  /**
   * The report of a consistent record has one history block per recorded
   * attempt: as many "Attempt #" lines as the attempt counter says.
   */
  lemma ReportBlocksMatchAttempts(email: string, r: AccountRecord)
    requires Consistent(r)
    ensures CountPrefixed(ReportLines(email, r), "Attempt #") == r.totalAttempts
  {
    ReportAttemptLines(email, r);
  }
}

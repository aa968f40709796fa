/** The counters of a run while its items are handled, and what its report says
    about the rows it leaves. */
module AcquisitionCounters {

  import opened Basics
  import opened TransferProtocol
  import opened AcquisitionTables
  import opened AcquisitionOutcome
  import opened AcquisitionLedger
  import opened AcquisitionRun
  import Spec = TransferSpec

  datatype Tally = Tally(completed: nat, failed: nat, deferred: nat, quarantined: nat, outcomes: multiset<ItemOutcome>)

  const NOTHING: Tally := Tally(0, 0, 0, 0, multiset{})

  function Counting(t: Tally, end: ItemEnd): Tally
    requires end.Handled?
  {
    var u := t.(quarantined := t.quarantined + end.held, outcomes := t.outcomes + multiset{end.outcome});
    match end.counted
    case AsCompleted => u.(completed := t.completed + 1)
    case AsFailed => u.(failed := t.failed + 1)
    case AsDeferred => u.(deferred := t.deferred + 1)
  }

  predicate ReportsStale(t: Tally) {
    StaleTarget in t.outcomes || TransferEnded(StorageFailure("stale_target")) in t.outcomes
  }

  predicate ReportsMismatch(t: Tally) {
    HashMismatch in t.outcomes || TransferEnded(StorageFailure("hash_mismatch")) in t.outcomes
  }

  predicate ReportsBudget(t: Tally) {
    OutOfBudget in t.outcomes || TransferEnded(BudgetExhausted) in t.outcomes
  }

  /** Every row of the run received what its attempts did. */
  ghost predicate SumsOk(db: Durable, run: nat) {
    forall i {:trigger db.items[i]} | i in db.items && db.items[i].run == run :: db.items[i].received == Spec.TotalOf(AttemptsOf(db.attempts, i))
  }

  /** After n items: the counters are what a recount of the run's rows gives. */
  ghost predicate Going(db: Durable, run: nat, t: Tally, n: nat, used: nat) {
    && run in db.runs && db.runs[run].status == RunActive
    && Rows(db.items, run, UNFINISHED) == {} && |RunRows(db.items, run)| == n
    && t.completed == |Rows(db.items, run, DONE)| && t.deferred == |Rows(db.items, run, PUT_OFF)|
    && t.failed == |Rows(db.items, run, LOST)|
    && t.quarantined == Retained(db, run) && Received(db.items, run) <= used && |t.outcomes| == n
    && SumsOk(db, run) && (ReportsStale(t) <==> Rows(db.items, run, {Stale}) != {})
    && (Rows(db.items, run, {Quarantined}) != {} ==> ReportsMismatch(t))
  }

  lemma RowsGrow(items: map<nat, RunItem>, i: nat, row: RunItem, run: nat, states: set<ItemState>)
    requires i !in items && row.run == run
    ensures Rows(items[i := row], run, states) == Rows(items, run, states) + if row.state in states then {i} else {}
  {
  }

  lemma RowsCounted(items: map<nat, RunItem>, i: nat, row: RunItem, run: nat, states: set<ItemState>)
    requires i !in items && row.run == run
    ensures |Rows(items[i := row], run, states)| == |Rows(items, run, states)| + if row.state in states then 1 else 0
  {
    RowsGrow(items, i, row, run, states);
    OneMore(Rows(items, run, states), i);
  }

  lemma OneMore(s: set<nat>, i: nat)
    requires i !in s
    ensures |s + {i}| == |s| + 1 && s + {} == s
  {
  }

  lemma ReceivedGrows(items: map<nat, RunItem>, i: nat, row: RunItem, run: nat)
    requires i !in items && row.run == run
    ensures RunRows(items[i := row], run) == RunRows(items, run) + {i}
    ensures Received(items[i := row], run) == Received(items, run) + row.received
  {
    var before := RunRows(items, run);
    assert RunRows(items[i := row], run) == before + {i};
    SumSplit(before + {i}, ReceivedBy(items[i := row]), i);
    assert before + {i} - {i} == before;
    SumSame(before, ReceivedBy(items), ReceivedBy(items[i := row]));
  }

  /** The reported causes stay those of the rows. */
  lemma CausesAgree(items: map<nat, RunItem>, i: nat, row: RunItem, run: nat, t: Tally, end: ItemEnd)
    requires i !in items && row.run == run && end.Handled? && OutcomeSays(row.state, end.outcome)
    requires ReportsStale(t) <==> Rows(items, run, {Stale}) != {}
    requires Rows(items, run, {Quarantined}) != {} ==> ReportsMismatch(t)
    ensures ReportsStale(Counting(t, end)) <==> Rows(items[i := row], run, {Stale}) != {}
    ensures Rows(items[i := row], run, {Quarantined}) != {} ==> ReportsMismatch(Counting(t, end))
  {
    RowsGrow(items, i, row, run, {Stale});
    RowsGrow(items, i, row, run, {Quarantined});
  }

  /** One item more: the branch's counter is the one the recount raises. */
  lemma CountsAgree(a: Durable, b: Durable, run: nat, p: nat, i: nat, end: ItemEnd, charged: nat, handed: Option<nat>,
                    t: Tally, n: nat, used: nat)
    requires Going(a, run, t, n, used) && ItemHandled(a, b, run, p, i, end, charged, handed)
    requires EndOf(b, i, end).Some? && VerdictFits(EndOf(b, i, end).value)
    ensures Going(b, run, Counting(t, end), n + 1, used + charged)
  {
    hide OthersKept, AttemptsKept, LedgerShows, ContentOf, Rows, Received, Retained, SumsOk;
    var row := b.items[i];
    RowsGrow(a.items, i, row, run, UNFINISHED);
    RowsCounted(a.items, i, row, run, DONE);
    RowsCounted(a.items, i, row, run, PUT_OFF);
    RowsCounted(a.items, i, row, run, LOST);
    ReceivedGrows(a.items, i, row, run);
    OneMore(RunRows(a.items, run), i);
    CausesAgree(a.items, i, row, run, t, end);
    SumsGrow(a, b, run, i);
  }

  lemma SumsGrow(a: Durable, b: Durable, run: nat, i: nat)
    requires SumsOk(a, run) && OnlyItem(a, b, i) && AttemptsKept(a.attempts, b.attempts, i)
    requires b.items[i].received == Spec.TotalOf(AttemptsOf(b.attempts, i))
    ensures SumsOk(b, run)
  {
    forall j | j in b.items && b.items[j].run == run ensures b.items[j].received == Spec.TotalOf(AttemptsOf(b.attempts, j)) {
      if j != i { assert a.items[j] == b.items[j]; }
    }
  }

  // ----- the report -----

  datatype RunOutcome = WasSuccess | WasPartial | WasInterrupted | WasStale | WasQuarantined | WasBudget | WasFailed

  function FinalStatus(t: Tally): (RunStatus, RunOutcome) {
    if t.failed == 0 && t.deferred == 0 then (RunComplete, WasSuccess)
    else if t.completed > 0 then (RunPartial, WasPartial)
    else if t.deferred > 0 && t.failed == 0 then (RunPartial, WasInterrupted)
    else if ReportsStale(t) then (RunFailed, WasStale)
    else if ReportsMismatch(t) then (RunFailed, WasQuarantined)
    else if ReportsBudget(t) then (RunFailed, WasBudget)
    else (RunFailed, WasFailed)
  }

  /** Some row of the run is in one of these states. */
  predicate Has(items: map<nat, RunItem>, run: nat, states: set<ItemState>) {
    exists i :: i in items && items[i].run == run && items[i].state in states
  }

  /** What status and outcome of a run say about its rows. */
  ghost predicate Reported(items: map<nat, RunItem>, run: nat, status: RunStatus, outcome: RunOutcome) {
    && !Has(items, run, UNFINISHED)
    && (status == RunComplete <==> !Has(items, run, PUT_OFF + LOST))
    && (status == RunFailed <==> !Has(items, run, DONE) && Has(items, run, LOST))
    && (status == RunPartial <==> Has(items, run, PUT_OFF + LOST) && (Has(items, run, DONE) || !Has(items, run, LOST)))
    && (outcome == WasSuccess <==> status == RunComplete)
    && (outcome == WasPartial <==> Has(items, run, DONE) && Has(items, run, PUT_OFF + LOST))
    && (outcome == WasInterrupted <==> !Has(items, run, DONE) && !Has(items, run, LOST) && Has(items, run, PUT_OFF))
    && (outcome == WasStale <==> !Has(items, run, DONE) && Has(items, run, {Stale}))
    && (!Has(items, run, DONE) && !Has(items, run, {Stale}) && Has(items, run, {Quarantined}) ==> outcome == WasQuarantined)
  }

  lemma HasRows(items: map<nat, RunItem>, run: nat, states: set<ItemState>)
    ensures Has(items, run, states) <==> |Rows(items, run, states)| > 0
    ensures Has(items, run, states) <==> Rows(items, run, states) != {}
  {
    if Has(items, run, states) {
      var i :| i in items && items[i].run == run && items[i].state in states;
      assert i in Rows(items, run, states);
    }
    if |Rows(items, run, states)| > 0 {
      var i: nat :| i in Rows(items, run, states);
    }
  }

  lemma HasEither(items: map<nat, RunItem>, run: nat, x: set<ItemState>, y: set<ItemState>)
    ensures Has(items, run, x + y) <==> Has(items, run, x) || Has(items, run, y)
  {
  }

  lemma HasMember(items: map<nat, RunItem>, run: nat, state: ItemState, states: set<ItemState>)
    requires state in states
    ensures Has(items, run, {state}) ==> Has(items, run, states)
  {
  }

  /** The report of a run whose items are all handled is about its rows. */
  lemma ReportMeans(db: Durable, run: nat, t: Tally, n: nat, used: nat)
    requires Going(db, run, t, n, used)
    ensures Reported(db.items, run, FinalStatus(t).0, FinalStatus(t).1)
  {
    HasRows(db.items, run, UNFINISHED);
    HasRows(db.items, run, DONE);
    HasRows(db.items, run, PUT_OFF);
    HasRows(db.items, run, LOST);
    HasRows(db.items, run, {Stale});
    HasRows(db.items, run, {Quarantined});
    HasEither(db.items, run, PUT_OFF, LOST);
    HasMember(db.items, run, Stale, LOST);
    HasMember(db.items, run, Quarantined, LOST);
  }

  /** What the counters and the outcomes of the items make of a run: complete
      when nothing failed and nothing was put off, partial when something was
      done or when things were only put off, else failed, for the first cause
      that was reported. */
  predicate StatusSays(t: Tally, status: RunStatus, outcome: RunOutcome) {
    var stale := StaleTarget in t.outcomes || TransferEnded(StorageFailure("stale_target")) in t.outcomes;
    var mismatch := HashMismatch in t.outcomes || TransferEnded(StorageFailure("hash_mismatch")) in t.outcomes;
    var budget := OutOfBudget in t.outcomes || TransferEnded(BudgetExhausted) in t.outcomes;
    var nothing := t.completed == 0 && t.failed > 0;
    && (status == RunComplete && outcome == WasSuccess <==> t.failed == 0 && t.deferred == 0)
    && (status == RunPartial && outcome == WasPartial <==> t.completed > 0 && t.failed + t.deferred > 0)
    && (status == RunPartial && outcome == WasInterrupted <==> t.completed == 0 && t.deferred > 0 && t.failed == 0)
    && (status == RunFailed && outcome == WasStale <==> nothing && stale)
    && (status == RunFailed && outcome == WasQuarantined <==> nothing && !stale && mismatch)
    && (status == RunFailed && outcome == WasBudget <==> nothing && !stale && !mismatch && budget)
    && (status == RunFailed && outcome == WasFailed <==> nothing && !stale && !mismatch && !budget)
  }

  lemma StatusIs(t: Tally)
    ensures StatusSays(t, FinalStatus(t).0, FinalStatus(t).1)
  {
  }

  datatype Summary = Summary(run: nat, status: RunStatus, outcome: RunOutcome, planned: nat, tally: Tally, received: nat)

  /** A finished run: every planned item is counted once, status and outcome say
      what became of the rows, and bytes stay within the budgets. */
  ghost predicate Accounted(db: Durable, s: Summary, limits: RunLimits) {
    && s.run in db.runs && s.tally.completed + s.tally.failed + s.tally.deferred == s.planned == |RunRows(db.items, s.run)|
    && Reported(db.items, s.run, s.status, s.outcome) && StatusSays(s.tally, s.status, s.outcome)
    && db.runs[s.run].status == s.status && |s.tally.outcomes| == s.planned
    && db.runs[s.run].completed == s.tally.completed == |Rows(db.items, s.run, DONE)|
    && db.runs[s.run].failed == s.tally.failed == |Rows(db.items, s.run, LOST)|
    && db.runs[s.run].deferred == s.tally.deferred == |Rows(db.items, s.run, PUT_OFF)|
    && db.runs[s.run].received == s.received && db.runs[s.run].quarantined == s.tally.quarantined
    && SumsOk(db, s.run) && Received(db.items, s.run) <= s.received <= limits.maxTotalBytes
    && s.tally.quarantined == Retained(db, s.run) <= limits.maxQuarantine
  }

  /** At the end the counters sum to the plan and settle the run. */
  lemma SettledFromGoing(db: Durable, run: nat, t: Tally, n: nat, used: nat, row: Run)
    requires Going(db, run, t, n, used)
    requires row.completed == t.completed && row.failed == t.failed
    requires row.deferred == t.deferred && row.received == used && row.planned == n
    requires row.status == FinalStatus(t).0
    ensures Settled(db.items, row, run) && t.completed + t.failed + t.deferred == n
    ensures row.status == RunComplete <==> forall i | i in RunRows(db.items, run) :: db.items[i].state in DONE
  {
    RowsPartition(db.items, run);
    if forall i | i in RunRows(db.items, run) :: db.items[i].state in DONE {
      assert Rows(db.items, run, LOST) == {} && Rows(db.items, run, PUT_OFF) == {};
    }
    if row.status == RunComplete {
      forall i | i in RunRows(db.items, run) ensures db.items[i].state in DONE { OneGroup(db.items, run, i); }
    }
  }
}

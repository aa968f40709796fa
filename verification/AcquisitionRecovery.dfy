/** Closing a run that was left active, by a recount of its rows. */
module AcquisitionRecovery {

  import opened Basics
  import opened TransferProtocol
  import opened AcquisitionTables
  import opened AcquisitionSteps
  import opened AcquisitionLedger
  import opened AcquisitionCounters
  import Spec = TransferSpec

  lemma OpenBytesIs(items: map<nat, RunItem>, ledger: map<nat, LedgerRow>, i: nat, p: nat)
    requires LedgerOk(items, ledger) && IsOpenOf(ledger, p, i)
    ensures OpenBytes(ledger, i) == |ledger[p].resume.partial.bytes|
  {
    assert forall q: nat | IsOpenOf(ledger, q, i) :: ledger[q].state == Open && q == p;
  }

  /** SELECT MAX(byte_count) ... state = 'active'. */
  method PartialBytes(d: Database, i: nat) returns (n: nat)
    requires d.Valid()
    ensures n == OpenBytes(d.db.ledger, i)
  {
    d.IsSound();
    if p :| p in d.db.ledger && IsOpenOf(d.db.ledger, p, i) {
      n := |d.db.ledger[p].resume.partial.bytes|;
      OpenBytesIs(d.db.items, d.db.ledger, i, p);
    } else {
      n := 0;
    }
  }

  /** The unfinished rows of the run become interrupted and retryable. */
  method CloseRows(d: Database, run: nat) returns (items: map<nat, RunItem>)
    requires d.Valid()
    ensures items == RecoveredItems(d.db, run)
  {
    items := d.db.items;
    var rest := Rows(d.db.items, run, UNFINISHED);
    while rest != {}
      invariant rest <= Rows(d.db.items, run, UNFINISHED) && items.Keys == d.db.items.Keys
      invariant forall i | i in items && i !in rest :: items[i] == RecoveredItems(d.db, run)[i]
      invariant forall i | i in rest :: items[i] == d.db.items[i]
      decreases |rest|
    {
      var i :| i in rest;
      var n := PartialBytes(d, i);
      items, rest := items[i := Closed(items[i], n)], rest - {i};
    }
    assert forall i | i in items :: items[i] == RecoveredItems(d.db, run)[i];
  }

  /** Their running attempts become interrupted. */
  method CloseAttempts(d: Database, run: nat) returns (attempts: map<nat, seq<Spec.Transition>>)
    ensures attempts == RecoveredAttempts(d.db, run)
  {
    attempts := d.db.attempts;
    var rest := set i | i in d.db.attempts && LastRuns(d.db.attempts[i]) && i in d.db.items && d.db.items[i].run == run;
    while rest != {}
      invariant rest <= d.db.attempts.Keys && attempts.Keys == d.db.attempts.Keys
      invariant forall i | i in rest :: i in d.db.items && d.db.items[i].run == run && attempts[i] == d.db.attempts[i]
      invariant forall i | i in attempts && i !in rest :: attempts[i] == RecoveredAttempts(d.db, run)[i]
      decreases |rest|
    {
      var i :| i in rest;
      attempts, rest := attempts[i := CutOff(attempts[i])], rest - {i};
    }
    assert forall i | i in attempts :: attempts[i] == RecoveredAttempts(d.db, run)[i];
  }

  method SumReceived(items: map<nat, RunItem>, run: nat) returns (total: nat)
    ensures total == Received(items, run)
  {
    var rest := RunRows(items, run);
    total := 0;
    while |rest| > 0
      invariant rest <= RunRows(items, run)
      invariant total + SumOf(rest, ReceivedBy(items)) == Received(items, run)
      decreases |rest|
    {
      var i: nat :| i in rest;
      SumSplit(rest, ReceivedBy(items), i);
      total, rest := total + items[i].received, rest - {i};
    }
  }

  /** failed = len(states) - completed - deferred. */
  method Recount(items: map<nat, RunItem>, run: nat, row: Run) returns (closed: Run)
    requires Rows(items, run, UNFINISHED) == {}
    ensures closed == Recounted(items, run, row)
  {
    var completed, put := |Rows(items, run, DONE)|, |Rows(items, run, PUT_OFF)|;
    var received := SumReceived(items, run);
    RowsPartition(items, run);
    closed := row.(status := if completed > 0 || put > 0 then RunPartial else RunFailed, completed := completed, deferred := put,
                   failed := |RunRows(items, run)| - completed - put, received := received);
  }

  lemma NoneUnfinished(db: Durable, run: nat)
    ensures Rows(RecoveredItems(db, run), run, UNFINISHED) == {}
  {
    forall i | i in RecoveredItems(db, run) && RecoveredItems(db, run)[i].run == run
      ensures RecoveredItems(db, run)[i].state !in UNFINISHED {}
  }

  /** The run after recover_interrupted. */
  ghost function AfterRecovery(db: Durable, run: nat): Durable {
    if run in db.runs && db.runs[run].status == RunActive then RecoveredRun(db, run) else db
  }

  /** recover_interrupted; true when the run was active. */
  method RecoverInterrupted(d: Database, run: nat) returns (recovered: bool)
    requires d.Valid() && run in d.db.runs
    modifies d`db, d`log
    ensures d.Valid() && d.db == AfterRecovery(old(d.db), run)
    ensures recovered <==> old(d.db).runs[run].status == RunActive
  {
    if d.db.runs[run].status != RunActive { return false; }
    var items := CloseRows(d, run);
    NoneUnfinished(d.db, run);
    var row := Recount(items, run, d.db.runs[run]);
    var attempts := CloseAttempts(d, run);
    d.IsSound();
    d.Commit(d.db.(items := items, attempts := attempts, runs := d.db.runs[run := row]), Recover(run));
    recovered := true;
  }

  // ----- what recovery means -----

  /** Nothing of the run stays unfinished, running or unsettled, and nothing else
      is touched. */
  ghost predicate RunClosed(a: Durable, b: Durable, run: nat) {
    && run in b.runs && b.runs[run].status != RunActive && Settled(b.items, b.runs[run], run)
    && (forall i {:trigger b.items[i]} | i in b.items && b.items[i].run == run :: !LastRuns(AttemptsOf(b.attempts, i)))
    && a.runs.Keys == b.runs.Keys && (forall r {:trigger b.runs[r]} | r in a.runs && r != run :: b.runs[r] == a.runs[r])
    && a.items.Keys == b.items.Keys
    && (forall i {:trigger b.items[i]} | i in a.items && (a.items[i].run != run || a.items[i].state !in UNFINISHED) :: b.items[i] == a.items[i])
  }

  /** Where no row is unfinished, no attempt runs. */
  lemma NoneRuns(items: map<nat, RunItem>, attempts: map<nat, seq<Spec.Transition>>, run: nat)
    requires AttemptsOk(items, attempts) && Rows(items, run, UNFINISHED) == {}
    ensures forall i | i in items && items[i].run == run :: !LastRuns(AttemptsOf(attempts, i))
  {
    forall i | i in items && items[i].run == run ensures !LastRuns(AttemptsOf(attempts, i)) {
      assert i !in Rows(items, run, UNFINISHED);
      if i in attempts { assert RowsOk(attempts[i]); }
    }
  }

  lemma RecoveredCloses(db: Durable, run: nat)
    requires AttemptsOk(db.items, db.attempts) && run in db.runs
    ensures RunClosed(db, RecoveredRun(db, run), run)
  {
    RecountSettles(db, run, db.runs[run]);
    RecoveryKeepsAttempts(db, run);
    NoneRuns(RecoveredItems(db, run), RecoveredAttempts(db, run), run);
  }

  /** A second recovery does nothing. */
  lemma RecoveryCloses(h: Hashes, trust: Option<Naming>, db: Durable, run: nat)
    requires Sound(h, trust, db) && run in db.runs
    ensures RunClosed(db, AfterRecovery(db, run), run) && AfterRecovery(AfterRecovery(db, run), run) == AfterRecovery(db, run)
  {
    if db.runs[run].status == RunActive {
      RecoveredCloses(db, run);
    } else {
      assert RunOk(db, run);
      NoneRuns(db.items, db.attempts, run);
    }
  }

  /** A crash between two items: recovery stores the counters the loop had. */
  lemma RecoveryAgreesWithLoop(db: Durable, run: nat, t: Tally, n: nat, used: nat)
    requires Going(db, run, t, n, used)
    ensures var b := AfterRecovery(db, run);
      && b.items == db.items && b.runs[run].completed == t.completed && b.runs[run].failed == t.failed && b.runs[run].deferred == t.deferred
  {
    forall i | i in db.items ensures RecoveredItems(db, run)[i] == db.items[i] {
      assert i !in Rows(db.items, run, UNFINISHED);
    }
    assert RecoveredItems(db, run) == db.items;
  }

  /** What an item has received in its run when its last attempt row runs and
      `arrived` bytes of that attempt are not counted by any row: the ended
      attempts and those bytes. A partial kept in the running attempt already
      counts all of it. */
  function ReceivedSoFar(row: LedgerRow, attempts: seq<Spec.Transition>, arrived: nat): nat {
    if row.seen == |attempts| && LastRuns(attempts) then row.got else Spec.TotalOf(attempts) + arrived
  }

  /** What of it came after the partial's row was written. */
  function ReceivedSince(row: LedgerRow, attempts: seq<Spec.Transition>, arrived: nat): nat
    requires row.seen <= |attempts|
  {
    if row.seen == |attempts| && LastRuns(attempts) then 0 else Spec.TotalOf(attempts[row.seen..]) + arrived
  }

  lemma SoFarSplits(row: LedgerRow, attempts: seq<Spec.Transition>, arrived: nat)
    requires GotFits(row, attempts) && (CutShort(attempts) ==> LastRuns(attempts))
    ensures ReceivedSoFar(row, attempts, arrived) == row.got + ReceivedSince(row, attempts, arrived)
  {
    assert attempts == attempts[..row.seen] + attempts[row.seen..];
    TotalAppend(attempts[..row.seen], attempts[row.seen..]);
  }

  /** An item that is closed while its partial is open is recorded as having
      received the whole partial. That is more than it received in its run
      exactly when the partial was taken over from an earlier run with more bytes
      than came since its row was written. */
  lemma RecoveryOvercounts(h: Hashes, trust: Option<Naming>, db: Durable, run: nat, i: nat, p: nat, arrived: nat)
    requires Sound(h, trust, db) && run in db.runs && db.runs[run].status == RunActive
    requires Unfinished(db.items, run, i) && IsOpenOf(db.ledger, p, i)
    ensures var received, row, attempts := AfterRecovery(db, run).items[i].received, db.ledger[p], AttemptsOf(db.attempts, i);
      && received == |row.resume.partial.bytes| && row.seen <= |attempts|
      && (received > ReceivedSoFar(row, attempts, arrived) <==> row.taken > ReceivedSince(row, attempts, arrived))
  {
    hide ItemsOk, PlanOk, StoreOk, RunsOk;
    assert i in db.attempts ==> db.attempts[i] == AttemptsOf(db.attempts, i);
    OpenBytesIs(db.items, db.ledger, i, p);
    assert PartialOk(trust, db.attempts, db.ledger[p]);
    SoFarSplits(db.ledger[p], AttemptsOf(db.attempts, i), arrived);
    UnfinishedEmpty(h, db, i);
  }

  lemma UnfinishedEmpty(h: Hashes, db: Durable, i: nat)
    requires ItemsOk(h, db) && i in db.items && db.items[i].state in UNFINISHED
    ensures db.items[i].received == 0
  {
    assert ItemOk(h, db, i);
  }

  /** Without an open partial nothing is recorded as received. */
  lemma RecoveryUndercounts(h: Hashes, trust: Option<Naming>, db: Durable, run: nat, i: nat)
    requires Sound(h, trust, db) && run in db.runs && db.runs[run].status == RunActive
    requires Unfinished(db.items, run, i) && OpenFor(db.ledger, i, None)
    ensures AfterRecovery(db, run).items[i].received == 0
  {
    assert ItemOk(h, db, i);
    forall p: nat ensures !IsOpenOf(db.ledger, p, i) {}
  }

  /** An item that takes a partial over and is cut short before a byte arrives. */
  lemma ClaimThenCrash(h: Hashes, trust: Option<Naming>, db: Durable, i: nat, p: nat, r: RetryResume)
    requires Sound(h, trust, db) && Allowed(h, trust, db, HandOver(i, p, r))
    ensures var claimed := Apply(h, trust, db, HandOver(i, p, r)); var run := db.items[i].run;
      && p in claimed.ledger && ReceivedSoFar(claimed.ledger[p], AttemptsOf(claimed.attempts, i), 0) == 0
      && AfterRecovery(claimed, run).items[i].received == |r.resume.partial.bytes| > 0
  {
    var claimed := Apply(h, trust, db, HandOver(i, p, r));
    ApplyKeepsSound(h, trust, db, HandOver(i, p, r));
    assert PartialOk(trust, db.attempts, db.ledger[r.source]);
    RecoveryOvercounts(h, trust, claimed, db.items[i].run, i, p, 0);
  }

  // ----- what recovery writes, row by row -----

  /** A pending or running row of the run becomes interrupted and retryable and
      has received at least its open partial; any other row stays. */
  predicate ItemClosed(ledger: map<nat, LedgerRow>, run: nat, i: nat, before: RunItem, after: RunItem) {
    if before.run == run && (before.state == Pending || before.state == Running) then
      && after == before.(state := Interrupted, retryable := true, received := after.received)
      && after.received >= before.received
      && (forall p | p in ledger && ledger[p].item == i && ledger[p].state == Open ::
            var n := |ledger[p].resume.partial.bytes|; after.received == if n > before.received then n else before.received)
      && ((forall p | p in ledger :: ledger[p].item != i || ledger[p].state != Open) ==> after.received == before.received)
    else after == before
  }

  /** An attempt that was still running ends as interrupted, because the process
      did, and may be tried again; everything else of the rows stays. */
  predicate AttemptsClosed(before: seq<Spec.Transition>, after: seq<Spec.Transition>) {
    && |after| == |before| && (forall k | 0 <= k < |before| - 1 :: after[k] == before[k])
    && (before != [] ==>
          var last := before[|before| - 1];
          after[|before| - 1] == if last.state == Spec.Running then last.(state := Spec.Interrupted, outcome := Some(ProcessEnded), retryable := true)
                                 else last)
  }

  /** The run's row after the recount. */
  ghost predicate RunRecounted(items: map<nat, RunItem>, run: nat, before: Run, after: Run) {
    var done := set i | i in items && items[i].run == run && (items[i].state == Complete || items[i].state == Satisfied);
    var put := set i | i in items && items[i].run == run && (items[i].state == Interrupted || items[i].state == Deferred);
    var all := set i | i in items && items[i].run == run;
    && after.status == (if done != {} || put != {} then RunPartial else RunFailed)
    && after.completed == |done| && after.deferred == |put| && after.failed == |all| - |done| - |put|
    && after.received == SumOf(all, map i | i in items :: items[i].received)
    && after == before.(status := after.status, completed := after.completed, deferred := after.deferred, failed := after.failed,
                        received := after.received)
  }

  ghost predicate RecoveredRows(a: Durable, b: Durable, run: nat) {
    && b == a.(items := b.items, attempts := b.attempts, runs := b.runs)
    && b.items.Keys == a.items.Keys && (forall i | i in a.items :: ItemClosed(a.ledger, run, i, a.items[i], b.items[i]))
    && b.attempts.Keys == a.attempts.Keys
    && (forall i | i in a.attempts ::
          if i in a.items && a.items[i].run == run then AttemptsClosed(a.attempts[i], b.attempts[i]) else b.attempts[i] == a.attempts[i])
    && run in a.runs && run in b.runs && b.runs == a.runs[run := b.runs[run]] && RunRecounted(b.items, run, a.runs[run], b.runs[run])
  }

  lemma ItemsClosed(db: Durable, run: nat, i: nat)
    requires LedgerOk(db.items, db.ledger) && i in db.items
    ensures ItemClosed(db.ledger, run, i, db.items[i], RecoveredItems(db, run)[i])
  {
    forall p: nat | IsOpenOf(db.ledger, p, i) ensures OpenBytes(db.ledger, i) == |db.ledger[p].resume.partial.bytes| {
      OpenBytesIs(db.items, db.ledger, i, p);
    }
  }

  lemma RecountedRows(items: map<nat, RunItem>, run: nat, row: Run)
    requires Rows(items, run, UNFINISHED) == {}
    ensures RunRecounted(items, run, row, Recounted(items, run, row))
  {
    RowsPartition(items, run);
    assert Rows(items, run, DONE) == set i | i in items && items[i].run == run && (items[i].state == Complete || items[i].state == Satisfied);
    assert Rows(items, run, PUT_OFF) == set i | i in items && items[i].run == run && (items[i].state == Interrupted || items[i].state == Deferred);
  }

  /** Recovering an active run writes exactly these rows; any other recovery
      writes nothing. */
  lemma RecoveryWrites(h: Hashes, trust: Option<Naming>, db: Durable, run: nat)
    requires Sound(h, trust, db)
    ensures if run in db.runs && db.runs[run].status == RunActive then RecoveredRows(db, AfterRecovery(db, run), run)
            else AfterRecovery(db, run) == db
  {
    hide ItemsOk, PlanOk, StoreOk, RunsOk, AttemptsOk, PartialsOk, ItemClosed, RunRecounted;
    if run in db.runs && db.runs[run].status == RunActive {
      forall i | i in db.items ensures ItemClosed(db.ledger, run, i, db.items[i], RecoveredItems(db, run)[i]) { ItemsClosed(db, run, i); }
      NoneUnfinished(db, run);
      RecountedRows(RecoveredItems(db, run), run, db.runs[run]);
    }
  }
}

/** The durable state of media acquisition: plan items, runs with their items
    and attempts, the ledger of partial downloads, quarantine, assets and the
    content-addressed store. What holds after every committed step. */
module AcquisitionTables {

  import opened Basics
  import opened DeclaredClaims
  import opened TransferProtocol
  import Spec = TransferSpec

  /** The digests of a byte string as the catalogue writes them. */
  datatype Hashes = Hashes(sha256: Bytes -> string, md5: Bytes -> string)

  ghost predicate Collisionless(h: Hashes) {
    forall a, b {:trigger h.sha256(a), h.sha256(b)} | h.sha256(a) == h.sha256(b) :: a == b
  }

  datatype Eligibility = Eligible | AlreadySatisfied(asset: nat) | Excluded(unavailable: bool)
  /** `plan` is the plan's selection digest. */
  datatype PlanItem = PlanItem(plan: string, key: string, eligibility: Eligibility, declared: Declared)

  datatype ItemState = Pending | Running | Complete | NotComplete | Quarantined | Stale | Deferred | Interrupted | Satisfied
  datatype RunItem = RunItem(run: nat, planItem: nat, state: ItemState, retryable: bool, received: nat,
                             asset: Option<nat>, sha256: Option<string>, md5: Option<string>)

  datatype RunStatus = RunActive | RunComplete | RunPartial | RunFailed
  /** `plan` is the selection digest of the run's plan. */
  datatype Run = Run(plan: string, status: RunStatus, planned: nat, completed: nat, failed: nat, deferred: nat,
                     received: nat, quarantined: nat, maxTotal: nat, maxQuarantine: nat)

  datatype LedgerState = Open | Dropped | Consumed
  /** A partial download in its staging file. Three columns the catalogue does
      not have are kept for the proofs: the bytes taken over from an earlier
      item, the bytes received since when the row was last written, and the
      attempt that wrote it. The announced size in `resume` is such a column too. */
  datatype LedgerRow = LedgerRow(item: nat, resume: ResumeState, state: LedgerState, taken: nat, got: nat, seen: nat)

  datatype QuarantineRow = QuarantineRow(item: nat, size: nat, retained: bool)
  datatype Asset = Asset(sha256: string, md5: string)
  /** The managed path of content-addressed bytes is determined by their sha256. */
  datatype Location = Location(asset: nat, sha256: string)

  /** `attempts` lists the attempt rows of each item by attempt number. */
  datatype Durable = Durable(
    plan: map<nat, PlanItem>, runs: map<nat, Run>, items: map<nat, RunItem>, attempts: map<nat, seq<Spec.Transition>>,
    ledger: map<nat, LedgerRow>, quarantine: map<nat, QuarantineRow>, assets: map<nat, Asset>, locations: set<Location>, cas: map<string, Bytes>)

  // ----- recounts -----

  const DONE: set<ItemState> := {Complete, Satisfied}
  const PUT_OFF: set<ItemState> := {Interrupted, Deferred}
  const UNFINISHED: set<ItemState> := {Pending, Running}
  const LOST: set<ItemState> := {NotComplete, Quarantined, Stale}

  function Rows(items: map<nat, RunItem>, run: nat, states: set<ItemState>): set<nat> {
    set i | i in items && items[i].run == run && items[i].state in states
  }

  function RunRows(items: map<nat, RunItem>, run: nat): set<nat> {
    set i | i in items && items[i].run == run
  }

  function ReceivedBy(items: map<nat, RunItem>): map<nat, nat> {
    map i | i in items :: items[i].received
  }

  ghost function Received(items: map<nat, RunItem>, run: nat): nat {
    SumOf(RunRows(items, run), ReceivedBy(items))
  }

  function Sizes(quarantine: map<nat, QuarantineRow>): map<nat, nat> {
    map q | q in quarantine :: quarantine[q].size
  }

  function RetainedRows(db: Durable, run: nat): set<nat> {
    set q | q in db.quarantine && db.quarantine[q].retained && db.quarantine[q].item in RunRows(db.items, run)
  }

  /** Bytes held in quarantine on behalf of a run. */
  ghost function Retained(db: Durable, run: nat): nat {
    SumOf(RetainedRows(db, run), Sizes(db.quarantine))
  }

  lemma SameHeld(a: Durable, b: Durable, run: nat)
    requires b.items == a.items && b.quarantine == a.quarantine
    ensures Retained(b, run) == Retained(a, run)
  {
    assert RetainedRows(b, run) == RetainedRows(a, run);
  }

  // ----- what holds after every committed step -----

  /** The asset's location names bytes published under its sha256, and they
      agree with what the plan item declared. */
  predicate Published(h: Hashes, db: Durable, p: PlanItem, asset: nat) {
    && asset in db.assets
    && var sha := db.assets[asset].sha256;
      && Location(asset, sha) in db.locations
      && sha in db.cas && h.sha256(db.cas[sha]) == sha
      && (!p.declared.derivative ==> Agrees(p.declared, sha, h.md5(db.cas[sha])))
  }

  /** A done row of the plan item with this asset, before row i. */
  predicate DoneBefore(items: map<nat, RunItem>, i: nat, p: nat, asset: Option<nat>) {
    exists j :: j in items && j < i && items[j].planItem == p && items[j].state in DONE && items[j].asset == asset
  }

  predicate ItemOk(h: Hashes, db: Durable, i: nat)
    requires i in db.items
  {
    var row := db.items[i];
    && row.run in db.runs && row.planItem in db.plan && db.plan[row.planItem].plan == db.runs[row.run].plan
    && (row.asset.Some? ==> row.state in DONE && row.asset.value in db.assets)
    && (row.state in DONE ==> row.asset.Some?) && (row.state in UNFINISHED ==> row.received == 0)
    && (row.state == Complete ==> Published(h, db, db.plan[row.planItem], row.asset.value))
    && (row.state == Satisfied ==> db.plan[row.planItem].eligibility == AlreadySatisfied(row.asset.value) ||
                                   DoneBefore(db.items, i, row.planItem, row.asset))
  }

  ghost predicate ItemsOk(h: Hashes, db: Durable) {
    && (forall i {:trigger ItemOk(h, db, i)} | i in db.items :: ItemOk(h, db, i))
    && (forall i, j {:trigger db.items[i], db.items[j]} | i in db.items && j in db.items
          && db.items[i].run == db.items[j].run && db.items[i].planItem == db.items[j].planItem :: i == j)
  }

  /** A done row's asset was planned for its item, or a complete row of the same
      item has it, which cites published bytes. */
  lemma {:induction false} TracesToPublished(h: Hashes, db: Durable, i: nat)
    requires ItemsOk(h, db) && i in db.items && db.items[i].state in DONE
    ensures var p := db.items[i].planItem;
      && p in db.plan && db.items[i].asset.Some?
      && (db.plan[p].eligibility == AlreadySatisfied(db.items[i].asset.value) ||
          (Published(h, db, db.plan[p], db.items[i].asset.value) &&
           exists j :: j in db.items && j <= i && db.items[j].planItem == p && db.items[j].state == Complete && db.items[j].asset == db.items[i].asset))
    decreases i
  {
    assert ItemOk(h, db, i);
    var row := db.items[i];
    if row.state == Satisfied && db.plan[row.planItem].eligibility != AlreadySatisfied(row.asset.value) {
      var j :| j in db.items && j < i && db.items[j].planItem == row.planItem && db.items[j].state in DONE && db.items[j].asset == row.asset;
      TracesToPublished(h, db, j);
    }
  }

  ghost predicate PlanOk(db: Durable) {
    && (forall p | p in db.plan && db.plan[p].eligibility.AlreadySatisfied? :: db.plan[p].eligibility.asset in db.assets)
    && (forall p, q {:trigger db.plan[p], db.plan[q]} |
          p in db.plan && q in db.plan && db.plan[p].plan == db.plan[q].plan && db.plan[p].key == db.plan[q].key :: p == q)
  }

  ghost predicate StoreOk(h: Hashes, db: Durable) {
    && (forall sha | sha in db.cas :: h.sha256(db.cas[sha]) == sha)
    && (forall a, b {:trigger db.assets[a], db.assets[b]} |
          a in db.assets && b in db.assets && db.assets[a].sha256 == db.assets[b].sha256 :: a == b)
    && (forall l | l in db.locations :: l.asset in db.assets && db.assets[l.asset].sha256 == l.sha256 && l.sha256 in db.cas)
  }

  /** The item is still being worked on, or a retry will select it. */
  predicate Continuable(row: RunItem) {
    row.state in UNFINISHED || (row.retryable && row.state in {NotComplete, Interrupted, Deferred})
  }

  /** One open row per run item and one per staging file, and no open row of an
      item nobody would take up again. */
  ghost predicate LedgerOk(items: map<nat, RunItem>, ledger: map<nat, LedgerRow>) {
    && (forall p | p in ledger :: ledger[p].item in items)
    && (forall p | p in ledger && ledger[p].state == Open :: ledger[p].item in items && Continuable(items[ledger[p].item]))
    && (forall p, q {:trigger ledger[p], ledger[q]} | p in ledger && q in ledger && ledger[p].state == Open && ledger[q].state == Open
          && (ledger[p].item == ledger[q].item || ledger[p].resume.partial.name == ledger[q].resume.partial.name) :: p == q)
  }

  /** A finished run's counters are the recount of its rows. */
  ghost predicate RunOk(db: Durable, r: nat)
    requires r in db.runs
  {
    var run := db.runs[r];
    && Retained(db, r) <= run.maxQuarantine
    && (run.status != RunActive ==> Settled(db.items, run, r))
  }

  ghost predicate Settled(items: map<nat, RunItem>, run: Run, r: nat) {
    && Rows(items, r, UNFINISHED) == {}
    && run.completed == |Rows(items, r, DONE)| && run.deferred == |Rows(items, r, PUT_OFF)| && run.failed == |Rows(items, r, LOST)|
    && run.received >= Received(items, r)
    && (run.status == RunComplete ==> run.completed == run.planned == |RunRows(items, r)|)
  }

  ghost predicate RunsOk(db: Durable) {
    && (forall r {:trigger RunOk(db, r)} | r in db.runs :: RunOk(db, r))
    && (forall q | q in db.quarantine :: db.quarantine[q].item in db.items)
  }

  // ----- attempts and what they say about partials -----

  function AttemptsOf(attempts: map<nat, seq<Spec.Transition>>, i: nat): seq<Spec.Transition> {
    if i in attempts then attempts[i] else []
  }

  predicate LastRuns(rows: seq<Spec.Transition>) {
    rows != [] && rows[|rows| - 1].state == Spec.Running
  }

  /** The last attempt was cut short: it runs, or the recovery closed it. */
  predicate CutShort(rows: seq<Spec.Transition>) {
    rows != [] && (LastRuns(rows) || rows[|rows| - 1].outcome == Some(ProcessEnded))
  }

  /** Attempt rows are numbered from one, and only the last may be running. */
  predicate RowsOk(rows: seq<Spec.Transition>) {
    && (forall k | 0 <= k < |rows| :: rows[k].attempt == k + 1)
    && (forall k | 0 <= k < |rows| - 1 :: rows[k].state != Spec.Running) && (LastRuns(rows) ==> rows[|rows| - 1].received == 0)
  }

  /** A running attempt belongs to an item that is still worked on, and only the
      recovery of a finished one has closed attempts. */
  ghost predicate AttemptsOk(items: map<nat, RunItem>, attempts: map<nat, seq<Spec.Transition>>) {
    forall i {:trigger attempts[i]} {:trigger i in attempts} | i in attempts ::
      && i in items && RowsOk(attempts[i]) && (LastRuns(attempts[i]) ==> items[i].state in UNFINISHED)
      && (CutShort(attempts[i]) && items[i].state in UNFINISHED ==> LastRuns(attempts[i]))
  }

  /** The item's last attempt that ended is the one the partial was kept in. */
  predicate Fresh(row: LedgerRow, rows: seq<Spec.Transition>) {
    row.seen + (if CutShort(rows) then 1 else 0) == |rows|
  }

  /** What was received when the row was written is what the attempts up to then
      received, once the attempt that wrote it has ended. */
  predicate GotFits(row: LedgerRow, rows: seq<Spec.Transition>) {
    row.seen <= |rows| && (row.seen < |rows| || !CutShort(rows) ==> row.got == Spec.TotalOf(rows[..row.seen]))
  }

  /** SELECT response_size ... ORDER BY attempt_number DESC LIMIT 1. */
  function LastSize(rows: seq<Spec.Transition>): Option<nat> {
    if rows == [] then None else rows[|rows| - 1].size
  }

  /** Where strong ETags name one byte string each, a partial is a beginning of
      the one its ETag names. None: nothing is known of the servers. */
  ghost predicate HonestPartial(trust: Option<Naming>, resume: ResumeState) {
    trust.Some? ==> HonestResume(trust.value, resume)
  }

  /** The bytes of a partial are those taken over and those received since, or
      not more than was received. */
  predicate BytesAccounted(row: LedgerRow) {
    if row.taken > 0 then |row.resume.partial.bytes| == row.taken + row.got else |row.resume.partial.bytes| <= row.got
  }

  ghost predicate PartialOk(trust: Option<Naming>, attempts: map<nat, seq<Spec.Transition>>, row: LedgerRow) {
    var rows := AttemptsOf(attempts, row.item);
    && ConstructedResume(row.resume) && |row.resume.partial.bytes| > 0 && HonestPartial(trust, row.resume) && BytesAccounted(row)
    && (row.state == Open ==> GotFits(row, rows))
    && (row.state == Open && Fresh(row, rows) ==> LastSize(rows).None? || LastSize(rows) == row.resume.size)
  }

  ghost predicate PartialsOk(trust: Option<Naming>, attempts: map<nat, seq<Spec.Transition>>, ledger: map<nat, LedgerRow>) {
    forall p {:trigger PartialOk(trust, attempts, ledger[p])} | p in ledger :: PartialOk(trust, attempts, ledger[p])
  }

  ghost predicate Safe(h: Hashes, db: Durable) {
    PlanOk(db) && ItemsOk(h, db) && StoreOk(h, db) && LedgerOk(db.items, db.ledger) && RunsOk(db)
  }

  /** Everything that holds of a durable state. */
  ghost predicate Sound(h: Hashes, trust: Option<Naming>, db: Durable) {
    Safe(h, db) && AttemptsOk(db.items, db.attempts) && PartialsOk(trust, db.attempts, db.ledger)
  }

  /** Only one open row of an item. */
  predicate IsOpenOf(ledger: map<nat, LedgerRow>, p: nat, i: nat) {
    p in ledger && ledger[p].item == i && ledger[p].state == Open
  }

  lemma OneGroup(items: map<nat, RunItem>, run: nat, i: nat)
    requires i in RunRows(items, run)
    ensures i in Rows(items, run, DONE) || i in Rows(items, run, PUT_OFF) || i in Rows(items, run, LOST) || i in Rows(items, run, UNFINISHED)
  {
    match items[i].state
    case Complete | Satisfied => assert i in Rows(items, run, DONE);
    case Interrupted | Deferred => assert i in Rows(items, run, PUT_OFF);
    case NotComplete | Quarantined | Stale => assert i in Rows(items, run, LOST);
    case Pending | Running => assert i in Rows(items, run, UNFINISHED);
  }

  /** Every row of a run is done, put off, lost or unfinished, and only one of them. */
  lemma RowsPartition(items: map<nat, RunItem>, r: nat)
    ensures |RunRows(items, r)| == |Rows(items, r, DONE)| + |Rows(items, r, PUT_OFF)| + |Rows(items, r, LOST)| + |Rows(items, r, UNFINISHED)|
  {
    var done, off, lost, open := Rows(items, r, DONE), Rows(items, r, PUT_OFF), Rows(items, r, LOST), Rows(items, r, UNFINISHED);
    forall i | i in RunRows(items, r) ensures i in done + off + lost + open { OneGroup(items, r, i); }
    assert RunRows(items, r) == done + off + lost + open;
    assert done !! off !! lost !! open;
  }

  // ----- the steps -----

  /** Rows of other runs and their quarantine do not depend on one row's state. */
  lemma SetItemKeepsRetained(db: Durable, i: nat, row: RunItem, r: nat)
    requires RunsOk(db) && (i in db.items ==> row.run == db.items[i].run)
    ensures Retained(db.(items := db.items[i := row]), r) == Retained(db, r)
  {
    var db' := db.(items := db.items[i := row]);
    assert RetainedRows(db', r) == RetainedRows(db, r);
  }

  lemma SettledFrame(items: map<nat, RunItem>, i: nat, row: RunItem, run: Run, r: nat)
    requires Settled(items, run, r) && row.run != r && (i in items ==> items[i].run != r)
    ensures Settled(items[i := row], run, r)
  {
    var items' := items[i := row];
    assert RunRows(items', r) == RunRows(items, r);
    assert Rows(items', r, UNFINISHED) == Rows(items, r, UNFINISHED) && Rows(items', r, DONE) == Rows(items, r, DONE);
    assert Rows(items', r, PUT_OFF) == Rows(items, r, PUT_OFF) && Rows(items', r, LOST) == Rows(items, r, LOST);
    SumSame(RunRows(items, r), ReceivedBy(items), ReceivedBy(items'));
  }

  /** A new row, with the largest id, or a later state of an unfinished one. */
  predicate ItemMayBecome(items: map<nat, RunItem>, i: nat, row: RunItem) {
    if i in items then items[i].run == row.run && items[i].planItem == row.planItem && items[i].state in UNFINISHED
    else forall j | j in items :: j < i && (items[j].run != row.run || items[j].planItem != row.planItem)
  }

  /** Writing a row of a run that is still active. */
  lemma SetItemKeepsSafe(h: Hashes, db: Durable, i: nat, row: RunItem)
    requires Safe(h, db)
    requires row.run in db.runs && db.runs[row.run].status == RunActive && row.planItem in db.plan
    requires ItemMayBecome(db.items, i, row)
    requires ItemOk(h, db.(items := db.items[i := row]), i)
    requires Continuable(row) || forall p: nat :: !IsOpenOf(db.ledger, p, i)
    ensures Safe(h, db.(items := db.items[i := row]))
  {
    hide ItemsOk, Settled;
    var db' := db.(items := db.items[i := row]);
    SetItemKeepsItems(h, db, i, row);
    forall p | p in db.ledger && db.ledger[p].state == Open ensures Continuable(db'.items[db.ledger[p].item]) {
      assert db.ledger[p].item == i ==> IsOpenOf(db.ledger, p, i);
    }
    forall r | r in db'.runs ensures RunOk(db', r) {
      assert RunOk(db, r);
      SetItemKeepsRetained(db, i, row, r);
      if db.runs[r].status != RunActive { SettledFrame(db.items, i, row, db.runs[r], r); }
    }
    assert RunsOk(db');
  }

  lemma SetItemKeepsItems(h: Hashes, db: Durable, i: nat, row: RunItem)
    requires ItemsOk(h, db)
    requires ItemMayBecome(db.items, i, row)
    requires ItemOk(h, db.(items := db.items[i := row]), i)
    ensures ItemsOk(h, db.(items := db.items[i := row]))
  {
    var db' := db.(items := db.items[i := row]);
    forall j | j in db'.items ensures ItemOk(h, db', j) {
      if j != i {
        assert ItemOk(h, db, j);
        if DoneBefore(db.items, j, db.items[j].planItem, db.items[j].asset) {
          SetItemKeepsTie(db.items, i, row, j, db.items[j].planItem, db.items[j].asset);
        }
      }
    }
  }

  lemma SetItemKeepsTie(items: map<nat, RunItem>, i: nat, row: RunItem, j: nat, p: nat, asset: Option<nat>)
    requires DoneBefore(items, j, p, asset) && (i in items ==> items[i].state in UNFINISHED)
    ensures DoneBefore(items[i := row], j, p, asset)
  {
    var k :| k in items && k < j && items[k].planItem == p && items[k].state in DONE && items[k].asset == asset;
    assert items[i := row][k] == items[k];
  }

  /** The rows stay in order when what they refer to stays. */
  lemma ItemsFrame(h: Hashes, db: Durable, db': Durable)
    requires ItemsOk(h, db) && db'.items == db.items
    requires db'.assets == db.assets && db'.locations == db.locations && db'.cas == db.cas
    requires forall r | r in db.runs :: r in db'.runs && db'.runs[r].plan == db.runs[r].plan
    requires forall p | p in db.plan :: p in db'.plan && db'.plan[p] == db.plan[p]
    ensures ItemsOk(h, db')
  {
    forall i | i in db'.items ensures ItemOk(h, db', i) { assert ItemOk(h, db, i); }
  }

  lemma RunsFrame(db: Durable, db': Durable)
    requires RunsOk(db) && db'.items == db.items && db'.runs == db.runs && db'.quarantine == db.quarantine
    ensures RunsOk(db')
  {
    forall r | r in db'.runs ensures RunOk(db', r) {
      assert RunOk(db, r);
      assert RetainedRows(db', r) == RetainedRows(db, r);
    }
  }

  lemma SetLedgerKeepsSafe(h: Hashes, db: Durable, ledger: map<nat, LedgerRow>)
    requires Safe(h, db) && LedgerOk(db.items, ledger)
    ensures Safe(h, db.(ledger := ledger))
  {
    var db' := db.(ledger := ledger);
    ItemsFrame(h, db, db');
    RunsFrame(db, db');
  }

  /** Publishing bytes, and registering the asset with its location, keep every
      asset and location there was. */
  ghost predicate Grows(db: Durable, db': Durable) {
    && db' == db.(assets := db'.assets, locations := db'.locations, cas := db'.cas)
    && db.locations <= db'.locations
    && (forall a | a in db.assets :: a in db'.assets && db'.assets[a].sha256 == db.assets[a].sha256)
    && (forall s | s in db.cas :: s in db'.cas && db'.cas[s] == db.cas[s])
  }

  lemma GrowthKeepsSafe(h: Hashes, db: Durable, db': Durable)
    requires Safe(h, db) && Grows(db, db') && StoreOk(h, db')
    ensures Safe(h, db')
  {
    forall i | i in db'.items ensures ItemOk(h, db', i) { assert ItemOk(h, db, i); }
    assert ItemsOk(h, db');
    RunsFrame(db, db');
  }

  /** What a quarantine row adds to the bytes held for a run. */
  function Held(row: QuarantineRow): nat {
    if row.retained then row.size else 0
  }

  lemma QuarantineKeepsSafe(h: Hashes, db: Durable, q: nat, row: QuarantineRow)
    requires Safe(h, db) && q !in db.quarantine && row.item in db.items
    requires var r := db.items[row.item].run; r in db.runs && Retained(db, r) + Held(row) <= db.runs[r].maxQuarantine
    ensures Safe(h, db.(quarantine := db.quarantine[q := row]))
  {
    hide ItemsOk;
    var db' := db.(quarantine := db.quarantine[q := row]);
    ItemsFrame(h, db, db');
    forall r | r in db'.runs ensures RunOk(db', r) {
      assert RunOk(db, r);
      RetainedGrows(db, q, row, r);
    }
  }

  lemma RetainedGrows(db: Durable, q: nat, row: QuarantineRow, r: nat)
    requires RunsOk(db) && q !in db.quarantine && row.item in db.items
    ensures Retained(db.(quarantine := db.quarantine[q := row]), r) ==
            Retained(db, r) + if r == db.items[row.item].run then Held(row) else 0
  {
    var db' := db.(quarantine := db.quarantine[q := row]);
    var before := RetainedRows(db, r);
    if row.retained && r == db.items[row.item].run {
      assert RetainedRows(db', r) == before + {q};
      SumSplit(before + {q}, Sizes(db'.quarantine), q);
      assert before + {q} - {q} == before;
    } else {
      assert RetainedRows(db', r) == before;
    }
    SumSame(before, Sizes(db.quarantine), Sizes(db'.quarantine));
  }

  lemma SetRunKeepsSafe(h: Hashes, db: Durable, r: nat, run: Run)
    requires Safe(h, db)
    requires r in db.runs ==> run.maxQuarantine == db.runs[r].maxQuarantine && run.plan == db.runs[r].plan
    requires run.status != RunActive ==> Settled(db.items, run, r)
    ensures Safe(h, db.(runs := db.runs[r := run]))
  {
    var db' := db.(runs := db.runs[r := run]);
    ItemsFrame(h, db, db');
    forall s | s in db'.runs ensures RunOk(db', s) {
      assert RetainedRows(db', s) == RetainedRows(db, s);
      if s in db.runs { assert RunOk(db, s); } else { NothingRetained(h, db, s); }
    }
  }

  lemma NothingRetained(h: Hashes, db: Durable, r: nat)
    requires ItemsOk(h, db) && RunsOk(db) && r !in db.runs
    ensures RetainedRows(db, r) == {}
  {
    forall q | q in db.quarantine ensures db.quarantine[q].item !in RunRows(db.items, r) {
      assert ItemOk(h, db, db.quarantine[q].item);
    }
  }
}

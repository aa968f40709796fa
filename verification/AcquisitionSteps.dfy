/** The commits acquisition is made of, when each is made, and that every state
    reached by them is sound. */
module AcquisitionSteps {

  import opened Basics
  import opened DeclaredClaims
  import opened TransferProtocol
  import opened AcquisitionTables
  import Spec = TransferSpec
  import Records = TransferRecords

  /** A partial download an earlier run left, found by a retry. */
  datatype RetryResume = RetryResume(source: nat, resume: ResumeState)

  ghost predicate StillOpen(ledger: map<nat, LedgerRow>, r: RetryResume) {
    && r.source in ledger && ledger[r.source].state == Open
    && ledger[r.source].resume.partial == r.resume.partial && ledger[r.source].resume.etag == r.resume.etag
  }

  /** The one ledger row of item i that is open, if there is one. */
  ghost predicate OpenFor(ledger: map<nat, LedgerRow>, i: nat, current: Option<nat>) {
    && (forall p: nat | IsOpenOf(ledger, p, i) :: current == Some(p))
    && (current.Some? ==> IsOpenOf(ledger, current.value, i))
  }

  /** One transaction. */
  datatype Change =
    | BeginRun(plan: map<nat, PlanItem>, run: nat, row: Run)
    | PutItem(item: nat, itemRow: RunItem)
    | PutAttempt(of: nat, attempt: Spec.Transition)
    | PutPartial(partial: nat, ledgerRow: LedgerRow)
    | HandOver(to: nat, claimed: nat, from: RetryResume)
    | Hold(quarantine: nat, held: QuarantineRow)
    | PutBytes(published: Bytes)
    | PutAsset(asset: nat, linked: Bytes)
    | FinishRun(finished: nat, final: Run)
    | Recover(recovered: nat)

  // ----- what each does -----

  function PutAttemptIn(attempts: map<nat, seq<Spec.Transition>>, i: nat, t: Spec.Transition): map<nat, seq<Spec.Transition>> {
    var rows := AttemptsOf(attempts, i);
    attempts[i := if LastRuns(rows) then rows[|rows| - 1 := t] else rows + [t]]
  }

  function Claimed(ledger: map<nat, LedgerRow>, i: nat, p: nat, r: RetryResume): map<nat, LedgerRow>
    requires r.source in ledger
  {
    ledger[r.source := ledger[r.source].(state := Consumed)][p := LedgerRow(i, r.resume, Open, |r.resume.partial.bytes|, 0, 0)]
  }

  /** Publishing under a name that is taken re-uses the bytes there. */
  function WithBytes(h: Hashes, db: Durable, bytes: Bytes): Durable {
    var sha := h.sha256(bytes);
    if sha in db.cas then db else db.(cas := db.cas[sha := bytes])
  }

  /** link_asset and add_asset_location. */
  function WithAsset(db: Durable, asset: nat, sha: string, md5: string): Durable {
    db.(assets := db.assets[asset := Asset(sha, md5)], locations := db.locations + {Location(asset, sha)})
  }

  /** The size of the item's active partial, or zero. */
  ghost function OpenBytes(ledger: map<nat, LedgerRow>, i: nat): nat {
    if p: nat :| IsOpenOf(ledger, p, i) then |ledger[p].resume.partial.bytes| else 0
  }

  function Closed(row: RunItem, n: nat): RunItem {
    row.(state := Interrupted, retryable := true, received := if n > row.received then n else row.received)
  }

  function CutOff(rows: seq<Spec.Transition>): seq<Spec.Transition> {
    if !LastRuns(rows) then rows
    else rows[|rows| - 1 := rows[|rows| - 1].(state := Spec.Interrupted, outcome := Some(ProcessEnded), retryable := true)]
  }

  predicate Unfinished(items: map<nat, RunItem>, run: nat, i: nat) {
    i in items && items[i].run == run && items[i].state in UNFINISHED
  }

  ghost function RecoveredItems(db: Durable, run: nat): map<nat, RunItem> {
    map i | i in db.items :: if Unfinished(db.items, run, i) then Closed(db.items[i], OpenBytes(db.ledger, i)) else db.items[i]
  }

  function RecoveredAttempts(db: Durable, run: nat): map<nat, seq<Spec.Transition>> {
    map i | i in db.attempts :: if i in db.items && db.items[i].run == run then CutOff(db.attempts[i]) else db.attempts[i]
  }

  /** The recount that closes a run. */
  ghost function Recounted(items: map<nat, RunItem>, r: nat, row: Run): Run {
    var completed, put := |Rows(items, r, DONE)|, |Rows(items, r, PUT_OFF)|;
    row.(status := if completed > 0 || put > 0 then RunPartial else RunFailed, completed := completed, deferred := put,
         failed := |Rows(items, r, LOST)|, received := Received(items, r))
  }

  /** recover_interrupted, in one transaction. */
  ghost function RecoveredRun(db: Durable, run: nat): Durable
    requires run in db.runs
  {
    var items := RecoveredItems(db, run);
    db.(items := items, attempts := RecoveredAttempts(db, run), runs := db.runs[run := Recounted(items, run, db.runs[run])])
  }

  // ----- when it is done -----

  ghost predicate ActiveItem(db: Durable, i: nat) {
    i in db.items && db.items[i].state in UNFINISHED && db.items[i].run in db.runs && db.runs[db.items[i].run].status == RunActive
  }

  ghost predicate PlanGrows(db: Durable, plan: map<nat, PlanItem>) {
    && (forall p | p in db.plan :: p in plan && plan[p] == db.plan[p])
    && PlanOk(db.(plan := plan))
  }

  /** A running attempt follows a finished one, a terminal one replaces it; the
      size it announces is that of the partial kept in it or pending in it, and
      the bytes it received are counted in the partial kept in it. */
  ghost predicate AttemptMayFollow(db: Durable, i: nat, t: Spec.Transition) {
    var rows := AttemptsOf(db.attempts, i);
    && (if LastRuns(rows) then t.attempt == |rows| && t.state != Spec.Running
        else t.attempt == |rows| + 1 && t.state == Spec.Running && t.received == 0 && !CutShort(rows))
    && t.outcome != Some(ProcessEnded) && Records.AttemptRecordable(t)
    && (forall p: nat | IsOpenOf(db.ledger, p, i) && db.ledger[p].seen == |rows| ::
          && (t.size.None? || t.size == db.ledger[p].resume.size)
          && (LastRuns(rows) ==> db.ledger[p].got == Spec.TotalOf(rows[..|rows| - 1]) + t.received))
  }

  /** A partial observed in the running attempt of its item: a new row for an
      item and a file that have none, or progress of the open one; or the end of
      the open one. */
  ghost predicate PartialMayBecome(trust: Option<Naming>, db: Durable, p: nat, row: LedgerRow) {
    if row.state != Open then
      p in db.ledger && db.ledger[p].state == Open && row == db.ledger[p].(state := row.state)
    else
      && ActiveItem(db, row.item) && row.seen == |AttemptsOf(db.attempts, row.item)| && LastRuns(AttemptsOf(db.attempts, row.item))
      && PartialOk(trust, db.attempts, row) && Records.PartialRecordable(row.resume)
      && if p in db.ledger then
           db.ledger[p].state == Open && db.ledger[p].item == row.item && db.ledger[p].resume.partial.name == row.resume.partial.name
         else
           forall q | q in db.ledger && db.ledger[q].state == Open ::
             db.ledger[q].item != row.item && db.ledger[q].resume.partial.name != row.resume.partial.name
  }

  ghost predicate Allowed(h: Hashes, trust: Option<Naming>, db: Durable, c: Change) {
    match c
    case BeginRun(plan, run, row) => PlanGrows(db, plan) && run !in db.runs && row.status == RunActive
    case PutItem(i, row) =>
      && row.run in db.runs && db.runs[row.run].status == RunActive && row.planItem in db.plan
      && ItemMayBecome(db.items, i, row) && ItemOk(h, db.(items := db.items[i := row]), i)
      && (Continuable(row) || OpenFor(db.ledger, i, None))
      && (row.state in UNFINISHED || !LastRuns(AttemptsOf(db.attempts, i)))
    case PutAttempt(i, t) => ActiveItem(db, i) && AttemptMayFollow(db, i, t)
    case PutPartial(p, row) => PartialMayBecome(trust, db, p, row)
    case HandOver(i, p, r) =>
      && ActiveItem(db, i) && p !in db.ledger && OpenFor(db.ledger, i, None) && StillOpen(db.ledger, r)
      && ConstructedResume(r.resume) && AttemptsOf(db.attempts, i) == []
    case Hold(q, row) =>
      && q !in db.quarantine && row.item in db.items && db.items[row.item].run in db.runs
      && Retained(db, db.items[row.item].run) + Held(row) <= db.runs[db.items[row.item].run].maxQuarantine
    case PutBytes(_) => true
    case PutAsset(asset, bytes) =>
      && h.sha256(bytes) in db.cas && db.cas[h.sha256(bytes)] == bytes
      && (if asset in db.assets then db.assets[asset].sha256 == h.sha256(bytes)
          else forall a | a in db.assets :: db.assets[a].sha256 != h.sha256(bytes))
    case FinishRun(run, row) =>
      && run in db.runs && db.runs[run].status == RunActive && Settled(db.items, row, run)
      && row.maxQuarantine == db.runs[run].maxQuarantine && row.plan == db.runs[run].plan
    case Recover(run) => run in db.runs && db.runs[run].status == RunActive
  }

  ghost function Apply(h: Hashes, trust: Option<Naming>, db: Durable, c: Change): Durable
    requires Allowed(h, trust, db, c)
  {
    match c
    case BeginRun(plan, run, row) => db.(plan := plan, runs := db.runs[run := row])
    case PutItem(i, row) => db.(items := db.items[i := row])
    case PutAttempt(i, t) => db.(attempts := PutAttemptIn(db.attempts, i, t))
    case PutPartial(p, row) => db.(ledger := db.ledger[p := row])
    case HandOver(i, p, r) => db.(ledger := Claimed(db.ledger, i, p, r))
    case Hold(q, row) => db.(quarantine := db.quarantine[q := row])
    case PutBytes(bytes) => WithBytes(h, db, bytes)
    case PutAsset(asset, bytes) => WithAsset(db, asset, h.sha256(bytes), h.md5(bytes))
    case FinishRun(run, row) => db.(runs := db.runs[run := row])
    case Recover(run) => RecoveredRun(db, run)
  }

  // ----- every one of them keeps the state sound -----

  /** Nothing about partials changes when neither they nor the attempts do. */
  lemma PartialsFrame(h: Hashes, trust: Option<Naming>, db: Durable, db': Durable)
    requires Sound(h, trust, db) && db'.ledger == db.ledger && db'.attempts == db.attempts && Safe(h, db')
    requires forall i | i in db.items ::
               && i in db'.items
               && (db'.items[i] == db.items[i] ||
                   (db.items[i].state in UNFINISHED && (db'.items[i].state in UNFINISHED || !LastRuns(AttemptsOf(db.attempts, i)))))
    ensures Sound(h, trust, db')
  {
  }

  lemma BeginKeepsSound(h: Hashes, trust: Option<Naming>, db: Durable, plan: map<nat, PlanItem>, run: nat, row: Run)
    requires Sound(h, trust, db) && Allowed(h, trust, db, BeginRun(plan, run, row))
    ensures Sound(h, trust, db.(plan := plan, runs := db.runs[run := row]))
  {
    var db1 := db.(plan := plan);
    ItemsFrame(h, db, db1);
    RunsFrame(db, db1);
    SetRunKeepsSafe(h, db1, run, row);
    PartialsFrame(h, trust, db, db.(plan := plan, runs := db.runs[run := row]));
  }

  lemma PutItemKeepsSound(h: Hashes, trust: Option<Naming>, db: Durable, i: nat, row: RunItem)
    requires Sound(h, trust, db) && Allowed(h, trust, db, PutItem(i, row))
    ensures Sound(h, trust, db.(items := db.items[i := row]))
  {
    SetItemKeepsSafe(h, db, i, row);
    PartialsFrame(h, trust, db, db.(items := db.items[i := row]));
  }

  /** The partial of an item after one more attempt row of it. */
  lemma AttemptKeepsPartial(trust: Option<Naming>, db: Durable, i: nat, t: Spec.Transition, p: nat)
    requires PartialsOk(trust, db.attempts, db.ledger) && AttemptMayFollow(db, i, t) && p in db.ledger
    ensures PartialOk(trust, PutAttemptIn(db.attempts, i, t), db.ledger[p])
  {
    assert PartialOk(trust, db.attempts, db.ledger[p]);
    var row := db.ledger[p];
    var before, after := AttemptsOf(db.attempts, row.item), AttemptsOf(PutAttemptIn(db.attempts, i, t), row.item);
    if row.item == i && row.state == Open {
      assert IsOpenOf(db.ledger, p, i);
      AttemptKeepsGot(row, before, after, t);
    }
  }

  lemma {:induction false} TotalAppend(a: seq<Spec.Transition>, b: seq<Spec.Transition>)
    ensures Spec.TotalOf(a + b) == Spec.TotalOf(a) + Spec.TotalOf(b)
  {
    if a == [] {
      assert a + b == b;
    } else {
      assert (a + b)[0] == a[0] && (a + b)[1..] == a[1..] + b;
      TotalAppend(a[1..], b);
    }
  }

  lemma AttemptKeepsGot(row: LedgerRow, before: seq<Spec.Transition>, after: seq<Spec.Transition>, t: Spec.Transition)
    requires GotFits(row, before) && after == (if LastRuns(before) then before[|before| - 1 := t] else before + [t])
    requires if LastRuns(before) then t.state != Spec.Running && t.outcome != Some(ProcessEnded) else !CutShort(before)
    requires LastRuns(before) && row.seen == |before| ==> row.got == Spec.TotalOf(before[..|before| - 1]) + t.received
    ensures GotFits(row, after)
  {
    if LastRuns(before) && row.seen == |before| {
      assert after[..row.seen] == before[..|before| - 1] + [t];
      TotalAppend(before[..|before| - 1], [t]);
      assert [t][1..] == [];
    } else {
      assert after[..row.seen] == before[..row.seen];
    }
  }

  /** Safety does not look at attempts. */
  lemma AttemptsFrame(h: Hashes, db: Durable, attempts: map<nat, seq<Spec.Transition>>)
    requires Safe(h, db)
    ensures Safe(h, db.(attempts := attempts))
  {
    ItemsFrame(h, db, db.(attempts := attempts));
    RunsFrame(db, db.(attempts := attempts));
  }

  lemma AttemptKeepsRows(db: Durable, i: nat, t: Spec.Transition)
    requires AttemptsOk(db.items, db.attempts) && AttemptMayFollow(db, i, t) && i in db.items && db.items[i].state in UNFINISHED
    ensures AttemptsOk(db.items, PutAttemptIn(db.attempts, i, t))
  {
    var attempts := PutAttemptIn(db.attempts, i, t);
    assert i in db.attempts ==> RowsOk(db.attempts[i]);
    forall j | j in attempts
      ensures j in db.items && RowsOk(attempts[j]) && (LastRuns(attempts[j]) ==> db.items[j].state in UNFINISHED)
      ensures CutShort(attempts[j]) && db.items[j].state in UNFINISHED ==> LastRuns(attempts[j])
    {
      if j != i { assert attempts[j] == db.attempts[j]; }
    }
  }

  lemma PutAttemptKeepsSound(h: Hashes, trust: Option<Naming>, db: Durable, i: nat, t: Spec.Transition)
    requires Sound(h, trust, db) && Allowed(h, trust, db, PutAttempt(i, t))
    ensures Sound(h, trust, db.(attempts := PutAttemptIn(db.attempts, i, t)))
  {
    var db' := db.(attempts := PutAttemptIn(db.attempts, i, t));
    forall p | p in db'.ledger ensures PartialOk(trust, db'.attempts, db'.ledger[p]) { AttemptKeepsPartial(trust, db, i, t, p); }
    AttemptKeepsRows(db, i, t);
    AttemptsFrame(h, db, db'.attempts);
  }

  lemma SetLedgerKeepsSound(h: Hashes, trust: Option<Naming>, db: Durable, ledger: map<nat, LedgerRow>)
    requires Sound(h, trust, db) && LedgerOk(db.items, ledger) && PartialsOk(trust, db.attempts, ledger)
    ensures Sound(h, trust, db.(ledger := ledger))
  {
    SetLedgerKeepsSafe(h, db, ledger);
  }

  lemma PutPartialKeepsSound(h: Hashes, trust: Option<Naming>, db: Durable, p: nat, row: LedgerRow)
    requires Sound(h, trust, db) && Allowed(h, trust, db, PutPartial(p, row))
    ensures Sound(h, trust, db.(ledger := db.ledger[p := row]))
  {
    hide ItemsOk, PlanOk, StoreOk, RunsOk, AttemptsOk;
    var ledger := db.ledger[p := row];
    forall q | q in ledger ensures PartialOk(trust, db.attempts, ledger[q]) {
      if q in db.ledger { assert PartialOk(trust, db.attempts, db.ledger[q]); }
    }
    SetLedgerKeepsSound(h, trust, db, ledger);
  }

  /** Ending an open row, or rewriting its progress. */
  lemma RewriteKeepsLedger(items: map<nat, RunItem>, ledger: map<nat, LedgerRow>, p: nat, row: LedgerRow)
    requires LedgerOk(items, ledger) && p in ledger && row.item == ledger[p].item && (row.state == Open ==> ledger[p].state == Open)
    requires row.resume.partial.name == ledger[p].resume.partial.name
    ensures LedgerOk(items, ledger[p := row])
  {
    var ledger' := ledger[p := row];
    forall q, r | q in ledger' && r in ledger' && ledger'[q].state == Open && ledger'[r].state == Open
      && (ledger'[q].item == ledger'[r].item || ledger'[q].resume.partial.name == ledger'[r].resume.partial.name) ensures q == r
    {
      assert ledger[q].item == ledger'[q].item && ledger[r].resume.partial.name == ledger'[r].resume.partial.name;
    }
  }

  /** A new open row for an item and a staging file that have none. */
  lemma OpenKeepsLedger(items: map<nat, RunItem>, ledger: map<nat, LedgerRow>, p: nat, row: LedgerRow)
    requires LedgerOk(items, ledger) && p !in ledger && row.item in items && Continuable(items[row.item])
    requires forall q | q in ledger && ledger[q].state == Open :: ledger[q].item != row.item && ledger[q].resume.partial.name != row.resume.partial.name
    ensures LedgerOk(items, ledger[p := row])
  {
  }

  /** The staging file changes hands: never two open rows for it. */
  lemma ClaimKeepsLedger(items: map<nat, RunItem>, ledger: map<nat, LedgerRow>, i: nat, p: nat, r: RetryResume)
    requires LedgerOk(items, ledger) && p !in ledger && i in items && Continuable(items[i])
    requires OpenFor(ledger, i, None) && StillOpen(ledger, r)
    ensures LedgerOk(items, Claimed(ledger, i, p, r)) && OpenFor(Claimed(ledger, i, p, r), i, Some(p))
  {
    var consumed := ledger[r.source].(state := Consumed);
    RewriteKeepsLedger(items, ledger, r.source, consumed);
    var given := ledger[r.source := consumed];
    forall q | q in given && given[q].state == Open
      ensures given[q].item != i && given[q].resume.partial.name != r.resume.partial.name
    {
      assert ledger[q] == given[q] && (ledger[q].item == i ==> IsOpenOf(ledger, q, i));
      assert q != r.source && ledger[r.source].state == Open;
    }
    OpenKeepsLedger(items, given, p, LedgerRow(i, r.resume, Open, |r.resume.partial.bytes|, 0, 0));
  }

  lemma ClaimKeepsPartials(trust: Option<Naming>, db: Durable, i: nat, p: nat, r: RetryResume)
    requires PartialsOk(trust, db.attempts, db.ledger) && StillOpen(db.ledger, r) && ConstructedResume(r.resume)
    requires AttemptsOf(db.attempts, i) == []
    ensures PartialsOk(trust, db.attempts, Claimed(db.ledger, i, p, r))
  {
    var ledger := Claimed(db.ledger, i, p, r);
    assert PartialOk(trust, db.attempts, db.ledger[r.source]);
    forall q | q in ledger ensures PartialOk(trust, db.attempts, ledger[q]) {
      if q != p { assert PartialOk(trust, db.attempts, db.ledger[q]); }
    }
  }

  lemma HandOverKeepsSound(h: Hashes, trust: Option<Naming>, db: Durable, i: nat, p: nat, r: RetryResume)
    requires Sound(h, trust, db) && Allowed(h, trust, db, HandOver(i, p, r))
    ensures Sound(h, trust, db.(ledger := Claimed(db.ledger, i, p, r)))
  {
    ClaimKeepsLedger(db.items, db.ledger, i, p, r);
    ClaimKeepsPartials(trust, db, i, p, r);
    SetLedgerKeepsSound(h, trust, db, Claimed(db.ledger, i, p, r));
  }

  lemma PutBytesKeepsSafe(h: Hashes, db: Durable, bytes: Bytes)
    requires Safe(h, db)
    ensures Safe(h, WithBytes(h, db, bytes))
  {
    if h.sha256(bytes) !in db.cas { GrowthKeepsSafe(h, db, db.(cas := db.cas[h.sha256(bytes) := bytes])); }
  }

  lemma PutAssetKeepsSafe(h: Hashes, db: Durable, asset: nat, bytes: Bytes)
    requires Safe(h, db)
    requires h.sha256(bytes) in db.cas && db.cas[h.sha256(bytes)] == bytes
    requires if asset in db.assets then db.assets[asset].sha256 == h.sha256(bytes)
             else forall a | a in db.assets :: db.assets[a].sha256 != h.sha256(bytes)
    ensures Safe(h, WithAsset(db, asset, h.sha256(bytes), h.md5(bytes)))
  {
    var db' := WithAsset(db, asset, h.sha256(bytes), h.md5(bytes));
    assert forall a | a in db'.assets && a != asset :: a in db.assets && db'.assets[a] == db.assets[a];
    GrowthKeepsSafe(h, db, db');
  }

  // ----- recovery -----

  /** Rows of a run nobody recovers are as before. */
  lemma RecoveryKeepsRows(db: Durable, run: nat, r: nat, states: set<ItemState>)
    requires r != run
    ensures Rows(RecoveredItems(db, run), r, states) == Rows(db.items, r, states)
  {
  }

  lemma RecoveryKeepsOthers(db: Durable, run: nat, r: nat)
    requires r != run && r in db.runs && Settled(db.items, db.runs[r], r)
    ensures Settled(RecoveredItems(db, run), db.runs[r], r)
  {
    RecoveryKeepsRows(db, run, r, UNFINISHED);
    RecoveryKeepsRows(db, run, r, DONE);
    RecoveryKeepsRows(db, run, r, PUT_OFF);
    RecoveryKeepsRows(db, run, r, LOST);
    var items := RecoveredItems(db, run);
    assert RunRows(items, r) == RunRows(db.items, r);
    SumSame(RunRows(db.items, r), ReceivedBy(db.items), ReceivedBy(items));
  }

  /** No row of the recovered run is unfinished, so the recount settles it. */
  lemma RecountSettles(db: Durable, run: nat, row: Run)
    ensures Settled(RecoveredItems(db, run), Recounted(RecoveredItems(db, run), run, row), run)
  {
    var items := RecoveredItems(db, run);
    forall i | i in items && items[i].run == run ensures items[i].state !in UNFINISHED {}
    assert Rows(items, run, UNFINISHED) == {};
  }

  lemma RecoveryKeepsItems(h: Hashes, db: Durable, run: nat, db': Durable)
    requires ItemsOk(h, db) && db' == db.(items := RecoveredItems(db, run))
    ensures ItemsOk(h, db')
  {
    forall i | i in db'.items ensures ItemOk(h, db', i) {
      assert ItemOk(h, db, i);
      var row := db.items[i];
      if DoneBefore(db.items, i, row.planItem, row.asset) {
        var k :| k in db.items && k < i && db.items[k].planItem == row.planItem && db.items[k].state in DONE && db.items[k].asset == row.asset;
        assert db'.items[k] == db.items[k];
      }
    }
  }

  lemma RecoveryKeepsRuns(h: Hashes, db: Durable, run: nat, db': Durable)
    requires RunsOk(db) && run in db.runs
    requires db' == db.(items := RecoveredItems(db, run), runs := db.runs[run := Recounted(RecoveredItems(db, run), run, db.runs[run])])
    ensures RunsOk(db')
  {
    forall r | r in db'.runs ensures RunOk(db', r) {
      assert RunOk(db, r);
      assert RetainedRows(db', r) == RetainedRows(db, r);
      if r == run {
        RecountSettles(db, run, db.runs[run]);
      } else if db.runs[r].status != RunActive {
        RecoveryKeepsOthers(db, run, r);
      }
    }
  }

  lemma CutOffSame(rows: seq<Spec.Transition>)
    ensures |CutOff(rows)| == |rows| && LastSize(CutOff(rows)) == LastSize(rows) && CutShort(CutOff(rows)) == CutShort(rows)
    ensures !LastRuns(CutOff(rows)) && (RowsOk(rows) ==> RowsOk(CutOff(rows)))
  {
  }

  lemma CutOffKeepsGot(row: LedgerRow, rows: seq<Spec.Transition>)
    requires GotFits(row, rows)
    ensures GotFits(row, CutOff(rows))
  {
    CutOffSame(rows);
    if row.seen < |rows| { assert CutOff(rows)[..row.seen] == rows[..row.seen]; }
  }

  lemma RecoveryKeepsPartials(trust: Option<Naming>, db: Durable, run: nat)
    requires PartialsOk(trust, db.attempts, db.ledger)
    ensures PartialsOk(trust, RecoveredAttempts(db, run), db.ledger)
  {
    forall p | p in db.ledger ensures PartialOk(trust, RecoveredAttempts(db, run), db.ledger[p]) {
      assert PartialOk(trust, db.attempts, db.ledger[p]);
      CutOffSame(AttemptsOf(db.attempts, db.ledger[p].item));
      if db.ledger[p].state == Open { CutOffKeepsGot(db.ledger[p], AttemptsOf(db.attempts, db.ledger[p].item)); }
    }
  }

  lemma RecoveryKeepsAttempts(db: Durable, run: nat)
    requires AttemptsOk(db.items, db.attempts)
    ensures AttemptsOk(RecoveredItems(db, run), RecoveredAttempts(db, run))
  {
    var attempts := RecoveredAttempts(db, run);
    forall i | i in attempts
      ensures i in db.items && RowsOk(attempts[i]) && (LastRuns(attempts[i]) ==> RecoveredItems(db, run)[i].state in UNFINISHED)
      ensures CutShort(attempts[i]) && RecoveredItems(db, run)[i].state in UNFINISHED ==> LastRuns(attempts[i])
    {
      assert db.attempts[i] == db.attempts[i];
      CutOffSame(db.attempts[i]);
    }
  }

  lemma RecoverKeepsSound(h: Hashes, trust: Option<Naming>, db: Durable, run: nat)
    requires Sound(h, trust, db) && run in db.runs
    ensures Sound(h, trust, RecoveredRun(db, run))
  {
    var items := RecoveredItems(db, run);
    var db1 := db.(items := items);
    var db2 := db1.(runs := db.runs[run := Recounted(items, run, db.runs[run])]);
    RecoveryKeepsItems(h, db, run, db1);
    ItemsFrame(h, db1, db2);
    RecoveryKeepsRuns(h, db, run, db2);
    assert Safe(h, db2);
    AttemptsFrame(h, db2, RecoveredAttempts(db, run));
    RecoveryKeepsAttempts(db, run);
    RecoveryKeepsPartials(trust, db, run);
  }

  // ----- all of them -----

  lemma StoreKeepsSound(h: Hashes, trust: Option<Naming>, db: Durable, c: Change)
    requires Sound(h, trust, db) && Allowed(h, trust, db, c) && (c.Hold? || c.PutBytes? || c.PutAsset? || c.FinishRun?)
    ensures Sound(h, trust, Apply(h, trust, db, c))
  {
    match c
    case Hold(q, row) => QuarantineKeepsSafe(h, db, q, row);
    case PutBytes(bytes) => PutBytesKeepsSafe(h, db, bytes);
    case PutAsset(asset, bytes) => PutAssetKeepsSafe(h, db, asset, bytes);
    case FinishRun(run, row) => SetRunKeepsSafe(h, db, run, row);
  }

  /** Every commit that is made keeps the state sound. */
  lemma ApplyKeepsSound(h: Hashes, trust: Option<Naming>, db: Durable, c: Change)
    requires Sound(h, trust, db) && Allowed(h, trust, db, c)
    ensures Sound(h, trust, Apply(h, trust, db, c))
  {
    match c
    case BeginRun(plan, run, row) => BeginKeepsSound(h, trust, db, plan, run, row);
    case PutItem(i, row) => PutItemKeepsSound(h, trust, db, i, row);
    case PutAttempt(i, t) => PutAttemptKeepsSound(h, trust, db, i, t);
    case PutPartial(p, row) => PutPartialKeepsSound(h, trust, db, p, row);
    case HandOver(i, p, r) => HandOverKeepsSound(h, trust, db, i, p, r);
    case Hold(_, _) => StoreKeepsSound(h, trust, db, c);
    case PutBytes(_) => StoreKeepsSound(h, trust, db, c);
    case PutAsset(_, _) => StoreKeepsSound(h, trust, db, c);
    case FinishRun(_, _) => StoreKeepsSound(h, trust, db, c);
    case Recover(run) => RecoverKeepsSound(h, trust, db, run);
  }

  predicate Shown(b: bool) { b }

  /** b is a after one commit. The definition is used only where Shown(true) is
      asserted. */
  ghost predicate Stepped(h: Hashes, trust: Option<Naming>, a: Durable, b: Durable) {
    forall k {:trigger Shown(k)} | Shown(k) :: exists c :: Allowed(h, trust, a, c) && b == Apply(h, trust, a, c)
  }

  function Empty(): Durable {
    Durable(map[], map[], map[], map[], map[], map[], map[], {}, map[])
  }

  ghost predicate SteppedAt(h: Hashes, trust: Option<Naming>, log: seq<Durable>, n: nat)
    requires 0 < n < |log|
  {
    Stepped(h, trust, log[n - 1], log[n])
  }

  /** The durable states from the empty catalogue on, one commit apart. */
  ghost predicate Chain(h: Hashes, trust: Option<Naming>, log: seq<Durable>) {
    && |log| > 0 && log[0] == Empty()
    && forall n {:trigger SteppedAt(h, trust, log, n)} | 0 < n < |log| :: SteppedAt(h, trust, log, n)
  }

  /** Every state any commit left is sound. */
  lemma {:induction false} ChainSound(h: Hashes, trust: Option<Naming>, log: seq<Durable>, n: nat)
    requires Chain(h, trust, log) && n < |log|
    ensures Sound(h, trust, log[n])
  {
    if n == 0 {
      EmptySound(h, trust);
    } else {
      ChainSound(h, trust, log, n - 1);
      assert SteppedAt(h, trust, log, n);
      StepKeepsSound(h, trust, log[n - 1], log[n]);
    }
  }

  lemma EmptySound(h: Hashes, trust: Option<Naming>)
    ensures Sound(h, trust, Empty())
  {
  }

  lemma StepKeepsSound(h: Hashes, trust: Option<Naming>, a: Durable, b: Durable)
    requires Sound(h, trust, a) && Stepped(h, trust, a, b)
    ensures Sound(h, trust, b)
  {
    assert Shown(true);
    var c :| Allowed(h, trust, a, c) && b == Apply(h, trust, a, c);
    ApplyKeepsSound(h, trust, a, c);
  }

  lemma ChainOne(h: Hashes, trust: Option<Naming>, log: seq<Durable>, c: Change)
    requires Chain(h, trust, log) && Allowed(h, trust, log[|log| - 1], c)
    ensures Chain(h, trust, log + [Apply(h, trust, log[|log| - 1], c)])
  {
    var more := log + [Apply(h, trust, log[|log| - 1], c)];
    forall n | 0 < n < |more| ensures SteppedAt(h, trust, more, n) {
      if n < |log| { assert SteppedAt(h, trust, log, n); } else { assert Stepped(h, trust, more[n - 1], more[n]); }
    }
  }

  lemma ChainPrefix(h: Hashes, trust: Option<Naming>, log: seq<Durable>, keep: nat)
    requires Chain(h, trust, log) && keep < |log|
    ensures Chain(h, trust, log[..keep + 1])
  {
    var less := log[..keep + 1];
    forall n | 0 < n < |less| ensures SteppedAt(h, trust, less, n) { assert SteppedAt(h, trust, log, n); }
  }
}

/** What must hold before an item of a run may send a request, what stops it
    otherwise, and what becomes of it after that: field by field, of the rows of
    the catalogue. */
module AcquisitionGates {

  import opened Basics
  import opened DeclaredClaims
  import opened TransferProtocol
  import opened AcquisitionTables
  import opened AcquisitionSteps
  import opened Publication
  import opened AcquisitionOutcome
  import opened AcquisitionRun
  import opened AcquisitionCounters
  import opened AcquisitionService
  import Spec = TransferSpec
  import Records = TransferRecords

  // ----- before the request -----

  /** A row of the plan item that was done before. */
  predicate DoneRow(db: Durable, p: nat, j: nat) {
    j in db.items && db.items[j].planItem == p && (db.items[j].state == Complete || db.items[j].state == Satisfied)
  }

  predicate FirstDoneRow(db: Durable, p: nat, j: nat) {
    DoneRow(db, p, j) && forall k {:trigger DoneRow(db, p, k)} | DoneRow(db, p, k) :: j <= k
  }

  /** Every done row has an asset, as in every sound catalogue. */
  ghost predicate DoneRowsHaveAssets(db: Durable, p: nat) {
    forall j {:trigger DoneRow(db, p, j)} | DoneRow(db, p, j) :: db.items[j].asset.Some?
  }

  /** Nothing stops the item: nobody did it before, it is eligible, there are
      budget and time left, its occurrence is current and its request allowed. */
  ghost predicate MaySend(db: Durable, p: nat, w: ItemWorld, nature: Spec.Nature, e: Spec.Env, deadline: real) {
    && (forall j: nat {:trigger DoneRow(db, p, j)} :: !DoneRow(db, p, j))
    && p in db.plan && db.plan[p].eligibility == Eligible
    && e.used < nature.maxBytes && nature.readings(e.tick) < deadline
    && w.current && w.policyFits && w.recipeAllowed
  }

  /** An item that ends without a request and without bytes. */
  predicate EndsWithout(v: ItemVerdict, state: ItemState, retryable: bool, content: Content, counted: Counted,
                        outcome: ItemOutcome) {
    v == ItemVerdict(state, retryable, 0, None, None, content, [], 0, None, counted, outcome)
  }

  lemma PriorIsFirst(db: Durable, p: nat, j: nat)
    requires FirstDoneRow(db, p, j)
    ensures PriorAsset(db.items, p) == db.items[j].asset
  {
    assert IsFirstDone(db.items, p, j) by {
      forall k | k in db.items && db.items[k].planItem == p && db.items[k].state in DONE ensures j <= k { assert DoneRow(db, p, k); }
    }
  }

  lemma NoPrior(db: Durable, p: nat)
    requires forall j: nat {:trigger DoneRow(db, p, j)} :: !DoneRow(db, p, j)
    ensures PriorAsset(db.items, p).None?
  {
    forall j: nat ensures !IsFirstDone(db.items, p, j) { assert !DoneRow(db, p, j); }
  }

  lemma FirstOfDone(db: Durable, p: nat, k: nat) returns (j: nat)
    requires DoneRow(db, p, k)
    ensures FirstDoneRow(db, p, j)
    decreases k
  {
    j := k;
    if i: nat :| i < k && DoneRow(db, p, i) { j := FirstOfDone(db, p, i); }
  }

  /** What stops an item, in the order it is looked for. */
  lemma GateDecides(h: Hashes, db: Durable, p: nat, w: ItemWorld, nature: Spec.Nature, limits: RunLimits, deadline: real,
                    resume: Option<RetryResume>, maxHeld: nat, e: Spec.Env)
    requires PositiveLimits(limits) && p in db.plan && DoneRowsHaveAssets(db, p)
    ensures var v := VerdictOf(h, db, p, w, nature, limits, deadline, resume, maxHeld, e);
      var late := e.used >= nature.maxBytes || nature.readings(e.tick) >= deadline;
      && (forall j {:trigger FirstDoneRow(db, p, j)} | FirstDoneRow(db, p, j) ::
            v.Some? && EndsWithout(v.value, Satisfied, false, OfAsset(db.items[j].asset.value), AsCompleted, SatisfiedAlready))
      && ((forall j: nat {:trigger DoneRow(db, p, j)} :: !DoneRow(db, p, j)) ==>
            match db.plan[p].eligibility
            case AlreadySatisfied(a) => v.Some? && EndsWithout(v.value, Satisfied, false, OfAsset(a), AsCompleted, SatisfiedAlready)
            case Excluded(unavailable) =>
              v.Some? && EndsWithout(v.value, NotComplete, false, NoAsset, AsFailed, if unavailable then NotAvailable else PolicyRefused)
            case Eligible =>
              && (late ==> v.Some? && EndsWithout(v.value, Deferred, true, NoAsset, AsDeferred, OutOfBudget))
              && (!late && !w.current ==> v.Some? && EndsWithout(v.value, Stale, false, NoAsset, AsFailed, StaleTarget))
              && (!late && w.current && !(w.policyFits && w.recipeAllowed) ==>
                    v.Some? && EndsWithout(v.value, NotComplete, false, NoAsset, AsFailed, PolicyRefused)))
  {
    hide ReconcileOf, AfterTransfer, FoundVerdict, FaultyVerdict, ItemTransfer;
    VerdictIs(h, db, p, w, nature, limits, deadline, resume, maxHeld, e);
    if j: nat :| FirstDoneRow(db, p, j) {
      forall j | FirstDoneRow(db, p, j) ensures PriorAsset(db.items, p) == db.items[j].asset { PriorIsFirst(db, p, j); }
    } else if j: nat :| DoneRow(db, p, j) {
      var _ := FirstOfDone(db, p, j);
    } else {
      NoPrior(db, p);
    }
  }

  /** An item that made an attempt, is complete or aborted its run was allowed to
      send its request when it was its turn. */
  lemma SentOnly(h: Hashes, db: Durable, p: nat, w: ItemWorld, nature: Spec.Nature, limits: RunLimits, deadline: real,
                 resume: Option<RetryResume>, maxHeld: nat, e: Spec.Env)
    requires PositiveLimits(limits) && p in db.plan && DoneRowsHaveAssets(db, p)
    ensures var v := VerdictOf(h, db, p, w, nature, limits, deadline, resume, maxHeld, e);
      v.None? || v.value.attempts != [] || v.value.content.OfBytes? || v.value.state == Complete ==> MaySend(db, p, w, nature, e, deadline)
  {
    GateDecides(h, db, p, w, nature, limits, deadline, resume, maxHeld, e);
    if j: nat :| DoneRow(db, p, j) {
      var i := FirstOfDone(db, p, j);
      assert FirstDoneRow(db, p, i);
    }
  }

  // ----- bytes of an earlier row -----

  /** The latest row of the plan item with a digest and no asset. */
  predicate LastHashed(db: Durable, p: nat, j: nat) {
    && j in db.items && db.items[j].planItem == p && db.items[j].asset.None? && db.items[j].sha256.Some?
    && forall k | k in db.items && db.items[k].planItem == p && db.items[k].asset.None? && db.items[k].sha256.Some? :: k <= j
  }

  /** The catalogue's name for a storage error. */
  predicate StorageMeans(category: string, outcome: ItemOutcome) {
    && (category == "hash_mismatch" ==> outcome == HashMismatch)
    && (category == "inspection_failed" ==> outcome == StorageFailed("inspection_failure"))
    && (category == "storage_integrity_failed" ==> outcome == StorageFailed("storage_integrity_failure"))
    && (category == "limit_exceeded" ==> outcome == StorageFailed("response_too_large"))
    && (category !in {"hash_mismatch", "inspection_failed", "storage_integrity_failed", "limit_exceeded"} ==>
          outcome == StorageFailed("storage_failure"))
  }

  /** The bytes are published for the item, or held in quarantine because a
      declared hash disagrees; a copy over the cap is not kept. */
  predicate PublishedOrHeld(h: Hashes, d: Declared, bytes: Bytes, cap: nat, received: nat, attempts: seq<Spec.Transition>,
                            good: ItemOutcome,
                            v: ItemVerdict)
  {
    && v.received == received && v.attempts == attempts && !v.retryable && v.left.None?
    && v.sha256 == Some(h.sha256(bytes)) && v.md5 == Some(h.md5(bytes))
    && if HashesFit(h, d, bytes) then
         v.state == Complete && v.content == OfBytes(bytes) && v.held == 0 && v.counted == AsCompleted && v.outcome == good
       else
         && v.state == Quarantined && v.content == NoAsset && v.counted == AsFailed && v.outcome == HashMismatch
         && v.held == (if |bytes| <= cap then |bytes| else 0)
  }

  /** The operation that these bytes need next fails. */
  predicate StoreFails(h: Hashes, d: Declared, bytes: Bytes, w: StorageWorld, cap: nat, category: string) {
    if w.inspectFault.Some? then category == w.inspectFault.value
    else if HashesFit(h, d, bytes) then w.publishFault == Some(category)
    else |bytes| <= cap && w.quarantineFault == Some(category)
  }

  predicate StoreWorks(h: Hashes, d: Declared, bytes: Bytes, w: StorageWorld, cap: nat) {
    w.inspectFault.None? && if HashesFit(h, d, bytes) then w.publishFault.None? else |bytes| > cap || w.quarantineFault.None?
  }

  lemma MaySendIs(db: Durable, p: nat, w: ItemWorld, nature: Spec.Nature, e: Spec.Env, deadline: real)
    requires MaySend(db, p, w, nature, e, deadline)
    ensures EarlyOf(db, p, w, nature, e, deadline).None?
  {
    NoPrior(db, p);
  }

  lemma LastHashedIs(db: Durable, p: nat, j: nat)
    requires LastHashed(db, p, j)
    ensures OrphanOf(db.items, p) == Some(Orphan(db.items[j].sha256.value, db.items[j].md5))
  {
    assert IsLastOrphan(db.items, p, j);
  }

  /** A row with a digest was left: bytes in the store under it are linked
      without a request when they still have the recorded hash; bytes that do
      not, and a store that fails, end the item. */
  lemma StoredBytesDecide(h: Hashes, db: Durable, p: nat, w: ItemWorld, nature: Spec.Nature, limits: RunLimits, deadline: real,
                          resume: Option<RetryResume>, cap: nat, e: Spec.Env, j: nat)
    requires PositiveLimits(limits) && MaySend(db, p, w, nature, e, deadline) && LastHashed(db, p, j)
    requires w.reconcileFault.Some? || db.items[j].sha256.value in db.cas
    ensures var v, row := VerdictOf(h, db, p, w, nature, limits, deadline, resume, cap, e), db.items[j];
      var broken := w.reconcileFault.None? && row.md5.Some? && Lower(row.md5.value) != Lower(h.md5(db.cas[row.sha256.value]));
      if w.reconcileFault.Some? || broken then
        && v.Some? && v.value == ItemVerdict(NotComplete, false, 0, row.sha256, row.md5, NoAsset, [], 0, None, AsFailed, v.value.outcome)
        && StorageMeans(if broken then "storage_integrity_failed" else w.reconcileFault.value, v.value.outcome)
      else
        var d, bytes := db.plan[p].declared, db.cas[row.sha256.value];
        && (v.Some? <==> StoreWorks(h, d, bytes, w.storage, cap))
        && (v.Some? ==> PublishedOrHeld(h, d, bytes, cap, 0, [], Existing, v.value))
  {
    MaySendIs(db, p, w, nature, e, deadline);
    LastHashedIs(db, p, j);
    VerdictIs(h, db, p, w, nature, limits, deadline, resume, cap, e);
  }

  // ----- the transfer -----

  /** There is nothing in the store to use instead of a download. */
  ghost predicate NothingStored(db: Durable, p: nat, w: ItemWorld) {
    || (forall j: nat {:trigger LastHashed(db, p, j)} :: !LastHashed(db, p, j))
    || (w.reconcileFault.None? && exists j :: LastHashed(db, p, j) && db.items[j].sha256.value !in db.cas)
  }

  /** The engine is given what is left of the run's time, at least a thousandth
      of a second, and waits for a quarter of a second to five seconds. */
  function RunTransfer(nature: Spec.Nature, w: ItemWorld, limits: RunLimits, deadline: real, resume: Option<RetryResume>,
                       e: Spec.Env): Spec.Transferred
    requires PositiveLimits(limits)
  {
    var left := deadline - nature.readings(e.tick + 1);
    Spec.TransferOf(nature, w.identity, w.scripts,
                    Spec.Limits(limits.maxItemBytes, limits.maxAttempts, if left >= 0.001 then left else 0.001, limits.maxRedirects, 0.25, 5.0),
                    if resume.Some? then Some(resume.value.resume) else None, e.(tick := e.tick + 2))
  }

  /** What a transfer without a file leaves of its item. */
  predicate GivesUp(r: Spec.Result, attempts: seq<Spec.Transition>, v: ItemVerdict) {
    && v == ItemVerdict(v.state, r.retryable, r.received, None, None, NoAsset, attempts, 0, r.resume, v.counted, TransferEnded(r.outcome))
    && v.counted == (if v.state == Interrupted then AsDeferred else AsFailed)
    && (r.outcome == StorageFailure("hash_mismatch") ==> v.state == Quarantined)
    && (r.outcome == StorageFailure("stale_target") ==> v.state == Stale)
    && (r.outcome != StorageFailure("hash_mismatch") && r.outcome != StorageFailure("stale_target") ==>
          v.state == (if r.state == Spec.Interrupted then Interrupted else NotComplete))
  }

  /** Staged bytes that cannot be inspected, published or held. */
  predicate NotStored(h: Hashes, bytes: Bytes, w: StorageWorld, category: string, received: nat,
                      attempts: seq<Spec.Transition>, v: ItemVerdict) {
    && v == ItemVerdict(NotComplete, false, received, v.sha256, v.md5, NoAsset, attempts, 0, None, AsFailed, v.outcome)
    && StorageMeans(category, v.outcome)
    && (if w.inspectFault.Some? then v.sha256.None? && v.md5.None? else v.sha256 == Some(h.sha256(bytes)) && v.md5 == Some(h.md5(bytes)))
  }

  lemma NothingStoredIs(h: Hashes, db: Durable, p: nat, w: ItemWorld)
    requires NothingStored(db, p, w)
    ensures ReconcileOf(h, db, p, w).Nothing?
  {
    if j: nat :| LastHashed(db, p, j) {
      forall i | LastHashed(db, p, i) ensures i == j {}
      LastHashedIs(db, p, j);
    } else {
      forall j: nat ensures !IsLastOrphan(db.items, p, j) { assert !LastHashed(db, p, j); }
    }
  }

  /** Otherwise the item is what its transfer and the store make of it: aborted
      when something in it cannot be recorded, given up, published or held. */
  lemma TransferDecides(h: Hashes, db: Durable, p: nat, w: ItemWorld, nature: Spec.Nature, limits: RunLimits, deadline: real,
                        resume: Option<RetryResume>, cap: nat, e: Spec.Env)
    requires PositiveLimits(limits) && MaySend(db, p, w, nature, e, deadline) && NothingStored(db, p, w)
    ensures var v, t := VerdictOf(h, db, p, w, nature, limits, deadline, resume, cap, e), RunTransfer(nature, w, limits, deadline, resume, e);
      var d, attempts := db.plan[p].declared, Spec.Attempts(t.events);
      && (v.Some? <==> t.end.Returned? && Records.AllRecordable(t.events))
      && (v.Some? && t.end.result.staged.None? ==> GivesUp(t.end.result, attempts, v.value))
      && (v.Some? && t.end.result.staged.Some? ==>
            var r, bytes := t.end.result, t.end.result.staged.value;
            && (StoreWorks(h, d, bytes, w.storage, cap) ==>
                  PublishedOrHeld(h, d, bytes, cap, r.received, attempts, FreshDownload(w.storage.exactOnly), v.value))
            && (forall category | StoreFails(h, d, bytes, w.storage, cap, category) ::
                  NotStored(h, bytes, w.storage, category, r.received, attempts, v.value)))
  {
    MaySendIs(db, p, w, nature, e, deadline);
    hide MaySend, NothingStored, ReconcileOf, EarlyOf;
    NothingStoredIs(h, db, p, w);
    VerdictIs(h, db, p, w, nature, limits, deadline, resume, cap, e);
    assert RunTransfer(nature, w, limits, deadline, resume, e) == ItemTransfer(nature, w, limits, deadline, resume, e.(tick := e.tick + 1));
  }

  // ----- the rows of a run -----

  /** The row of an item that ended without a request and without bytes. */
  predicate LeftWithout(row: RunItem, attempts: seq<Spec.Transition>, state: ItemState, retryable: bool, asset: Option<nat>) {
    row == RunItem(row.run, row.planItem, state, retryable, 0, asset, None, None) && attempts == []
  }

  /** What the row of the item that came from m says of m. */
  ghost predicate RowGated(m: Moment, o: Order, p: nat, w: ItemWorld, row: RunItem, attempts: seq<Spec.Transition>) {
    var late := m.env.used >= o.nature.maxBytes || o.nature.readings(m.env.tick) >= o.deadline;
    && (attempts != [] || row.state == Complete ==> MaySend(m.db, p, w, o.nature, m.env, o.deadline))
    && (forall j {:trigger FirstDoneRow(m.db, p, j)} | FirstDoneRow(m.db, p, j) :: LeftWithout(row, attempts, Satisfied, false, m.db.items[j].asset))
    && (p in m.db.plan && (forall j: nat {:trigger DoneRow(m.db, p, j)} :: !DoneRow(m.db, p, j)) ==>
          match m.db.plan[p].eligibility
          case AlreadySatisfied(a) => LeftWithout(row, attempts, Satisfied, false, Some(a))
          case Excluded(_) => LeftWithout(row, attempts, NotComplete, false, None)
          case Eligible =>
            && (late ==> LeftWithout(row, attempts, Deferred, true, None))
            && (!late && !w.current ==> LeftWithout(row, attempts, Stale, false, None))
            && (!late && w.current && !(w.policyFits && w.recipeAllowed) ==> LeftWithout(row, attempts, NotComplete, false, None)))
  }

  ghost predicate NewRowGated(o: Order, a: Moment, b: Moment, k: nat, i: nat)
    requires k < |o.ids|
  {
    && i !in a.db.items && i in b.db.items && b.db.items == a.db.items[i := b.db.items[i]]
    && b.db.items[i].run == o.run && b.db.items[i].planItem == o.ids[k]
    && RowGated(a, o, o.ids[k], o.worlds(k), b.db.items[i], AttemptsOf(b.db.attempts, i))
  }

  lemma VerdictGated(h: Hashes, o: Order, m: Moment, k: nat, b: Durable, i: nat, end: ItemEnd)
    requires OrderOk(m.db, o) && k < |o.ids| && DoneRowsHaveAssets(m.db, o.ids[k])
    requires i in b.items && end.Handled? && EndOf(b, i, end) == VerdictAt(h, o, m, k)
    ensures RowGated(m, o, o.ids[k], o.worlds(k), b.items[i], AttemptsOf(b.attempts, i))
  {
    hide MaySend, DoneRow;
    GateDecides(h, m.db, o.ids[k], o.worlds(k), o.nature, o.limits, o.deadline, ItemResume(o, k), HeldLeft(m.db, o), m.env);
    SentOnly(h, m.db, o.ids[k], o.worlds(k), o.nature, o.limits, o.deadline, ItemResume(o, k), HeldLeft(m.db, o), m.env);
  }

  ghost predicate LeavesGatedRow(o: Order, a: Moment, b: Moment, k: nat) {
    k < |o.ids| && exists i :: NewRowGated(o, a, b, k, i)
  }

  lemma StepGated(h: Hashes, o: Order, a: Moment, b: Moment, k: nat)
    requires ItemStep(h, o, a, b, k) && DoneRowsHaveAssets(a.db, o.ids[k])
    ensures LeavesGatedRow(o, a, b, k)
  {
    hide RowGated, VerdictAt, DoneRowsHaveAssets;
    var i, end :| ItemDone(a.db, b.db, o.run, o.ids[k], i, end, b.env.used - a.env.used, Handover(ItemResume(o, k)))
                  && end.Handled? && EndOf(b.db, i, end) == VerdictAt(h, o, a, k);
    OpenDone(a.db, b.db, o.run, o.ids[k], i, end, b.env.used - a.env.used, Handover(ItemResume(o, k)));
    VerdictGated(h, o, a, k, b.db, i, end);
    assert NewRowGated(o, a, b, k, i);
  }

  lemma MomentAssets(h: Hashes, trust: Option<Naming>, m: Moment, log: seq<Durable>, p: nat)
    requires Chain(h, trust, log) && m.db in log
    ensures DoneRowsHaveAssets(m.db, p)
  {
    hide PlanOk, StoreOk, LedgerOk, RunsOk, AttemptsOk, PartialsOk;
    var n :| 0 <= n < |log| && log[n] == m.db;
    ChainSound(h, trust, log, n);
    forall j | DoneRow(m.db, p, j) ensures m.db.items[j].asset.Some? { assert ItemOk(h, m.db, j); }
  }

  lemma AbortGated(h: Hashes, o: Order, m: Moment, k: nat)
    requires OrderOk(m.db, o) && k < |o.ids| && DoneRowsHaveAssets(m.db, o.ids[k]) && VerdictAt(h, o, m, k).None?
    ensures MaySend(m.db, o.ids[k], o.worlds(k), o.nature, m.env, o.deadline)
  {
    hide MaySend;
    SentOnly(h, m.db, o.ids[k], o.worlds(k), o.nature, o.limits, o.deadline, ItemResume(o, k), HeldLeft(m.db, o), m.env);
  }

  lemma StepsGated(h: Hashes, trust: Option<Naming>, o: Order, moments: seq<Moment>, log: seq<Durable>, k: nat)
    requires Follows(h, o, moments) && Noted(moments, log) && Chain(h, trust, log) && k + 1 < |moments|
    ensures LeavesGatedRow(o, moments[k], moments[k + 1], k)
  {
    hide Chain, OrderOk, VerdictAt, DoneRowsHaveAssets, LeavesGatedRow;
    assert ItemStep(h, o, moments[k], moments[k + 1], k);
    MomentAssets(h, trust, moments[k], log, o.ids[k]);
    StepGated(h, o, moments[k], moments[k + 1], k);
  }

  lemma FollowsWithin(h: Hashes, o: Order, moments: seq<Moment>)
    requires Follows(h, o, moments)
    ensures 0 < |moments| <= |o.preview| + 1
  {
  }

  /** Every item of a run leaves one new row. One with an attempt, or complete,
      was current, allowed, eligible, not done before, and within budget and time
      when it was its turn; an item that one of these stopped leaves exactly the
      row that stands for it. An item that aborts the run was allowed too. */
  lemma RunGated(h: Hashes, trust: Option<Naming>, a: Durable, b: Durable, r: Request, e: Spec.Env, summary: Option<Summary>,
                 story: Story, log: seq<Durable>)
    requires Executed(h, a, b, r, e, summary, story) && StoryNoted(story, log) && Chain(h, trust, log) && story.Begun?
    ensures var o, moments := story.order, story.moments;
      && 0 < |moments| <= |r.preview| + 1
      && (forall k {:trigger moments[k]} | 0 <= k < |moments| - 1 :: LeavesGatedRow(o, moments[k], moments[k + 1], k))
      && (summary.None? ==>
            var k, m := |moments| - 1, moments[|moments| - 1];
            k < |o.ids| && MaySend(m.db, o.ids[k], o.worlds(k), o.nature, m.env, o.deadline))
  {
    hide LeavesGatedRow, Accounted, RunBegun, MaySend, VerdictAt, Chain, Follows, DoneRowsHaveAssets;
    var o, moments := story.order, story.moments;
    FollowsWithin(h, o, moments);
    forall k | 0 <= k < |moments| - 1 ensures LeavesGatedRow(o, moments[k], moments[k + 1], k) {
      StepsGated(h, trust, o, moments, log, k);
    }
    if summary.None? {
      var k := |moments| - 1;
      OrderStays(h, o, moments, k);
      MomentAssets(h, trust, moments[k], log, o.ids[k]);
      AbortGated(h, o, moments[k], k);
    }
  }

  // ----- whether a run is begun -----

  /** The catalogue has another item under this plan and key, or the asset that
      is to satisfy the item is not there. */
  predicate Clashes(db: Durable, item: PlanItem) {
    || (exists p :: p in db.plan && db.plan[p].plan == item.plan && db.plan[p].key == item.key && db.plan[p] != item)
    || (item.eligibility.AlreadySatisfied? && item.eligibility.asset !in db.assets)
  }

  /** A request is refused, before anything is written, exactly when it asks for
      parallel transfers, for too many items, or for one that clashes; else its
      items get their rows, old or new, and an empty run is opened for them. */
  lemma RequestBegins(h: Hashes, a: Durable, b: Durable, r: Request, e: Spec.Env, summary: Option<Summary>, story: Story)
    requires Executed(h, a, b, r, e, summary, story)
    ensures story.NotBegun? <==>
              || r.limits.concurrency != 1 || |r.preview| > r.limits.maxItems
              || exists k :: 0 <= k < |r.preview| && Clashes(a, r.preview[k])
    ensures story.NotBegun? ==> b == a && summary.None?
    ensures story.Begun? ==>
      var o, first := story.order, story.moments[0].db;
      && o.preview == r.preview && |o.ids| == |r.preview| && o.run !in a.runs
      && o.worlds == r.worlds && o.nature == r.nature && o.limits == r.limits && o.resumes == r.resumes
      && o.deadline == r.nature.readings(e.tick) + r.limits.maxSeconds as real && story.moments[0].env == e.(tick := e.tick + 1)
      && first == a.(plan := first.plan, runs := first.runs)
      && first.runs == a.runs[o.run := Run(if r.preview == [] then "" else r.preview[0].plan, RunActive, |r.preview|, 0, 0, 0, 0, 0,
                                           r.limits.maxTotalBytes, r.limits.maxQuarantine)]
      && (forall p | p in a.plan :: p in first.plan && first.plan[p] == a.plan[p])
      && (forall k | 0 <= k < |o.ids| :: o.ids[k] in first.plan && first.plan[o.ids[k]] == r.preview[k])
      && (forall p | p in first.plan && p !in a.plan :: first.plan[p] in r.preview)
  {
    hide Accounted, Follows, PlanOk, VerdictAt;
    ClashIsConflict(a, r.preview);
    if story.Begun? { assert r.preview[..|r.preview|] == r.preview; }
  }

  lemma ClashIsConflict(db: Durable, preview: seq<PlanItem>)
    ensures PlanConflict(db, preview) <==> exists k :: 0 <= k < |preview| && Clashes(db, preview[k])
  {
    forall k | 0 <= k < |preview| ensures Clashes(db, preview[k]) <==> Conflicts(db, preview[k]) {
      if p :| p in db.plan && db.plan[p].plan == preview[k].plan && db.plan[p].key == preview[k].key && db.plan[p] != preview[k] {
        assert SameKey(db.plan[p], preview[k]);
      }
    }
  }
}

/** What becomes of one item of a run, as a function of the catalogue before it,
    the plan, the servers and the storage. */
module AcquisitionOutcome {

  import opened Basics
  import opened DeclaredClaims
  import opened TransferProtocol
  import opened AcquisitionTables
  import opened AcquisitionSteps
  import opened Publication
  import Spec = TransferSpec
  import Records = TransferRecords
  import Results = TransferResults
  import Properties = TransferProperties

  datatype RunLimits = RunLimits(maxItems: nat, maxItemBytes: nat, maxTotalBytes: nat, maxAttempts: nat, maxSeconds: nat,
                                 maxRedirects: nat, maxQuarantine: nat, concurrency: nat)

  predicate PositiveLimits(l: RunLimits) {
    l.maxItems > 0 && l.maxItemBytes > 0 && l.maxTotalBytes > 0 && l.maxAttempts > 0 && l.maxSeconds > 0
    && l.maxRedirects > 0 && l.concurrency > 0
  }

  datatype ItemOutcome =
    | FreshDownload(exactOnly: bool) | Existing | SatisfiedAlready | NotAvailable | PolicyRefused | OutOfBudget
    | StaleTarget | HashMismatch | StorageFailed(category: string) | TransferEnded(outcome: Outcome)

  /** What happens around one item: the plan's check, the request policy, a
      reconciliation fault, the servers and the store. */
  datatype ItemWorld = ItemWorld(
    current: bool, policyFits: bool, recipeAllowed: bool, identity: string, reconcileFault: Option<string>,
    scripts: nat -> Spec.Script, storage: StorageWorld)

  /** _storage_outcome. */
  function StorageOutcome(category: string): ItemOutcome {
    if category == "hash_mismatch" then HashMismatch
    else if category == "inspection_failed" then StorageFailed("inspection_failure")
    else if category == "storage_integrity_failed" then StorageFailed("storage_integrity_failure")
    else if category == "limit_exceeded" then StorageFailed("response_too_large")
    else StorageFailed("storage_failure")
  }

  /** _terminal_item_state, for the outcomes a transfer has. */
  function TerminalItemState(outcome: Outcome, state: Spec.State): (s: ItemState)
    ensures s in PUT_OFF + LOST
  {
    if outcome == StorageFailure("hash_mismatch") then Quarantined
    else if outcome == StorageFailure("stale_target") then Stale
    else if state == Spec.Interrupted then Interrupted
    else NotComplete
  }

  datatype Counted = AsCompleted | AsFailed | AsDeferred

  /** The counter that goes up is the one a recount of the state would raise. */
  predicate CountFits(counted: Counted, state: ItemState) {
    match counted
    case AsCompleted => state in DONE
    case AsFailed => state in LOST
    case AsDeferred => state in PUT_OFF
  }

  // ----- the branches without a download -----

  /** The first done row of the plan item. */
  ghost predicate IsFirstDone(items: map<nat, RunItem>, p: nat, j: nat) {
    && j in items && items[j].planItem == p && items[j].state in DONE
    && forall k | k in items && items[k].planItem == p && items[k].state in DONE :: j <= k
  }

  ghost function PriorAsset(items: map<nat, RunItem>, p: nat): Option<nat> {
    if j: nat :| IsFirstDone(items, p, j) then items[j].asset else None
  }

  /** SELECT asset_id ... state IN ('complete', 'satisfied') ... LIMIT 1, then the plan's own asset. */
  ghost function SatisfyingAsset(db: Durable, p: nat): Option<nat>
    requires p in db.plan
  {
    if PriorAsset(db.items, p).Some? then PriorAsset(db.items, p)
    else if db.plan[p].eligibility.AlreadySatisfied? then Some(db.plan[p].eligibility.asset) else None
  }

  datatype Early = Early(state: ItemState, retryable: bool, asset: Option<nat>, counted: Counted, outcome: ItemOutcome)

  /** Satisfied, excluded, out of budget or time, stale, or refused by the
      request policy. */
  ghost function EarlyOf(db: Durable, p: nat, w: ItemWorld, nature: Spec.Nature, e: Spec.Env, deadline: real): Option<Early>
    requires p in db.plan
  {
    var satisfied := SatisfyingAsset(db, p);
    if satisfied.Some? then Some(Early(Satisfied, false, satisfied, AsCompleted, SatisfiedAlready))
    else if db.plan[p].eligibility.Excluded? then
      Some(Early(NotComplete, false, None, AsFailed, if db.plan[p].eligibility.unavailable then NotAvailable else PolicyRefused))
    else if e.used >= nature.maxBytes || nature.readings(e.tick) >= deadline then Some(Early(Deferred, true, None, AsDeferred, OutOfBudget))
    else if !w.current then Some(Early(Stale, false, None, AsFailed, StaleTarget))
    else if !w.policyFits || !w.recipeAllowed then Some(Early(NotComplete, false, None, AsFailed, PolicyRefused))
    else None
  }

  // ----- bytes of an earlier row -----

  datatype Orphan = Orphan(sha256: string, md5: Option<string>)

  predicate IsOrphan(row: RunItem, p: nat) {
    row.planItem == p && row.asset.None? && row.sha256.Some?
  }

  ghost predicate IsLastOrphan(items: map<nat, RunItem>, p: nat, j: nat) {
    j in items && IsOrphan(items[j], p) && forall k | k in items && IsOrphan(items[k], p) :: k <= j
  }

  /** The latest row of the plan item that has hashes but no asset. */
  ghost function OrphanOf(items: map<nat, RunItem>, p: nat): Option<Orphan> {
    if j: nat :| IsLastOrphan(items, p, j) then Some(Orphan(items[j].sha256.value, items[j].md5)) else None
  }

  /** stage_existing_cas. */
  datatype Reconciling = Nothing | Faulty(category: string, orphan: Orphan) | Found(bytes: Bytes)

  function Staging(h: Hashes, cas: map<string, Bytes>, orphan: Orphan, fault: Option<string>): Reconciling {
    var sha := orphan.sha256;
    if fault.Some? then Faulty(fault.value, orphan)
    else if sha !in cas then Nothing
    else if orphan.md5.Some? && Lower(orphan.md5.value) != Lower(h.md5(cas[sha])) then Faulty("storage_integrity_failed", orphan)
    else Found(cas[sha])
  }

  ghost function ReconcileOf(h: Hashes, db: Durable, p: nat, w: ItemWorld): Reconciling {
    var orphan := OrphanOf(db.items, p);
    if orphan.None? then Nothing else Staging(h, db.cas, orphan.value, w.reconcileFault)
  }

  // ----- the download -----

  function EngineLimits(l: RunLimits, seconds: real): Spec.Limits {
    Spec.Limits(l.maxItemBytes, l.maxAttempts, seconds, l.maxRedirects, 0.25, 5.0)
  }

  /** What is left of the run's time. */
  function SecondsLeft(deadline: real, now: real): real {
    if deadline - now > 0.001 then deadline - now else 0.001
  }

  function ResumeOf(resume: Option<RetryResume>): Option<ResumeState> {
    if resume.Some? then Some(resume.value.resume) else None
  }

  /** The item's transfer: one reading of the clock for the time left, then the
      engine. */
  function ItemTransfer(nature: Spec.Nature, w: ItemWorld, limits: RunLimits, deadline: real, resume: Option<RetryResume>,
                        e: Spec.Env): Spec.Transferred
    requires PositiveLimits(limits)
  {
    Spec.TransferOf(nature, w.identity, w.scripts, EngineLimits(limits, SecondsLeft(deadline, nature.readings(e.tick))),
                    ResumeOf(resume), e.(tick := e.tick + 1))
  }

  // ----- the outcome -----

  /** What a done item's asset is: one that was there, or one of these bytes. */
  datatype Content = NoAsset | OfAsset(asset: nat) | OfBytes(bytes: Bytes)

  /** What an item ends with: its row, the content of its asset, its attempt
      rows, the bytes held in quarantine and the partial left for a retry; the
      counter that goes up and the outcome that is reported. */
  datatype ItemVerdict = ItemVerdict(
    state: ItemState, retryable: bool, received: nat, sha256: Option<string>, md5: Option<string>, content: Content,
    attempts: seq<Spec.Transition>, held: nat, left: Option<ResumeState>, counted: Counted, outcome: ItemOutcome)

  /** Without a transfer and without bytes. */
  function EarlyVerdict(e: Early): ItemVerdict {
    ItemVerdict(e.state, e.retryable, 0, None, None, if e.asset.Some? then OfAsset(e.asset.value) else NoAsset, [], 0, None, e.counted, e.outcome)
  }

  /** The stored bytes of an earlier row cannot be used. */
  function FaultyVerdict(category: string, orphan: Orphan): ItemVerdict {
    ItemVerdict(NotComplete, false, 0, Some(orphan.sha256), orphan.md5, NoAsset, [], 0, None, AsFailed, StorageOutcome(category))
  }

  /** After the bytes were offered for publication. */
  function Offered(h: Hashes, p: PlanItem, bytes: Bytes, maxHeld: nat, received: nat, attempts: seq<Spec.Transition>,
                   good: ItemOutcome): ItemVerdict {
    var sha256, md5 := Some(h.sha256(bytes)), Some(h.md5(bytes));
    if Disagree(h, p.declared, bytes) then
      ItemVerdict(Quarantined, false, received, sha256, md5, NoAsset, attempts, HeldOf(bytes, maxHeld), None, AsFailed, HashMismatch)
    else
      ItemVerdict(Complete, false, received, sha256, md5, OfBytes(bytes), attempts, 0, None, AsCompleted, good)
  }

  /** The downloaded bytes could not be inspected, held or published. */
  function TroubledVerdict(h: Hashes, bytes: Bytes, w: StorageWorld, category: string, received: nat,
                           attempts: seq<Spec.Transition>): ItemVerdict {
    var sha256 := if w.inspectFault.Some? then None else Some(h.sha256(bytes));
    var md5 := if w.inspectFault.Some? then None else Some(h.md5(bytes));
    ItemVerdict(NotComplete, false, received, sha256, md5, NoAsset, attempts, 0, None, AsFailed, StorageOutcome(category))
  }

  /** The transfer gave up. */
  function LostVerdict(r: Spec.Result, attempts: seq<Spec.Transition>): ItemVerdict {
    var last := TerminalItemState(r.outcome, r.state);
    ItemVerdict(last, r.retryable, r.received, None, None, NoAsset, attempts, 0, r.resume,
                if last == Interrupted then AsDeferred else AsFailed, TransferEnded(r.outcome))
  }

  /** The transfer completed. */
  function StagedVerdict(h: Hashes, p: PlanItem, w: ItemWorld, maxHeld: nat, bytes: Bytes, received: nat,
                         attempts: seq<Spec.Transition>): ItemVerdict {
    var trouble := TroubleOf(h, p.declared, bytes, w.storage, maxHeld);
    if trouble.Some? then TroubledVerdict(h, bytes, w.storage, trouble.value, received, attempts)
    else Offered(h, p, bytes, maxHeld, received, attempts, FreshDownload(w.storage.exactOnly))
  }

  /** After the transfer; None: an observer or the engine raises. */
  function AfterTransfer(h: Hashes, p: PlanItem, w: ItemWorld, maxHeld: nat, t: Spec.Transferred): Option<ItemVerdict> {
    if t.end.RaisedValueError? || !Records.AllRecordable(t.events) then None
    else
      var r, attempts := t.end.result, Spec.Attempts(t.events);
      Some(if r.staged.None? then LostVerdict(r, attempts)
           else StagedVerdict(h, p, w, maxHeld, r.staged.value, r.received, attempts))
  }

  /** Bytes that were found in the store; None: publishing them raises. */
  function FoundVerdict(h: Hashes, p: PlanItem, w: ItemWorld, maxHeld: nat, bytes: Bytes): Option<ItemVerdict> {
    if TroubleOf(h, p.declared, bytes, w.storage, maxHeld).Some? then None
    else Some(Offered(h, p, bytes, maxHeld, 0, [], Existing))
  }

  /** One item of a run; None: the run is aborted. */
  ghost function OutcomeOf(h: Hashes, db: Durable, p: nat, w: ItemWorld, nature: Spec.Nature, limits: RunLimits, deadline: real,
                           resume: Option<RetryResume>, maxHeld: nat, e: Spec.Env): Option<ItemVerdict>
    requires PositiveLimits(limits) && p in db.plan
  {
    var early := EarlyOf(db, p, w, nature, e, deadline);
    if early.Some? then Some(EarlyVerdict(early.value))
    else match ReconcileOf(h, db, p, w)
         case Faulty(category, orphan) => Some(FaultyVerdict(category, orphan))
         case Found(bytes) => FoundVerdict(h, db.plan[p], w, maxHeld, bytes)
         case Nothing => AfterTransfer(h, db.plan[p], w, maxHeld, ItemTransfer(nature, w, limits, deadline, resume, e.(tick := e.tick + 1)))
  }

  // ----- the same, for proofs that need not look inside -----

  /** t is the item's transfer. The definition is used only where Shown(true) is
      asserted. */
  ghost predicate IsTransfer(t: Spec.Transferred, nature: Spec.Nature, w: ItemWorld, limits: RunLimits, deadline: real,
                             resume: Option<RetryResume>, e: Spec.Env) {
    PositiveLimits(limits) && forall k {:trigger Shown(k)} | Shown(k) :: t == ItemTransfer(nature, w, limits, deadline, resume, e)
  }

  predicate Told(b: bool) { b }

  ghost predicate IsOutcome(v: Option<ItemVerdict>, h: Hashes, db: Durable, p: nat, w: ItemWorld, nature: Spec.Nature,
                            limits: RunLimits,
                            deadline: real, resume: Option<RetryResume>, maxHeld: nat, e: Spec.Env)
    requires PositiveLimits(limits) && p in db.plan
  {
    forall k {:trigger Told(k)} | Told(k) :: v == OutcomeOf(h, db, p, w, nature, limits, deadline, resume, maxHeld, e)
  }

  /** OutcomeOf, unfolded only by VerdictIs. */
  ghost function VerdictOf(h: Hashes, db: Durable, p: nat, w: ItemWorld, nature: Spec.Nature, limits: RunLimits,
                           deadline: real, resume: Option<RetryResume>, maxHeld: nat, e: Spec.Env): Option<ItemVerdict>
    requires PositiveLimits(limits) && p in db.plan
  {
    assert IsOutcome(OutcomeOf(h, db, p, w, nature, limits, deadline, resume, maxHeld, e),
                     h, db, p, w, nature, limits, deadline, resume, maxHeld, e);
    var v :| IsOutcome(v, h, db, p, w, nature, limits, deadline, resume, maxHeld, e);
    v
  }

  lemma VerdictIs(h: Hashes, db: Durable, p: nat, w: ItemWorld, nature: Spec.Nature, limits: RunLimits,
                  deadline: real, resume: Option<RetryResume>, maxHeld: nat, e: Spec.Env)
    requires PositiveLimits(limits) && p in db.plan
    ensures VerdictOf(h, db, p, w, nature, limits, deadline, resume, maxHeld, e) ==
            OutcomeOf(h, db, p, w, nature, limits, deadline, resume, maxHeld, e)
  {
    assert Told(true);
  }

  ghost predicate IsEarly(early: Option<Early>, db: Durable, p: nat, w: ItemWorld, nature: Spec.Nature, e: Spec.Env,
                          deadline: real) {
    p in db.plan && forall k {:trigger Shown(k)} | Shown(k) :: early == EarlyOf(db, p, w, nature, e, deadline)
  }

  lemma TheTransfer(nature: Spec.Nature, w: ItemWorld, limits: RunLimits, deadline: real, resume: Option<RetryResume>,
                    e: Spec.Env)
    returns (t: Spec.Transferred)
    requires PositiveLimits(limits)
    ensures IsTransfer(t, nature, w, limits, deadline, resume, e)
  {
    t := ItemTransfer(nature, w, limits, deadline, resume, e);
  }

  lemma OutcomeEarly(h: Hashes, db: Durable, p: nat, w: ItemWorld, nature: Spec.Nature, limits: RunLimits, deadline: real,
                     resume: Option<RetryResume>, maxHeld: nat, e: Spec.Env, early: Early)
    requires PositiveLimits(limits) && p in db.plan && EarlyOf(db, p, w, nature, e, deadline) == Some(early)
    ensures VerdictOf(h, db, p, w, nature, limits, deadline, resume, maxHeld, e) == Some(EarlyVerdict(early))
  {
    VerdictIs(h, db, p, w, nature, limits, deadline, resume, maxHeld, e);
  }

  lemma OutcomeReconciled(h: Hashes, db: Durable, p: nat, w: ItemWorld, nature: Spec.Nature, limits: RunLimits, deadline: real,
                          resume: Option<RetryResume>, maxHeld: nat, e: Spec.Env)
    requires PositiveLimits(limits) && p in db.plan && EarlyOf(db, p, w, nature, e, deadline).None? && !ReconcileOf(h, db, p, w).Nothing?
    ensures VerdictOf(h, db, p, w, nature, limits, deadline, resume, maxHeld, e) ==
            match ReconcileOf(h, db, p, w)
            case Faulty(category, orphan) => Some(FaultyVerdict(category, orphan))
            case Found(bytes) => FoundVerdict(h, db.plan[p], w, maxHeld, bytes)
            case Nothing => None
  {
    VerdictIs(h, db, p, w, nature, limits, deadline, resume, maxHeld, e);
  }

  lemma OutcomeTransferred(h: Hashes, db: Durable, p: nat, w: ItemWorld, nature: Spec.Nature, limits: RunLimits, deadline: real,
                           resume: Option<RetryResume>, maxHeld: nat, e: Spec.Env, t: Spec.Transferred)
    requires PositiveLimits(limits) && p in db.plan && EarlyOf(db, p, w, nature, e, deadline).None? && ReconcileOf(h, db, p, w).Nothing?
    requires IsTransfer(t, nature, w, limits, deadline, resume, e.(tick := e.tick + 1))
    ensures VerdictOf(h, db, p, w, nature, limits, deadline, resume, maxHeld, e) == AfterTransfer(h, db.plan[p], w, maxHeld, t)
  {
    VerdictIs(h, db, p, w, nature, limits, deadline, resume, maxHeld, e);
    assert Shown(true);
  }

  // ----- what the report says of an item -----

  predicate SaysStale(o: ItemOutcome) {
    o == StaleTarget || o == TransferEnded(StorageFailure("stale_target"))
  }

  predicate SaysMismatch(o: ItemOutcome) {
    o == HashMismatch || o == TransferEnded(StorageFailure("hash_mismatch"))
  }

  predicate OutcomeSays(state: ItemState, outcome: ItemOutcome) {
    (state == Stale <==> SaysStale(outcome)) && (state == Quarantined ==> SaysMismatch(outcome))
  }

  /** An item is stale exactly when its outcome says so, a quarantined one says
      why, and the bytes it received are those of its attempts. */
  predicate VerdictFits(v: ItemVerdict) {
    OutcomeSays(v.state, v.outcome) && v.received == Spec.TotalOf(v.attempts)
  }

  lemma OutcomeFits(h: Hashes, db: Durable, p: nat, w: ItemWorld, nature: Spec.Nature, limits: RunLimits, deadline: real,
                    resume: Option<RetryResume>, maxHeld: nat, e: Spec.Env)
    requires PositiveLimits(limits) && p in db.plan
    ensures var v := VerdictOf(h, db, p, w, nature, limits, deadline, resume, maxHeld, e); v.Some? ==> VerdictFits(v.value)
  {
    hide ItemTransfer, AfterTransfer, TroubleOf;
    VerdictIs(h, db, p, w, nature, limits, deadline, resume, maxHeld, e);
    ItemReceived(nature, w, limits, deadline, resume, e.(tick := e.tick + 1));
    TransferFits(h, db.plan[p], w, maxHeld, ItemTransfer(nature, w, limits, deadline, resume, e.(tick := e.tick + 1)));
  }

  lemma ItemReceived(nature: Spec.Nature, w: ItemWorld, limits: RunLimits, deadline: real, resume: Option<RetryResume>,
                     e: Spec.Env)
    requires PositiveLimits(limits)
    ensures var t := ItemTransfer(nature, w, limits, deadline, resume, e);
      t.end.Returned? ==> t.end.result.received == Spec.TotalOf(Spec.Attempts(t.events)) == Spec.Received(t.events)
  {
    Results.TransferReceived(nature, w.identity, w.scripts, EngineLimits(limits, SecondsLeft(deadline, nature.readings(e.tick))), ResumeOf(resume),
                             e.(tick := e.tick + 1));
  }

  lemma TransferFits(h: Hashes, p: PlanItem, w: ItemWorld, maxHeld: nat, t: Spec.Transferred)
    requires t.end.Returned? ==> t.end.result.received == Spec.TotalOf(Spec.Attempts(t.events))
    ensures var v := AfterTransfer(h, p, w, maxHeld, t); v.Some? ==> VerdictFits(v.value)
  {
    assert |"hash_mismatch"| == 13 && |"stale_target"| == 12;
  }

  // ----- when no run is aborted -----

  /** The storage works, or fails only in ways the catalogue knows, and every
      answer is modest: the item cannot abort its run. */
  predicate Harmless(limits: RunLimits, w: ItemWorld) {
    && w.storage.inspectFault.None? && w.storage.quarantineFault.None? && w.storage.publishFault.None?
    && forall n: nat | 1 <= n <= limits.maxAttempts :: Records.Benign(EngineLimits(limits, 1.0), w.scripts(n))
  }

  predicate HarmlessResume(limits: RunLimits, resume: Option<RetryResume>) {
    Records.BenignPending(EngineLimits(limits, 1.0), ResumeOf(resume))
  }

  lemma HarmlessEnds(h: Hashes, db: Durable, p: nat, w: ItemWorld, nature: Spec.Nature, limits: RunLimits, deadline: real,
                     resume: Option<RetryResume>, maxHeld: nat, e: Spec.Env)
    requires PositiveLimits(limits) && p in db.plan && Harmless(limits, w) && HarmlessResume(limits, resume)
    ensures OutcomeOf(h, db, p, w, nature, limits, deadline, resume, maxHeld, e).Some?
  {
    var e1 := e.(tick := e.tick + 1);
    var own := EngineLimits(limits, SecondsLeft(deadline, nature.readings(e1.tick)));
    forall n: nat | 1 <= n <= own.maxAttempts ensures Records.Benign(own, w.scripts(n)) {
      assert Records.Benign(EngineLimits(limits, 1.0), w.scripts(n));
    }
    Records.BenignTransfer(nature, w.identity, w.scripts, own, ResumeOf(resume), e1.(tick := e1.tick + 1));
  }

  /** A body of unannounced length beyond the item limit aborts the whole run. */
  lemma OversizeAborts(h: Hashes, db: Durable, p: nat, w: ItemWorld, nature: Spec.Nature, limits: RunLimits, deadline: real,
                       maxHeld: nat, e: Spec.Env)
    requires PositiveLimits(limits) && p in db.plan
    requires EarlyOf(db, p, w, nature, e, deadline).None? && ReconcileOf(h, db, p, w).Nothing?
    requires var e1 := e.(tick := e.tick + 2);
      var own := EngineLimits(limits, SecondsLeft(deadline, nature.readings(e.tick + 1)));
      && Properties.Answers(Results.Call(nature, w.identity, w.scripts, own, e1), w.scripts(1), None)
    requires var r := w.scripts(1).answer.response;
      && r.status == 200 && r.length.NoLength? && r.accepted && Properties.CleanBody(r.body)
      && limits.maxItemBytes < |BodyBytes(r.body)| <= nature.maxBytes - e.used
    ensures OutcomeOf(h, db, p, w, nature, limits, deadline, None, maxHeld, e).None?
  {
    var e1 := e.(tick := e.tick + 2);
    var own := EngineLimits(limits, SecondsLeft(deadline, nature.readings(e.tick + 1)));
    Records.OversizeUnrecordable(nature, w.identity, w.scripts, own, e1);
  }

  /** So does a staging file that cannot be reopened because it was changed or
      is gone, and a partial larger than a retry's item limit. */
  lemma UnopenedAborts(h: Hashes, db: Durable, p: nat, w: ItemWorld, nature: Spec.Nature, limits: RunLimits, deadline: real,
                       resume: Option<RetryResume>, maxHeld: nat, e: Spec.Env, category: string)
    requires PositiveLimits(limits) && p in db.plan
    requires EarlyOf(db, p, w, nature, e, deadline).None? && ReconcileOf(h, db, p, w).Nothing?
    requires var e1 := e.(tick := e.tick + 2);
      var own := EngineLimits(limits, SecondsLeft(deadline, nature.readings(e.tick + 1)));
      && Properties.Quiet(Results.Call(nature, w.identity, w.scripts, own, e1))
    requires category !in Records.CATALOGUED
    requires w.scripts(1).openFault == Some(StorageError(category)) ||
             (w.scripts(1).openFault.None? && category == "limit_exceeded" && resume.Some? && |resume.value.resume.partial.bytes| > limits.maxItemBytes)
    ensures OutcomeOf(h, db, p, w, nature, limits, deadline, resume, maxHeld, e).None?
  {
    var e1 := e.(tick := e.tick + 2);
    var own := EngineLimits(limits, SecondsLeft(deadline, nature.readings(e.tick + 1)));
    Records.UnopenedUnrecordable(nature, w.identity, w.scripts, own, ResumeOf(resume), e1, category);
  }

  /** For one: the staging file fails its integrity check when it is opened. */
  lemma IntegrityFailureAborts(h: Hashes, db: Durable, p: nat, w: ItemWorld, nature: Spec.Nature, limits: RunLimits,
                               deadline: real,
                               resume: Option<RetryResume>, maxHeld: nat, e: Spec.Env)
    requires PositiveLimits(limits) && p in db.plan
    requires EarlyOf(db, p, w, nature, e, deadline).None? && ReconcileOf(h, db, p, w).Nothing?
    requires w.scripts(1).openFault == Some(StorageError("storage_integrity_failed"))
    requires forall k: nat {:trigger nature.readings(k)} {:trigger nature.cancels(k)} ::
               !nature.cancels(k) && nature.readings(k) < nature.readings(e.tick + 2) + SecondsLeft(deadline, nature.readings(e.tick + 1))
    ensures VerdictOf(h, db, p, w, nature, limits, deadline, resume, maxHeld, e).None?
  {
    Records.LimitNotCatalogued();
    UnopenedAborts(h, db, p, w, nature, limits, deadline, resume, maxHeld, e, "storage_integrity_failed");
    VerdictIs(h, db, p, w, nature, limits, deadline, resume, maxHeld, e);
  }
}

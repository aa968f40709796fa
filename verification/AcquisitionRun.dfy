/** One item of an acquisition run: the body of the service's loop. */
module AcquisitionRun {

  import opened Basics
  import opened DeclaredClaims
  import opened TransferProtocol
  import opened AcquisitionTables
  import opened AcquisitionSteps
  import opened AcquisitionLedger
  import opened AcquisitionObserver
  import opened Publication
  import opened AcquisitionOutcome
  import Spec = TransferSpec
  import Records = TransferRecords
  import Properties = TransferProperties
  import Results = TransferResults
  import Engine = TransferEngine

  /** A retryable error response with a strong ETag of its own. */
  predicate ErrorTagged(script: Spec.Script) {
    script.answer.Answered? &&
    var r := script.answer.response;
    ClassifyStatus(r.status).Some? && ClassifyStatus(r.status).value.retryable && StrongEtag(r.etag)
  }

  /** The item's servers are honest, and their retryable error responses carry no
      strong ETag, so none can relabel a partial. */
  ghost predicate HonestItem(trust: Option<Naming>, w: ItemWorld) {
    trust.Some? ==>
      forall n: nat {:trigger w.scripts(n)} :: Properties.HonestScript(trust.value, w.identity, w.scripts(n)) && !ErrorTagged(w.scripts(n))
  }

  /** The partial a retry hands over is still open. */
  ghost predicate HandoverOk(ledger: map<nat, LedgerRow>, resume: Option<RetryResume>) {
    resume.Some? ==> StillOpen(ledger, resume.value) && ConstructedResume(resume.value.resume)
  }

  function Handover(resume: Option<RetryResume>): Option<nat> {
    if resume.Some? then Some(resume.value.source) else None
  }

  datatype ItemEnd =
    | Handled(counted: Counted, outcome: ItemOutcome, held: nat, resume: Option<ResumeState>)
    | Aborted

  /** What the asset of the item's row holds: for a complete row the bytes that
      are published under the asset's digest. */
  function ContentOf(b: Durable, i: nat): Content
    requires i in b.items
  {
    var row := b.items[i];
    if row.asset.None? then NoAsset
    else if row.state == Complete && row.asset.value in b.assets && b.assets[row.asset.value].sha256 in b.cas then
      OfBytes(b.cas[b.assets[row.asset.value].sha256])
    else OfAsset(row.asset.value)
  }

  /** What the catalogue and the item's end say of item i. */
  function EndOf(b: Durable, i: nat, end: ItemEnd): Option<ItemVerdict> {
    if end.Aborted? || i !in b.items then None
    else
      var row := b.items[i];
      Some(ItemVerdict(row.state, row.retryable, row.received, row.sha256, row.md5, ContentOf(b, i), AttemptsOf(b.attempts, i),
                       end.held, end.resume, end.counted, end.outcome))
  }

  /** The ledger has an open row of the item exactly for the resume it is left
      with, written in its last attempt. */
  ghost predicate LedgerShows(db: Durable, i: nat, resume: Option<ResumeState>) {
    && (resume.None? ==> OpenFor(db.ledger, i, None))
    && (resume.Some? ==> exists row {:trigger OpenFor(db.ledger, i, Some(row))} ::
          OpenFor(db.ledger, i, Some(row)) && Shows(db, i, Some(row), resume.value, |AttemptsOf(db.attempts, i)|))
  }

  /** The item's own row in a terminal state with nothing but this row changed. */
  ghost predicate ItemHandled(a: Durable, b: Durable, run: nat, p: nat, i: nat, end: ItemEnd, charged: nat, handed: Option<nat>) {
    && end.Handled? && i !in a.items && OnlyItem(a, b, i)
    && b.items[i].run == run && b.items[i].planItem == p
    && b.items[i].state !in UNFINISHED && CountFits(end.counted, b.items[i].state)
    && b.items[i].received <= charged
    && Retained(b, run) == Retained(a, run) + end.held
    && OthersKept(a.ledger, b.ledger, i, handed) && AttemptsKept(a.attempts, b.attempts, i)
    && LedgerShows(b, i, end.resume) && !LastRuns(AttemptsOf(b.attempts, i))
  }

  /** What holds while item i is worked on. */
  ghost predicate Working(a: Durable, b: Durable, run: nat, p: nat, i: nat) {
    && i !in a.items && OnlyItem(a, b, i) && run in b.runs && b.runs[run].status == RunActive && p in b.plan
    && b.items[i].run == run && b.items[i].planItem == p && b.items[i].state in UNFINISHED
    && b.items[i].asset == None && b.items[i].received == 0
  }

  /** The item in the middle of its download; nothing of it is settled yet. */
  ghost predicate Downloading(a: Durable, b: Durable, run: nat, p: nat, i: nat, handed: Option<nat>) {
    && Working(a, b, run, p, i) && OthersKept(a.ledger, b.ledger, i, handed) && AttemptsKept(a.attempts, b.attempts, i)
    && Retained(b, run) == Retained(a, run)
  }

  /** Nothing was downloaded yet. */
  ghost predicate Untouched(a: Durable, b: Durable, i: nat) {
    && b == a.(items := b.items) && OpenFor(b.ledger, i, None) && AttemptsOf(b.attempts, i) == []
  }

  method Begin(d: Database, run: nat, p: nat) returns (i: nat)
    requires d.Valid() && run in d.db.runs && d.db.runs[run].status == RunActive
    requires p in d.db.plan && d.db.plan[p].plan == d.db.runs[run].plan
    requires forall j | j in d.db.items :: d.db.items[j].run != run || d.db.items[j].planItem != p
    modifies d`db, d`log
    ensures d.Valid() && Downloading(old(d.db), d.db, run, p, i, None) && Untouched(old(d.db), d.db, i)
    ensures d.db.items[i] == RunItem(run, p, Pending, false, 0, None, None, None) && forall j | j in d.db.items :: j <= i
  {
    i := NextRowId(d.db.items.Keys);
    FreshItem(d, i);
    d.SetItem(i, RunItem(run, p, Pending, false, 0, None, None, None));
  }

  /** A new row has no partials and no attempts yet. */
  lemma FreshItem(d: Database, i: nat)
    requires d.Valid() && i !in d.db.items
    ensures OpenFor(d.db.ledger, i, None) && AttemptsOf(d.db.attempts, i) == []
  {
    d.IsSound();
  }

  /** The item's row goes from pending to running. */
  method Start(d: Database, ghost a: Durable, run: nat, p: nat, i: nat)
    requires d.Valid() && Downloading(a, d.db, run, p, i, None) && Untouched(a, d.db, i)
    modifies d`db, d`log
    ensures d.Valid() && Downloading(a, d.db, run, p, i, None) && Untouched(a, d.db, i)
    ensures d.db.items[i] == RunItem(run, p, Running, false, 0, None, None, None)
  {
    d.ItemHere(i);
    d.SetItem(i, RunItem(run, p, Running, false, 0, None, None, None));
  }

  lemma RetainedWithin(d: Database, run: nat)
    requires d.Valid() && run in d.db.runs
    ensures Retained(d.db, run) <= d.db.runs[run].maxQuarantine
  {
    d.RunsHere();
    assert RunOk(d.db, run);
  }

  /** Where the asset of a satisfied row comes from. */
  predicate AssetFits(db: Durable, i: nat, p: nat, state: ItemState, asset: Option<nat>)
    requires p in db.plan
  {
    state == Satisfied ==> asset.Some? && (db.plan[p].eligibility == AlreadySatisfied(asset.value) || DoneBefore(db.items, i, p, asset))
  }

  /** The item's terminal row. */
  method Close(d: Database, i: nat, state: ItemState, retryable: bool, received: nat, asset: Option<nat>,
               sha256: Option<string>, md5: Option<string>)
    requires d.Valid() && ActiveItem(d.db, i) && d.db.items[i].planItem in d.db.plan && state !in UNFINISHED
    requires (state in DONE <==> asset.Some?) && (asset.Some? ==> asset.value in d.db.assets)
    requires state == Complete ==> Published(d.hashes, d.db, d.db.plan[d.db.items[i].planItem], asset.value)
    requires AssetFits(d.db, i, d.db.items[i].planItem, state, asset)
    requires OpenFor(d.db.ledger, i, None) || (retryable && state in {NotComplete, Interrupted, Deferred})
    requires !LastRuns(AttemptsOf(d.db.attempts, i))
    modifies d`db, d`log
    ensures d.Valid() && d.db == old(d.db).(items := d.db.items) && OnlyItem(old(d.db), d.db, i)
    ensures d.db.items[i] == old(d.db).items[i].(state := state, retryable := retryable, received := received,
                                                 asset := asset, sha256 := sha256, md5 := md5)
    ensures forall r :: Retained(d.db, r) == Retained(old(d.db), r)
  {
    d.ItemHere(i);
    var row := d.db.items[i].(state := state, retryable := retryable, received := received, asset := asset, sha256 := sha256, md5 := md5);
    if state == Satisfied && DoneBefore(d.db.items, i, row.planItem, asset) {
      SetItemKeepsTie(d.db.items, i, row, i, row.planItem, asset);
    }
    d.SetItem(i, row);
  }

  // ----- the branches without a download -----

  /** SELECT asset_id ... state IN ('complete', 'satisfied') ... LIMIT 1. */
  method FindPrior(d: Database, p: nat) returns (asset: Option<nat>)
    requires d.Valid()
    ensures asset == PriorAsset(d.db.items, p)
    ensures asset.Some? <==> exists j: nat :: IsFirstDone(d.db.items, p, j)
    ensures asset.None? <==> forall j | j in d.db.items && d.db.items[j].planItem == p :: d.db.items[j].state !in DONE
    ensures asset.Some? ==> asset.value in d.db.assets
  {
    var best: Option<nat> := None;
    var rest := d.db.items.Keys;
    while rest != {}
      invariant rest <= d.db.items.Keys
      invariant best.Some? ==> best.value in d.db.items && d.db.items[best.value].planItem == p && d.db.items[best.value].state in DONE
      invariant forall j | j in d.db.items && j !in rest && d.db.items[j].planItem == p && d.db.items[j].state in DONE ::
        best.Some? && best.value <= j
      decreases |rest|
    {
      var j :| j in rest;
      rest := rest - {j};
      if d.db.items[j].planItem == p && d.db.items[j].state in DONE && (best.None? || j < best.value) { best := Some(j); }
    }
    asset := None;
    if best.Some? {
      d.ItemHere(best.value);
      asset := d.db.items[best.value].asset;
      assert IsFirstDone(d.db.items, p, best.value);
    }
  }

  /** The latest other row of the plan item that has hashes but no asset. */
  method FindOrphan(d: Database, p: nat, i: nat) returns (orphan: Option<Orphan>)
    requires i in d.db.items ==> !IsOrphan(d.db.items[i], p)
    ensures orphan == OrphanOf(d.db.items, p)
  {
    var best: Option<nat> := None;
    var rest := d.db.items.Keys;
    while rest != {}
      invariant rest <= d.db.items.Keys
      invariant best.Some? ==> best.value in d.db.items && best.value != i && IsOrphan(d.db.items[best.value], p)
      invariant forall j | j in d.db.items && j !in rest && j != i && IsOrphan(d.db.items[j], p) :: best.Some? && j <= best.value
      decreases |rest|
    {
      var j :| j in rest;
      rest := rest - {j};
      if j != i && IsOrphan(d.db.items[j], p) && (best.None? || j > best.value) { best := Some(j); }
    }
    orphan := if best.Some? then Some(Orphan(d.db.items[best.value].sha256.value, d.db.items[best.value].md5)) else None;
    if best.Some? { assert IsLastOrphan(d.db.items, p, best.value); }
  }

  /** The item's own unfinished row, without hashes, changes neither answer. */
  lemma OwnRowIgnored(items: map<nat, RunItem>, i: nat, row: RunItem, p: nat)
    requires i !in items && row.state !in DONE && row.sha256.None?
    ensures PriorAsset(items[i := row], p) == PriorAsset(items, p) && OrphanOf(items[i := row], p) == OrphanOf(items, p)
  {
    var more := items[i := row];
    forall j: nat ensures IsFirstDone(more, p, j) <==> IsFirstDone(items, p, j) {
      if IsFirstDone(more, p, j) { assert forall k | k in items :: more[k] == items[k]; }
    }
    forall j: nat ensures IsLastOrphan(more, p, j) <==> IsLastOrphan(items, p, j) {
      if IsLastOrphan(more, p, j) { assert forall k | k in items :: more[k] == items[k]; }
    }
  }

  /** What an early end says: its state fits its counter, only a deferred item
      is retryable, and a satisfied one has an asset of the plan item. */
  predicate EarlyOk(db: Durable, i: nat, p: nat, e: Early)
    requires p in db.plan
  {
    && e.state !in UNFINISHED && e.state != Complete && CountFits(e.counted, e.state)
    && (e.state in DONE <==> e.asset.Some?) && (e.asset.Some? ==> e.asset.value in db.assets)
    && (e.retryable <==> e.state == Deferred) && AssetFits(db, i, p, e.state, e.asset)
  }

  method Precheck(d: Database, i: nat, p: nat, w: ItemWorld, world: Engine.World, budget: Engine.TransferBudget, deadline: real)
    returns (early: Option<Early>)
    requires d.Valid() && p in d.db.plan && budget.Valid() && i in d.db.items && d.db.items[i].state !in DONE
    requires forall j | j in d.db.items :: j <= i
    modifies world`tick, world`latest
    ensures early == EarlyOf(d.db, p, w, Engine.NatureOf(world, budget), old(Engine.EnvOf(world, budget)), deadline)
    ensures early.Some? ==> EarlyOk(d.db, i, p, early.value)
    ensures early.Some? && early.value.state == Satisfied ==> early.value.asset == SatisfyingAsset(d.db, p)
    ensures early.None? ==> world.tick == old(world.tick) + 1
    ensures early.None? ==>
              && w.current && w.policyFits && w.recipeAllowed && d.db.plan[p].eligibility == Eligible
              && budget.used < budget.maxBytes && world.readings(old(world.tick)) < deadline
              && forall j | j in d.db.items && d.db.items[j].planItem == p :: d.db.items[j].state != Complete && d.db.items[j].state != Satisfied
  {
    var item := d.db.plan[p];
    var satisfied := FindPrior(d, p);
    PlanAssets(d, p);
    if satisfied.None? && item.eligibility.AlreadySatisfied? { satisfied := Some(item.eligibility.asset); }
    if satisfied.Some? {
      PriorIsTied(d.db.items, i, p);
      return Some(Early(Satisfied, false, satisfied, AsCompleted, SatisfiedAlready));
    }
    if item.eligibility.Excluded? {
      return Some(Early(NotComplete, false, None, AsFailed, if item.eligibility.unavailable then NotAvailable else PolicyRefused));
    }
    var late := budget.Remaining() == 0;
    if !late {
      var now := world.Clock();
      late := now >= deadline;
    }
    if late { return Some(Early(Deferred, true, None, AsDeferred, OutOfBudget)); }
    if !w.current { return Some(Early(Stale, false, None, AsFailed, StaleTarget)); }
    if !w.policyFits || !w.recipeAllowed { return Some(Early(NotComplete, false, None, AsFailed, PolicyRefused)); }
    return None;
  }

  lemma PlanAssets(d: Database, p: nat)
    requires d.Valid() && p in d.db.plan
    ensures d.db.plan[p].eligibility.AlreadySatisfied? ==> d.db.plan[p].eligibility.asset in d.db.assets
  {
    d.IsSound();
  }

  lemma PriorIsTied(items: map<nat, RunItem>, i: nat, p: nat)
    requires i in items && items[i].state !in DONE && forall j | j in items :: j <= i
    ensures PriorAsset(items, p).Some? ==> DoneBefore(items, i, p, PriorAsset(items, p))
  {
    if j: nat :| IsFirstDone(items, p, j) && PriorAsset(items, p) == items[j].asset {
      assert j in items && j < i;
    }
  }

  /** The check of the item that was just inserted. */
  method PrecheckNew(d: Database, ghost a: Durable, run: nat, i: nat, p: nat, w: ItemWorld, world: Engine.World,
                     budget: Engine.TransferBudget,
                     deadline: real) returns (early: Option<Early>)
    requires d.Valid() && p in a.plan && budget.Valid() && Downloading(a, d.db, run, p, i, None) && Untouched(a, d.db, i)
    requires d.db.items[i].state == Pending && d.db.items[i].sha256.None? && forall j | j in d.db.items :: j <= i
    modifies world`tick, world`latest
    ensures IsEarly(early, a, p, w, Engine.NatureOf(world, budget), old(Engine.EnvOf(world, budget)), deadline)
    ensures early.Some? ==> EarlyOk(d.db, i, p, early.value)
    ensures early.None? ==> world.tick == old(world.tick) + 1
  {
    OwnRowIgnored(a.items, i, d.db.items[i], p);
    early := Precheck(d, i, p, w, world, budget, deadline);
  }

  predicate Over(b: bool) { b }

  /** The item's row is new and was checked. The definition is used only where
      Over(true) is asserted. */
  ghost predicate Entered(a: Durable, b: Durable, run: nat, p: nat, i: nat, early: Option<Early>) {
    forall k {:trigger Over(k)} | Over(k) ::
      p in b.plan && Downloading(a, b, run, p, i, None) && Untouched(a, b, i) && (early.Some? ==> EarlyOk(b, i, p, early.value))
  }

  /** The new row, and its check. */
  method Enter(d: Database, run: nat, p: nat, w: ItemWorld, world: Engine.World, budget: Engine.TransferBudget, deadline: real)
    returns (i: nat, early: Option<Early>)
    requires d.Valid() && run in d.db.runs && d.db.runs[run].status == RunActive
    requires p in d.db.plan && d.db.plan[p].plan == d.db.runs[run].plan && budget.Valid()
    requires forall j | j in d.db.items :: d.db.items[j].run != run || d.db.items[j].planItem != p
    modifies d`db, d`log, world`tick, world`latest
    ensures d.Valid() && Entered(old(d.db), d.db, run, p, i, early)
    ensures d.db.ledger == old(d.db).ledger && d.db.runs == old(d.db).runs && Retained(d.db, run) == Retained(old(d.db), run)
    ensures IsEarly(early, old(d.db), p, w, Engine.NatureOf(world, budget), old(Engine.EnvOf(world, budget)), deadline)
    ensures early.None? ==> world.tick == old(world.tick) + 1
  {
    ghost var a := d.db;
    i := Begin(d, run, p);
    early := PrecheckNew(d, a, run, i, p, w, world, budget, deadline);
  }

  method CloseEarly(d: Database, ghost a: Durable, run: nat, p: nat, i: nat, early: Early) returns (end: ItemEnd)
    requires d.Valid() && Downloading(a, d.db, run, p, i, None) && Untouched(a, d.db, i) && EarlyOk(d.db, i, p, early)
    modifies d`db, d`log
    ensures d.Valid() && ItemHandled(a, d.db, run, p, i, end, 0, None)
    ensures EndOf(d.db, i, end) == Some(EarlyVerdict(early))
  {
    Close(d, i, early.state, early.retryable, 0, early.asset, None, None);
    end := Handled(early.counted, early.outcome, 0, None);
  }

  // ----- bytes that are already published -----

  lemma ClosedHandled(h: Hashes, a: Durable, m: Durable, b: Durable, c: Durable, run: nat, p: nat, i: nat, bytes: Bytes,
                      end: PublicationEnd,
                      handled: ItemEnd, received: nat, handed: Option<nat>)
    requires Downloading(a, m, run, p, i, handed) && !LastRuns(AttemptsOf(m.attempts, i)) && OpenFor(m.ledger, i, None)
    requires PublicationOk(h, m, b, i, bytes, end) && !end.Trouble?
    requires c == b.(items := c.items) && OnlyItem(b, c, i) && Retained(c, run) == Retained(b, run)
    requires var row := c.items[i];
      && row.run == b.items[i].run && row.planItem == b.items[i].planItem && row.received == received && row.state !in UNFINISHED
      && handled.Handled? && handled.held == (if end.Refused? then end.held else 0) && handled.resume.None? && CountFits(handled.counted, row.state)
    ensures ItemHandled(a, c, run, p, i, handled, received, handed)
  {
  }

  /** The item's row after its bytes were offered for publication. */
  method CloseWith(d: Database, ghost a: Durable, run: nat, p: nat, i: nat, ghost m: Durable, ghost bytes: Bytes,
                   end: PublicationEnd,
                   received: nat, ghost handed: Option<nat>, ghost w: ItemWorld, ghost maxHeld: nat, good: ItemOutcome) returns (handled: ItemEnd)
    requires d.Valid() && Downloading(a, m, run, p, i, handed) && !LastRuns(AttemptsOf(m.attempts, i))
    requires OpenFor(m.ledger, i, None) && PublicationOk(d.hashes, m, d.db, i, bytes, end) && !end.Trouble?
    requires p in a.plan && EndsAs(d.hashes, a.plan[p], bytes, w.storage, maxHeld, end)
    requires d.db.items[i].sha256 == Some(d.hashes.sha256(bytes)) && d.db.items[i].md5 == Some(d.hashes.md5(bytes))
    modifies d`db, d`log
    ensures d.Valid() && ItemHandled(a, d.db, run, p, i, handled, received, handed)
    ensures EndOf(d.db, i, handled) == Some(Offered(d.hashes, a.plan[p], bytes, maxHeld, received, AttemptsOf(m.attempts, i), good))
  {
    hide ItemHandled;
    ghost var b := d.db;
    var row := d.db.items[i];
    match end {
      case Refused(held) =>
        Close(d, i, Quarantined, false, received, None, row.sha256, row.md5);
        handled := Handled(AsFailed, HashMismatch, held, None);
      case Linked(asset, _) =>
        Close(d, i, Complete, false, received, Some(asset), row.sha256, row.md5);
        handled := Handled(AsCompleted, good, 0, None);
    }
    ClosedHandled(d.hashes, a, m, b, d.db, run, p, i, bytes, end, handled, received, handed);
  }

  /** Bytes found in the store are verified and linked, or refused, without a
      transfer; storage trouble aborts the run. */
  method Relink(d: Database, ghost a: Durable, run: nat, p: nat, i: nat, w: ItemWorld, maxHeld: nat,
                bytes: Bytes) returns (end: ItemEnd)
    requires d.Valid() && Downloading(a, d.db, run, p, i, None) && Untouched(a, d.db, i) && p in a.plan
    requires Retained(d.db, run) + maxHeld <= d.db.runs[run].maxQuarantine
    modifies d`db, d`log
    ensures d.Valid()
    ensures EndOf(d.db, i, end) == FoundVerdict(d.hashes, a.plan[p], w, maxHeld, bytes)
    ensures if end.Aborted? then Downloading(a, d.db, run, p, i, None) else ItemHandled(a, d.db, run, p, i, end, 0, None)
  {
    ghost var m := d.db;
    var published := VerifyPublishAndPersist(d, i, bytes, w.storage, maxHeld);
    if published.Trouble? {
      TroubleKeeps(d.hashes, a, m, d.db, run, p, i, None, bytes, published);
      return Aborted;
    }
    end := CloseWith(d, a, run, p, i, m, bytes, published, 0, None, w, maxHeld, Existing);
  }

  lemma TroubleKeeps(h: Hashes, a: Durable, m: Durable, b: Durable, run: nat, p: nat, i: nat, handed: Option<nat>,
                     bytes: seq<Byte>,
                     end: PublicationEnd)
    requires Downloading(a, m, run, p, i, handed) && PublicationOk(h, m, b, i, bytes, end) && end.Trouble?
    ensures Downloading(a, b, run, p, i, handed)
  {
  }

  /** A row left with hashes and no asset: its bytes may already be published. */
  method Reconcile(d: Database, ghost a: Durable, run: nat, p: nat, i: nat, w: ItemWorld,
                   maxHeld: nat) returns (end: Option<ItemEnd>)
    requires d.Valid() && Downloading(a, d.db, run, p, i, None) && Untouched(a, d.db, i) && d.db.items[i].sha256.None? && p in a.plan
    requires Retained(d.db, run) + maxHeld <= d.db.runs[run].maxQuarantine
    modifies d`db, d`log
    ensures d.Valid()
    ensures match ReconcileOf(d.hashes, old(d.db), p, w)
            case Nothing => end.None? && d.db == old(d.db)
            case Faulty(category, orphan) =>
              && end.Some? && ItemHandled(a, d.db, run, p, i, end.value, 0, None)
              && EndOf(d.db, i, end.value) == Some(FaultyVerdict(category, orphan))
            case Found(bytes) =>
              && end.Some? && EndOf(d.db, i, end.value) == FoundVerdict(d.hashes, a.plan[p], w, maxHeld, bytes)
              && if end.value.Aborted? then Downloading(a, d.db, run, p, i, None) else ItemHandled(a, d.db, run, p, i, end.value, 0, None)
  {
    var orphan := FindOrphan(d, p, i);
    if orphan.None? { return None; }
    match Staging(d.hashes, d.db.cas, orphan.value, w.reconcileFault)
    case Nothing => return None;
    case Faulty(category, _) =>
      Close(d, i, NotComplete, false, 0, None, Some(orphan.value.sha256), orphan.value.md5);
      end := Some(Handled(AsFailed, StorageOutcome(category), 0, None));
    case Found(bytes) =>
      var relinked := Relink(d, a, run, p, i, w, maxHeld, bytes);
      end := Some(relinked);
  }

  // ----- the download -----

  /** The earlier run's row, of another item, is spent. */
  ghost predicate TakenOver(ledger: map<nat, LedgerRow>, i: nat, handed: Option<nat>) {
    handed.Some? ==> handed.value in ledger && ledger[handed.value].item != i && ledger[handed.value].state == Consumed
  }

  lemma LedgerStep(a: Durable, b: Durable, c: Durable, run: nat, p: nat, i: nat, first: Option<nat>, second: Option<nat>)
    requires Downloading(a, b, run, p, i, first) && c == b.(ledger := c.ledger, attempts := c.attempts)
    requires OthersKept(b.ledger, c.ledger, i, second) && AttemptsKept(b.attempts, c.attempts, i) && (first.None? || second.None?)
    requires second.Some? ==> second.value in a.ledger && a.ledger[second.value].item != i
    ensures Downloading(a, c, run, p, i, if first.None? then second else first)
  {
    SameHeld(b, c, run);
  }

  /** A retry's item takes over the partial before its transfer starts. */
  method ClaimIfAny(d: Database, ghost a: Durable, run: nat, p: nat, i: nat,
                    resume: Option<RetryResume>) returns (current: Option<nat>)
    requires d.Valid() && Downloading(a, d.db, run, p, i, None) && Untouched(a, d.db, i) && HandoverOk(d.db.ledger, resume)
    modifies d`db, d`log
    ensures d.Valid() && d.db == old(d.db).(ledger := d.db.ledger)
    ensures Downloading(a, d.db, run, p, i, Handover(resume)) && TakenOver(d.db.ledger, i, Handover(resume))
    ensures Ready(d.db, i, 1, current, ResumeOf(resume), ResumeOf(resume), d.files) && StartOk(ResumeOf(resume), d.files)
    ensures d.trust.Some? && resume.Some? ==> HonestResume(d.trust.value, resume.value.resume)
  {
    d.IsSound();
    current := None;
    if resume.Some? {
      ghost var before := d.db;
      assert PartialOk(d.trust, d.db.attempts, d.db.ledger[resume.value.source]);
      var row := d.ClaimResume(i, resume.value);
      current := Some(row);
      d.IsSound();
      LedgerStep(a, before, d.db, run, p, i, None, Some(resume.value.source));
    }
  }

  /** The call of the engine, with what is left of the run's time. */
  method CallEngine(w: ItemWorld, world: Engine.World, budget: Engine.TransferBudget, limits: RunLimits, deadline: real,
                    resume: Option<RetryResume>)
    returns (end: Spec.TransferEnd, events: seq<Spec.Event>)
    requires budget.Valid() && PositiveLimits(limits)
    modifies world, budget
    ensures budget.Valid()
    ensures Spec.Transferred(end, events, world.naps, Engine.EnvOf(world, budget))
            == ItemTransfer(Engine.NatureOf(world, budget), w, limits, deadline, resume, old(Engine.EnvOf(world, budget)))
  {
    var now := world.Clock();
    world.naps := [];
    end, events := Engine.Transfer(world, budget, w.identity, w.scripts, EngineLimits(limits, SecondsLeft(deadline, now)), ResumeOf(resume));
  }

  /** The bytes are what the response of the last of these attempts is part of. */
  ghost predicate LastServed(named: Naming, w: ItemWorld, attempts: seq<Spec.Transition>, bytes: Bytes) {
    && attempts != [] && attempts[|attempts| - 1].state == Spec.Complete
    && Properties.Genuine(named, w.identity, w.scripts(attempts[|attempts| - 1].attempt), bytes)
  }

  lemma NeverRelabels(w: ItemWorld, events: seq<Spec.Event>)
    requires forall n: nat {:trigger w.scripts(n)} :: !ErrorTagged(w.scripts(n))
    ensures Results.NoneRelabels(w.scripts, events)
  {
    forall i | 0 <= i < |events| && events[i].Began? ensures !Results.RelabelledIn(w.scripts, events[i].transition) {
      assert !ErrorTagged(w.scripts(events[i].transition.attempt));
    }
  }

  /** What honest servers leave in the ledger and in the staging file. */
  lemma HonestTransfer(trust: Option<Naming>, nature: Spec.Nature, w: ItemWorld, limits: RunLimits, deadline: real,
                       resume: Option<RetryResume>, e: Spec.Env)
    requires PositiveLimits(limits) && HonestItem(trust, w)
    requires trust.Some? && resume.Some? ==> HonestResume(trust.value, resume.value.resume)
    ensures var t := ItemTransfer(nature, w, limits, deadline, resume, e);
      && ShowsHonest(trust, t.events)
      && (trust.Some? && t.end.Returned? && t.end.result.staged.Some? ==>
            LastServed(trust.value, w, Spec.Attempts(t.events), t.end.result.staged.value))
  {
    if trust.Some? {
      var own := EngineLimits(limits, SecondsLeft(deadline, nature.readings(e.tick)));
      NeverRelabels(w, ItemTransfer(nature, w, limits, deadline, resume, e).events);
      Results.TransferHonest(trust.value, nature, w.identity, w.scripts, own, ResumeOf(resume), e.(tick := e.tick + 1));
      var t := ItemTransfer(nature, w, limits, deadline, resume, e);
      if t.end.Returned? && t.end.result.staged.Some? {
        Results.LastAttempt(t.events);
        CompletedLast(nature, w, limits, deadline, resume, e);
      }
    }
  }

  lemma CompletedLast(nature: Spec.Nature, w: ItemWorld, limits: RunLimits, deadline: real, resume: Option<RetryResume>,
                      e: Spec.Env)
    requires PositiveLimits(limits)
    ensures var t := ItemTransfer(nature, w, limits, deadline, resume, e);
      t.end.Returned? && t.end.result.staged.Some? ==>
        |t.events| > 0 && t.events[|t.events| - 1].Ended? && t.events[|t.events| - 1].transition.state == Spec.Complete
  {
    var own := EngineLimits(limits, SecondsLeft(deadline, nature.readings(e.tick)));
    Results.TransferCompletes(nature, w.identity, w.scripts, own, ResumeOf(resume), e.(tick := e.tick + 1));
  }

  datatype Fetched = Fetched(result: Spec.Result) | Escaped

  /** The transfer's observers and finish_partial: the ledger shows what the
      transfer keeps, unless an observer or the engine raises. */
  method Follow(d: Database, ghost a: Durable, run: nat, p: nat, i: nat, ghost handed: Option<nat>, start: Option<nat>,
                ghost initial: Option<ResumeState>, ghost files: nat, end: Spec.TransferEnd, events: seq<Spec.Event>) returns (f: Fetched)
    requires d.Valid() && Downloading(a, d.db, run, p, i, handed) && TakenOver(d.db.ledger, i, handed)
    requires Ready(d.db, i, 1, start, initial, initial, files) && StartOk(initial, files)
    requires Properties.Tells(events, 1, initial, initial, 0, files)
    requires Properties.KeptBelow(events, d.files) && ShowsHonest(d.trust, events)
    requires end.Returned? ==> Properties.Concludes(end.result, events)
    modifies d`db, d`log
    ensures d.Valid() && Downloading(a, d.db, run, p, i, handed)
    ensures f.Escaped? <==> end.RaisedValueError? || !Records.AllRecordable(events)
    ensures f.Fetched? ==> f.result == end.result && d.db.items == old(d.db).items && TakenOver(d.db.ledger, i, handed)
    ensures f.Fetched? ==> LedgerShows(d.db, i, f.result.resume) && !LastRuns(AttemptsOf(d.db.attempts, i))
    ensures f.Fetched? ==> AttemptsOf(d.db.attempts, i) == Spec.Attempts(events)
  {
    ghost var claimed := d.db;
    var ok, current := Observe(d, i, start, initial, files, events);
    WithinKeeps(a, claimed, d.db, run, p, i, handed);
    if !ok || end.RaisedValueError? { return Escaped; }
    ghost var seen := d.db;
    d.FinishPartial(i, current, end.result.staged.Some?, end.result.resume.Some?);
    FinishedShows(a, claimed, seen, d.db, run, p, i, handed, current, end.result, events);
    f := Fetched(end.result);
  }

  lemma WithinKeeps(a: Durable, b: Durable, c: Durable, run: nat, p: nat, i: nat, handed: Option<nat>)
    requires Downloading(a, b, run, p, i, handed) && WithinSome(b, c, i)
    ensures Downloading(a, c, run, p, i, handed)
  {
    LedgerStep(a, b, c, run, p, i, handed, None);
  }

  lemma FinishedShows(a: Durable, claimed: Durable, seen: Durable, c: Durable, run: nat, p: nat, i: nat, handed: Option<nat>,
                      current: Option<nat>,
                      result: Spec.Result, events: seq<Spec.Event>)
    requires Downloading(a, seen, run, p, i, handed) && TakenOver(claimed.ledger, i, handed) && Within(claimed, seen, i, current)
    requires Properties.Concludes(result, events) && ShowsLast(seen, i, current, events)
    requires c == seen.(ledger := c.ledger) && OthersKept(seen.ledger, c.ledger, i, None)
    requires OpenFor(c.ledger, i, if result.resume.Some? then current else None) && (result.resume.Some? ==> c == seen)
    ensures Downloading(a, c, run, p, i, handed) && TakenOver(c.ledger, i, handed) && LedgerShows(c, i, result.resume)
  {
    LedgerStep(a, seen, c, run, p, i, handed, None);
    if result.resume.Some? { assert OpenFor(c.ledger, i, Some(current.value)); }
  }

  /** Claim a partial, transfer, and bring the ledger up to date. */
  method Fetch(d: Database, ghost a: Durable, run: nat, p: nat, i: nat, w: ItemWorld, world: Engine.World,
               budget: Engine.TransferBudget, limits: RunLimits, deadline: real, resume: Option<RetryResume>, ghost t: Spec.Transferred)
    returns (f: Fetched)
    requires d.Valid() && Downloading(a, d.db, run, p, i, None) && Untouched(a, d.db, i)
    requires IsTransfer(t, Engine.NatureOf(world, budget), w, limits, deadline, resume, Engine.EnvOf(world, budget))
    requires budget.Valid() && PositiveLimits(limits) && HandoverOk(d.db.ledger, resume) && HonestItem(d.trust, w) && world.files == d.files
    modifies d`db, d`log, d`files, world, budget
    ensures d.Valid() && budget.Valid() && budget.used >= old(budget.used) && world.files == d.files
    ensures Downloading(a, d.db, run, p, i, Handover(resume))
    ensures Engine.EnvOf(world, budget) == t.env && (f.Escaped? <==> t.end.RaisedValueError? || !Records.AllRecordable(t.events))
    ensures f.Fetched? ==> && f.result == t.end.result && d.db.items == old(d.db).items && Properties.Concludes(t.end.result, t.events)
                           && AttemptsOf(d.db.attempts, i) == Spec.Attempts(t.events)
    ensures f.Fetched? ==> f.result.received <= budget.used - old(budget.used) && TakenOver(d.db.ledger, i, Handover(resume))
    ensures f.Fetched? ==> LedgerShows(d.db, i, f.result.resume) && !LastRuns(AttemptsOf(d.db.attempts, i))
    ensures f.Fetched? && d.trust.Some? && f.result.staged.Some? ==>
              LastServed(d.trust.value, w, AttemptsOf(d.db.attempts, i), f.result.staged.value)
  {
    hide LedgerShows, HonestItem, OthersKept, AttemptsKept;
    var start := ClaimIfAny(d, a, run, p, i, resume);
    ghost var e, files := Engine.EnvOf(world, budget), d.files;
    assert Shown(true);
    var end, events := CallEngine(w, world, budget, limits, deadline, resume);
    TransferFacts(Engine.NatureOf(world, budget), w, limits, deadline, resume, e);
    HonestTransfer(d.trust, Engine.NatureOf(world, budget), w, limits, deadline, resume, e);
    d.Advance(world.files);
    f := Follow(d, a, run, p, i, Handover(resume), start, ResumeOf(resume), files, end, events);
  }

  lemma TransferFacts(nature: Spec.Nature, w: ItemWorld, limits: RunLimits, deadline: real, resume: Option<RetryResume>,
                      e: Spec.Env)
    requires PositiveLimits(limits) && StartOk(ResumeOf(resume), e.files) && (resume.Some? ==> ConstructedResume(resume.value.resume))
    ensures var t := ItemTransfer(nature, w, limits, deadline, resume, e);
      && Properties.Tells(t.events, 1, ResumeOf(resume), ResumeOf(resume), 0, e.files) && Properties.KeptBelow(t.events, t.env.files)
      && t.env.files >= e.files && t.env.used >= e.used + Spec.Received(t.events)
      && (t.end.Returned? ==> Properties.Concludes(t.end.result, t.events) && t.end.result.received == Spec.Received(t.events))
  {
    ItemReceived(nature, w, limits, deadline, resume, e);
    Results.TransferTells(nature, w.identity, w.scripts, EngineLimits(limits, SecondsLeft(deadline, nature.readings(e.tick))), ResumeOf(resume),
                          e.(tick := e.tick + 1));
  }

  /** A terminal row of an item that gained no asset. */
  method CloseLost(d: Database, ghost a: Durable, run: nat, p: nat, i: nat, ghost handed: Option<nat>, state: ItemState,
                   retryable: bool,
                   received: nat, sha256: Option<string>, md5: Option<string>, counted: Counted, outcome: ItemOutcome,
                   left: Option<ResumeState>) returns (end: ItemEnd)
    requires d.Valid() && Downloading(a, d.db, run, p, i, handed) && LedgerShows(d.db, i, left) && !LastRuns(AttemptsOf(d.db.attempts, i))
    requires state in PUT_OFF + LOST && CountFits(counted, state)
    requires left.Some? ==> retryable && state in {NotComplete, Interrupted, Deferred}
    modifies d`db, d`log
    ensures d.Valid() && ItemHandled(a, d.db, run, p, i, end, received, handed)
    ensures EndOf(d.db, i, end) == Some(ItemVerdict(state, retryable, received, sha256, md5, NoAsset, AttemptsOf(old(d.db).attempts, i),
                                                    0, left, counted, outcome))
  {
    Close(d, i, state, retryable, received, None, sha256, md5);
    end := Handled(counted, outcome, 0, left);
  }

  /** The row has no hashes yet. */
  predicate Unhashed(b: Durable, i: nat) {
    i in b.items && b.items[i].sha256 == None && b.items[i].md5 == None
  }

  /** The staged file of a finished transfer is offered for publication. */
  method PublishFetched(d: Database, ghost a: Durable, run: nat, p: nat, i: nat, w: ItemWorld, ghost handed: Option<nat>,
                        maxHeld: nat,
                        bytes: Bytes, received: nat) returns (end: ItemEnd)
    requires d.Valid() && Downloading(a, d.db, run, p, i, handed) && OpenFor(d.db.ledger, i, None) && p in a.plan && Unhashed(d.db, i)
    requires Retained(d.db, run) + maxHeld <= d.db.runs[run].maxQuarantine && !LastRuns(AttemptsOf(d.db.attempts, i))
    modifies d`db, d`log
    ensures d.Valid() && ItemHandled(a, d.db, run, p, i, end, received, handed)
    ensures EndOf(d.db, i, end) == Some(StagedVerdict(d.hashes, a.plan[p], w, maxHeld, bytes, received, AttemptsOf(old(d.db).attempts, i)))
  {
    ghost var m := d.db;
    var published := VerifyPublishAndPersist(d, i, bytes, w.storage, maxHeld);
    if published.Trouble? {
      TroubleKeeps(d.hashes, a, m, d.db, run, p, i, handed, bytes, published);
      var row := d.db.items[i];
      end := CloseLost(d, a, run, p, i, handed, NotComplete, false, received, row.sha256, row.md5, AsFailed,
                       StorageOutcome(published.category), None);
    } else {
      end := CloseWith(d, a, run, p, i, m, bytes, published, received, handed, w, maxHeld, FreshDownload(w.storage.exactOnly));
    }
  }

  /** The failure of a transfer is recorded. */
  method CloseFetched(d: Database, ghost a: Durable, run: nat, p: nat, i: nat, ghost handed: Option<nat>, result: Spec.Result,
                      ghost events: seq<Spec.Event>) returns (end: ItemEnd)
    requires d.Valid() && Downloading(a, d.db, run, p, i, handed) && LedgerShows(d.db, i, result.resume) && p in a.plan
    requires !LastRuns(AttemptsOf(d.db.attempts, i)) && Properties.Concludes(result, events) && result.staged.None?
    modifies d`db, d`log
    ensures d.Valid() && ItemHandled(a, d.db, run, p, i, end, result.received, handed)
    ensures EndOf(d.db, i, end) == Some(LostVerdict(result, AttemptsOf(old(d.db).attempts, i)))
  {
    var last := TerminalItemState(result.outcome, result.state);
    end := CloseLost(d, a, run, p, i, handed, last, result.retryable, result.received, None, None,
                     if last == Interrupted then AsDeferred else AsFailed, TransferEnded(result.outcome), result.resume);
  }

  lemma NothingShown(db: Durable, i: nat)
    requires LedgerShows(db, i, None)
    ensures OpenFor(db.ledger, i, None)
  {
  }

  lemma ChargedMore(a: Durable, b: Durable, run: nat, p: nat, i: nat, end: ItemEnd, charged: nat, more: nat, handed: Option<nat>)
    requires ItemHandled(a, b, run, p, i, end, charged, handed) && charged <= more
    ensures end.Handled? && ItemHandled(a, b, run, p, i, end, more, handed)
  {
  }

  /** The download branch: what was fetched is published, or the failure recorded. */
  method Download(d: Database, ghost a: Durable, run: nat, p: nat, i: nat, w: ItemWorld, world: Engine.World,
                  budget: Engine.TransferBudget, limits: RunLimits, deadline: real, resume: Option<RetryResume>, maxHeld: nat,
                  ghost t: Spec.Transferred) returns (end: ItemEnd, ghost charged: nat)
    requires d.Valid() && Downloading(a, d.db, run, p, i, None) && Untouched(a, d.db, i) && p in a.plan
    requires IsTransfer(t, Engine.NatureOf(world, budget), w, limits, deadline, resume, Engine.EnvOf(world, budget))
    requires budget.Valid() && PositiveLimits(limits) && HandoverOk(d.db.ledger, resume) && HonestItem(d.trust, w) && world.files == d.files
    requires Retained(d.db, run) + maxHeld <= d.db.runs[run].maxQuarantine && Unhashed(d.db, i)
    modifies d`db, d`log, d`files, world, budget
    ensures d.Valid() && budget.Valid() && budget.used >= old(budget.used) && world.files == d.files
    ensures charged == budget.used - old(budget.used) && EndOf(d.db, i, end) == AfterTransfer(d.hashes, a.plan[p], w, maxHeld, t)
    ensures if end.Aborted? then Downloading(a, d.db, run, p, i, Handover(resume))
            else ItemHandled(a, d.db, run, p, i, end, charged, Handover(resume))
  {
    hide ItemHandled, LedgerShows, Untouched, HandoverOk, HonestItem, OthersKept, AttemptsKept;
    var f := Fetch(d, a, run, p, i, w, world, budget, limits, deadline, resume, t);
    charged := budget.used - old(budget.used);
    if f.Escaped? { return Aborted, charged; }
    if f.result.staged.None? {
      end := CloseFetched(d, a, run, p, i, Handover(resume), f.result, t.events);
    } else {
      NothingShown(d.db, i);
      end := PublishFetched(d, a, run, p, i, w, Handover(resume), maxHeld, f.result.staged.value, f.result.received);
    }
    ChargedMore(a, d.db, run, p, i, end, f.result.received, charged, Handover(resume));
  }

  /** The row runs; bytes of an earlier row are looked for. */
  method StartAndReconcile(d: Database, ghost a: Durable, run: nat, p: nat, i: nat, w: ItemWorld,
                           maxHeld: nat) returns (end: Option<ItemEnd>)
    requires d.Valid() && Downloading(a, d.db, run, p, i, None) && Untouched(a, d.db, i) && p in a.plan
    requires Retained(d.db, run) + maxHeld <= d.db.runs[run].maxQuarantine
    modifies d`db, d`log
    ensures d.Valid()
    ensures match ReconcileOf(d.hashes, a, p, w)
            case Nothing =>
              && end.None? && Downloading(a, d.db, run, p, i, None) && Untouched(a, d.db, i) && Unhashed(d.db, i)
              && d.db.ledger == a.ledger && d.db.runs == old(d.db).runs && Retained(d.db, run) == Retained(old(d.db), run)
            case Faulty(category, orphan) =>
              && end.Some? && ItemHandled(a, d.db, run, p, i, end.value, 0, None)
              && EndOf(d.db, i, end.value) == Some(FaultyVerdict(category, orphan))
            case Found(bytes) =>
              && end.Some? && EndOf(d.db, i, end.value) == FoundVerdict(d.hashes, a.plan[p], w, maxHeld, bytes)
              && if end.value.Aborted? then Downloading(a, d.db, run, p, i, None) else ItemHandled(a, d.db, run, p, i, end.value, 0, None)
  {
    Start(d, a, run, p, i);
    OwnRowIgnored(a.items, i, d.db.items[i], p);
    end := Reconcile(d, a, run, p, i, w, maxHeld);
  }

  method AcquireEarly(d: Database, ghost a: Durable, run: nat, p: nat, i: nat, w: ItemWorld, ghost nature: Spec.Nature,
                      limits: RunLimits,
                      deadline: real, resume: Option<RetryResume>, maxHeld: nat, ghost e: Spec.Env, early: Early)
    returns (end: ItemEnd)
    requires d.Valid() && Downloading(a, d.db, run, p, i, None) && Untouched(a, d.db, i) && EarlyOk(d.db, i, p, early)
    requires PositiveLimits(limits) && p in a.plan && IsEarly(Some(early), a, p, w, nature, e, deadline)
    modifies d`db, d`log
    ensures d.Valid() && ItemHandled(a, d.db, run, p, i, end, 0, Handover(resume))
    ensures EndOf(d.db, i, end) == VerdictOf(d.hashes, a, p, w, nature, limits, deadline, resume, maxHeld, e)
  {
    assert Shown(true);
    OutcomeEarly(d.hashes, a, p, w, nature, limits, deadline, resume, maxHeld, e, early);
    end := CloseEarly(d, a, run, p, i, early);
  }

  lemma NotEarly(a: Durable, p: nat, w: ItemWorld, nature: Spec.Nature, e: Spec.Env, deadline: real)
    requires IsEarly(None, a, p, w, nature, e, deadline)
    ensures EarlyOf(a, p, w, nature, e, deadline).None?
  {
    assert Shown(true);
  }

  /** The item that is neither settled early nor satisfied by published bytes. */
  method AcquireRunning(d: Database, ghost a: Durable, run: nat, p: nat, i: nat, w: ItemWorld, world: Engine.World,
                        budget: Engine.TransferBudget,
                        limits: RunLimits, deadline: real, resume: Option<RetryResume>, maxHeld: nat, ghost e: Spec.Env)
    returns (end: ItemEnd, ghost charged: nat)
    requires d.Valid() && Downloading(a, d.db, run, p, i, None) && Untouched(a, d.db, i) && p in a.plan
    requires budget.Valid() && PositiveLimits(limits) && HandoverOk(d.db.ledger, resume) && HonestItem(d.trust, w) && world.files == d.files
    requires Retained(d.db, run) + maxHeld <= d.db.runs[run].maxQuarantine
    requires IsEarly(None, a, p, w, Engine.NatureOf(world, budget), e, deadline) && Engine.EnvOf(world, budget) == e.(tick := e.tick + 1)
    modifies d`db, d`log, d`files, world, budget
    ensures d.Valid() && budget.Valid() && budget.used >= old(budget.used) && world.files == d.files
    ensures EndOf(d.db, i, end) == VerdictOf(d.hashes, a, p, w, Engine.NatureOf(world, budget), limits, deadline, resume, maxHeld, e)
    ensures if end.Aborted? then Working(a, d.db, run, p, i) else ItemHandled(a, d.db, run, p, i, end, charged, Handover(resume))
    ensures charged == budget.used - old(budget.used)
  {
    var settled := StartAndReconcile(d, a, run, p, i, w, maxHeld);
    NotEarly(a, p, w, Engine.NatureOf(world, budget), e, deadline);
    if settled.Some? {
      end, charged := settled.value, 0;
      OutcomeReconciled(d.hashes, a, p, w, Engine.NatureOf(world, budget), limits, deadline, resume, maxHeld, e);
    } else {
      ghost var t := TheTransfer(Engine.NatureOf(world, budget), w, limits, deadline, resume, Engine.EnvOf(world, budget));
      OutcomeTransferred(d.hashes, a, p, w, Engine.NatureOf(world, budget), limits, deadline, resume, maxHeld, e, t);
      end, charged := Download(d, a, run, p, i, w, world, budget, limits, deadline, resume, maxHeld, t);
    }
  }

  /** The item is handled or, when the run is aborted, left as it was being
      worked on. The definition is used only where Over(true) is asserted. */
  ghost predicate ItemDone(a: Durable, b: Durable, run: nat, p: nat, i: nat, end: ItemEnd, charged: int, handed: Option<nat>) {
    charged >= 0 && forall k {:trigger Over(k)} | Over(k) ::
      if end.Aborted? then Working(a, b, run, p, i) else ItemHandled(a, b, run, p, i, end, charged, handed)
  }

  lemma OpenDone(a: Durable, b: Durable, run: nat, p: nat, i: nat, end: ItemEnd, charged: int, handed: Option<nat>)
    requires ItemDone(a, b, run, p, i, end, charged, handed)
    ensures charged >= 0 && if end.Aborted? then Working(a, b, run, p, i) else ItemHandled(a, b, run, p, i, end, charged, handed)
  {
    assert Over(true);
  }

  method AcquireEntered(d: Database, ghost a: Durable, run: nat, p: nat, i: nat, w: ItemWorld, world: Engine.World,
                        budget: Engine.TransferBudget,
                        limits: RunLimits, deadline: real, resume: Option<RetryResume>, maxHeld: nat, ghost e: Spec.Env, early: Option<Early>)
    returns (end: ItemEnd)
    requires d.Valid() && Entered(a, d.db, run, p, i, early) && p in a.plan && run in d.db.runs
    requires budget.Valid() && PositiveLimits(limits) && HandoverOk(d.db.ledger, resume) && HonestItem(d.trust, w) && world.files == d.files
    requires Retained(d.db, run) + maxHeld <= d.db.runs[run].maxQuarantine
    requires IsEarly(early, a, p, w, Engine.NatureOf(world, budget), e, deadline)
    requires early.None? ==> Engine.EnvOf(world, budget) == e.(tick := e.tick + 1)
    modifies d`db, d`log, d`files, world, budget
    ensures d.Valid() && budget.Valid() && budget.used >= old(budget.used) && world.files == d.files
    ensures EndOf(d.db, i, end) == VerdictOf(d.hashes, a, p, w, Engine.NatureOf(world, budget), limits, deadline, resume, maxHeld, e)
    ensures ItemDone(a, d.db, run, p, i, end, budget.used - old(budget.used), Handover(resume))
  {
    assert Over(true);
    if early.Some? {
      end := AcquireEarly(d, a, run, p, i, w, Engine.NatureOf(world, budget), limits, deadline, resume, maxHeld, e, early.value);
    } else {
      ghost var charged;
      end, charged := AcquireRunning(d, a, run, p, i, w, world, budget, limits, deadline, resume, maxHeld, e);
    }
  }

  /** The body of the loop of execute: what becomes of the item is OutcomeOf, and
      the run is aborted exactly when there is no outcome. */
  method Acquire(d: Database, run: nat, p: nat, w: ItemWorld, world: Engine.World, budget: Engine.TransferBudget,
                 limits: RunLimits, deadline: real, resume: Option<RetryResume>, maxHeld: nat)
    returns (end: ItemEnd, i: nat)
    requires d.Valid() && run in d.db.runs && d.db.runs[run].status == RunActive
    requires p in d.db.plan && d.db.plan[p].plan == d.db.runs[run].plan
    requires forall j | j in d.db.items :: d.db.items[j].run != run || d.db.items[j].planItem != p
    requires budget.Valid() && PositiveLimits(limits) && HandoverOk(d.db.ledger, resume) && HonestItem(d.trust, w) && world.files == d.files
    requires Retained(d.db, run) + maxHeld <= d.db.runs[run].maxQuarantine
    modifies d`db, d`log, d`files, world, budget
    ensures d.Valid() && budget.Valid() && budget.used >= old(budget.used) && world.files == d.files
    ensures EndOf(d.db, i, end) == VerdictOf(d.hashes, old(d.db), p, w, Engine.NatureOf(world, budget), limits, deadline, resume, maxHeld,
                                             old(Engine.EnvOf(world, budget)))
    ensures ItemDone(old(d.db), d.db, run, p, i, end, budget.used - old(budget.used), Handover(resume))
  {
    ghost var a, e := d.db, Engine.EnvOf(world, budget);
    var early;
    i, early := Enter(d, run, p, w, world, budget, deadline);
    end := AcquireEntered(d, a, run, p, i, w, world, budget, limits, deadline, resume, maxHeld, e, early);
  }

  // ----- what honest servers make of an item -----

  /** A freshly downloaded item has published exactly bytes that the response of
      its last attempt is part of. */
  ghost predicate DownloadServed(named: Naming, w: ItemWorld, v: ItemVerdict) {
    v.outcome.FreshDownload? ==> v.state == Complete && v.content.OfBytes? && LastServed(named, w, v.attempts, v.content.bytes)
  }

  lemma ServedAfter(named: Naming, h: Hashes, p: PlanItem, w: ItemWorld, maxHeld: nat, t: Spec.Transferred)
    requires t.end.Returned? && t.end.result.staged.Some? ==> LastServed(named, w, Spec.Attempts(t.events), t.end.result.staged.value)
    ensures var v := AfterTransfer(h, p, w, maxHeld, t); v.Some? ==> DownloadServed(named, w, v.value)
  {
    hide LastServed;
  }

  lemma HonestVerdict(named: Naming, h: Hashes, db: Durable, p: nat, w: ItemWorld, nature: Spec.Nature, limits: RunLimits,
                      deadline: real,
                      resume: Option<RetryResume>, maxHeld: nat, e: Spec.Env)
    requires PositiveLimits(limits) && p in db.plan && HonestItem(Some(named), w)
    requires resume.Some? ==> HonestResume(named, resume.value.resume)
    ensures var v := VerdictOf(h, db, p, w, nature, limits, deadline, resume, maxHeld, e); v.Some? ==> DownloadServed(named, w, v.value)
  {
    hide ItemTransfer, AfterTransfer, TroubleOf, LastServed;
    var e1 := e.(tick := e.tick + 1);
    VerdictIs(h, db, p, w, nature, limits, deadline, resume, maxHeld, e);
    HonestTransfer(Some(named), nature, w, limits, deadline, resume, e1);
    ServedAfter(named, h, db.plan[p], w, maxHeld, ItemTransfer(nature, w, limits, deadline, resume, e1));
  }
}

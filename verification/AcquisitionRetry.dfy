/** Taking an earlier run up again: the rows it selects, the partials it hands
    over, and the run it executes for them. */
module AcquisitionRetry {

  import opened Basics
  import opened TransferProtocol
  import opened AcquisitionTables
  import opened AcquisitionSteps
  import opened AcquisitionLedger
  import opened AcquisitionOutcome
  import opened AcquisitionRun
  import opened AcquisitionCounters
  import opened AcquisitionService
  import opened AcquisitionRecovery
  import Spec = TransferSpec
  import Engine = TransferEngine

  // ----- the rows -----

  /** The rows a retry selects. */
  predicate Selected(row: RunItem, run: nat, nonretryable: bool) {
    row.run == run && if nonretryable then row.state !in DONE else row.retryable && row.state in {NotComplete, Interrupted, Deferred}
  }

  predicate SelectedRow(items: map<nat, RunItem>, run: nat, nonretryable: bool, i: nat) {
    i in items && Selected(items[i], run, nonretryable)
  }

  /** SELECT ... ORDER BY acquisition_run_item_id. */
  predicate IsSelection(items: map<nat, RunItem>, run: nat, nonretryable: bool, ids: seq<nat>) {
    && (forall j, k | 0 <= j < k < |ids| :: ids[j] < ids[k])
    && (forall j | 0 <= j < |ids| :: SelectedRow(items, run, nonretryable, ids[j]))
    && (forall i | i in items && SelectedRow(items, run, nonretryable, i) :: i in ids)
  }

  method SelectRows(items: map<nat, RunItem>, run: nat, nonretryable: bool) returns (ids: seq<nat>)
    ensures IsSelection(items, run, nonretryable, ids)
  {
    ids := [];
    var bound := NextRowId(items.Keys);
    for i := 0 to bound
      invariant forall j, k | 0 <= j < k < |ids| :: ids[j] < ids[k]
      invariant forall j | 0 <= j < |ids| :: ids[j] < i && SelectedRow(items, run, nonretryable, ids[j])
      invariant forall k | k in items && k < i && SelectedRow(items, run, nonretryable, k) :: k in ids
    {
      if SelectedRow(items, run, nonretryable, i) { ids := ids + [i]; }
    }
  }

  function KeyOf(db: Durable, i: nat): string {
    if i in db.items && db.items[i].planItem in db.plan then db.plan[db.items[i].planItem].key else ""
  }

  function KeysOf(db: Durable, ids: seq<nat>): seq<string> {
    seq(|ids|, j requires 0 <= j < |ids| => KeyOf(db, ids[j]))
  }

  /** Rows of one run are about items with different keys. */
  lemma KeysApart(h: Hashes, db: Durable, i: nat, j: nat)
    requires PlanOk(db) && ItemsOk(h, db) && i in db.items && j in db.items && db.items[i].run == db.items[j].run
    ensures KeyOf(db, i) == KeyOf(db, j) ==> i == j
  {
    assert ItemOk(h, db, i) && ItemOk(h, db, j);
    if KeyOf(db, i) == KeyOf(db, j) { assert db.plan[db.items[i].planItem] == db.plan[db.items[j].planItem]; }
  }

  // ----- the partials -----

  predicate OpenSelected(db: Durable, run: nat, nonretryable: bool, p: nat) {
    p in db.ledger && db.ledger[p].state == Open && SelectedRow(db.items, run, nonretryable, db.ledger[p].item)
  }

  /** The size the item's last attempt row announces. */
  function AnnouncedFor(db: Durable, p: nat): Option<nat>
    requires p in db.ledger
  {
    LastSize(AttemptsOf(db.attempts, db.ledger[p].item))
  }

  /** The partial as it is handed over. */
  function Handed(db: Durable, p: nat): RetryResume
    requires p in db.ledger
  {
    RetryResume(p, db.ledger[p].resume.(size := AnnouncedFor(db, p)))
  }

  /** The announced size is below the bytes at hand: ResumeState raises. */
  predicate TooSmall(db: Durable, p: nat)
    requires p in db.ledger
  {
    AnnouncedFor(db, p).Some? && AnnouncedFor(db, p).value < |db.ledger[p].resume.partial.bytes|
  }

  predicate SizeConflict(db: Durable, run: nat, nonretryable: bool) {
    exists p :: p in db.ledger && OpenSelected(db, run, nonretryable, p) && TooSmall(db, p)
  }

  /** Exactly the open partials of selected rows, each under its row's key. */
  ghost predicate HandsOver(db: Durable, run: nat, nonretryable: bool, resumes: map<string, RetryResume>) {
    && (forall p | p in db.ledger && OpenSelected(db, run, nonretryable, p) ::
          KeyOf(db, db.ledger[p].item) in resumes && resumes[KeyOf(db, db.ledger[p].item)] == Handed(db, p))
    && (forall x {:trigger resumes[x]} | x in resumes ::
          OpenSelected(db, run, nonretryable, resumes[x].source) && KeyOf(db, db.ledger[resumes[x].source].item) == x
          && resumes[x] == Handed(db, resumes[x].source))
  }

  /** The same for the rows `ids`. */
  ghost predicate HandsOverFrom(db: Durable, run: nat, nonretryable: bool, ids: seq<nat>, resumes: map<string, RetryResume>) {
    && (forall p | p in db.ledger && db.ledger[p].state == Open && db.ledger[p].item in ids ::
          !TooSmall(db, p) && KeyOf(db, db.ledger[p].item) in resumes && resumes[KeyOf(db, db.ledger[p].item)] == Handed(db, p))
    && (forall x {:trigger resumes[x]} | x in resumes ::
          OpenSelected(db, run, nonretryable, resumes[x].source) && db.ledger[resumes[x].source].item in ids
          && KeyOf(db, db.ledger[resumes[x].source].item) == x && resumes[x] == Handed(db, resumes[x].source))
  }

  lemma HandOne(h: Hashes, db: Durable, run: nat, nonretryable: bool, ids: seq<nat>, found: map<string, RetryResume>, i: nat,
                p: nat)
    requires Safe(h, db) && HandsOverFrom(db, run, nonretryable, ids, found) && SelectedRow(db.items, run, nonretryable, i)
    requires forall j | j in ids :: SelectedRow(db.items, run, nonretryable, j) && j != i
    requires IsOpenOf(db.ledger, p, i) && !TooSmall(db, p)
    ensures HandsOverFrom(db, run, nonretryable, ids + [i], found[KeyOf(db, i) := Handed(db, p)])
  {
    hide PlanOk, ItemsOk, StoreOk, RunsOk;
    forall q | q in db.ledger && db.ledger[q].state == Open && db.ledger[q].item == i ensures q == p {}
    forall j | j in ids ensures KeyOf(db, j) != KeyOf(db, i) { KeysApart(h, db, i, j); }
  }

  lemma HandNone(db: Durable, run: nat, nonretryable: bool, ids: seq<nat>, found: map<string, RetryResume>, i: nat)
    requires HandsOverFrom(db, run, nonretryable, ids, found)
    requires forall p | p in db.ledger :: !IsOpenOf(db.ledger, p, i)
    ensures HandsOverFrom(db, run, nonretryable, ids + [i], found)
  {
    forall q | q in db.ledger && db.ledger[q].state == Open ensures db.ledger[q].item != i { assert !IsOpenOf(db.ledger, q, i); }
  }

  lemma HandedAll(db: Durable, run: nat, nonretryable: bool, ids: seq<nat>, found: map<string, RetryResume>)
    requires HandsOverFrom(db, run, nonretryable, ids, found) && IsSelection(db.items, run, nonretryable, ids)
    ensures HandsOver(db, run, nonretryable, found) && !SizeConflict(db, run, nonretryable)
  {
  }

  /** The resumes a retry starts from. */
  method BuildResumes(d: Database, run: nat, nonretryable: bool,
                      ids: seq<nat>) returns (resumes: Option<map<string, RetryResume>>)
    requires d.Valid() && IsSelection(d.db.items, run, nonretryable, ids)
    ensures resumes.None? <==> SizeConflict(d.db, run, nonretryable)
    ensures resumes.Some? ==> HandsOver(d.db, run, nonretryable, resumes.value)
  {
    d.IsSound();
    var found: map<string, RetryResume> := map[];
    for k := 0 to |ids|
      invariant HandsOverFrom(d.db, run, nonretryable, ids[..k], found)
    {
      var i := ids[k];
      assert ids[..k + 1] == ids[..k] + [i] && SelectedRow(d.db.items, run, nonretryable, i);
      if p :| p in d.db.ledger && IsOpenOf(d.db.ledger, p, i) {
        if TooSmall(d.db, p) { return None; }
        HandOne(d.hashes, d.db, run, nonretryable, ids[..k], found, i, p);
        found := found[KeyOf(d.db, i) := Handed(d.db, p)];
      } else {
        HandNone(d.db, run, nonretryable, ids[..k], found, i);
      }
    }
    assert ids[..|ids|] == ids;
    HandedAll(d.db, run, nonretryable, ids, found);
    resumes := Some(found);
  }

  /** Everything handed over is open and could be constructed. */
  lemma HandedReady(trust: Option<Naming>, db: Durable, run: nat, nonretryable: bool, preview: seq<PlanItem>,
                    resumes: map<string, RetryResume>)
    requires HandsOver(db, run, nonretryable, resumes) && !SizeConflict(db, run, nonretryable) && PartialsOk(trust, db.attempts, db.ledger)
    ensures ResumesReady(db.ledger, preview, 0, resumes)
  {
    forall x | x in resumes ensures StillOpen(db.ledger, resumes[x]) && ConstructedResume(resumes[x].resume) {
      var p := resumes[x].source;
      assert PartialOk(trust, db.attempts, db.ledger[p]);
      assert !TooSmall(db, p);
    }
  }

  // ----- the announced size -----

  /** While the last ended attempt is the one the partial was kept in, the size
      handed over is the partial's own or unknown. */
  lemma FreshSize(trust: Option<Naming>, db: Durable, p: nat)
    requires PartialsOk(trust, db.attempts, db.ledger) && p in db.ledger && db.ledger[p].state == Open
    requires Fresh(db.ledger[p], AttemptsOf(db.attempts, db.ledger[p].item))
    ensures AnnouncedFor(db, p).None? || AnnouncedFor(db, p) == db.ledger[p].resume.size
    ensures !TooSmall(db, p)
  {
    assert PartialOk(trust, db.attempts, db.ledger[p]);
  }

  /** Cut short between keeping a partial and the end of its attempt, the item
      hands over the size of the response the attempt started with. When that is
      below the bytes at hand, no retry of the run gets past it. */
  lemma StaleSizeHandedOver(h: Hashes, trust: Option<Naming>, db: Durable, p: nat, row: LedgerRow)
    requires Sound(h, trust, db) && Allowed(h, trust, db, PutPartial(p, row)) && row.state == Open
    requires LastSize(AttemptsOf(db.attempts, row.item)) != row.resume.size
    ensures var run := db.items[row.item].run; var b := AfterRecovery(Apply(h, trust, db, PutPartial(p, row)), run);
      && p in b.ledger && Handed(b, p).resume.partial == row.resume.partial && Handed(b, p).resume.size != row.resume.size
      && (TooSmall(b, p) ==> SizeConflict(b, run, false) && SizeConflict(b, run, true))
  {
    hide ItemsOk, PlanOk, StoreOk, RunsOk, LedgerOk, AttemptsOk;
    var run := db.items[row.item].run;
    var kept := Apply(h, trust, db, PutPartial(p, row));
    CutOffSame(AttemptsOf(kept.attempts, row.item));
    var b := AfterRecovery(kept, run);
    assert Unfinished(kept.items, run, row.item);
    assert OpenSelected(b, run, false, p) && OpenSelected(b, run, true, p);
  }

  // ----- retry -----

  lemma SelectionEmpty(items: map<nat, RunItem>, run: nat, nonretryable: bool, ids: seq<nat>)
    requires IsSelection(items, run, nonretryable, ids)
    ensures ids == [] <==> forall i | i in items :: !SelectedRow(items, run, nonretryable, i)
  {
    if ids != [] { assert SelectedRow(items, run, nonretryable, ids[0]); }
  }

  /** What a call of retry asks for. The planner makes a preview of item keys. */
  datatype Asked = Asked(run: nat, nonretryable: bool, planner: seq<string> -> seq<PlanItem>, worlds: nat -> ItemWorld,
                         nature: Spec.Nature,
                         limits: RunLimits)

  /** plan_acquisition plans one item for each of the distinct keys, in order. */
  ghost predicate PlannerOk(planner: seq<string> -> seq<PlanItem>) {
    forall keys {:trigger planner(keys)} | (forall j, k | 0 <= j < k < |keys| :: keys[j] != keys[k]) ::
      && |planner(keys)| == |keys| && DistinctKeys(planner(keys))
      && forall j | 0 <= j < |keys| :: planner(keys)[j].key == keys[j]
  }

  function RequestFor(q: Asked, db: Durable, ids: seq<nat>, resumes: map<string, RetryResume>): Request {
    Request(q.planner(KeysOf(db, ids)), q.worlds, q.nature, q.limits, resumes)
  }

  /** There is no such run, nothing to retry, or a partial that cannot be handed over. */
  predicate Pointless(db: Durable, run: nat, nonretryable: bool) {
    run !in db.runs || (forall i | i in db.items :: !SelectedRow(db.items, run, nonretryable, i)) || SizeConflict(db, run, nonretryable)
  }

  /** retry, from one state of the catalogue to another: the run is recovered,
      and what it selects is executed. */
  ghost predicate Retried(h: Hashes, a: Durable, b: Durable, q: Asked, e: Spec.Env, summary: Option<Summary>, story: Story) {
    var mid := AfterRecovery(a, q.run);
    if Pointless(mid, q.run, q.nonretryable) then b == mid && summary.None? && story.NotBegun?
    else exists ids, resumes {:trigger RequestFor(q, mid, ids, resumes)} ::
           && IsSelection(mid.items, q.run, q.nonretryable, ids) && HandsOver(mid, q.run, q.nonretryable, resumes)
           && Executed(h, mid, b, RequestFor(q, mid, ids, resumes), e, summary, story)
  }

  lemma SelectionKeys(h: Hashes, db: Durable, run: nat, nonretryable: bool, ids: seq<nat>)
    requires Safe(h, db) && IsSelection(db.items, run, nonretryable, ids)
    ensures forall j, k | 0 <= j < k < |ids| :: KeysOf(db, ids)[j] != KeysOf(db, ids)[k]
  {
    forall j, k | 0 <= j < k < |ids| ensures KeyOf(db, ids[j]) != KeyOf(db, ids[k]) {
      assert SelectedRow(db.items, run, nonretryable, ids[j]) && SelectedRow(db.items, run, nonretryable, ids[k]);
      KeysApart(h, db, ids[j], ids[k]);
    }
  }

  method Retry(d: Database, run: nat, nonretryable: bool, planner: seq<string> -> seq<PlanItem>, worlds: nat -> ItemWorld,
               world: Engine.World, limits: RunLimits) returns (summary: Option<Summary>, ghost story: Story)
    requires d.Valid() && PositiveLimits(limits) && PlannerOk(planner) && HonestWorlds(d.trust, worlds) && world.files == d.files
    modifies d`db, d`log, d`files, d`notes, world
    ensures d.Valid() && world.files == d.files && StoryNoted(story, d.notes)
    ensures Retried(d.hashes, old(d.db), d.db, Asked(run, nonretryable, planner, worlds, NatureIn(world, limits), limits),
                    old(StartOf(world)), summary, story)
  {
    hide Executed, HandsOver, IsSelection, Safe, ResumesReady, SizeConflict, HonestWorlds;
    story := NotBegun;
    if run !in d.db.runs { return None, story; }
    var _ := RecoverInterrupted(d, run);
    var ids := SelectRows(d.db.items, run, nonretryable);
    SelectionEmpty(d.db.items, run, nonretryable, ids);
    if ids == [] { return None, story; }
    var resumes := BuildResumes(d, run, nonretryable, ids);
    if resumes.None? { return None, story; }
    ghost var mid := d.db;
    d.IsSound();
    SelectionKeys(d.hashes, d.db, run, nonretryable, ids);
    var preview := planner(KeysOf(d.db, ids));
    HandedReady(d.trust, d.db, run, nonretryable, preview, resumes.value);
    summary, story := Execute(d, preview, worlds, world, limits, resumes.value);
    ghost var q := Asked(run, nonretryable, planner, worlds, NatureIn(world, limits), limits);
    assert RequestFor(q, mid, ids, resumes.value) == Request(preview, worlds, NatureIn(world, limits), limits, resumes.value);
  }

  /** A retry ends without a report exactly when it is pointless, its request is
      refused, or an item of it has no verdict when it is its turn. */
  lemma RetryEndsExactly(h: Hashes, a: Durable, b: Durable, q: Asked, e: Spec.Env, summary: Option<Summary>, story: Story)
    requires Retried(h, a, b, q, e, summary, story) && !Pointless(AfterRecovery(a, q.run), q.run, q.nonretryable)
    ensures var mid := AfterRecovery(a, q.run);
      exists ids, resumes {:trigger RequestFor(q, mid, ids, resumes)} ::
        && IsSelection(mid.items, q.run, q.nonretryable, ids) && HandsOver(mid, q.run, q.nonretryable, resumes)
        && (summary.None? <==> Refused(mid, RequestFor(q, mid, ids, resumes)) || Breaks(h, RequestFor(q, mid, ids, resumes), story))
  {
    hide Executed, Refused, Breaks, IsSelection, HandsOver;
    var mid := AfterRecovery(a, q.run);
    var ids, resumes :| IsSelection(mid.items, q.run, q.nonretryable, ids) && HandsOver(mid, q.run, q.nonretryable, resumes)
                        && Executed(h, mid, b, RequestFor(q, mid, ids, resumes), e, summary, story);
    EndsExactly(h, mid, b, RequestFor(q, mid, ids, resumes), e, summary, story);
  }

  /** In a run that is over, every open partial belongs to an item a retry selects. */
  lemma NoPartialStranded(h: Hashes, db: Durable, p: nat)
    requires Safe(h, db) && p in db.ledger && db.ledger[p].state == Open
    requires db.items[db.ledger[p].item].run in db.runs && db.runs[db.items[db.ledger[p].item].run].status != RunActive
    ensures var run := db.items[db.ledger[p].item].run; OpenSelected(db, run, false, p) && OpenSelected(db, run, true, p)
  {
    var i := db.ledger[p].item;
    assert RunOk(db, db.items[i].run);
    assert i !in Rows(db.items, db.items[i].run, UNFINISHED);
  }

  // ----- what a retry asks for, row by row -----

  /** A row of the run that is worth another try; with `nonretryable`, every row
      that is not done. */
  predicate WorthRetrying(row: RunItem, run: nat, nonretryable: bool) {
    && row.run == run
    && if nonretryable then row.state != Complete && row.state != Satisfied
       else row.retryable && (row.state == NotComplete || row.state == Interrupted || row.state == Deferred)
  }

  /** The rows worth retrying, in the order of their ids. */
  predicate InOrder(db: Durable, run: nat, nonretryable: bool, ids: seq<nat>) {
    && (forall i | i in db.items :: WorthRetrying(db.items[i], run, nonretryable) <==> i in ids)
    && (forall j, k | 0 <= j < k < |ids| :: ids[j] < ids[k]) && (forall i | i in ids :: i in db.items)
  }

  /** An open partial as it is handed over: its file and its ETag, and the size
      the item's last attempt announced. */
  predicate HandedAs(db: Durable, p: nat, r: RetryResume) {
    && p in db.ledger && r.source == p
    && r.resume.partial == db.ledger[p].resume.partial && r.resume.etag == db.ledger[p].resume.etag
    && var i := db.ledger[p].item;
       r.resume.size == if i in db.attempts && db.attempts[i] != [] then db.attempts[i][|db.attempts[i]| - 1].size else None
  }

  /** Exactly the open partials of these rows are handed over, under the keys of
      their plan items. */
  ghost predicate HandsExactly(db: Durable, ids: seq<nat>, resumes: map<string, RetryResume>) {
    && (forall p | p in db.ledger && db.ledger[p].state == Open && db.ledger[p].item in ids ::
          && db.ledger[p].item in db.items && db.items[db.ledger[p].item].planItem in db.plan
          && var key := db.plan[db.items[db.ledger[p].item].planItem].key; key in resumes && HandedAs(db, p, resumes[key]))
    && (forall x {:trigger resumes[x]} | x in resumes ::
          && var p := resumes[x].source;
             p in db.ledger && db.ledger[p].state == Open && db.ledger[p].item in ids && HandedAs(db, p, resumes[x])
             && db.ledger[p].item in db.items && db.items[db.ledger[p].item].planItem in db.plan
             && db.plan[db.items[db.ledger[p].item].planItem].key == x)
  }

  /** The keys that are planned again. */
  predicate KeysFor(db: Durable, ids: seq<nat>, keys: seq<string>) {
    |keys| == |ids| && forall k | 0 <= k < |ids| ::
      && ids[k] in db.items && db.items[ids[k]].planItem in db.plan && keys[k] == db.plan[db.items[ids[k]].planItem].key
  }

  lemma SelectionInOrder(db: Durable, run: nat, nonretryable: bool, ids: seq<nat>)
    requires IsSelection(db.items, run, nonretryable, ids)
    ensures InOrder(db, run, nonretryable, ids)
  {
    forall i | i in db.items ensures WorthRetrying(db.items[i], run, nonretryable) <==> SelectedRow(db.items, run, nonretryable, i) {}
    forall i | i in ids ensures SelectedRow(db.items, run, nonretryable, i) {
      var j :| 0 <= j < |ids| && ids[j] == i;
    }
  }

  lemma PlannedKeys(h: Hashes, db: Durable, run: nat, nonretryable: bool, ids: seq<nat>)
    requires ItemsOk(h, db) && IsSelection(db.items, run, nonretryable, ids)
    ensures KeysFor(db, ids, KeysOf(db, ids))
  {
    forall k | 0 <= k < |ids| ensures ids[k] in db.items && db.items[ids[k]].planItem in db.plan {
      assert SelectedRow(db.items, run, nonretryable, ids[k]);
      assert ItemOk(h, db, ids[k]);
    }
  }

  lemma HandedExactly(h: Hashes, db: Durable, run: nat, nonretryable: bool, ids: seq<nat>, resumes: map<string, RetryResume>)
    requires ItemsOk(h, db) && IsSelection(db.items, run, nonretryable, ids) && HandsOver(db, run, nonretryable, resumes)
    ensures HandsExactly(db, ids, resumes)
  {
    SelectionInOrder(db, run, nonretryable, ids);
    forall p | p in db.ledger && db.ledger[p].state == Open && db.ledger[p].item in ids
      ensures OpenSelected(db, run, nonretryable, p)
      ensures db.items[db.ledger[p].item].planItem in db.plan
      ensures KeyOf(db, db.ledger[p].item) == db.plan[db.items[db.ledger[p].item].planItem].key
    {
      assert ItemOk(h, db, db.ledger[p].item);
    }
    forall p | p in db.ledger ensures HandedAs(db, p, Handed(db, p)) {}
    forall x | x in resumes ensures db.ledger[resumes[x].source].item in ids {
      assert OpenSelected(db, run, nonretryable, resumes[x].source);
    }
  }

  /** A retry that begins a run plans the keys of exactly the rows worth
      retrying in the recovered run, and hands over exactly their open partials. */
  lemma RetryChooses(h: Hashes, trust: Option<Naming>, a: Durable, b: Durable, q: Asked, e: Spec.Env,
                     summary: Option<Summary>, story: Story)
    requires Retried(h, a, b, q, e, summary, story) && story.Begun? && Sound(h, trust, AfterRecovery(a, q.run))
    ensures var mid := AfterRecovery(a, q.run);
      exists ids, keys {:trigger KeysFor(mid, ids, keys)} ::
        && InOrder(mid, q.run, q.nonretryable, ids) && KeysFor(mid, ids, keys)
        && story.order.preview == q.planner(keys) && HandsExactly(mid, ids, story.order.resumes)
        && story.order.limits == q.limits && story.order.worlds == q.worlds
  {
    hide Accounted, Follows, RunBegun, IsSelection, HandsOver, PlanOk, ItemsOk, StoreOk, LedgerOk, RunsOk, AttemptsOk, PartialsOk;
    var mid := AfterRecovery(a, q.run);
    var ids, resumes :| IsSelection(mid.items, q.run, q.nonretryable, ids) && HandsOver(mid, q.run, q.nonretryable, resumes)
                        && Executed(h, mid, b, RequestFor(q, mid, ids, resumes), e, summary, story);
    SelectionInOrder(mid, q.run, q.nonretryable, ids);
    PlannedKeys(h, mid, q.run, q.nonretryable, ids);
    HandedExactly(h, mid, q.run, q.nonretryable, ids, resumes);
    assert KeysFor(mid, ids, KeysOf(mid, ids));
  }
}

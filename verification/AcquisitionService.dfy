/** A whole acquisition run: the plan's rows, the items one after the other, and
    the report. */
module AcquisitionService {

  import opened Basics
  import opened DeclaredClaims
  import opened TransferProtocol
  import opened AcquisitionTables
  import opened AcquisitionSteps
  import opened AcquisitionLedger
  import opened AcquisitionOutcome
  import opened AcquisitionRun
  import opened AcquisitionCounters
  import Spec = TransferSpec
  import Engine = TransferEngine

  // ----- the plan and the run row -----

  /** The items of a preview belong to one plan and have keys of their own. */
  predicate DistinctKeys(preview: seq<PlanItem>) {
    && (forall j, k | 0 <= j < k < |preview| :: preview[j].key != preview[k].key)
    && (forall j, k | 0 <= j < k < |preview| :: preview[j].plan == preview[k].plan)
  }

  function DigestOf(preview: seq<PlanItem>): string {
    if preview == [] then "" else preview[0].plan
  }

  predicate SameKey(a: PlanItem, b: PlanItem) {
    a.plan == b.plan && a.key == b.key
  }

  /** The catalogue has another row under the item's key, or lacks its asset. */
  predicate Conflicts(db: Durable, item: PlanItem) {
    || (exists q :: q in db.plan && SameKey(db.plan[q], item) && db.plan[q] != item)
    || (item.eligibility.AlreadySatisfied? && item.eligibility.asset !in db.assets)
  }

  predicate PlanConflict(db: Durable, preview: seq<PlanItem>) {
    exists k :: 0 <= k < |preview| && Conflicts(db, preview[k])
  }

  /** The first k items of the preview have their rows. */
  ghost predicate Made(db: Durable, preview: seq<PlanItem>, k: nat, plan: map<nat, PlanItem>, ids: seq<nat>) {
    && k == |ids| <= |preview| && PlanOk(db.(plan := plan)) && (forall j | 0 <= j < k :: !Conflicts(db, preview[j]))
    && (forall q | q in db.plan :: q in plan && plan[q] == db.plan[q])
    && (forall j | 0 <= j < k :: ids[j] in plan && plan[ids[j]] == preview[j])
    && (forall q | q in plan && q !in db.plan :: plan[q] in preview[..k])
  }

  lemma MadeFound(db: Durable, preview: seq<PlanItem>, k: nat, plan: map<nat, PlanItem>, ids: seq<nat>, q: nat)
    requires PlanOk(db) && DistinctKeys(preview) && k < |preview|
    requires Made(db, preview, k, plan, ids) && q in plan && SameKey(plan[q], preview[k])
    ensures q in db.plan && (Conflicts(db, preview[k]) <==> plan[q] != preview[k])
    ensures plan[q] == preview[k] ==> Made(db, preview, k + 1, plan, ids + [q])
  {
    forall j | 0 <= j < k ensures preview[j] != plan[q] { assert preview[j].key != preview[k].key; }
    assert preview[..k + 1] == preview[..k] + [preview[k]];
    forall r | r in db.plan && SameKey(db.plan[r], preview[k]) ensures r == q { assert SameKey(db.plan[r], db.plan[q]); }
  }

  lemma MadeNew(db: Durable, preview: seq<PlanItem>, k: nat, plan: map<nat, PlanItem>, ids: seq<nat>, p: nat)
    requires k < |preview| && Made(db, preview, k, plan, ids) && p !in plan
    requires forall q | q in plan :: !SameKey(plan[q], preview[k])
    ensures Conflicts(db, preview[k]) <==> preview[k].eligibility.AlreadySatisfied? && preview[k].eligibility.asset !in db.assets
    ensures !Conflicts(db, preview[k]) ==> Made(db, preview, k + 1, plan[p := preview[k]], ids + [p])
  {
    hide PlanOk;
    assert preview[..k + 1] == preview[..k] + [preview[k]];
    forall q | q in db.plan ensures !SameKey(db.plan[q], preview[k]) { assert plan[q] == db.plan[q]; }
    if !Conflicts(db, preview[k]) { PlanOkMore(db, plan, p, preview[k]); }
  }

  lemma PlanOkMore(db: Durable, plan: map<nat, PlanItem>, p: nat, item: PlanItem)
    requires PlanOk(db.(plan := plan)) && p !in plan && forall q | q in plan :: !SameKey(plan[q], item)
    requires item.eligibility.AlreadySatisfied? ==> item.eligibility.asset in db.assets
    ensures PlanOk(db.(plan := plan[p := item]))
  {
    forall q | q in plan ensures plan[q].plan != item.plan || plan[q].key != item.key { assert !SameKey(plan[q], item); }
  }

  /** _materialize_plan: rows of the plan are found again by their key. */
  method Materialize(d: Database, preview: seq<PlanItem>) returns (done: Option<(map<nat, PlanItem>, seq<nat>)>)
    requires d.Valid() && DistinctKeys(preview)
    ensures done.None? <==> PlanConflict(d.db, preview)
    ensures done.Some? ==> Made(d.db, preview, |preview|, done.value.0, done.value.1)
  {
    d.IsSound();
    var plan, ids := d.db.plan, [];
    for k := 0 to |preview|
      invariant Made(d.db, preview, k, plan, ids)
    {
      var item := preview[k];
      if q :| q in plan && SameKey(plan[q], item) {
        MadeFound(d.db, preview, k, plan, ids, q);
        if plan[q] != item { return None; }
        ids := ids + [q];
      } else {
        var p := NextRowId(plan.Keys);
        MadeNew(d.db, preview, k, plan, ids, p);
        if item.eligibility.AlreadySatisfied? && item.eligibility.asset !in d.db.assets { return None; }
        plan, ids := plan[p := item], ids + [p];
      }
    }
    done := Some((plan, ids));
  }

  function NewRun(preview: seq<PlanItem>, limits: RunLimits): Run {
    Run(DigestOf(preview), RunActive, |preview|, 0, 0, 0, 0, 0, limits.maxTotalBytes, limits.maxQuarantine)
  }

  /** The rows of the plan and of the run, in one transaction. */
  ghost predicate RunBegun(a: Durable, b: Durable, preview: seq<PlanItem>, limits: RunLimits, run: nat, ids: seq<nat>) {
    && run !in a.runs && b == a.(plan := b.plan, runs := a.runs[run := NewRun(preview, limits)])
    && Made(a, preview, |preview|, b.plan, ids)
  }

  method OpenRun(d: Database, preview: seq<PlanItem>, limits: RunLimits) returns (run: nat, ids: Option<seq<nat>>)
    requires d.Valid() && DistinctKeys(preview)
    modifies d`db, d`log
    ensures d.Valid() && (ids.None? <==> PlanConflict(old(d.db), preview))
    ensures ids.None? ==> d.db == old(d.db)
    ensures ids.Some? ==> RunBegun(old(d.db), d.db, preview, limits, run, ids.value) && Going(d.db, run, NOTHING, 0, 0)
  {
    run := 0;
    var made := Materialize(d, preview);
    if made.None? { return run, None; }
    d.IsSound();
    run := NextRowId(d.db.runs.Keys);
    ghost var a := d.db;
    var next := d.db.(plan := made.value.0, runs := d.db.runs[run := NewRun(preview, limits)]);
    d.Commit(next, BeginRun(made.value.0, run, NewRun(preview, limits)));
    ids := Some(made.value.1);
    NothingYet(d.hashes, a, d.db, run);
  }

  lemma NothingYet(h: Hashes, a: Durable, b: Durable, run: nat)
    requires Safe(h, a) && run !in a.runs && b == a.(plan := b.plan, runs := b.runs) && run in b.runs && b.runs[run].status == RunActive
    ensures Going(b, run, NOTHING, 0, 0) && RunRows(b.items, run) == {}
  {
    forall i | i in a.items ensures a.items[i].run != run { assert ItemOk(h, a, i); }
    assert RunRows(b.items, run) == {} && RetainedRows(b, run) == {};
    assert Rows(b.items, run, UNFINISHED) == {} && Rows(b.items, run, DONE) == {};
    assert Rows(b.items, run, PUT_OFF) == {} && Rows(b.items, run, LOST) == {};
    assert Rows(b.items, run, {Stale}) == {} && Rows(b.items, run, {Quarantined}) == {};
  }

  // ----- the loop of execute -----

  /** A run that was begun, with everything it depends on. */
  datatype Order = Order(run: nat, ids: seq<nat>, preview: seq<PlanItem>, worlds: nat -> ItemWorld, nature: Spec.Nature,
                         limits: RunLimits, deadline: real, resumes: map<string, RetryResume>)

  /** The catalogue and the clock before an item. */
  datatype Moment = Moment(db: Durable, env: Spec.Env)

  function ResumeFor(resumes: map<string, RetryResume>, key: string): Option<RetryResume> {
    if key in resumes then Some(resumes[key]) else None
  }

  function ItemResume(o: Order, k: nat): Option<RetryResume> {
    if k < |o.preview| then ResumeFor(o.resumes, o.preview[k].key) else None
  }

  ghost predicate OrderOk(db: Durable, o: Order) {
    && PositiveLimits(o.limits) && DistinctKeys(o.preview) && |o.ids| == |o.preview|
    && (forall j {:trigger o.ids[j]} | 0 <= j < |o.ids| :: o.ids[j] in db.plan && db.plan[o.ids[j]] == o.preview[j])
    && o.run in db.runs && db.runs[o.run] == NewRun(o.preview, o.limits)
  }

  /** What is left of the quarantine allowance. */
  ghost function HeldLeft(db: Durable, o: Order): nat {
    if Retained(db, o.run) <= o.limits.maxQuarantine then o.limits.maxQuarantine - Retained(db, o.run) else 0
  }

  /** What becomes of the k-th item; None: the run is aborted. */
  ghost function VerdictAt(h: Hashes, o: Order, m: Moment, k: nat): Option<ItemVerdict> {
    if !OrderOk(m.db, o) || k >= |o.ids| then None
    else VerdictOf(h, m.db, o.ids[k], o.worlds(k), o.nature, o.limits, o.deadline, ItemResume(o, k), HeldLeft(m.db, o), m.env)
  }

  lemma VerdictAtIs(h: Hashes, o: Order, m: Moment, k: nat, maxHeld: nat)
    requires OrderOk(m.db, o) && k < |o.ids| && maxHeld == HeldLeft(m.db, o)
    ensures VerdictAt(h, o, m, k) ==
            VerdictOf(h, m.db, o.ids[k], o.worlds(k), o.nature, o.limits, o.deadline, ItemResume(o, k), maxHeld, m.env)
  {
  }

  /** The k-th item has its verdict, and its row says it. */
  ghost predicate ItemStep(h: Hashes, o: Order, a: Moment, b: Moment, k: nat) {
    && OrderOk(a.db, o) && k < |o.ids|
    && exists i, end {:trigger EndOf(b.db, i, end)} ::
         && ItemDone(a.db, b.db, o.run, o.ids[k], i, end, b.env.used - a.env.used, Handover(ItemResume(o, k)))
         && end.Handled? && EndOf(b.db, i, end) == VerdictAt(h, o, a, k)
  }

  /** The outcomes of the first n items. */
  ghost function Outcomes(h: Hashes, o: Order, moments: seq<Moment>, n: nat): multiset<ItemOutcome>
    requires n <= |moments|
  {
    if n == 0 then multiset{}
    else
      var v := VerdictAt(h, o, moments[n - 1], n - 1);
      Outcomes(h, o, moments, n - 1) + if v.Some? then multiset{v.value.outcome} else multiset{}
  }

  lemma {:induction false} OutcomesPrefix(h: Hashes, o: Order, moments: seq<Moment>, m: Moment, n: nat)
    requires n <= |moments|
    ensures Outcomes(h, o, moments + [m], n) == Outcomes(h, o, moments, n)
  {
    if n > 0 { OutcomesPrefix(h, o, moments, m, n - 1); }
  }

  /** One item after the other. */
  ghost predicate Follows(h: Hashes, o: Order, moments: seq<Moment>) {
    && 0 < |moments| <= |o.preview| + 1
    && forall k {:trigger ItemStep(h, o, moments[k], moments[k + 1], k)} | 0 <= k < |moments| - 1 :: ItemStep(h, o, moments[k], moments[k + 1], k)
  }

  /** The partials a retry hands to the items from the k-th on. */
  ghost predicate ResumesReady(ledger: map<nat, LedgerRow>, preview: seq<PlanItem>, k: nat, resumes: map<string, RetryResume>) {
    && (forall j {:trigger preview[j]} | k <= j < |preview| && preview[j].key in resumes ::
          StillOpen(ledger, resumes[preview[j].key]) && ConstructedResume(resumes[preview[j].key].resume))
    && (forall x, y {:trigger resumes[x], resumes[y]} |
          x in resumes && y in resumes && resumes[x].source == resumes[y].source :: x == y)
  }

  lemma LaterResumesReady(h: Hashes, a: Durable, b: Durable, preview: seq<PlanItem>, k: nat,
                          resumes: map<string, RetryResume>, i: nat)
    requires LedgerOk(a.items, a.ledger) && DistinctKeys(preview) && k < |preview| && ResumesReady(a.ledger, preview, k, resumes)
    requires i !in a.items && OthersKept(a.ledger, b.ledger, i, Handover(ResumeFor(resumes, preview[k].key)))
    ensures ResumesReady(b.ledger, preview, k + 1, resumes)
  {
    forall j | k < j < |preview| && preview[j].key in resumes
      ensures StillOpen(b.ledger, resumes[preview[j].key]) && ConstructedResume(resumes[preview[j].key].resume)
    {
      assert preview[k].key != preview[j].key;
      assert StillOpen(a.ledger, resumes[preview[j].key]);
    }
  }

  ghost predicate HonestWorlds(trust: Option<Naming>, worlds: nat -> ItemWorld) {
    forall k: nat {:trigger worlds(k)} :: HonestItem(trust, worlds(k))
  }

  /** The rows of the run are the items handled so far. */
  ghost predicate Covered(items: map<nat, RunItem>, run: nat, ids: seq<nat>, k: nat) {
    forall i | i in items && items[i].run == run :: items[i].planItem in ids[..if k <= |ids| then k else |ids|]
  }

  lemma IdsDistinct(db: Durable, o: Order, k: nat)
    requires OrderOk(db, o) && k < |o.ids|
    ensures o.ids[k] !in o.ids[..k]
  {
    forall j | 0 <= j < k ensures o.ids[j] != o.ids[k] { assert o.preview[j].key != o.preview[k].key; }
  }

  lemma CoverOne(a: Durable, b: Durable, run: nat, ids: seq<nat>, k: nat, i: nat)
    requires Covered(a.items, run, ids, k) && k < |ids| && OnlyItem(a, b, i) && b.items[i].planItem == ids[k]
    ensures Covered(b.items, run, ids, k + 1)
  {
    assert ids[..k + 1] == ids[..k] + [ids[k]];
  }

  /** Before the k-th item. */
  ghost predicate Halfway(db: Durable, o: Order, t: Tally, k: nat, used: nat) {
    && OrderOk(db, o) && k <= |o.ids| && Going(db, o.run, t, k, used) && Covered(db.items, o.run, o.ids, k)
    && ResumesReady(db.ledger, o.preview, k, o.resumes)
  }

  lemma HalfwayNext(h: Hashes, a: Durable, b: Durable, o: Order, t: Tally, k: nat, used: nat, i: nat, end: ItemEnd, charged: nat)
    requires LedgerOk(a.items, a.ledger) && Halfway(a, o, t, k, used) && k < |o.ids|
    requires ItemHandled(a, b, o.run, o.ids[k], i, end, charged, Handover(ItemResume(o, k)))
    requires EndOf(b, i, end).Some? && VerdictFits(EndOf(b, i, end).value)
    ensures Halfway(b, o, Counting(t, end), k + 1, used + charged)
  {
    CountsAgree(a, b, o.run, o.ids[k], i, end, charged, Handover(ItemResume(o, k)), t, k, used);
    CoverOne(a, b, o.run, o.ids, k, i);
    LaterResumesReady(h, a, b, o.preview, k, o.resumes, i);
  }

  lemma DigestFits(db: Durable, o: Order, k: nat)
    requires OrderOk(db, o) && k < |o.ids|
    ensures db.plan[o.ids[k]].plan == db.runs[o.run].plan
  {
    if k > 0 { assert o.preview[0].plan == o.preview[k].plan; }
  }

  /** Nobody else has a row for the k-th item. */
  lemma NotYetHandled(db: Durable, o: Order, t: Tally, k: nat, used: nat)
    requires Halfway(db, o, t, k, used) && k < |o.ids|
    ensures forall j | j in db.items :: db.items[j].run != o.run || db.items[j].planItem != o.ids[k]
    ensures HandoverOk(db.ledger, ItemResume(o, k))
  {
    IdsDistinct(db, o, k);
  }

  /** The k-th item of the run. */
  method RunItem(d: Database, o: Order, k: nat, maxHeld: nat, world: Engine.World, budget: Engine.TransferBudget, ghost t: Tally)
    returns (end: ItemEnd, ghost i: nat)
    requires d.Valid() && budget.Valid() && Engine.NatureOf(world, budget) == o.nature && world.files == d.files
    requires Halfway(d.db, o, t, k, budget.used) && k < |o.ids| && HonestWorlds(d.trust, o.worlds)
    requires Retained(d.db, o.run) + maxHeld == o.limits.maxQuarantine
    modifies d`db, d`log, d`files, world, budget
    ensures d.Valid() && budget.Valid() && world.files == d.files
    ensures EndOf(d.db, i, end) == VerdictAt(d.hashes, o, Moment(old(d.db), old(Engine.EnvOf(world, budget))), k)
    ensures ItemDone(old(d.db), d.db, o.run, o.ids[k], i, end, budget.used - old(budget.used), Handover(ItemResume(o, k)))
  {
    ghost var m := Moment(d.db, Engine.EnvOf(world, budget));
    DigestFits(d.db, o, k);
    NotYetHandled(d.db, o, t, k, budget.used);
    assert HonestItem(d.trust, o.worlds(k));
    VerdictAtIs(d.hashes, o, m, k, maxHeld);
    end, i := Acquire(d, o.run, o.ids[k], o.worlds(k), world, budget, o.limits, o.deadline, ItemResume(o, k), maxHeld);
  }

  lemma VerdictAtFits(h: Hashes, o: Order, m: Moment, k: nat)
    ensures VerdictAt(h, o, m, k).Some? ==> VerdictFits(VerdictAt(h, o, m, k).value)
  {
    if OrderOk(m.db, o) && k < |o.ids| {
      OutcomeFits(h, m.db, o.ids[k], o.worlds(k), o.nature, o.limits, o.deadline, ItemResume(o, k), HeldLeft(m.db, o), m.env);
    }
  }

  /** The item was handled: the counters follow, and the next one may start. */
  lemma PassItem(h: Hashes, o: Order, a: Moment, b: Moment, t: Tally, k: nat, i: nat, end: ItemEnd)
    requires LedgerOk(a.db.items, a.db.ledger) && Halfway(a.db, o, t, k, a.env.used) && k < |o.ids| && end.Handled?
    requires ItemDone(a.db, b.db, o.run, o.ids[k], i, end, b.env.used - a.env.used, Handover(ItemResume(o, k)))
    requires EndOf(b.db, i, end) == VerdictAt(h, o, a, k)
    ensures ItemStep(h, o, a, b, k) && Halfway(b.db, o, Counting(t, end), k + 1, b.env.used)
    ensures VerdictAt(h, o, a, k).Some? && VerdictAt(h, o, a, k).value.outcome == end.outcome
  {
    OpenDone(a.db, b.db, o.run, o.ids[k], i, end, b.env.used - a.env.used, Handover(ItemResume(o, k)));
    VerdictAtFits(h, o, a, k);
    HalfwayNext(h, a.db, b.db, o, t, k, a.env.used, i, end, b.env.used - a.env.used);
  }

  lemma FollowsOne(h: Hashes, o: Order, moments: seq<Moment>, next: Moment)
    requires Follows(h, o, moments) && |moments| <= |o.preview| && ItemStep(h, o, moments[|moments| - 1], next, |moments| - 1)
    ensures Follows(h, o, moments + [next])
  {
    var more := moments + [next];
    forall k | 0 <= k < |more| - 1 ensures ItemStep(h, o, more[k], more[k + 1], k) {
      if k < |moments| - 1 { assert ItemStep(h, o, moments[k], moments[k + 1], k); }
    }
  }

  lemma PassNext(h: Hashes, o: Order, moments: seq<Moment>, m: Moment, t: Tally, k: nat, i: nat, end: ItemEnd)
    requires Follows(h, o, moments) && |moments| == k + 1 && k < |o.ids|
    requires LedgerOk(moments[k].db.items, moments[k].db.ledger) && Halfway(moments[k].db, o, t, k, moments[k].env.used) && end.Handled?
    requires ItemDone(moments[k].db, m.db, o.run, o.ids[k], i, end, m.env.used - moments[k].env.used, Handover(ItemResume(o, k)))
    requires EndOf(m.db, i, end) == VerdictAt(h, o, moments[k], k) && t.outcomes == Outcomes(h, o, moments, k)
    ensures Follows(h, o, moments + [m]) && Halfway(m.db, o, Counting(t, end), k + 1, m.env.used)
    ensures Counting(t, end).outcomes == Outcomes(h, o, moments + [m], k + 1)
  {
    hide Follows, Halfway, ItemDone, ItemStep;
    PassItem(h, o, moments[k], m, t, k, i, end);
    FollowsOne(h, o, moments, m);
    OutcomesPrefix(h, o, moments, m, k);
  }

  /** The item raised: its row is left as it was being worked on. */
  lemma AbortKeeps(h: Hashes, o: Order, m: Moment, b: Durable, k: nat, i: nat, end: ItemEnd, charged: int)
    requires k < |o.ids| && end.Aborted? && ItemDone(m.db, b, o.run, o.ids[k], i, end, charged, Handover(ItemResume(o, k)))
    requires EndOf(b, i, end) == VerdictAt(h, o, m, k)
    ensures VerdictAt(h, o, m, k).None? && o.run in b.runs && b.runs[o.run].status == RunActive && b.runs == m.db.runs
  {
    OpenDone(m.db, b, o.run, o.ids[k], i, end, charged, Handover(ItemResume(o, k)));
  }

  /** The state of every moment was noted. */
  predicate Noted(moments: seq<Moment>, notes: seq<Durable>) {
    forall k | 0 <= k < |moments| :: moments[k].db in notes
  }

  /** Before the k-th item of the loop, k items having passed. */
  ghost predicate Underway(h: Hashes, o: Order, first: Moment, m: Moment, notes: seq<Durable>, t: Tally, k: nat,
                           moments: seq<Moment>) {
    && Halfway(m.db, o, t, k, m.env.used) && |moments| == k + 1 && Follows(h, o, moments) && moments[0] == first && moments[k] == m
    && Noted(moments, notes) && t.outcomes == Outcomes(h, o, moments, k)
  }

  predicate StillActive(db: Durable, run: nat) {
    run in db.runs && db.runs[run].status == RunActive
  }

  /** The item after the last moment raised. */
  ghost predicate Halted(h: Hashes, o: Order, first: Moment, db: Durable, notes: seq<Durable>, moments: seq<Moment>) {
    && 0 < |moments| <= |o.ids| && Follows(h, o, moments) && moments[0] == first && Noted(moments, notes)
    && VerdictAt(h, o, moments[|moments| - 1], |moments| - 1).None? && StillActive(db, o.run)
  }

  lemma FirstUnderway(h: Hashes, o: Order, m: Moment, notes: seq<Durable>)
    requires Halfway(m.db, o, NOTHING, 0, m.env.used) && m.db in notes
    ensures Underway(h, o, m, m, notes, NOTHING, 0, [m])
  {
  }

  lemma NextUnderway(h: Hashes, o: Order, first: Moment, a: Moment, b: Moment, notes: seq<Durable>, t: Tally, k: nat,
                     moments: seq<Moment>,
                     i: nat, end: ItemEnd)
    requires Underway(h, o, first, a, notes, t, k, moments) && k < |o.ids| && LedgerOk(a.db.items, a.db.ledger) && end.Handled?
    requires ItemDone(a.db, b.db, o.run, o.ids[k], i, end, b.env.used - a.env.used, Handover(ItemResume(o, k)))
    requires EndOf(b.db, i, end) == VerdictAt(h, o, a, k)
    ensures Underway(h, o, first, b, notes + [b.db], Counting(t, end), k + 1, moments + [b])
  {
    hide Halfway, ItemStep, ItemDone, LedgerOk, VerdictAt;
    PassNext(h, o, moments, b, t, k, i, end);
  }

  lemma HaltedHere(h: Hashes, o: Order, first: Moment, a: Moment, db: Durable, notes: seq<Durable>, t: Tally, k: nat,
                   moments: seq<Moment>,
                   i: nat, end: ItemEnd, charged: int)
    requires Underway(h, o, first, a, notes, t, k, moments) && k < |o.ids| && end.Aborted?
    requires ItemDone(a.db, db, o.run, o.ids[k], i, end, charged, Handover(ItemResume(o, k))) && EndOf(db, i, end) == VerdictAt(h, o, a, k)
    ensures Halted(h, o, first, db, notes, moments)
  {
    AbortKeeps(h, o, a, db, k, i, end, charged);
  }

  lemma HeldWithin(d: Database, o: Order, t: Tally, k: nat, used: nat)
    requires d.Valid() && Halfway(d.db, o, t, k, used)
    ensures LedgerOk(d.db.items, d.db.ledger) && Retained(d.db, o.run) == t.quarantined <= o.limits.maxQuarantine
  {
    hide ItemsOk, PlanOk, StoreOk, RunsOk, PartialsOk, AttemptsOk, LedgerOk;
    d.IsSound();
    RetainedWithin(d, o.run);
  }

  /** The body of the loop: an item passes, or the run is halted. */
  method NextItem(d: Database, o: Order, k: nat, t: Tally, world: Engine.World, budget: Engine.TransferBudget,
                  ghost first: Moment, ghost moments: seq<Moment>)
    returns (ok: bool, u: Tally, ghost more: seq<Moment>)
    requires d.Valid() && budget.Valid() && Engine.NatureOf(world, budget) == o.nature && world.files == d.files
    requires Underway(d.hashes, o, first, Moment(d.db, Engine.EnvOf(world, budget)), d.notes, t, k, moments)
    requires k < |o.ids| && HonestWorlds(d.trust, o.worlds)
    modifies d`db, d`log, d`files, d`notes, world, budget
    ensures d.Valid() && budget.Valid() && world.files == d.files
    ensures if ok then Underway(d.hashes, o, first, Moment(d.db, Engine.EnvOf(world, budget)), d.notes, u, k + 1, more)
            else Halted(d.hashes, o, first, d.db, d.notes, more)
  {
    HeldWithin(d, o, t, k, budget.used);
    hide Underway, Halfway, Follows, ItemDone, Going, HonestWorlds, Halted;
    ghost var a := Moment(d.db, Engine.EnvOf(world, budget));
    UnderwayIs(d.hashes, o, first, a, d.notes, t, k, moments);
    var maxHeld: nat := o.limits.maxQuarantine - t.quarantined;
    var end, i := RunItem(d, o, k, maxHeld, world, budget, t);
    u, more := t, moments;
    ghost var m := Moment(d.db, Engine.EnvOf(world, budget));
    ok := end.Handled?;
    if ok {
      NextUnderway(d.hashes, o, first, a, m, d.notes, t, k, moments, i, end);
      d.Note();
      u, more := Counting(t, end), moments + [m];
    } else {
      HaltedHere(d.hashes, o, first, a, d.db, d.notes, t, k, moments, i, end, m.env.used - a.env.used);
    }
  }

  lemma LimitsPositive(db: Durable, o: Order, t: Tally, k: nat, used: nat)
    requires Halfway(db, o, t, k, used)
    ensures o.limits.maxTotalBytes > 0
  {
  }

  lemma UnderwayIs(h: Hashes, o: Order, first: Moment, m: Moment, notes: seq<Durable>, t: Tally, k: nat, moments: seq<Moment>)
    requires Underway(h, o, first, m, notes, t, k, moments)
    ensures Halfway(m.db, o, t, k, m.env.used)
  {
  }

  /** The loop of execute over the items, up to the first that raises. */
  method RunItems(d: Database, o: Order, world: Engine.World, budget: Engine.TransferBudget)
    returns (ok: bool, t: Tally, ghost moments: seq<Moment>)
    requires d.Valid() && budget.Valid() && Engine.NatureOf(world, budget) == o.nature && world.files == d.files
    requires Halfway(d.db, o, NOTHING, 0, budget.used) && HonestWorlds(d.trust, o.worlds)
    modifies d`db, d`log, d`files, d`notes, world, budget
    ensures d.Valid() && budget.Valid() && world.files == d.files
    ensures var first := Moment(old(d.db), old(Engine.EnvOf(world, budget)));
      if ok then Underway(d.hashes, o, first, Moment(d.db, Engine.EnvOf(world, budget)), d.notes, t, |o.ids|, moments)
      else Halted(d.hashes, o, first, d.db, d.notes, moments)
  {
    hide Underway, Halted, Halfway, HonestWorlds;
    ghost var first := Moment(d.db, Engine.EnvOf(world, budget));
    t, ok, moments := NOTHING, true, [first];
    d.Note();
    FirstUnderway(d.hashes, o, first, d.notes);
    for k := 0 to |o.ids|
      invariant d.Valid() && budget.Valid() && world.files == d.files && ok
      invariant Underway(d.hashes, o, first, Moment(d.db, Engine.EnvOf(world, budget)), d.notes, t, k, moments)
    {
      ok, t, moments := NextItem(d, o, k, t, world, budget, first, moments);
      if !ok { return; }
    }
  }

  // ----- execute -----

  function FinalRow(row: Run, t: Tally, used: nat): Run {
    row.(status := FinalStatus(t).0, completed := t.completed, failed := t.failed, deferred := t.deferred, received := used, quarantined := t.quarantined)
  }

  lemma FinalSettles(db: Durable, o: Order, t: Tally, used: nat)
    requires Halfway(db, o, t, |o.ids|, used) && used <= o.limits.maxTotalBytes && Retained(db, o.run) <= o.limits.maxQuarantine
    ensures var row := FinalRow(db.runs[o.run], t, used);
      && Settled(db.items, row, o.run) && row.plan == db.runs[o.run].plan && row.maxQuarantine == db.runs[o.run].maxQuarantine
      && Accounted(db.(runs := db.runs[o.run := row]), Summary(o.run, FinalStatus(t).0, FinalStatus(t).1, |o.preview|, t, used), o.limits)
  {
    hide FinalStatus, StatusSays, Reported, Covered, ResumesReady, DistinctKeys, ReportsStale, ReportsMismatch;
    var row := FinalRow(db.runs[o.run], t, used);
    SettledFromGoing(db, o.run, t, |o.ids|, used, row);
    StatusIs(t);
    ReportMeans(db, o.run, t, |o.ids|, used);
    SameHeld(db, db.(runs := db.runs[o.run := row]), o.run);
  }

  /** finish_acquisition_run with the loop's counters. */
  method ReportRun(d: Database, o: Order, t: Tally, used: nat) returns (s: Summary)
    requires d.Valid() && Halfway(d.db, o, t, |o.ids|, used) && used <= o.limits.maxTotalBytes
    modifies d`db, d`log
    ensures d.Valid() && d.db == old(d.db).(runs := d.db.runs) && Accounted(d.db, s, o.limits)
    ensures s.run == o.run && s.planned == |o.preview| && s.received == used && s.tally == t
  {
    hide Accounted, Going, Settled;
    HeldWithin(d, o, t, |o.ids|, used);
    FinalSettles(d.db, o, t, used);
    var row := FinalRow(d.db.runs[o.run], t, used);
    d.Commit(d.db.(runs := d.db.runs[o.run := row]), FinishRun(o.run, row));
    s := Summary(o.run, FinalStatus(t).0, FinalStatus(t).1, |o.preview|, t, used);
  }

  /** How a run went: the run that was begun, and the moments between its items. */
  datatype Story = NotBegun | Begun(order: Order, moments: seq<Moment>)

  predicate StoryNoted(story: Story, notes: seq<Durable>) {
    story.Begun? ==> Noted(story.moments, notes)
  }

  /** What a call of execute asks for. */
  datatype Request = Request(preview: seq<PlanItem>, worlds: nat -> ItemWorld, nature: Spec.Nature, limits: RunLimits,
                             resumes: map<string, RetryResume>)

  /** The checks before anything is written. */
  predicate Refused(db: Durable, r: Request) {
    r.limits.concurrency != 1 || |r.preview| > r.limits.maxItems || PlanConflict(db, r.preview)
  }

  function OrderOf(r: Request, e: Spec.Env, run: nat, ids: seq<nat>): Order {
    Order(run, ids, r.preview, r.worlds, r.nature, r.limits, r.nature.readings(e.tick) + r.limits.maxSeconds as real, r.resumes)
  }

  /** execute, from one state of the catalogue to another. No summary stands for
      an exception: nothing was written, or an item without a verdict aborted the
      run, which is left active for recovery. */
  ghost predicate Executed(h: Hashes, a: Durable, b: Durable, r: Request, e: Spec.Env, summary: Option<Summary>, story: Story) {
    match story
    case NotBegun => summary.None? && b == a && Refused(a, r)
    case Begun(o, moments) =>
      && !Refused(a, r) && o == OrderOf(r, e, o.run, o.ids) && Follows(h, o, moments)
      && RunBegun(a, moments[0].db, r.preview, r.limits, o.run, o.ids) && OrderOk(moments[0].db, o) && moments[0].env == e.(tick := e.tick + 1)
      && match summary
         case None =>
           |moments| <= |r.preview| && VerdictAt(h, o, moments[|moments| - 1], |moments| - 1).None? && StillActive(b, o.run)
         case Some(s) =>
           && |moments| == |r.preview| + 1 && b == moments[|r.preview|].db.(runs := b.runs)
           && s.run == o.run && s.planned == |r.preview| && Accounted(b, s, r.limits)
           && s.received == moments[|r.preview|].env.used && s.tally.outcomes == Outcomes(h, o, moments, |r.preview|)
  }

  lemma RefusedEnds(h: Hashes, a: Durable, r: Request, e: Spec.Env)
    ensures Refused(a, r) ==> Executed(h, a, a, r, e, None, NotBegun)
  {
  }

  /** The first moment of the run that the request begins. */
  ghost predicate Starts(a: Durable, r: Request, e: Spec.Env, o: Order, first: Moment) {
    && !Refused(a, r) && o == OrderOf(r, e, o.run, o.ids) && RunBegun(a, first.db, r.preview, r.limits, o.run, o.ids)
    && OrderOk(first.db, o) && first.env == e.(tick := e.tick + 1)
  }

  lemma AbortedEnds(h: Hashes, a: Durable, b: Durable, r: Request, e: Spec.Env, o: Order, first: Moment, notes: seq<Durable>,
                    moments: seq<Moment>)
    requires Starts(a, r, e, o, first) && Halted(h, o, first, b, notes, moments)
    ensures Executed(h, a, b, r, e, None, Begun(o, moments)) && StoryNoted(Begun(o, moments), notes)
  {
  }

  lemma ReportedEnds(h: Hashes, a: Durable, m: Moment, b: Durable, r: Request, e: Spec.Env, o: Order, first: Moment,
                     notes: seq<Durable>,
                     moments: seq<Moment>, t: Tally, s: Summary)
    requires Starts(a, r, e, o, first) && Underway(h, o, first, m, notes, t, |o.ids|, moments)
    requires b == m.db.(runs := b.runs) && s.run == o.run && s.planned == |o.preview| && Accounted(b, s, o.limits)
    requires s.received == m.env.used && s.tally == t
    ensures Executed(h, a, b, r, e, Some(s), Begun(o, moments)) && StoryNoted(Begun(o, moments), notes)
  {
    hide Halfway, Accounted;
    UnderwayIs(h, o, first, m, notes, t, |o.ids|, moments);
  }

  lemma FirstOrder(db: Durable, r: Request, e: Spec.Env, a: Durable, run: nat, ids: seq<nat>)
    requires RunBegun(a, db, r.preview, r.limits, run, ids) && PositiveLimits(r.limits) && DistinctKeys(r.preview)
    requires Going(db, run, NOTHING, 0, 0) && ResumesReady(a.ledger, r.preview, 0, r.resumes)
    requires !Refused(a, r)
    ensures Halfway(db, OrderOf(r, e, run, ids), NOTHING, 0, 0)
    ensures Starts(a, r, e, OrderOf(r, e, run, ids), Moment(db, e.(tick := e.tick + 1)))
  {
    forall i | i in db.items ensures db.items[i].run != run {
      assert |RunRows(db.items, run)| == 0;
      assert i !in RunRows(db.items, run);
    }
  }

  function StartOf(world: Engine.World): Spec.Env
    reads world
  {
    Spec.Env(world.tick, world.polls, 0, world.files)
  }

  function NatureIn(world: Engine.World, limits: RunLimits): Spec.Nature {
    Spec.Nature(world.readings, world.cancels, limits.maxTotalBytes)
  }

  /** The items of the run that was begun, and its report. */
  method Perform(d: Database, o: Order, world: Engine.World, ghost r: Request, ghost e: Spec.Env, ghost a: Durable)
    returns (summary: Option<Summary>, ghost story: Story)
    requires d.Valid() && o.nature == NatureIn(world, o.limits) && world.files == d.files
    requires Starts(a, r, e, o, Moment(d.db, StartOf(world)))
    requires Halfway(d.db, o, NOTHING, 0, 0) && HonestWorlds(d.trust, o.worlds)
    modifies d`db, d`log, d`files, d`notes, world
    ensures d.Valid() && world.files == d.files && Executed(d.hashes, a, d.db, r, e, summary, story) && StoryNoted(story, d.notes)
  {
    hide Executed, Accounted, Starts, Underway, Halted, Halfway, HonestWorlds;
    ghost var first := Moment(d.db, StartOf(world));
    LimitsPositive(d.db, o, NOTHING, 0, 0);
    var budget := new Engine.TransferBudget(o.limits.maxTotalBytes);
    var ok, t, moments := RunItems(d, o, world, budget);
    story, summary := Begun(o, moments), None;
    if ok {
      ghost var m := Moment(d.db, Engine.EnvOf(world, budget));
      UnderwayIs(d.hashes, o, first, m, d.notes, t, |o.ids|, moments);
      var s := ReportRun(d, o, t, budget.used);
      summary := Some(s);
      ReportedEnds(d.hashes, a, m, d.db, r, e, o, first, d.notes, moments, t, s);
    } else {
      AbortedEnds(d.hashes, a, d.db, r, e, o, first, d.notes, moments);
    }
  }

  method Execute(d: Database, preview: seq<PlanItem>, worlds: nat -> ItemWorld, world: Engine.World, limits: RunLimits,
                 resumes: map<string, RetryResume>) returns (summary: Option<Summary>, ghost story: Story)
    requires d.Valid() && PositiveLimits(limits) && DistinctKeys(preview) && world.files == d.files
    requires ResumesReady(d.db.ledger, preview, 0, resumes) && HonestWorlds(d.trust, worlds)
    modifies d`db, d`log, d`files, d`notes, world
    ensures d.Valid() && world.files == d.files && StoryNoted(story, d.notes)
    ensures Executed(d.hashes, old(d.db), d.db, Request(preview, worlds, NatureIn(world, limits), limits, resumes), old(StartOf(world)), summary, story)
  {
    hide Executed, Halfway, RunBegun, Going, ResumesReady, DistinctKeys, PositiveLimits, Starts, HonestWorlds;
    story := NotBegun;
    ghost var r, e, a := Request(preview, worlds, NatureIn(world, limits), limits, resumes), StartOf(world), d.db;
    RefusedEnds(d.hashes, a, r, e);
    if limits.concurrency != 1 || |preview| > limits.maxItems { return None, story; }
    var run, begun := OpenRun(d, preview, limits);
    if begun.None? { return None, story; }
    var now := world.Clock();
    var o := Order(run, begun.value, preview, worlds, NatureIn(world, limits), limits, now + limits.maxSeconds as real, resumes);
    FirstOrder(d.db, r, e, a, run, begun.value);
    summary, story := Perform(d, o, world, r, e, a);
  }

  /** Some item has no verdict when it is its turn. */
  ghost predicate Breaks(h: Hashes, r: Request, story: Story) {
    story.Begun? && exists k :: 0 <= k < |story.moments| && k < |r.preview| && VerdictAt(h, story.order, story.moments[k], k).None?
  }

  /** No summary exactly for a refused request, or when some item has no verdict
      in the moment it is its turn. */
  lemma EndsExactly(h: Hashes, a: Durable, b: Durable, r: Request, e: Spec.Env, summary: Option<Summary>, story: Story)
    requires Executed(h, a, b, r, e, summary, story)
    ensures summary.None? <==> Refused(a, r) || Breaks(h, r, story)
  {
    if story.Begun? {
      var o, moments := story.order, story.moments;
      forall k | 0 <= k < |moments| - 1 ensures VerdictAt(h, o, moments[k], k).Some? {
        assert ItemStep(h, o, moments[k], moments[k + 1], k);
        StepHasVerdict(h, o, moments[k], moments[k + 1], k);
      }
    }
  }

  lemma StepHasVerdict(h: Hashes, o: Order, a: Moment, b: Moment, k: nat)
    requires ItemStep(h, o, a, b, k)
    ensures VerdictAt(h, o, a, k).Some? && (OrderOk(a.db, o) ==> OrderOk(b.db, o))
  {
    var i, end :| ItemDone(a.db, b.db, o.run, o.ids[k], i, end, b.env.used - a.env.used, Handover(ItemResume(o, k)))
                  && end.Handled? && EndOf(b.db, i, end) == VerdictAt(h, o, a, k);
    OpenDone(a.db, b.db, o.run, o.ids[k], i, end, b.env.used - a.env.used, Handover(ItemResume(o, k)));
  }

  /** Where storage and servers fail only in ways the catalogue knows, and no
      answer is beyond the limits, every request that is not refused ends with a
      report. */
  lemma HarmlessRunEnds(h: Hashes, a: Durable, b: Durable, r: Request, e: Spec.Env, summary: Option<Summary>, story: Story)
    requires Executed(h, a, b, r, e, summary, story)
    requires forall k: nat {:trigger r.worlds(k)} :: Harmless(r.limits, r.worlds(k))
    requires forall x {:trigger r.resumes[x]} | x in r.resumes :: HarmlessResume(r.limits, Some(r.resumes[x]))
    ensures summary.None? <==> Refused(a, r)
  {
    if story.Begun? && summary.None? {
      var o, moments := story.order, story.moments;
      var k: nat := |moments| - 1;
      OrderStays(h, o, moments, k);
      assert Harmless(r.limits, o.worlds(k));
      assert ItemResume(o, k).Some? ==> ItemResume(o, k).value == r.resumes[o.preview[k].key];
      HarmlessVerdict(h, o, moments[k], k);
      assert false;
    }
  }

  lemma HarmlessVerdict(h: Hashes, o: Order, m: Moment, k: nat)
    requires OrderOk(m.db, o) && k < |o.ids| && Harmless(o.limits, o.worlds(k)) && HarmlessResume(o.limits, ItemResume(o, k))
    ensures VerdictAt(h, o, m, k).Some?
  {
    VerdictIs(h, m.db, o.ids[k], o.worlds(k), o.nature, o.limits, o.deadline, ItemResume(o, k), HeldLeft(m.db, o), m.env);
    HarmlessEnds(h, m.db, o.ids[k], o.worlds(k), o.nature, o.limits, o.deadline, ItemResume(o, k), HeldLeft(m.db, o), m.env);
  }

  lemma {:induction false} OrderStays(h: Hashes, o: Order, moments: seq<Moment>, k: nat)
    requires Follows(h, o, moments) && OrderOk(moments[0].db, o) && k < |moments|
    ensures OrderOk(moments[k].db, o)
  {
    if k > 0 {
      var j := k - 1;
      OrderStays(h, o, moments, j);
      assert ItemStep(h, o, moments[j], moments[j + 1], j);
      StepHasVerdict(h, o, moments[j], moments[j + 1], j);
    }
  }
}

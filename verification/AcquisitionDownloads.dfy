/** What honest servers make of whole runs and histories: a downloaded item has
    published bytes of one representation. */
module AcquisitionDownloads {

  import opened Basics
  import opened TransferProtocol
  import opened AcquisitionTables
  import opened AcquisitionSteps
  import opened AcquisitionOutcome
  import opened AcquisitionRun
  import opened AcquisitionCounters
  import opened AcquisitionService
  import opened AcquisitionRecovery
  import opened AcquisitionRetry
  import opened AcquisitionHistory
  import Spec = TransferSpec

  // ----- the partials handed to later items stay honest -----

  lemma StepReady(h: Hashes, trust: Option<Naming>, o: Order, a: Moment, b: Moment, k: nat)
    requires ItemStep(h, o, a, b, k) && Sound(h, trust, a.db) && ResumesReady(a.db.ledger, o.preview, k, o.resumes)
    ensures ResumesReady(b.db.ledger, o.preview, k + 1, o.resumes)
  {
    var i, end :| ItemDone(a.db, b.db, o.run, o.ids[k], i, end, b.env.used - a.env.used, Handover(ItemResume(o, k)))
                  && end.Handled? && EndOf(b.db, i, end) == VerdictAt(h, o, a, k);
    OpenDone(a.db, b.db, o.run, o.ids[k], i, end, b.env.used - a.env.used, Handover(ItemResume(o, k)));
    LaterResumesReady(h, a.db, b.db, o.preview, k, o.resumes, i);
  }

  ghost predicate AllSound(h: Hashes, trust: Option<Naming>, moments: seq<Moment>) {
    forall j {:trigger Sound(h, trust, moments[j].db)} | 0 <= j < |moments| :: Sound(h, trust, moments[j].db)
  }

  lemma {:induction false} ReadyStays(h: Hashes, trust: Option<Naming>, o: Order, moments: seq<Moment>, k: nat)
    requires Follows(h, o, moments) && k < |moments| && AllSound(h, trust, moments)
    requires ResumesReady(moments[0].db.ledger, o.preview, 0, o.resumes)
    ensures ResumesReady(moments[k].db.ledger, o.preview, k, o.resumes)
  {
    if k > 0 {
      var j := k - 1;
      ReadyStays(h, trust, o, moments, j);
      assert ItemStep(h, o, moments[j], moments[j + 1], j);
      assert Sound(h, trust, moments[j].db);
      StepReady(h, trust, o, moments[j], moments[j + 1], j);
    }
  }

  lemma HandedHonest(named: Naming, db: Durable, r: RetryResume)
    requires PartialsOk(Some(named), db.attempts, db.ledger) && StillOpen(db.ledger, r) && ConstructedResume(r.resume)
    ensures HonestResume(named, r.resume)
  {
    assert PartialOk(Some(named), db.attempts, db.ledger[r.source]);
  }

  // ----- items, runs, histories -----

  /** An item with a fresh download has published what the response of its last
      attempt is part of. */
  lemma ItemServed(h: Hashes, named: Naming, o: Order, m: Moment, k: nat)
    requires Sound(h, Some(named), m.db) && HonestWorlds(Some(named), o.worlds) && ResumesReady(m.db.ledger, o.preview, k, o.resumes)
    ensures VerdictAt(h, o, m, k).Some? ==> DownloadServed(named, o.worlds(k), VerdictAt(h, o, m, k).value)
  {
    hide DownloadServed, HonestItem, PlanOk, ItemsOk, StoreOk, LedgerOk, RunsOk, AttemptsOk, PartialsOk;
    if OrderOk(m.db, o) && k < |o.ids| {
      var resume := ItemResume(o, k);
      if resume.Some? {
        assert StillOpen(m.db.ledger, o.resumes[o.preview[k].key]);
        HandedHonest(named, m.db, resume.value);
      }
      assert HonestItem(Some(named), o.worlds(k));
      HonestVerdict(named, h, m.db, o.ids[k], o.worlds(k), o.nature, o.limits, o.deadline, resume, HeldLeft(m.db, o), m.env);
    }
  }

  ghost predicate RunServed(h: Hashes, named: Naming, story: Story) {
    story.Begun? ==>
      forall k {:trigger VerdictAt(h, story.order, story.moments[k], k)} | 0 <= k < |story.moments| ::
        var v := VerdictAt(h, story.order, story.moments[k], k); v.Some? ==> DownloadServed(named, story.order.worlds(k), v.value)
  }

  /** So it is for every item of a run. */
  lemma ExecutedServed(h: Hashes, named: Naming, a: Durable, b: Durable, r: Request, e: Spec.Env, summary: Option<Summary>,
                       story: Story,
                       log: seq<Durable>)
    requires Executed(h, a, b, r, e, summary, story) && StoryNoted(story, log) && Chain(h, Some(named), log)
    requires HonestWorlds(Some(named), r.worlds) && ResumesReady(a.ledger, r.preview, 0, r.resumes)
    ensures RunServed(h, named, story)
  {
    if story.Begun? {
      var o, moments := story.order, story.moments;
      forall j | 0 <= j < |moments| ensures Sound(h, Some(named), moments[j].db) {
        var n :| 0 <= n < |log| && log[n] == moments[j].db;
        ChainSound(h, Some(named), log, n);
      }
      forall k | 0 <= k < |moments|
        ensures VerdictAt(h, o, moments[k], k).Some? ==> DownloadServed(named, o.worlds(k), VerdictAt(h, o, moments[k], k).value)
      {
        ReadyStays(h, Some(named), o, moments, k);
        ItemServed(h, named, o, moments[k], k);
      }
    }
  }

  lemma RetriedServed(h: Hashes, named: Naming, a: Durable, b: Durable, q: Asked, e: Spec.Env, summary: Option<Summary>,
                      story: Story,
                      log: seq<Durable>)
    requires Retried(h, a, b, q, e, summary, story) && StoryNoted(story, log) && Chain(h, Some(named), log) && Sound(h, Some(named), a)
    requires HonestWorlds(Some(named), q.worlds)
    ensures RunServed(h, named, story)
  {
    hide Executed, HandsOver, IsSelection, RunServed, Sound;
    var mid := AfterRecovery(a, q.run);
    if Pointless(mid, q.run, q.nonretryable) {
      NothingServed(h, named, story);
    } else {
      var ids, resumes :| IsSelection(mid.items, q.run, q.nonretryable, ids) && HandsOver(mid, q.run, q.nonretryable, resumes)
                          && Executed(h, mid, b, RequestFor(q, mid, ids, resumes), e, summary, story);
      RecoveredPartials(h, Some(named), a, q.run);
      HandedReady(Some(named), mid, q.run, q.nonretryable, q.planner(KeysOf(mid, ids)), resumes);
      ExecutedServed(h, named, mid, b, RequestFor(q, mid, ids, resumes), e, summary, story, log);
    }
  }

  lemma NothingServed(h: Hashes, named: Naming, story: Story)
    requires story.NotBegun?
    ensures RunServed(h, named, story)
  {
  }

  lemma RecoveredPartials(h: Hashes, trust: Option<Naming>, a: Durable, run: nat)
    requires Sound(h, trust, a)
    ensures var mid := AfterRecovery(a, run); PartialsOk(trust, mid.attempts, mid.ledger)
  {
    RecoveryKeepsPartials(trust, a, run);
  }

  /** The run of a command, if it began one, with what its items published. */
  ghost predicate CommandServed(h: Hashes, named: Naming, c: Command, a: seq<Durable>, b: seq<Durable>)
    requires |a| > 0 && |b| > 0
  {
    match c
    case Acquisition(preview, worlds, limits, readings, cancels) =>
      exists files: nat, summary, story ::
        && Executed(h, Last(a), Last(b), Request(preview, worlds, NatureOf(readings, cancels, limits), limits, map[]),
                    ServiceStart(files), summary, story)
        && RunServed(h, named, story)
    case Again(run, nonretryable, planner, worlds, limits, readings, cancels) =>
      exists files: nat, summary, story ::
        && Retried(h, Last(a), Last(b), Asked(run, nonretryable, planner, worlds, NatureOf(readings, cancels, limits), limits),
                   ServiceStart(files), summary, story)
        && RunServed(h, named, story)
    case Recovery(_) => true
    case Crash(_) => true
  }

  lemma CommandIsServed(h: Hashes, named: Naming, c: Command, a: seq<Durable>, b: seq<Durable>)
    requires Chain(h, Some(named), a) && Chain(h, Some(named), b) && CommandStep(h, Some(named), c, a, b) && HonestCommand(Some(named), c)
    ensures CommandServed(h, named, c, a, b)
  {
    hide Executed, Retried, RunServed, Chain, HonestWorlds;
    match c
    case Acquisition(preview, worlds, limits, readings, cancels) =>
      var r := Request(preview, worlds, NatureOf(readings, cancels, limits), limits, map[]);
      var files: nat, summary, story :| Executed(h, Last(a), Last(b), r, ServiceStart(files), summary, story) && StoryNoted(story, b);
      ExecutedServed(h, named, Last(a), Last(b), r, ServiceStart(files), summary, story, b);
    case Again(run, nonretryable, planner, worlds, limits, readings, cancels) =>
      var q := Asked(run, nonretryable, planner, worlds, NatureOf(readings, cancels, limits), limits);
      var files: nat, summary, story :| Retried(h, Last(a), Last(b), q, ServiceStart(files), summary, story) && StoryNoted(story, b);
      ChainSound(h, Some(named), a, |a| - 1);
      RetriedServed(h, named, Last(a), Last(b), q, ServiceStart(files), summary, story, b);
    case Recovery(_) =>
    case Crash(_) =>
  }

  /** In every history with honest servers, every freshly downloaded item of
      every run has published exactly what the response of its last attempt is
      part of: all of the representation that a 206's ETag names, or the body of
      a 200, which is all of its representation when the length was announced. */
  lemma HistoryServed(h: Hashes, named: Naming, commands: seq<Command>, logs: seq<seq<Durable>>, n: nat)
    requires History(h, Some(named), commands, logs) && n < |commands| && HonestCommand(Some(named), commands[n])
    ensures |logs[n]| > 0 && |logs[n + 1]| > 0 && CommandServed(h, named, commands[n], logs[n], logs[n + 1])
  {
    hide CommandServed, CommandStep, HonestCommand;
    HistoryChain(h, Some(named), commands, logs, n);
    HistoryChain(h, Some(named), commands, logs, n + 1);
    assert StepAt(h, Some(named), commands, logs, n);
    CommandIsServed(h, named, commands[n], logs[n], logs[n + 1]);
  }
}

/** Any history of runs, retries, recoveries and crashes. */
module AcquisitionHistory {

  import opened Basics
  import opened TransferProtocol
  import opened AcquisitionTables
  import opened AcquisitionSteps
  import opened AcquisitionLedger
  import opened AcquisitionOutcome
  import opened AcquisitionRun
  import opened AcquisitionService
  import opened AcquisitionRecovery
  import opened AcquisitionRetry
  import Spec = TransferSpec
  import Engine = TransferEngine

  /** A crash keeps the states up to some commit of the command before it. */
  datatype Command =
    | Acquisition(preview: seq<PlanItem>, worlds: nat -> ItemWorld, limits: RunLimits, readings: nat -> real, cancels: nat -> bool)
    | Again(run: nat, nonretryable: bool, planner: seq<string> -> seq<PlanItem>, worlds: nat -> ItemWorld, limits: RunLimits,
            readings: nat -> real, cancels: nat -> bool)
    | Recovery(run: nat)
    | Crash(keep: nat)

  ghost predicate WellFormed(c: Command) {
    match c
    case Acquisition(preview, _, limits, _, _) => PositiveLimits(limits) && DistinctKeys(preview)
    case Again(_, _, planner, _, limits, _, _) => PositiveLimits(limits) && PlannerOk(planner)
    case Recovery(_) => true
    case Crash(_) => true
  }

  ghost predicate HonestCommand(trust: Option<Naming>, c: Command) {
    match c
    case Acquisition(_, worlds, _, _, _) => HonestWorlds(trust, worlds)
    case Again(_, _, _, worlds, _, _, _) => HonestWorlds(trust, worlds)
    case Recovery(_) => true
    case Crash(_) => true
  }

  /** More commits were made. */
  ghost predicate Grown(h: Hashes, trust: Option<Naming>, a: seq<Durable>, b: seq<Durable>) {
    && 0 < |a| && a <= b
    && forall n {:trigger SteppedAt(h, trust, b, n)} | |a| <= n < |b| :: SteppedAt(h, trust, b, n)
  }

  function Last(log: seq<Durable>): Durable
    requires |log| > 0
  {
    log[|log| - 1]
  }

  function NatureOf(readings: nat -> real, cancels: nat -> bool, limits: RunLimits): Spec.Nature {
    Spec.Nature(readings, cancels, limits.maxTotalBytes)
  }

  /** A service starts its clock, and knows which staging files exist. */
  function ServiceStart(files: nat): Spec.Env {
    Spec.Env(0, 0, 0, files)
  }

  /** A run was executed, and its moments are among the committed states. */
  ghost predicate Acquires(h: Hashes, a: Durable, b: Durable, r: Request, log: seq<Durable>) {
    exists files: nat, summary, story :: Executed(h, a, b, r, ServiceStart(files), summary, story) && StoryNoted(story, log)
  }

  ghost predicate Retries(h: Hashes, a: Durable, b: Durable, q: Asked, log: seq<Durable>) {
    exists files: nat, summary, story :: Retried(h, a, b, q, ServiceStart(files), summary, story) && StoryNoted(story, log)
  }

  /** What one command makes of the states committed before it. */
  ghost predicate CommandStep(h: Hashes, trust: Option<Naming>, c: Command, a: seq<Durable>, b: seq<Durable>)
    requires |a| > 0
  {
    match c
    case Acquisition(preview, worlds, limits, readings, cancels) =>
      && Grown(h, trust, a, b)
      && Acquires(h, Last(a), Last(b), Request(preview, worlds, NatureOf(readings, cancels, limits), limits, map[]), b)
    case Again(run, nonretryable, planner, worlds, limits, readings, cancels) =>
      && Grown(h, trust, a, b)
      && Retries(h, Last(a), Last(b), Asked(run, nonretryable, planner, worlds, NatureOf(readings, cancels, limits), limits), b)
    case Recovery(run) => Grown(h, trust, a, b) && Last(b) == AfterRecovery(Last(a), run)
    case Crash(keep) => b == if keep < |a| then a[..keep + 1] else a
  }

  ghost predicate StepAt(h: Hashes, trust: Option<Naming>, commands: seq<Command>, logs: seq<seq<Durable>>, k: nat)
    requires k < |commands| && |logs| == |commands| + 1
  {
    |logs[k]| > 0 && CommandStep(h, trust, commands[k], logs[k], logs[k + 1])
  }

  /** The committed states before the first command and after each of them. */
  ghost predicate History(h: Hashes, trust: Option<Naming>, commands: seq<Command>, logs: seq<seq<Durable>>) {
    && |logs| == |commands| + 1 && logs[0] == [Empty()]
    && forall k {:trigger StepAt(h, trust, commands, logs, k)} | 0 <= k < |commands| :: StepAt(h, trust, commands, logs, k)
  }

  lemma GrownChain(h: Hashes, trust: Option<Naming>, a: seq<Durable>, b: seq<Durable>)
    requires Chain(h, trust, a) && Grown(h, trust, a, b)
    ensures Chain(h, trust, b)
  {
    forall n | 0 < n < |b| ensures SteppedAt(h, trust, b, n) {
      if n < |a| { assert SteppedAt(h, trust, a, n); }
    }
  }

  lemma {:induction false} HistoryChain(h: Hashes, trust: Option<Naming>, commands: seq<Command>, logs: seq<seq<Durable>>, n: nat)
    requires History(h, trust, commands, logs) && n < |logs|
    ensures Chain(h, trust, logs[n])
  {
    if n > 0 {
      var k := n - 1;
      HistoryChain(h, trust, commands, logs, k);
      assert StepAt(h, trust, commands, logs, k);
      if commands[k].Crash? {
        if commands[k].keep < |logs[k]| { ChainPrefix(h, trust, logs[k], commands[k].keep); }
      } else {
        GrownChain(h, trust, logs[k], logs[n]);
      }
    }
  }

  /** Every state that was ever durable, in any history, is sound. */
  lemma HistorySound(h: Hashes, trust: Option<Naming>, commands: seq<Command>, logs: seq<seq<Durable>>, n: nat, m: nat)
    requires History(h, trust, commands, logs) && n < |logs| && m < |logs[n]|
    ensures Sound(h, trust, logs[n][m])
  {
    HistoryChain(h, trust, commands, logs, n);
    ChainSound(h, trust, logs[n], m);
  }

  lemma HistoryMore(h: Hashes, trust: Option<Naming>, commands: seq<Command>, logs: seq<seq<Durable>>, c: Command,
                    log: seq<Durable>)
    requires History(h, trust, commands, logs) && |logs[|commands|]| > 0 && CommandStep(h, trust, c, logs[|commands|], log)
    ensures History(h, trust, commands + [c], logs + [log])
  {
    forall k | 0 <= k < |commands + [c]| ensures StepAt(h, trust, commands + [c], logs + [log], k) {
      if k < |commands| { assert StepAt(h, trust, commands, logs, k); }
    }
  }

  /** The commits since the log was marked. */
  lemma SinceMark(d: Database)
    requires d.Valid() && |d.past| > 0
    ensures Grown(d.hashes, d.trust, d.past, d.log) && Last(d.log) == d.db
  {
    assert Inside(true);
  }

  lemma LogEnds(d: Database)
    requires d.Valid()
    ensures |d.log| > 0 && Last(d.log) == d.db
  {
    assert Inside(true);
  }

  lemma LoggedStory(d: Database, story: Story)
    requires d.Valid() && StoryNoted(story, d.notes)
    ensures StoryNoted(story, d.log)
  {
    d.NotesLogged();
  }

  method ObeyAcquisition(d: Database, preview: seq<PlanItem>, worlds: nat -> ItemWorld, limits: RunLimits,
                         readings: nat -> real, cancels: nat -> bool)
    requires d.Valid() && PositiveLimits(limits) && DistinctKeys(preview) && HonestWorlds(d.trust, worlds)
    modifies d`db, d`log, d`files, d`notes
    ensures d.Valid()
    ensures Acquires(d.hashes, old(d.db), d.db, Request(preview, worlds, NatureOf(readings, cancels, limits), limits, map[]), d.log)
  {
    var world := new Engine.World(readings, cancels, d.files);
    ghost var start := StartOf(world);
    assert start == ServiceStart(world.files);
    var _, story := Execute(d, preview, worlds, world, limits, map[]);
    LoggedStory(d, story);
  }

  method ObeyRetry(d: Database, run: nat, nonretryable: bool, planner: seq<string> -> seq<PlanItem>, worlds: nat -> ItemWorld,
                   limits: RunLimits,
                   readings: nat -> real, cancels: nat -> bool)
    requires d.Valid() && PositiveLimits(limits) && PlannerOk(planner) && HonestWorlds(d.trust, worlds)
    modifies d`db, d`log, d`files, d`notes
    ensures d.Valid()
    ensures Retries(d.hashes, old(d.db), d.db, Asked(run, nonretryable, planner, worlds, NatureOf(readings, cancels, limits), limits), d.log)
  {
    var world := new Engine.World(readings, cancels, d.files);
    ghost var start := StartOf(world);
    assert start == ServiceStart(world.files);
    var _, story := Retry(d, run, nonretryable, planner, worlds, world, limits);
    LoggedStory(d, story);
  }

  /** One command. */
  method Obey(d: Database, c: Command)
    requires d.Valid() && WellFormed(c) && HonestCommand(d.trust, c) && |d.log| > 0
    modifies d
    ensures d.Valid() && CommandStep(d.hashes, d.trust, c, old(d.log), d.log)
  {
    hide Acquires, Retries, Grown;
    LogEnds(d);
    ghost var mark := d.log;
    d.Mark();
    match c
    case Acquisition(preview, worlds, limits, readings, cancels) =>
      ObeyAcquisition(d, preview, worlds, limits, readings, cancels);
      SinceMark(d);
    case Again(run, nonretryable, planner, worlds, limits, readings, cancels) =>
      ObeyRetry(d, run, nonretryable, planner, worlds, limits, readings, cancels);
      SinceMark(d);
    case Recovery(run) =>
      if run in d.db.runs { var _ := RecoverInterrupted(d, run); }
      SinceMark(d);
    case Crash(keep) =>
      if keep < |d.log| { d.Crash(keep); }
  }

  /** Whatever is executed, retried, recovered or cut short by a crash after any
      commit: the states that were ever durable are a history of these commands,
      and every one of them is sound. */
  method Live(hashes: Hashes, commands: seq<Command>, ghost trust: Option<Naming>)
    returns (d: Database, ghost logs: seq<seq<Durable>>)
    requires Collisionless(hashes) && forall c | c in commands :: WellFormed(c) && HonestCommand(trust, c)
    ensures fresh(d) && d.Valid() && d.hashes == hashes && d.trust == trust
    ensures History(hashes, trust, commands, logs) && d.log == logs[|commands|]
    ensures forall n, m {:trigger logs[n][m]} | 0 <= n < |logs| && 0 <= m < |logs[n]| :: Sound(hashes, trust, logs[n][m])
  {
    d := new Database(hashes, trust);
    logs := [d.log];
    for k := 0 to |commands|
      invariant fresh(d) && d.Valid() && d.hashes == hashes && d.trust == trust
      invariant History(hashes, trust, commands[..k], logs) && d.log == logs[k]
    {
      hide History, CommandStep, WellFormed, HonestCommand;
      assert commands[k] in commands;
      LogEnds(d);
      ghost var before := d.log;
      Obey(d, commands[k]);
      HistoryMore(hashes, trust, commands[..k], logs, commands[k], d.log);
      logs := logs + [d.log];
      assert commands[..k + 1] == commands[..k] + [commands[k]];
    }
    assert commands[..|commands|] == commands;
    forall n, m | 0 <= n < |logs| && 0 <= m < |logs[n]| ensures Sound(hashes, trust, logs[n][m]) {
      HistorySound(hashes, trust, commands, logs, n, m);
    }
  }
}

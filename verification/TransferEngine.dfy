/** The transfer engine itself: loops over an injected clock, cancellation,
    budget and staging directory that do what TransferSpec says. */
module TransferEngine {

  import opened Basics
  import opened TransferProtocol
  import opened TransferSpec
  import opened TransferLoop

  /** The injected clock, sleeper and cancellation, and the staging directory. */
  class World {
    const readings: nat -> real
    const cancels: nat -> bool
    var tick: nat
    var polls: nat
    var latest: real
    var naps: seq<Nap>
    var files: nat

    constructor (readings: nat -> real, cancels: nat -> bool, files: nat)
      ensures naps == [] && tick == 0 && polls == 0 && this.files == files
      ensures this.readings == readings && this.cancels == cancels
    {
      this.readings, this.cancels := readings, cancels;
      tick, polls, latest, naps, this.files := 0, 0, 0.0, [], files;
    }

    method Clock() returns (t: real)
      modifies this`tick, this`latest
      ensures t == latest == readings(old(tick)) && tick == old(tick) + 1
    {
      t := readings(tick);
      tick, latest := tick + 1, t;
    }

    method IsCancelled() returns (b: bool)
      modifies this`polls
      ensures b == cancels(old(polls)) && polls == old(polls) + 1
    {
      b := cancels(polls);
      polls := polls + 1;
    }

    method Sleep(delay: real)
      modifies this`naps
      ensures naps == old(naps) + [Nap(latest, delay)]
    {
      naps := naps + [Nap(latest, delay)];
    }

    /** begin_remote_staging: a file name nobody has used. */
    method CreateFile() returns (name: nat)
      modifies this`files
      ensures name == old(files) && files == old(files) + 1
    {
      name := files;
      files := files + 1;
    }
  }

  class TransferBudget {
    const maxBytes: nat
    var used: nat

    ghost predicate Valid()
      reads this
    {
      used <= maxBytes
    }

    constructor (maxBytes: nat)
      requires maxBytes > 0
      ensures Valid() && used == 0 && this.maxBytes == maxBytes
    {
      this.maxBytes, used := maxBytes, 0;
    }

    function Remaining(): nat
      reads this
      requires Valid()
    {
      maxBytes - used
    }

    method Charge(amount: nat) returns (ok: bool)
      requires Valid()
      modifies this
      ensures Valid()
      ensures ok <==> old(used) + amount <= maxBytes
      ensures used == if ok then old(used) + amount else old(used)
    {
      ok := amount <= maxBytes - used;
      if ok {
        used := used + amount;
      }
    }
  }

  function EnvOf(world: World, budget: TransferBudget): Env
    reads world, budget
  {
    Env(world.tick, world.polls, budget.used, world.files)
  }

  function NatureOf(world: World, budget: TransferBudget): Nature {
    Nature(world.readings, world.cancels, budget.maxBytes)
  }

  method CheckControl(world: World, budget: TransferBudget, x: Setup) returns (stop: Option<Failure>)
    requires x.nature == NatureOf(world, budget)
    modifies world`tick, world`polls, world`latest
    ensures (stop, EnvOf(world, budget)) == Control(x, old(EnvOf(world, budget)))
  {
    var cancelled := world.IsCancelled();
    if cancelled {
      return Some(Failure(Cancelled, true));
    }
    var now := world.Clock();
    if now >= x.deadline {
      return Some(Failure(TimedOut, true));
    }
    return None;
  }

  // ----- one attempt -----

  method TakeChunk(world: World, budget: TransferBudget, x: Setup, bytes: Bytes, writeFault: Option<Fault>, size: nat)
    returns (stop: Option<Failure>)
    requires x.nature == NatureOf(world, budget) && budget.Valid()
    modifies world`tick, world`polls, world`latest, budget
    ensures budget.Valid()
    ensures (stop, EnvOf(world, budget)) == Chunk(x, bytes, writeFault, size, old(EnvOf(world, budget)))
  {
    stop := CheckControl(world, budget, x);
    if stop.Some? {
      return;
    }
    var ok := budget.Charge(|bytes|);
    if !ok {
      return Some(Failure(BudgetExhausted, true));
    }
    if size + |bytes| > x.limits.maxItemBytes {
      return Some(Caught(StorageError("limit_exceeded")));
    }
    if writeFault.Some? {
      return Some(Caught(writeFault.value));
    }
  }

  method Stream(world: World, budget: TransferBudget, x: Setup, body: seq<BodyEvent>, start: Bytes)
    returns (bytes: Bytes, received: nat, stop: Option<Failure>)
    requires x.nature == NatureOf(world, budget) && budget.Valid()
    modifies world`tick, world`polls, world`latest, budget
    ensures budget.Valid()
    ensures Streamed(bytes, received, stop, EnvOf(world, budget)) == StreamBody(x, body, start, 0, old(EnvOf(world, budget)))
  {
    bytes, received, stop := start, 0, None;
    assert body[0..] == body;
    for i := 0 to |body|
      invariant budget.Valid() && stop.None?
      invariant StreamBody(x, body, start, 0, old(EnvOf(world, budget))) == StreamBody(x, body[i..], bytes, received, EnvOf(world, budget))
    {
      assert body[i..][1..] == body[i + 1..];
      match body[i]
      case Broken(fault) =>
        stop := Some(Caught(fault));
        return;
      case Data(more, writeFault) =>
        stop := TakeChunk(world, budget, x, more, writeFault, |bytes|);
        if stop.Some? {
          return;
        }
        bytes, received := bytes + more, received + |more|;
    }
  }

  method FollowRedirects(world: World, budget: TransferBudget, x: Setup, script: Script)
    returns (response: Option<Response>, redirects: nat, failure: Failure)
    requires x.nature == NatureOf(world, budget)
    modifies world`tick, world`polls, world`latest
    ensures Requested(response, redirects, failure, EnvOf(world, budget)) == Request(x, script, 0, old(EnvOf(world, budget)))
  {
    redirects := 0;
    response, failure := None, Failure(PolicyFailure, false);
    for i := 0 to |script.hops|
      invariant redirects == i && response.None? && failure == Failure(PolicyFailure, false)
      invariant Request(x, script, 0, old(EnvOf(world, budget))) == Request(x, script, i, EnvOf(world, budget))
    {
      var stop := CheckControl(world, budget, x);
      if stop.Some? {
        return None, 0, stop.value;
      }
      if redirects >= x.limits.maxRedirects || !script.hops[i] {
        return None, 0, failure;
      }
      redirects := redirects + 1;
    }
    var stop := CheckControl(world, budget, x);
    if stop.Some? {
      return None, 0, stop.value;
    }
    match script.answer
    case Silent(fault) => return None, 0, Caught(fault);
    case Answered(r) => return Some(r), redirects, failure;
  }

  method ReceiveBody(world: World, budget: TransferBudget, x: Setup, script: Script, r: Response, plan: Plan, redirects: nat)
    returns (a: AttemptEnd)
    requires x.nature == NatureOf(world, budget) && budget.Valid()
    modifies world`tick, world`polls, world`latest, budget
    ensures budget.Valid() && a == Receive(x, script, r, plan, redirects, old(EnvOf(world, budget))) && a.env == EnvOf(world, budget)
  {
    var left := Leftover(Some(plan.file), plan.active, r.etag, plan.size);
    var refusal := if !r.accepted then Some(Failure(InvalidContent, false)) else NoRoom(r, plan, x.limits, budget.Remaining());
    if refusal.Some? {
      return AttemptEnd(Failed(refusal.value), left, 0, Some(r.status), redirects, r.retryAfter, EnvOf(world, budget));
    }
    var bytes, received, stop := Stream(world, budget, x, r.body, plan.file.bytes);
    var failure := if stop.Some? then stop else NotClosed(script, r, plan, received, |bytes|);
    if failure.Some? {
      left := left.(session := Some(Session(plan.file.name, bytes)));
      return AttemptEnd(Failed(failure.value), left, received, Some(r.status), redirects, r.retryAfter, EnvOf(world, budget));
    }
    return AttemptEnd(Staged(bytes), left.(session := None), received, Some(r.status), redirects, r.retryAfter, EnvOf(world, budget));
  }

  method TakeResponse(world: World, budget: TransferBudget, x: Setup, script: Script, r: Response, file: Session,
                      active: Option<ResumeState>, redirects: nat) returns (a: AttemptEnd)
    requires x.nature == NatureOf(world, budget) && budget.Valid()
    modifies world`tick, world`polls, world`latest, world`files, budget
    ensures budget.Valid() && a == HandleResponse(x, script, r, file, active, redirects, old(EnvOf(world, budget)))
    ensures a.env == EnvOf(world, budget)
  {
    var left := Leftover(Some(file), active, r.etag, None);
    var classified := ClassifyStatus(r.status);
    if classified.Some? {
      return AttemptEnd(Failed(classified.value), left, 0, Some(r.status), redirects, r.retryAfter, EnvOf(world, budget));
    }
    if active.Some? {
      match AdmitResumed(r, active.value)
      case Refuse(refusal, announced) =>
        a := AttemptEnd(Failed(refusal), left.(size := announced), 0, Some(r.status), redirects, r.retryAfter, EnvOf(world, budget));
      case Append(total) =>
        a := ReceiveBody(world, budget, x, script, r, Plan(file, active, Some(total)), redirects);
      case Restart(size) =>
        var name := world.CreateFile();
        a := ReceiveBody(world, budget, x, script, r, Plan(Session(name, []), None, size), redirects);
    } else if r.status != 200 {
      a := AttemptEnd(Failed(Failure(InvalidContent, false)), left, 0, Some(r.status), redirects, r.retryAfter, EnvOf(world, budget));
    } else {
      match ContentLength(r)
      case Bad(bad) =>
        a := AttemptEnd(Failed(bad), left, 0, Some(r.status), redirects, r.retryAfter, EnvOf(world, budget));
      case Good(size) =>
        a := ReceiveBody(world, budget, x, script, r, Plan(file, None, size), redirects);
    }
  }

  method RunAttempt(world: World, budget: TransferBudget, x: Setup, script: Script,
                    resume: Option<ResumeState>) returns (a: AttemptEnd)
    requires x.nature == NatureOf(world, budget) && budget.Valid()
    modifies world`tick, world`polls, world`latest, world`files, budget
    ensures budget.Valid() && a == Attempt(x, script, resume, old(EnvOf(world, budget))) && a.env == EnvOf(world, budget)
  {
    var left := Leftover(None, None, None, None);
    var stop := CheckControl(world, budget, x);
    if stop.Some? {
      return NoResponse(left, stop.value, EnvOf(world, budget));
    }
    if script.openFault.Some? {
      return NoResponse(left, Caught(script.openFault.value), EnvOf(world, budget));
    }
    if resume.Some? && |resume.value.partial.bytes| > x.limits.maxItemBytes {
      return NoResponse(left, Caught(StorageError("limit_exceeded")), EnvOf(world, budget));
    }
    var active := Continues(resume, x.identity);
    var file;
    if active.Some? {
      file := Session(active.value.partial.name, active.value.partial.bytes);
    } else {
      var name := world.CreateFile();
      file := Session(name, []);
    }
    left := Leftover(Some(file), active, None, None);
    if script.credentialFault.Some? {
      return NoResponse(left, Caught(script.credentialFault.value), EnvOf(world, budget));
    }
    var response, redirects, failure := FollowRedirects(world, budget, x, script);
    if response.None? {
      return NoResponse(left, failure, EnvOf(world, budget));
    }
    a := TakeResponse(world, budget, x, script, response.value, file, active, redirects);
  }

  // ----- the attempt loop -----

  method SettleFailure(world: World, budget: TransferBudget, x: Setup, failure: Failure,
                       kept: bool) returns (settled: Failure, state: State)
    requires x.nature == NatureOf(world, budget)
    modifies world`tick, world`polls, world`latest
    ensures Settled(settled, state, EnvOf(world, budget)) == Settle(x, failure, kept, old(EnvOf(world, budget)))
  {
    var cancelled := world.IsCancelled();
    if cancelled {
      return Failure(Cancelled, true), Interrupted;
    }
    var now := world.Clock();
    if now >= x.deadline {
      return Failure(TimedOut, true), Interrupted;
    }
    return failure, if failure.outcome in RESUMABLE && kept then Interrupted else NotComplete;
  }

  /** Sleeps before another attempt; otherwise says whether it was too late for one. */
  method PauseFor(world: World, budget: TransferBudget, x: Setup, t: Transition) returns (again: bool, late: bool)
    requires x.nature == NatureOf(world, budget) && t.attempt > 0
    modifies world`tick, world`polls, world`latest, world`naps
    ensures var p := Pause(x, t, old(EnvOf(world, budget)));
      && p.env == EnvOf(world, budget) && (again <==> p.Sleep?) && (late <==> p.TooLate?)
      && world.naps == old(world.naps) + if again then [p.nap] else []
  {
    if !t.retryable || t.outcome == Some(BudgetExhausted) || t.attempt >= x.limits.maxAttempts {
      return false, false;
    }
    var cancelled := world.IsCancelled();
    if cancelled {
      return false, false;
    }
    var now := world.Clock();
    if now >= x.deadline {
      return false, false;
    }
    var delay := DelayAfter(x.limits, t);
    now := world.Clock();
    if now + delay >= x.deadline {
      return false, true;
    }
    world.Sleep(delay);
    return true, false;
  }

  /** A failed attempt: keep or discard its bytes, settle and record it. */
  method RecordLoss(world: World, budget: TransferBudget, x: Setup, n: nat, current: Option<ResumeState>, status: Option<nat>,
                    got: nat, a: AttemptEnd, kept: Option<ResumeState>) returns (loss: Loss, events: seq<Event>)
    requires x.nature == NatureOf(world, budget) && a.verdict.Failed? && a.env == EnvOf(world, budget)
    requires kept == KeptOf(a, x.identity, a.verdict.failure.retryable)
    modifies world`tick, world`polls, world`latest
    ensures loss == Lose(x, n, a, status) && loss.env == EnvOf(world, budget)
    ensures events == LossEvents(x, n, current, loss, got)
  {
    events := [Began(RunningTransition(n, current))];
    if kept.Some? {
      events := events + [KeptPartial(n, kept.value, got)];
    }
    var settled, state := SettleFailure(world, budget, x, a.verdict.failure, kept.Some?);
    var terminal := Terminal(n, state, settled, a, LastStatus(a, status));
    events := events + [Ended(terminal)];
    loss := Loss(terminal, settled, kept, EnvOf(world, budget));
  }

  /** What is still to come, after what was seen already. */
  ghost function Before(events: seq<Event>, naps: seq<Nap>, rest: Transferred): Transferred {
    Transferred(rest.end, events + rest.events, naps + rest.naps, rest.env)
  }

  lemma BeforeTwice(events: seq<Event>, naps: seq<Nap>, more: seq<Event>, others: seq<Nap>, rest: Transferred)
    ensures Before(events, naps, Before(more, others, rest)) == Before(events + more, naps + others, rest)
  {
    assert events + (more + rest.events) == events + more + rest.events;
    assert naps + (others + rest.naps) == naps + others + rest.naps;
  }

  method DoAttempt(world: World, budget: TransferBudget, x: Setup, ghost h: Head, script: Script,
                   current: Option<ResumeState>) returns (a: AttemptEnd)
    requires x.nature == NatureOf(world, budget) && budget.Valid()
    requires h.env == EnvOf(world, budget) && script == x.scripts(h.n) && current == h.current
    modifies world`tick, world`polls, world`latest, world`files, budget
    ensures budget.Valid() && a.env == EnvOf(world, budget) && IsAttempt(x, h, a)
  {
    a := RunAttempt(world, budget, x, script, current);
  }

  /** A failed attempt ends the transfer, or leaves the head of the next turn. */
  method TakeLoss(world: World, budget: TransferBudget, x: Setup, ghost h: Head, n: nat, current: Option<ResumeState>,
                  status: Option<nat>,
                  total: nat, a: AttemptEnd, kept: Option<ResumeState>, before: seq<Event>, ghost whole: Transferred, ghost rest: Transferred)
    returns (end: Option<TransferEnd>, events: seq<Event>, loss: Loss)
    requires x.nature == NatureOf(world, budget) && a.env == EnvOf(world, budget)
    requires h.n == n && h.current == current && h.status == status && total == h.got + a.received
    requires a.verdict.Failed? && !Overruns(a, x.identity) && kept == KeptOf(a, x.identity, a.verdict.failure.retryable)
    requires exists t :: Turns(x, h, a, t, rest) && whole == Before(before, world.naps, t)
    modifies world`tick, world`polls, world`latest, world`naps
    ensures end.Some? ==> whole == Transferred(end.value, events, world.naps, EnvOf(world, budget))
    ensures end.None? ==> IsFrom(x, Head(n + 1, loss.kept, loss.terminal.status, total, EnvOf(world, budget)), rest)
                          && whole == Before(events, world.naps, rest)
  {
    ghost var slept := world.naps;
    var seen;
    loss, seen := RecordLoss(world, budget, x, n, current, status, total, a, kept);
    events := before + seen;
    var again, late := PauseFor(world, budget, x, loss.terminal);
    end := if again then None else Some(Returned(GivenUp(loss, late, total)));
    if again { BeforeTwice(before, slept, seen, [world.naps[|slept|]], rest); }
  }

  /** One turn of the attempt loop. */
  method TakeTurn(world: World, budget: TransferBudget, x: Setup, n: nat, current: Option<ResumeState>, status: Option<nat>,
                  got: nat,
                  before: seq<Event>, ghost whole: Transferred, ghost t: Transferred)
    returns (end: Option<TransferEnd>, events: seq<Event>, kept: Option<ResumeState>, seen: Option<nat>, total: nat, ghost rest: Transferred)
    requires x.nature == NatureOf(world, budget) && budget.Valid()
    requires IsFrom(x, Head(n, current, status, got, EnvOf(world, budget)), t) && whole == Before(before, world.naps, t)
    modifies world, budget
    ensures budget.Valid()
    ensures end.Some? ==> whole == Transferred(end.value, events, world.naps, EnvOf(world, budget))
    ensures end.None? ==> IsFrom(x, Head(n + 1, kept, seen, total, EnvOf(world, budget)), rest) && whole == Before(events, world.naps, rest)
  {
    ghost var h := Head(n, current, status, got, EnvOf(world, budget));
    var a := DoAttempt(world, budget, x, h, x.scripts(n), current);
    ghost var b;
    b, rest := Unfold(x, h, t);
    SameAttempt(x, h, a, b);
    kept, seen, total := None, a.status, got + a.received;
    if a.verdict.Staged? {
      events := before + [Began(RunningTransition(n, current)), Ended(Terminal(n, Complete, Failure(Downloaded, false), a, a.status))];
      return Some(Returned(Result(Complete, Downloaded, false, total, Some(a.verdict.bytes), None, a.status))), events, kept, seen, total, rest;
    }
    var salvaged := Salvage(a.left, x.identity, a.verdict.failure.retryable);
    if salvaged.Raised? {
      return Some(RaisedValueError), before + [Began(RunningTransition(n, current))], kept, seen, total, rest;
    }
    kept := if salvaged.Kept? then Some(salvaged.resume) else None;
    var loss;
    end, events, loss := TakeLoss(world, budget, x, h, n, current, status, total, a, kept, before, whole, rest);
    kept, seen := loss.kept, loss.terminal.status;
  }

  /** HTTPTransferEngine.transfer, with what its observers were told. */
  method Transfer(world: World, budget: TransferBudget, identity: string, scripts: nat -> Script,
                  limits: Limits, resume: Option<ResumeState>) returns (end: TransferEnd, events: seq<Event>)
    requires LimitsOk(limits) && budget.Valid() && world.naps == []
    modifies world, budget
    ensures budget.Valid()
    ensures Transferred(end, events, world.naps, EnvOf(world, budget))
            == TransferOf(NatureOf(world, budget), identity, scripts, limits, resume, old(EnvOf(world, budget)))
  {
    ghost var whole := TransferOf(NatureOf(world, budget), identity, scripts, limits, resume, EnvOf(world, budget));
    var started := world.Clock();
    var x := Setup(NatureOf(world, budget), identity, scripts, limits, started + limits.maxSeconds);
    var n, current, status, got: nat := 1, resume, None, 0;
    events := [];
    ghost var rest := whole;
    assert whole == Before([], [], rest);
    while true
      invariant 0 < n <= limits.maxAttempts && budget.Valid()
      invariant IsFrom(x, Head(n, current, status, got, EnvOf(world, budget)), rest) && whole == Before(events, world.naps, rest)
      decreases limits.maxAttempts - n
    {
      var ended;
      ended, events, current, status, got, rest := TakeTurn(world, budget, x, n, current, status, got, events, whole, rest);
      if ended.Some? {
        return ended.value, events;
      }
      n := n + 1;
    }
  }
}

/** What the transfer engine does, as functions of the clock, the cancellation,
    the servers' answers, the byte budget and the staging directory. */
module TransferSpec {

  import opened Basics
  import opened TransferProtocol

  datatype Limits = Limits(maxItemBytes: nat, maxAttempts: nat, maxSeconds: real, maxRedirects: nat,
                           initialBackoff: real, maxBackoff: real)

  predicate LimitsOk(l: Limits) {
    l.maxItemBytes > 0 && l.maxAttempts > 0 && l.maxRedirects > 0
    && l.maxSeconds > 0.0 && l.initialBackoff > 0.0 && l.maxBackoff > 0.0
  }

  /** Everything outside the engine does in one attempt. `hops` says for each
      redirect whether its target is allowed. */
  datatype Answer = Silent(fault: Fault) | Answered(response: Response)
  datatype Script = Script(
    openFault: Option<Fault>, credentialFault: Option<Fault>, hops: seq<bool>, answer: Answer, finishFault: Option<Fault>)

  /** The k-th reading of the clock, the k-th answer of the cancellation, and
      the size of the byte budget. */
  datatype Nature = Nature(readings: nat -> real, cancels: nat -> bool, maxBytes: nat)

  /** Readings and cancellation checks so far, bytes charged, and staging files
      ever created. */
  datatype Env = Env(tick: nat, polls: nat, used: nat, files: nat)

  /** One call of the engine. */
  datatype Setup = Setup(nature: Nature, identity: string, scripts: nat -> Script, limits: Limits, deadline: real)

  function Room(x: Setup, e: Env): nat {
    if e.used <= x.nature.maxBytes then x.nature.maxBytes - e.used else 0
  }

  /** _check_control */
  function Control(x: Setup, e: Env): (Option<Failure>, Env) {
    if x.nature.cancels(e.polls) then (Some(Failure(Cancelled, true)), e.(polls := e.polls + 1))
    else (if x.nature.readings(e.tick) >= x.deadline then Some(Failure(TimedOut, true)) else None,
          e.(polls := e.polls + 1, tick := e.tick + 1))
  }

  // ----- one attempt -----

  /** One chunk: check control, charge the budget, then write it. */
  function Chunk(x: Setup, bytes: Bytes, writeFault: Option<Fault>, size: nat, e: Env): (Option<Failure>, Env) {
    var (stop, e1) := Control(x, e);
    if stop.Some? then (stop, e1)
    else if |bytes| > Room(x, e1) then (Some(Failure(BudgetExhausted, true)), e1)
    else
      var e2 := e1.(used := e1.used + |bytes|);
      if size + |bytes| > x.limits.maxItemBytes then (Some(Caught(StorageError("limit_exceeded"))), e2)
      else if writeFault.Some? then (Some(Caught(writeFault.value)), e2)
      else (None, e2)
  }

  datatype Streamed = Streamed(bytes: Bytes, received: nat, stop: Option<Failure>, env: Env)

  /** The body appended chunk by chunk until it ends or something stops it. */
  function StreamBody(x: Setup, body: seq<BodyEvent>, bytes: Bytes, received: nat, e: Env): Streamed
    decreases |body|
  {
    if body == [] then Streamed(bytes, received, None, e)
    else match body[0]
         case Broken(fault) => Streamed(bytes, received, Some(Caught(fault)), e)
         case Data(more, writeFault) =>
           var (stop, e1) := Chunk(x, more, writeFault, |bytes|, e);
           if stop.Some? then Streamed(bytes, received, stop, e1)
           else StreamBody(x, body[1..], bytes + more, received + |more|, e1)
  }

  datatype Requested = Requested(response: Option<Response>, redirects: nat, failure: Failure, env: Env)

  /** _request: follow allowed redirects up to the limit. */
  function Request(x: Setup, script: Script, hop: nat, e: Env): Requested
    requires hop <= |script.hops|
    decreases |script.hops| - hop
  {
    var refused := Failure(PolicyFailure, false);
    var (stop, e1) := Control(x, e);
    if stop.Some? then Requested(None, 0, stop.value, e1)
    else if hop < |script.hops| then
      if hop >= x.limits.maxRedirects || !script.hops[hop] then Requested(None, 0, refused, e1)
      else Request(x, script, hop + 1, e1)
    else match script.answer
         case Silent(fault) => Requested(None, 0, Caught(fault), e1)
         case Answered(r) => Requested(Some(r), hop, refused, e1)
  }

  /** The pending resume this request may continue. */
  function Continues(resume: Option<ResumeState>, identity: string): Option<ResumeState> {
    if resume.Some? && resume.value.partial.identity == identity then resume else None
  }

  /** What an admitted response body is appended to, and the announced size. */
  datatype Plan = Plan(file: Session, active: Option<ResumeState>, size: Option<nat>)

  datatype Verdict = Staged(bytes: Bytes) | Failed(failure: Failure)
  datatype AttemptEnd = AttemptEnd(
    verdict: Verdict, left: Leftover, received: nat, status: Option<nat>, redirects: nat, retryAfter: Option<real>, env: Env)

  /** The checks of an announced size against the item limit and the budget. */
  function NoRoom(r: Response, plan: Plan, limits: Limits, left: nat): Option<Failure> {
    if plan.size.None? then None
    else
      var start := |plan.file.bytes|;
      var remaining: int := if r.status == 200 then plan.size.value else plan.size.value - start;
      if remaining < 0 || start + remaining > limits.maxItemBytes then Some(Failure(ResponseTooLarge, false))
      else if remaining > left then Some(Failure(BudgetExhausted, true))
      else None
  }

  /** The checks once the body has ended. */
  function NotClosed(script: Script, r: Response, plan: Plan, received: nat, total: nat): Option<Failure> {
    if (r.length.Length? && received != r.length.value) || (plan.size.Some? && total != plan.size.value) then Some(Failure(SourceChanged, true))
    else if script.finishFault.Some? then Some(Caught(script.finishFault.value))
    else None
  }

  function Refusal(x: Setup, r: Response, plan: Plan, e: Env): Option<Failure> {
    if !r.accepted then Some(Failure(InvalidContent, false)) else NoRoom(r, plan, x.limits, Room(x, e))
  }

  /** Stream an admitted body and apply the closing checks. */
  function Receive(x: Setup, script: Script, r: Response, plan: Plan, redirects: nat, e: Env): AttemptEnd {
    var left := Leftover(Some(plan.file), plan.active, r.etag, plan.size);
    var refusal := Refusal(x, r, plan, e);
    if refusal.Some? then AttemptEnd(Failed(refusal.value), left, 0, Some(r.status), redirects, r.retryAfter, e)
    else
      var s := StreamBody(x, r.body, plan.file.bytes, 0, e);
      var failure := if s.stop.Some? then s.stop else NotClosed(script, r, plan, s.received, |s.bytes|);
      if failure.Some? then
        AttemptEnd(Failed(failure.value), left.(session := Some(Session(plan.file.name, s.bytes))), s.received,
                   Some(r.status), redirects, r.retryAfter, s.env)
      else AttemptEnd(Staged(s.bytes), left.(session := None), s.received, Some(r.status), redirects, r.retryAfter, s.env)
  }

  /** Where the body of a response goes: after the partial, into a new staging
      file, or nowhere. */
  datatype Course = Into(plan: Plan, env: Env) | Nowhere(failure: Failure, announced: Option<nat>)

  function Admit(r: Response, file: Session, active: Option<ResumeState>, e: Env): Course {
    if active.Some? then
      match AdmitResumed(r, active.value)
      case Refuse(refusal, announced) => Nowhere(refusal, announced)
      case Append(total) => Into(Plan(file, active, Some(total)), e)
      case Restart(size) => Into(Plan(Session(e.files, []), None, size), e.(files := e.files + 1))
    else if r.status != 200 then Nowhere(Failure(InvalidContent, false), None)
    else match ContentLength(r)
         case Bad(bad) => Nowhere(bad, None)
         case Good(size) => Into(Plan(file, None, size), e)
  }

  /** The checks of a response, then its body. */
  function HandleResponse(x: Setup, script: Script, r: Response, file: Session, active: Option<ResumeState>, redirects: nat,
                          e: Env): AttemptEnd {
    var left := Leftover(Some(file), active, r.etag, None);
    if ClassifyStatus(r.status).Some? then
      AttemptEnd(Failed(ClassifyStatus(r.status).value), left, 0, Some(r.status), redirects, r.retryAfter, e)
    else match Admit(r, file, active, e)
         case Nowhere(failure, announced) =>
           AttemptEnd(Failed(failure), left.(size := announced), 0, Some(r.status), redirects, r.retryAfter, e)
         case Into(plan, e1) => Receive(x, script, r, plan, redirects, e1)
  }

  /** An attempt that got no response. */
  function NoResponse(left: Leftover, failure: Failure, e: Env): AttemptEnd {
    AttemptEnd(Failed(failure), left, 0, None, 0, None, e)
  }

  /** The staging file an attempt opens: the pending partial's, or a new one. */
  function Opened(active: Option<ResumeState>, e: Env): (Session, Env) {
    if active.Some? then (Session(active.value.partial.name, active.value.partial.bytes), e)
    else (Session(e.files, []), e.(files := e.files + 1))
  }

  /** One pass of the attempt loop up to its except clauses. */
  function Attempt(x: Setup, script: Script, resume: Option<ResumeState>, e: Env): AttemptEnd {
    var nothing := Leftover(None, None, None, None);
    var (stop, e1) := Control(x, e);
    if stop.Some? then NoResponse(nothing, stop.value, e1)
    else if script.openFault.Some? then NoResponse(nothing, Caught(script.openFault.value), e1)
    else if resume.Some? && |resume.value.partial.bytes| > x.limits.maxItemBytes then
      NoResponse(nothing, Caught(StorageError("limit_exceeded")), e1)
    else
      var active := Continues(resume, x.identity);
      var (file, e2) := Opened(active, e1);
      var left := Leftover(Some(file), active, None, None);
      if script.credentialFault.Some? then NoResponse(left, Caught(script.credentialFault.value), e2)
      else
        var q := Request(x, script, 0, e2);
        if q.response.None? then NoResponse(left, q.failure, q.env)
        else HandleResponse(x, script, q.response.value, file, active, q.redirects, q.env)
  }

  // ----- the attempt loop -----

  datatype State = Running | Complete | NotComplete | Interrupted
  datatype Transition = Transition(
    attempt: nat, state: State, outcome: Option<Outcome>, retryable: bool, status: Option<nat>, redirects: nat,
    received: nat, size: Option<nat>, etag: Option<string>, retryAfter: Option<real>)

  /** What the attempt and partial observers see, in order. `got` is what the
      transfer has received when it keeps a partial. */
  datatype Event =
    | Began(transition: Transition)
    | KeptPartial(attempt: nat, resume: ResumeState, got: nat)
    | Ended(transition: Transition)

  /** `received` is the engine's running total over all attempts. */
  datatype Result = Result(state: State, outcome: Outcome, retryable: bool, received: nat, staged: Option<Bytes>,
                           resume: Option<ResumeState>, status: Option<nat>)
  /** Raised: the ResumeState constructor's ValueError escapes the engine. */
  datatype TransferEnd = Returned(result: Result) | RaisedValueError

  datatype Nap = Nap(at: real, delay: real)
  datatype Transferred = Transferred(end: TransferEnd, events: seq<Event>, naps: seq<Nap>, env: Env)

  function RunningTransition(attempt: nat, resume: Option<ResumeState>): Transition {
    Transition(attempt, Running, None, false, None, 0, 0,
               if resume.Some? then resume.value.size else None,
               if resume.Some? then Some(resume.value.etag) else None, None)
  }

  /** `status` is the last status any attempt has seen. */
  function Terminal(attempt: nat, state: State, failure: Failure, a: AttemptEnd, status: Option<nat>): Transition {
    Transition(attempt, state, Some(failure.outcome), failure.retryable, status, a.redirects,
               a.received, a.left.size, a.left.etag, a.retryAfter)
  }

  function LastStatus(a: AttemptEnd, before: Option<nat>): Option<nat> {
    if a.status.Some? then a.status else before
  }

  const RESUMABLE: set<Outcome> := {TransientProvider, TimedOut, RateLimited, SourceChanged, BudgetExhausted}

  datatype Settled = Settled(failure: Failure, state: State, env: Env)

  /** The outcome recorded for a failed attempt. */
  function Settle(x: Setup, failure: Failure, kept: bool, e: Env): Settled {
    if x.nature.cancels(e.polls) then Settled(Failure(Cancelled, true), Interrupted, e.(polls := e.polls + 1))
    else
      var e1 := e.(polls := e.polls + 1, tick := e.tick + 1);
      if x.nature.readings(e.tick) >= x.deadline then Settled(Failure(TimedOut, true), Interrupted, e1)
      else Settled(failure, if kept && failure.outcome in RESUMABLE then Interrupted else NotComplete, e1)
  }

  function Pow2(n: nat): nat {
    if n == 0 then 1 else 2 * Pow2(n - 1)
  }

  /** The delay before the next attempt when the server names none. */
  function Backoff(limits: Limits, attempt: nat): real
    requires attempt > 0
  {
    var d := limits.initialBackoff * Pow2(attempt - 1) as real;
    if d < limits.maxBackoff then d else limits.maxBackoff
  }

  function DelayAfter(limits: Limits, t: Transition): real
    requires t.attempt > 0
  {
    if t.retryAfter.Some? then t.retryAfter.value else Backoff(limits, t.attempt)
  }

  datatype Pausing = GiveUp(env: Env) | TooLate(env: Env) | Sleep(nap: Nap, env: Env)

  /** Whether, and after which delay, there is another attempt. */
  function Pause(x: Setup, t: Transition, e: Env): Pausing
    requires t.attempt > 0
  {
    if !t.retryable || t.outcome == Some(BudgetExhausted) || t.attempt >= x.limits.maxAttempts then GiveUp(e)
    else
      var e1 := e.(polls := e.polls + 1);
      if x.nature.cancels(e.polls) then GiveUp(e1)
      else
        var e2 := e1.(tick := e1.tick + 1);
        if x.nature.readings(e1.tick) >= x.deadline then GiveUp(e2)
        else
          var now, delay := x.nature.readings(e2.tick), DelayAfter(x.limits, t);
          var e3 := e2.(tick := e2.tick + 1);
          if now + delay >= x.deadline then TooLate(e3) else Sleep(Nap(now, delay), e3)
  }

  /** A failed attempt as the loop sees it once it is recorded. */
  datatype Loss = Loss(terminal: Transition, settled: Failure, kept: Option<ResumeState>, env: Env)

  function KeptOf(a: AttemptEnd, identity: string, retryable: bool): Option<ResumeState> {
    var s := Salvage(a.left, identity, retryable);
    if s.Kept? then Some(s.resume) else None
  }

  function Lose(x: Setup, n: nat, a: AttemptEnd, status: Option<nat>): Loss
    requires a.verdict.Failed?
  {
    var kept := KeptOf(a, x.identity, a.verdict.failure.retryable);
    var s := Settle(x, a.verdict.failure, kept.Some?, a.env);
    Loss(Terminal(n, s.state, s.failure, a, LastStatus(a, status)), s.failure, kept, s.env)
  }

  function LossEvents(x: Setup, n: nat, current: Option<ResumeState>, loss: Loss, got: nat): seq<Event> {
    [Began(RunningTransition(n, current))]
    + (if loss.kept.Some? then [KeptPartial(n, loss.kept.value, got)] else [])
    + [Ended(loss.terminal)]
  }

  /** The constructor raises after the attempt. */
  predicate Overruns(a: AttemptEnd, identity: string) {
    a.verdict.Failed? && Salvage(a.left, identity, a.verdict.failure.retryable).Raised?
  }

  function GivenUp(loss: Loss, late: bool, received: nat): Result {
    Result(loss.terminal.state, if late then TimedOut else loss.settled.outcome, late || loss.settled.retryable, received,
           None, loss.kept, loss.terminal.status)
  }

  /** The transfer from its n-th attempt on: `current` is the pending resume,
      `got` what was received before. */
  function From(x: Setup, n: nat, current: Option<ResumeState>, status: Option<nat>, got: nat, e: Env): Transferred
    requires 0 < n <= x.limits.maxAttempts
    decreases x.limits.maxAttempts - n, 1
  {
    After(x, n, current, status, got, Attempt(x, x.scripts(n), current, e))
  }

  /** What follows the n-th attempt. */
  function After(x: Setup, n: nat, current: Option<ResumeState>, status: Option<nat>, got: nat, a: AttemptEnd): Transferred
    requires 0 < n <= x.limits.maxAttempts
    decreases x.limits.maxAttempts - n, 0
  {
    var began := Began(RunningTransition(n, current));
    match a.verdict
    case Staged(bytes) =>
      Transferred(Returned(Result(Complete, Downloaded, false, got + a.received, Some(bytes), None, a.status)),
                  [began, Ended(Terminal(n, Complete, Failure(Downloaded, false), a, a.status))], [], a.env)
    case Failed(_) =>
      if Overruns(a, x.identity) then Transferred(RaisedValueError, [began], [], a.env)
      else
        var loss := Lose(x, n, a, status);
        var events := LossEvents(x, n, current, loss, got + a.received);
        match Pause(x, loss.terminal, loss.env)
        case GiveUp(e1) => Transferred(Returned(GivenUp(loss, false, got + a.received)), events, [], e1)
        case TooLate(e1) => Transferred(Returned(GivenUp(loss, true, got + a.received)), events, [], e1)
        case Sleep(nap, e1) =>
          var rest := From(x, n + 1, loss.kept, loss.terminal.status, got + a.received, e1);
          Transferred(rest.end, events + rest.events, [nap] + rest.naps, rest.env)
  }

  /** HTTPTransferEngine.transfer: one reading of the clock fixes the deadline. */
  function TransferOf(nature: Nature, identity: string, scripts: nat -> Script, limits: Limits, resume: Option<ResumeState>,
                      e: Env): Transferred
    requires LimitsOk(limits)
  {
    From(Setup(nature, identity, scripts, limits, nature.readings(e.tick) + limits.maxSeconds), 1, resume, None, 0, e.(tick := e.tick + 1))
  }

  // ----- what the observers were told -----

  /** The terminal transitions: TransferResult.attempts. */
  function Attempts(events: seq<Event>): seq<Transition> {
    if events == [] then []
    else (if events[0].Ended? then [events[0].transition] else []) + Attempts(events[1..])
  }

  /** The bytes received in these attempts. */
  function TotalOf(attempts: seq<Transition>): nat {
    if attempts == [] then 0 else attempts[0].received + TotalOf(attempts[1..])
  }

  function Received(events: seq<Event>): nat {
    if events == [] then 0
    else (if events[0].Ended? then events[0].transition.received else 0) + Received(events[1..])
  }

  /** The last partial the observer was shown. */
  function LastKept(events: seq<Event>): Option<ResumeState> {
    if events == [] then None
    else if events[|events| - 1].KeptPartial? then Some(events[|events| - 1].resume)
    else LastKept(events[..|events| - 1])
  }
}

/** The decision table of an undisturbed attempt: which answers and faults end a
    transfer and with which outcome, which are tried again and after which
    delay, and which responses are staged. Written out in numbers. */
module TransferTable {

  import opened Basics
  import opened TransferProtocol
  import opened TransferSpec
  import opened TransferLoop
  import opened TransferProperties
  import opened TransferResults

  // ----- what a failed attempt leads to -----

  /** The first attempt of t is recorded with these fields; it is interrupted
      exactly when a partial was kept. */
  predicate Recorded(t: Transferred, n: nat, outcome: Outcome, retryable: bool, status: Option<nat>, received: nat) {
    Attempts(t.events) != [] && |t.events| >= 2 &&
    var row := Attempts(t.events)[0];
    && row.attempt == n && row.outcome == Some(outcome) && row.retryable == retryable
    && row.status == status && row.received == received
    && row.state == (if t.events[1].KeptPartial? then Interrupted else NotComplete)
    && (t.events[1].KeptPartial? ==> retryable)
  }

  /** It is the last one, and the result says so. */
  predicate Ends(t: Transferred, outcome: Outcome, retryable: bool) {
    && t.naps == [] && |Attempts(t.events)| == 1 && t.end.Returned?
    && t.end.result.staged.None? && t.end.result.outcome == outcome && t.end.result.retryable == retryable
    && t.end.result.state == Attempts(t.events)[0].state
  }

  function Doubled(first: real, times: nat): real {
    if times == 0 then first else 2.0 * Doubled(first, times - 1)
  }

  /** Retry-After if the server sends it; else the initial delay doubled after
      every attempt, up to the longest one. */
  function Wait(limits: Limits, n: nat, retryAfter: Option<real>): real
    requires n > 0
  {
    var doubled := Doubled(limits.initialBackoff, n - 1);
    if retryAfter.Some? then retryAfter.value else if doubled <= limits.maxBackoff then doubled else limits.maxBackoff
  }

  /** The engine sleeps this long and begins attempt n + 1. */
  predicate SleepsThenBegins(t: Transferred, n: nat, delay: real, deadline: real) {
    && |t.naps| > 0 && t.naps[0].delay == delay && t.naps[0].at + delay < deadline && |t.events| >= 2
    && var i := if t.events[1].KeptPartial? then 3 else 2;
       |t.events| > i && t.events[i].Began? && t.events[i].transition.attempt == n + 1
  }

  /** Attempt n failed in this way, and is tried again or not. */
  ghost predicate Loses(x: Setup, n: nat, t: Transferred, outcome: Outcome, retryable: bool, status: Option<nat>, received: nat,
                        retryAfter: Option<real>)
  {
    && n > 0 && Recorded(t, n, outcome, retryable, status, received) && Attempts(t.events)[0].retryAfter == retryAfter
    && if !retryable || outcome == BudgetExhausted || n >= x.limits.maxAttempts then Ends(t, outcome, retryable)
       else
         var delay := Wait(x.limits, n, retryAfter);
         || SleepsThenBegins(t, n, delay, x.deadline)
         || (Ends(t, TimedOut, true) && exists k :: x.nature.readings(k) + delay >= x.deadline)
  }

  lemma {:induction false} DoublesAsPowers(first: real, n: nat)
    ensures Doubled(first, n) == first * Pow2(n) as real
  {
    if n > 0 {
      DoublesAsPowers(first, n - 1);
      assert Pow2(n) as real == 2.0 * Pow2(n - 1) as real;
    }
  }

  /** A failed attempt that does not raise. */
  predicate Lost(x: Setup, h: Head, a: AttemptEnd) {
    h.n > 0 && a.verdict.Failed? && !Overruns(a, x.identity)
  }

  lemma LostSettles(x: Setup, h: Head, a: AttemptEnd)
    requires Quiet(x) && Lost(x, h, a) && Sane(a.verdict.failure) && a.verdict.failure.outcome != Cancelled
    ensures var f, loss := a.verdict.failure, Lose(x, h.n, a, h.status);
      && loss.settled == f && loss.terminal.attempt == h.n && loss.terminal.outcome == Some(f.outcome) && loss.terminal.retryable == f.retryable
      && loss.terminal.received == a.received && loss.terminal.status == LastStatus(a, h.status) && loss.terminal.retryAfter == a.retryAfter
      && loss.terminal.state == (if loss.kept.Some? then Interrupted else NotComplete) && (loss.kept.Some? ==> f.retryable)
      && loss.env.used == a.env.used
  {
  }

  lemma LostPauses(x: Setup, t: Transition, e: Env)
    requires Quiet(x) && t.attempt > 0
    ensures var p := Pause(x, t, e);
      && p.env.used == e.used
      && (p.GiveUp? <==> !t.retryable || t.outcome == Some(BudgetExhausted) || t.attempt >= x.limits.maxAttempts)
      && (p.Sleep? ==> p.nap.delay == Wait(x.limits, t.attempt, t.retryAfter) && p.nap.at + p.nap.delay < x.deadline)
      && (p.TooLate? ==> exists k :: x.nature.readings(k) + Wait(x.limits, t.attempt, t.retryAfter) >= x.deadline)
  {
    DoublesAsPowers(x.limits.initialBackoff, t.attempt - 1);
    assert DelayAfter(x.limits, t) == Wait(x.limits, t.attempt, t.retryAfter);
  }

  lemma LostEnds(x: Setup, h: Head, a: AttemptEnd, t: Transferred, rest: Transferred)
    requires Quiet(x) && Turns(x, h, a, t, rest) && Lost(x, h, a) && !GoesOn(x, h, a)
    requires Sane(a.verdict.failure) && a.verdict.failure.outcome != Cancelled
    ensures var f := a.verdict.failure; Loses(x, h.n, t, f.outcome, f.retryable, LastStatus(a, h.status), a.received, a.retryAfter)
  {
    hide Lose, Pause, Overruns, Wait, LossEvents, IsFrom;
    var loss := Lose(x, h.n, a, h.status);
    LostSettles(x, h, a);
    LostPauses(x, loss.terminal, loss.env);
    LossAttempts(x, h.n, h.current, loss, h.got + a.received);
    LossShape(x, h.n, h.current, loss, h.got + a.received);
  }

  lemma LostGoesOn(x: Setup, h: Head, a: AttemptEnd, t: Transferred, rest: Transferred)
    requires Quiet(x) && Turns(x, h, a, t, rest) && Lost(x, h, a) && GoesOn(x, h, a)
    requires Sane(a.verdict.failure) && a.verdict.failure.outcome != Cancelled
    ensures var f := a.verdict.failure; Loses(x, h.n, t, f.outcome, f.retryable, LastStatus(a, h.status), a.received, a.retryAfter)
  {
    hide Lose, Pause, Overruns, Wait, LossEvents, IsFrom;
    var loss := Lose(x, h.n, a, h.status);
    LostSettles(x, h, a);
    LostPauses(x, loss.terminal, loss.env);
    LossAttempts(x, h.n, h.current, loss, h.got + a.received);
    LossShape(x, h.n, h.current, loss, h.got + a.received);
    AttemptsAppend(LossEvents(x, h.n, h.current, loss, h.got + a.received), rest.events);
    FirstBegins(x, NextHead(x, h, a), rest);
  }

  /** The redirects followed, the size announced and the validator received in
      the first attempt of t. */
  predicate RowShows(t: Transferred, redirects: nat, size: Option<nat>, etag: Option<string>) {
    Attempts(t.events) != [] && var row := Attempts(t.events)[0]; row.redirects == redirects && row.size == size && row.etag == etag
  }

  lemma RowIsEnd(x: Setup, h: Head, t: Transferred)
    requires IsFrom(x, h, t)
    ensures var a := Attempt(x, x.scripts(h.n), h.current, h.env);
      Attempts(t.events) != [] && !(t.end.RaisedValueError? && |t.events| == 1) ==> RowShows(t, a.redirects, a.left.size, a.left.etag)
  {
    hide Attempt, Overruns, Salvage;
    var a, rest := Unfold(x, h, t);
    SameAttempt(x, h, a, Attempt(x, x.scripts(h.n), h.current, h.env));
    var began := Began(RunningTransition(h.n, h.current));
    AttemptsOne(began);
    if a.verdict.Staged? {
      var ended := Ended(Terminal(h.n, Complete, Failure(Downloaded, false), a, a.status));
      AttemptsAppend([began], [ended]);
      AttemptsOne(ended);
      assert [began] + [ended] == [began, ended];
    } else if !Overruns(a, x.identity) {
      var loss := Lose(x, h.n, a, h.status);
      LossAttempts(x, h.n, h.current, loss, h.got + a.received);
      AttemptsAppend(LossEvents(x, h.n, h.current, loss, h.got + a.received), rest.events);
    }
  }

  lemma LossShape(x: Setup, n: nat, current: Option<ResumeState>, loss: Loss, got: nat)
    ensures var events := LossEvents(x, n, current, loss, got);
      && |events| == (if loss.kept.Some? then 3 else 2) && (events[1].KeptPartial? <==> loss.kept.Some?)
      && (loss.kept.Some? ==> events[1] == KeptPartial(n, loss.kept.value, got))
  {
  }

  lemma FirstBegins(x: Setup, h: Head, t: Transferred)
    requires IsFrom(x, h, t)
    ensures t.events != [] && t.events[0].Began? && t.events[0].transition.attempt == h.n
  {
    var a, rest := Unfold(x, h, t);
  }

  /** Every failure of an undisturbed attempt leads to what Loses says. */
  lemma LostLoses(x: Setup, h: Head, a: AttemptEnd, t: Transferred)
    requires Quiet(x) && IsFrom(x, h, t) && IsAttempt(x, h, a) && Lost(x, h, a)
    requires Sane(a.verdict.failure) && a.verdict.failure.outcome != Cancelled
    ensures var f := a.verdict.failure; Loses(x, h.n, t, f.outcome, f.retryable, LastStatus(a, h.status), a.received, a.retryAfter)
  {
    var b, rest := Unfold(x, h, t);
    SameAttempt(x, h, a, b);
    if GoesOn(x, h, a) {
      LostGoesOn(x, h, a, t, rest);
    } else {
      LostEnds(x, h, a, t, rest);
    }
  }

  // ----- faults, redirects and statuses -----

  /** What each fault means for the attempt in which it is raised. */
  predicate Means(f: Fault, outcome: Outcome, retryable: bool) {
    match f
    case TransportTimeout => outcome == TimedOut && retryable
    case TransportError => outcome == TransientProvider && retryable
    case RedirectRefused => outcome == PolicyFailure && !retryable
    case NoCredentials => outcome == AuthenticationRequired && !retryable
    case StorageError(category) => outcome == StorageFailure(category) && !retryable
    case OsError => outcome == StorageFailure("storage_failure") && !retryable
  }

  /** Nothing fails before the request is sent. */
  predicate Sends(script: Script, limits: Limits, current: Option<ResumeState>) {
    && script.openFault.None? && script.credentialFault.None?
    && (current.Some? ==> |current.value.partial.bytes| <= limits.maxItemBytes)
  }

  /** The request is sent, every redirect is followed, and this is the answer. */
  predicate Gets(script: Script, limits: Limits, current: Option<ResumeState>, r: Response) {
    && Sends(script, limits, current) && |script.hops| <= limits.maxRedirects && (forall i | 0 <= i < |script.hops| :: script.hops[i])
    && script.answer == Answered(r)
  }

  lemma {:induction false} RequestGets(x: Setup, script: Script, hop: nat, e: Env)
    requires hop <= |script.hops| && Quiet(x)
    ensures var q := Request(x, script, hop, e);
      && q.env.used == e.used && q.env.files == e.files
      && if (|script.hops| > x.limits.maxRedirects && hop < |script.hops|) || (exists i :: hop <= i < |script.hops| && !script.hops[i])
         then q.response.None? && q.failure == Failure(PolicyFailure, false)
         else match script.answer
              case Silent(f) => q.response.None? && Means(f, q.failure.outcome, q.failure.retryable)
              case Answered(r) => q.response == Some(r) && q.redirects == |script.hops|
    decreases |script.hops| - hop
  {
    if hop < |script.hops| {
      var (stop, e1) := Control(x, e);
      RequestGets(x, script, hop + 1, e1);
    }
  }

  /** The attempt failed in this way; nothing was received or charged. */
  ghost predicate FailsAtOnce(x: Setup, current: Option<ResumeState>, e: Env, a: AttemptEnd, outcome: Outcome, retryable: bool) {
    && a.verdict == Failed(Failure(outcome, retryable)) && a.received == 0 && a.env.used == e.used
    && outcome != Cancelled && Sane(a.verdict.failure) && !Overruns(a, x.identity)
  }

  lemma NeverGets(x: Setup, script: Script, current: Option<ResumeState>, e: Env, f: Fault, outcome: Outcome, retryable: bool)
    requires Quiet(x) && PendingOk(current) && Means(f, outcome, retryable)
    requires
      || script.openFault == Some(f)
      || (script.openFault.None? && script.credentialFault == Some(f) && (current.Some? ==> |current.value.partial.bytes| <= x.limits.maxItemBytes))
      || (Sends(script, x.limits, current) && |script.hops| <= x.limits.maxRedirects
          && (forall i | 0 <= i < |script.hops| :: script.hops[i]) && script.answer == Silent(f))
    ensures var a := Attempt(x, script, current, e);
      FailsAtOnce(x, current, e, a, outcome, retryable) && a.status.None? && a.retryAfter.None?
  {
    hide Request;
    var active := Continues(current, x.identity);
    RequestGets(x, script, 0, Opened(active, Control(x, e).1).1);
  }

  lemma BadRedirect(x: Setup, script: Script, current: Option<ResumeState>, e: Env)
    requires Quiet(x) && PendingOk(current) && Sends(script, x.limits, current)
    requires |script.hops| > x.limits.maxRedirects || exists i :: 0 <= i < |script.hops| && !script.hops[i]
    ensures var a := Attempt(x, script, current, e);
      FailsAtOnce(x, current, e, a, PolicyFailure, false) && a.status.None? && a.retryAfter.None?
  {
    hide Request;
    var active := Continues(current, x.identity);
    RequestGets(x, script, 0, Opened(active, Control(x, e).1).1);
  }

  lemma OversizedPartial(x: Setup, script: Script, current: Option<ResumeState>, e: Env)
    requires Quiet(x) && script.openFault.None? && current.Some? && |current.value.partial.bytes| > x.limits.maxItemBytes
    ensures var a := Attempt(x, script, current, e);
      FailsAtOnce(x, current, e, a, StorageFailure("limit_exceeded"), false) && a.status.None? && a.retryAfter.None?
  {
  }

  /** The response is handled beside the pending partial it may continue, or
      beside a new file. */
  ghost predicate Handled(x: Setup, script: Script, current: Option<ResumeState>, r: Response, file: Session, e: Env,
                          a: AttemptEnd) {
    var active := Continues(current, x.identity);
    && a == HandleResponse(x, script, r, file, active, |script.hops|, e)
    && file.bytes == (if active.Some? then active.value.partial.bytes else []) && (active.Some? ==> file.name == active.value.partial.name)
  }

  lemma GetsHandled(x: Setup, script: Script, current: Option<ResumeState>, e: Env, r: Response)
    requires Quiet(x) && Gets(script, x.limits, current, r)
    ensures exists file, e1 :: Handled(x, script, current, r, file, e1, Attempt(x, script, current, e)) && e1.used == e.used
  {
    hide Request, HandleResponse;
    var active := Continues(current, x.identity);
    var (file, e2) := Opened(active, Control(x, e).1);
    RequestGets(x, script, 0, e2);
    var q := Request(x, script, 0, e2);
    assert Handled(x, script, current, r, file, q.env, Attempt(x, script, current, e));
  }

  /** The statuses that are tried again. */
  predicate TriedAgain(status: nat) {
    status in {408, 425, 429} || 500 <= status <= 599
  }

  /** What a status outside 200 to 299 means for the attempt. */
  predicate StatusMeans(status: nat, outcome: Outcome, retryable: bool) {
    && (status < 200 || status > 299) && (retryable <==> TriedAgain(status))
    && (status == 429 ==> outcome == RateLimited)
    && (status != 429 && TriedAgain(status) ==> outcome == TransientProvider)
    && (status == 401 ==> outcome == AuthenticationRequired)
    && (status == 403 ==> outcome == AuthorizationDenied)
    && (status == 404 || status == 410 ==> outcome == Unavailable)
    && (!TriedAgain(status) && status !in {401, 403, 404, 410} ==> outcome == InvalidContent)
  }

  lemma BadStatus(x: Setup, script: Script, current: Option<ResumeState>, e: Env, r: Response, outcome: Outcome, retryable: bool)
    requires Quiet(x) && PendingOk(current) && Gets(script, x.limits, current, r) && StatusMeans(r.status, outcome, retryable)
    ensures var a := Attempt(x, script, current, e);
      && FailsAtOnce(x, current, e, a, outcome, retryable) && a.status == Some(r.status) && a.retryAfter == r.retryAfter
      && a.redirects == |script.hops| && a.left.etag == r.etag && a.left.size.None?
  {
    GetsHandled(x, script, current, e, r);
  }

  // ----- responses that are not received -----

  /** No partial is pending for the request: only a 200 can be received. */
  lemma NotAFile(x: Setup, script: Script, current: Option<ResumeState>, e: Env, r: Response)
    requires Quiet(x) && Gets(script, x.limits, current, r) && (current.None? || current.value.partial.identity != x.identity)
    requires 200 <= r.status <= 299 && (r.status != 200 || r.length.BadLength? || !r.accepted)
    ensures var a := Attempt(x, script, current, e);
      FailsAtOnce(x, current, e, a, InvalidContent, false) && a.status == Some(r.status)
  {
    GetsHandled(x, script, current, e, r);
  }

  /** The 206 continues the partial: same strong ETag, first byte where the
      partial ends, last byte where the representation ends. */
  predicate Continued(r: Response, pending: ResumeState, total: nat) {
    var start := |pending.partial.bytes|;
    && r.etag == Some(pending.etag) && start < total && r.range == Range(start, total - 1, Some(total))
    && (r.length.NoLength? || r.length == Length(total - start)) && (pending.size.Some? ==> pending.size.value == total)
  }

  /** A partial is pending for the request: any other success than a 206 that
      continues it or a 200 means that the source has changed. */
  lemma NotContinued(x: Setup, script: Script, pending: ResumeState, e: Env, r: Response)
    requires Quiet(x) && ConstructedResume(pending) && pending.partial.identity == x.identity
    requires Gets(script, x.limits, Some(pending), r) && 201 <= r.status <= 299
    requires r.status == 206 ==> forall total: nat {:trigger Continued(r, pending, total)} :: !Continued(r, pending, total)
    ensures var a := Attempt(x, script, Some(pending), e);
      FailsAtOnce(x, Some(pending), e, a, if r.status == 206 && InvalidLength(r, pending) then InvalidContent else SourceChanged, false)
      && a.status == Some(r.status)
  {
    GetsHandled(x, script, Some(pending), e, r);
    if r.status == 206 && r.range.Range? && r.range.total.Some? { assert !Continued(r, pending, r.range.total.value); }
  }

  /** The range continues the partial, but Content-Length is not a number. */
  predicate InvalidLength(r: Response, pending: ResumeState) {
    && r.length.BadLength? && r.etag == Some(pending.etag) && r.range.Range? && r.range.first == |pending.partial.bytes|
    && r.range.first <= r.range.last && r.range.total == Some(r.range.last + 1)
  }

  /** A strong ETag is any quoted string. */
  lemma StrongIsQuoted(value: string)
    ensures StrongEtag(Some(value)) <==> exists inner: string :: value == "\"" + inner + "\""
    ensures !StrongEtag(None)
  {
    if StrongEtag(Some(value)) { assert value == "\"" + value[1..|value| - 1] + "\""; }
  }

  // ----- announced sizes -----

  /** A response that is received, the bytes its body is appended to and the
      size it announces: a 200 starts anew, a 206 goes on with the partial. */
  predicate Admitted(identity: string, current: Option<ResumeState>, r: Response, base: Bytes, size: Option<nat>) {
    || (r.status == 200 && !r.length.BadLength? && base == [] && size == (if r.length.Length? then Some(r.length.value) else None))
    || (r.status == 206 && current.Some? && current.value.partial.identity == identity && base == current.value.partial.bytes
        && size.Some? && Continued(r, current.value, size.value))
  }

  /** The attempt receives the response with this plan. */
  ghost predicate Receives(x: Setup, script: Script, current: Option<ResumeState>, r: Response, base: Bytes, size: Option<nat>,
                           plan: Plan, e: Env, a: AttemptEnd) {
    && a == Receive(x, script, r, plan, |script.hops|, e)
    && plan.file.bytes == base && plan.size == size && (plan.active.Some? ==> plan.active == current && r.status == 206)
  }

  lemma HandledReceives(x: Setup, script: Script, current: Option<ResumeState>, r: Response, file: Session, e: Env, a: AttemptEnd,
                        base: Bytes, size: Option<nat>) returns (plan: Plan, e1: Env)
    requires Handled(x, script, current, r, file, e, a) && Admitted(x.identity, current, r, base, size)
    ensures Receives(x, script, current, r, base, size, plan, e1, a) && e1.used == e.used && e1.polls == e.polls && e1.tick == e.tick
  {
    hide Receive;
    var active := Continues(current, x.identity);
    plan, e1 := Admit(r, file, active, e).plan, Admit(r, file, active, e).env;
  }

  lemma AdmittedReceives(x: Setup, script: Script, current: Option<ResumeState>, e: Env, r: Response, base: Bytes,
                         size: Option<nat>)
    returns (plan: Plan, e1: Env)
    requires Quiet(x) && Gets(script, x.limits, current, r) && Admitted(x.identity, current, r, base, size)
    ensures Receives(x, script, current, r, base, size, plan, e1, Attempt(x, script, current, e)) && e1.used == e.used
  {
    hide Attempt, Handled, Receives, Quiet, Gets, Admitted;
    GetsHandled(x, script, current, e, r);
    var file, e0 :| Handled(x, script, current, r, file, e0, Attempt(x, script, current, e)) && e0.used == e.used;
    plan, e1 := HandledReceives(x, script, current, r, file, e0, Attempt(x, script, current, e), base, size);
  }

  /** The content type is refused. */
  lemma NotAccepted(x: Setup, script: Script, current: Option<ResumeState>, e: Env, r: Response, base: Bytes, size: Option<nat>)
    requires Quiet(x) && PendingOk(current) && Gets(script, x.limits, current, r)
    requires Admitted(x.identity, current, r, base, size) && !r.accepted
    ensures var a := Attempt(x, script, current, e);
      FailsAtOnce(x, current, e, a, InvalidContent, false) && a.status == Some(r.status)
  {
    var plan, e1 := AdmittedReceives(x, script, current, e, r, base, size);
  }

  /** The announced size is over the item limit, or else over what is left of
      the budget. */
  lemma NoRoomForIt(x: Setup, script: Script, current: Option<ResumeState>, e: Env, r: Response, base: Bytes, size: nat)
    requires Quiet(x) && PendingOk(current) && Gets(script, x.limits, current, r)
    requires Admitted(x.identity, current, r, base, Some(size)) && r.accepted
    requires size > x.limits.maxItemBytes || e.used + size - |base| > x.nature.maxBytes
    requires e.used <= x.nature.maxBytes
    ensures var a, large := Attempt(x, script, current, e), size > x.limits.maxItemBytes;
      FailsAtOnce(x, current, e, a, if large then ResponseTooLarge else BudgetExhausted, !large) && a.status == Some(r.status)
  {
    var plan, e1 := AdmittedReceives(x, script, current, e, r, base, Some(size));
  }

  // ----- bodies -----

  lemma ChunkArrives(x: Setup, more: Bytes, start: nat, e: Env) returns (e1: Env)
    requires Quiet(x) && start + |more| <= x.limits.maxItemBytes && e.used + |more| <= x.nature.maxBytes
    ensures Chunk(x, more, None, start, e) == (None, e1) && e1.used == e.used + |more| && e1.files == e.files
  {
    e1 := Chunk(x, more, None, start, e).1;
  }

  lemma FrontClean(clean: seq<BodyEvent>)
    requires clean != [] && CleanBody(clean)
    ensures clean[0].Data? && clean[0].writeFault.None? && CleanBody(clean[1..])
  {
    forall i | 0 <= i < |clean| - 1 ensures clean[1..][i] == clean[i + 1] {}
  }

  lemma FrontRest(clean: seq<BodyEvent>, more: seq<BodyEvent>)
    requires clean != []
    ensures clean + more != [] && (clean + more)[0] == clean[0] && (clean + more)[1..] == clean[1..] + more
  {
  }

  lemma Regroup(a: Bytes, b: Bytes, c: Bytes)
    ensures a + b + c == a + (b + c)
  {
  }

  /** A body from its first chunk on. */
  lemma FrontChunk(clean: seq<BodyEvent>, more: seq<BodyEvent>, bytes: Bytes)
    requires clean != [] && CleanBody(clean)
    ensures clean[0].Data? && clean[0].writeFault.None? && CleanBody(clean[1..])
    ensures clean + more != [] && (clean + more)[0] == clean[0] && (clean + more)[1..] == clean[1..] + more
    ensures var first, rest := clean[0].bytes, BodyBytes(clean[1..]);
      |BodyBytes(clean)| == |first| + |rest| && bytes + first + rest == bytes + BodyBytes(clean)
  {
    hide CleanBody;
    FrontClean(clean);
    FrontRest(clean, more);
    assert BodyBytes(clean) == clean[0].bytes + BodyBytes(clean[1..]);
    Regroup(bytes, clean[0].bytes, BodyBytes(clean[1..]));
  }

  lemma EmptyFront(more: seq<BodyEvent>, bytes: Bytes)
    ensures [] + more == more && BodyBytes([]) == [] && bytes + [] == bytes
  {
  }

  lemma {:induction false} StreamPrefix(x: Setup, clean: seq<BodyEvent>, more: seq<BodyEvent>, bytes: Bytes, received: nat,
                                        e: Env) returns (e1: Env)
    requires e.used <= x.nature.maxBytes && Arrives(x, clean, |bytes|, x.nature.maxBytes - e.used)
    ensures e1.used == e.used + |BodyBytes(clean)| && e1.files == e.files
    ensures StreamBody(x, clean + more, bytes, received, e)
         == StreamBody(x, more, bytes + BodyBytes(clean), received + |BodyBytes(clean)|, e1)
    decreases |clean|
  {
    hide Chunk, BodyBytes, CleanBody;
    if clean == [] {
      EmptyFront(more, bytes);
      e1 := e;
    } else {
      FrontChunk(clean, more, bytes);
      var first := clean[0].bytes;
      var e0 := ChunkArrives(x, first, |bytes|, e);
      e1 := StreamPrefix(x, clean[1..], more, bytes + first, received + |first|, e0);
    }
  }

  /** Content and announced size leave room for the body up to here. */
  predicate Fits(limits: Limits, budget: nat, used: nat, base: Bytes, clean: seq<BodyEvent>, size: Option<nat>) {
    && CleanBody(clean) && |base| + |BodyBytes(clean)| <= limits.maxItemBytes && used + |BodyBytes(clean)| <= budget
    && (size.Some? ==> |base| <= size.value <= limits.maxItemBytes && used + size.value - |base| <= budget)
  }

  /** What stops the body here, and what is charged for it: a broken connection,
      a chunk over the budget, over the item limit, or one that is not written. */
  predicate Stops(limits: Limits, left: nat, start: nat, next: BodyEvent, outcome: Outcome, retryable: bool, charged: nat) {
    match next
    case Broken(f) => Means(f, outcome, retryable) && charged == 0
    case Data(more, fault) =>
      if |more| > left then outcome == BudgetExhausted && retryable && charged == 0
      else if start + |more| > limits.maxItemBytes then outcome == StorageFailure("limit_exceeded") && !retryable && charged == |more|
      else fault.Some? && Means(fault.value, outcome, retryable) && charged == |more|
  }

  lemma StreamStops(x: Setup, more: seq<BodyEvent>, bytes: Bytes, received: nat, e: Env, outcome: Outcome, retryable: bool,
                    charged: nat)
    requires Quiet(x) && e.used <= x.nature.maxBytes && more != []
    requires Stops(x.limits, x.nature.maxBytes - e.used, |bytes|, more[0], outcome, retryable, charged)
    ensures var s := StreamBody(x, more, bytes, received, e);
      && s.stop == Some(Failure(outcome, retryable)) && s.bytes == bytes && s.received == received
      && s.env.used == e.used + charged
  {
  }

  /** The body is cut short: what came before was received and charged, and is
      in the staging file. */
  lemma CutShort(x: Setup, script: Script, current: Option<ResumeState>, e: Env, r: Response, base: Bytes, size: Option<nat>,
                 clean: seq<BodyEvent>, more: seq<BodyEvent>, outcome: Outcome, retryable: bool, charged: nat)
    requires Quiet(x) && Gets(script, x.limits, current, r) && Admitted(x.identity, current, r, base, size) && r.accepted
    requires Fits(x.limits, x.nature.maxBytes, e.used, base, clean, size) && more != [] && r.body == clean + more
    requires Stops(x.limits, x.nature.maxBytes - e.used - |BodyBytes(clean)|, |base| + |BodyBytes(clean)|, more[0], outcome, retryable, charged)
    ensures var a := Attempt(x, script, current, e);
      && a.verdict == Failed(Failure(outcome, retryable)) && a.received == |BodyBytes(clean)| && a.status == Some(r.status)
      && a.env.used == e.used + |BodyBytes(clean)| + charged && a.retryAfter == r.retryAfter && a.left.etag == r.etag && a.left.size == size
      && a.left.session.Some? && a.left.session.value.bytes == base + BodyBytes(clean) && (a.left.active.Some? ==> r.status == 206)
      && a.redirects == |script.hops|
  {
    hide Chunk, StreamBody, NotClosed, Attempt, Gets, Means;
    var plan, e1 := AdmittedReceives(x, script, current, e, r, base, size);
    assert Refusal(x, r, plan, e1).None?;
    var e2 := StreamPrefix(x, clean, more, base, 0, e1);
    StreamStops(x, more, base + BodyBytes(clean), |BodyBytes(clean)|, e2, outcome, retryable, charged);
  }

  /** The whole body arrives: it is staged if its length is as announced. */
  lemma ArrivedWhole(x: Setup, script: Script, current: Option<ResumeState>, e: Env, r: Response, base: Bytes, size: Option<nat>)
    requires Quiet(x) && Gets(script, x.limits, current, r) && Admitted(x.identity, current, r, base, size) && r.accepted
    requires Fits(x.limits, x.nature.maxBytes, e.used, base, r.body, size)
    ensures var a, got := Attempt(x, script, current, e), |BodyBytes(r.body)|;
      && a.received == got && a.env.used == e.used + got && a.status == Some(r.status) && a.retryAfter == r.retryAfter
      && a.redirects == |script.hops|
      && a.left.etag == r.etag && a.left.size == size && (a.left.active.Some? ==> r.status == 206)
      && if (r.length.Length? && r.length.value != got) || (size.Some? && size.value != |base| + got) then
           a.verdict == Failed(Failure(SourceChanged, true)) && a.left.session.Some? && a.left.session.value.bytes == base + BodyBytes(r.body)
         else if script.finishFault.Some? then
           a.verdict.Failed? && Means(script.finishFault.value, a.verdict.failure.outcome, a.verdict.failure.retryable)
         else a.verdict == Staged(base + BodyBytes(r.body))
  {
    hide Attempt, Gets, Chunk;
    assert r.body + [] == r.body;
    var plan, e1 := AdmittedReceives(x, script, current, e, r, base, size);
    assert Refusal(x, r, plan, e1).None?;
    var e2 := StreamPrefix(x, r.body, [], base, 0, e1);
  }
}

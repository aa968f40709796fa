/** The theorems about whole transfers. */
module TransferResults {

  import opened Basics
  import opened TransferProtocol
  import opened TransferSpec
  import opened TransferLoop
  import opened TransferProperties

  // ----- the log, the byte account and the pauses -----

  predicate NapAt(limits: Limits, deadline: real, t: Transition, nap: Nap) {
    t.attempt > 0 && nap.delay == DelayAfter(limits, t) && nap.at + nap.delay < deadline
  }

  ghost predicate Numbered(n: nat, attempts: seq<Transition>) {
    forall i | 0 <= i < |attempts| :: attempts[i].attempt == n + i && attempts[i].state != Running
  }

  ghost predicate NapsFit(limits: Limits, deadline: real, attempts: seq<Transition>, naps: seq<Nap>) {
    |naps| <= |attempts| &&
    forall i {:trigger NapAt(limits, deadline, attempts[i], naps[i])} | 0 <= i < |naps| :: NapAt(limits, deadline, attempts[i], naps[i])
  }

  lemma NumberedMore(n: nat, t: Transition, attempts: seq<Transition>)
    requires t.attempt == n && t.state != Running && Numbered(n + 1, attempts)
    ensures Numbered(n, [t] + attempts)
  {
    forall i | 0 < i < |attempts| + 1 ensures ([t] + attempts)[i].attempt == n + i && ([t] + attempts)[i].state != Running {
      assert ([t] + attempts)[i] == attempts[i - 1];
    }
  }

  lemma NapsFitMore(limits: Limits, deadline: real, t: Transition, nap: Nap, attempts: seq<Transition>, naps: seq<Nap>)
    requires NapAt(limits, deadline, t, nap) && NapsFit(limits, deadline, attempts, naps)
    ensures NapsFit(limits, deadline, [t] + attempts, [nap] + naps)
  {
    forall i | 0 <= i < |naps| + 1 ensures NapAt(limits, deadline, ([t] + attempts)[i], ([nap] + naps)[i]) {
      if i > 0 { assert NapAt(limits, deadline, attempts[i - 1], naps[i - 1]); }
    }
  }

  /** Attempts are numbered from n within the limit, and between two of them the
      engine sleeps what the first one calls for and never into the deadline. */
  ghost predicate Paced(x: Setup, n: nat, t: Transferred) {
    && |Attempts(t.events)| == |t.naps| + (if t.end.Returned? then 1 else 0) && n + |t.naps| <= x.limits.maxAttempts
    && Numbered(n, Attempts(t.events)) && NapsFit(x.limits, x.deadline, Attempts(t.events), t.naps)
  }

  lemma {:induction false} AttemptsAppend(a: seq<Event>, b: seq<Event>)
    ensures Attempts(a + b) == Attempts(a) + Attempts(b)
  {
    if a == [] {
      assert a + b == b;
    } else {
      assert (a + b)[0] == a[0] && (a + b)[1..] == a[1..] + b;
      AttemptsAppend(a[1..], b);
    }
  }

  lemma AttemptsOne(e: Event)
    ensures Attempts([e]) == if e.Ended? then [e.transition] else []
  {
    assert [e][1..] == [];
  }

  lemma {:induction false} ReceivedIsTotal(events: seq<Event>)
    ensures Received(events) == TotalOf(Attempts(events))
  {
    if events != [] {
      ReceivedIsTotal(events[1..]);
      var first := if events[0].Ended? then [events[0].transition] else [];
      assert Attempts(events) == first + Attempts(events[1..]);
      assert Attempts(events)[|first|..] == Attempts(events[1..]);
    }
  }

  lemma LastAttempt(events: seq<Event>)
    requires |events| > 0 && events[|events| - 1].Ended?
    ensures var rows := Attempts(events); rows != [] && rows[|rows| - 1] == events[|events| - 1].transition
  {
    var n := |events| - 1;
    assert events == events[..n] + [events[n]];
    AttemptsAppend(events[..n], [events[n]]);
    AttemptsOne(events[n]);
  }

  lemma LossAttempts(x: Setup, n: nat, current: Option<ResumeState>, loss: Loss, got: nat)
    ensures Attempts(LossEvents(x, n, current, loss, got)) == [loss.terminal]
  {
    var began := [Began(RunningTransition(n, current))];
    var kept := if loss.kept.Some? then [KeptPartial(n, loss.kept.value, got)] else [];
    AttemptsAppend(began + kept, [Ended(loss.terminal)]);
    AttemptsAppend(began, kept);
    AttemptsOne(began[0]);
    AttemptsOne(Ended(loss.terminal));
    if kept != [] { AttemptsOne(kept[0]); }
  }

  lemma LossPaced(x: Setup, h: Head, loss: Loss, got: nat, p: Pausing, t: Transferred, rest: Transferred)
    requires 0 < h.n <= x.limits.maxAttempts && loss.terminal.attempt == h.n && loss.terminal.state != Running
    requires p == Pause(x, loss.terminal, loss.env) && (p.Sleep? ==> Paced(x, h.n + 1, rest))
    requires var events := LossEvents(x, h.n, h.current, loss, got);
      t == if p.Sleep? then Transferred(rest.end, events + rest.events, [p.nap] + rest.naps, rest.env)
           else Transferred(Returned(GivenUp(loss, p.TooLate?, got)), events, [], p.env)
    ensures Paced(x, h.n, t)
  {
    LossAttempts(x, h.n, h.current, loss, got);
    if p.Sleep? {
      AttemptsAppend(LossEvents(x, h.n, h.current, loss, got), rest.events);
      NumberedMore(h.n, loss.terminal, Attempts(rest.events));
      PauseFits(x, loss.terminal, loss.env);
      NapsFitMore(x.limits, x.deadline, loss.terminal, p.nap, Attempts(rest.events), rest.naps);
    }
  }

  lemma PauseFits(x: Setup, t: Transition, e: Env)
    requires t.attempt > 0 && Pause(x, t, e).Sleep?
    ensures NapAt(x.limits, x.deadline, t, Pause(x, t, e).nap)
  {
  }

  lemma TurnPaced(x: Setup, h: Head, a: AttemptEnd, t: Transferred, rest: Transferred)
    requires 0 < h.n <= x.limits.maxAttempts && Turns(x, h, a, t, rest) && (GoesOn(x, h, a) ==> Paced(x, h.n + 1, rest))
    ensures Paced(x, h.n, t)
  {
    var began := Began(RunningTransition(h.n, h.current));
    AttemptsOne(began);
    if a.verdict.Staged? {
      var ended := Ended(Terminal(h.n, Complete, Failure(Downloaded, false), a, a.status));
      AttemptsAppend([began], [ended]);
      AttemptsOne(ended);
      assert [began] + [ended] == [began, ended];
    } else if !Overruns(a, x.identity) {
      var loss := Lose(x, h.n, a, h.status);
      LossPaced(x, h, loss, h.got + a.received, Pause(x, loss.terminal, loss.env), t, rest);
    }
  }

  lemma {:induction false} FromPaced(x: Setup, h: Head, t: Transferred)
    requires IsFrom(x, h, t)
    ensures Paced(x, h.n, t)
    decreases x.limits.maxAttempts - h.n
  {
    var a, rest := Unfold(x, h, t);
    if GoesOn(x, h, a) { FromPaced(x, NextHead(x, h, a), rest); }
    TurnPaced(x, h, a, t, rest);
  }

  lemma TurnReceived(x: Setup, h: Head, a: AttemptEnd, t: Transferred, rest: Transferred)
    requires Turns(x, h, a, t, rest)
    requires GoesOn(x, h, a) && rest.end.Returned? ==> rest.end.result.received == h.got + a.received + Received(rest.events)
    ensures t.end.Returned? ==> t.end.result.received == h.got + Received(t.events)
  {
    var began := Began(RunningTransition(h.n, h.current));
    ReceivedOne(began);
    if a.verdict.Staged? {
      var ended := Ended(Terminal(h.n, Complete, Failure(Downloaded, false), a, a.status));
      ReceivedAppend([began], [ended]);
      ReceivedOne(ended);
      assert [began] + [ended] == [began, ended];
    } else if !Overruns(a, x.identity) {
      var loss := Lose(x, h.n, a, h.status);
      LossReceived(x, h.n, h.current, loss, h.got + a.received);
      ReceivedAppend(LossEvents(x, h.n, h.current, loss, h.got + a.received), rest.events);
    }
  }

  /** The engine's running total is the sum over the attempts. */
  lemma {:induction false} FromReceived(x: Setup, h: Head, t: Transferred)
    requires IsFrom(x, h, t)
    ensures t.end.Returned? ==> t.end.result.received == h.got + Received(t.events)
    decreases x.limits.maxAttempts - h.n
  {
    var a, rest := Unfold(x, h, t);
    if GoesOn(x, h, a) { FromReceived(x, NextHead(x, h, a), rest); }
    TurnReceived(x, h, a, t, rest);
  }

  /** The call of the engine at its first attempt. */
  function Call(nature: Nature, identity: string, scripts: nat -> Script, limits: Limits, e: Env): Setup {
    Setup(nature, identity, scripts, limits, nature.readings(e.tick) + limits.maxSeconds)
  }

  function FirstHead(resume: Option<ResumeState>, e: Env): Head {
    Head(1, resume, None, 0, e.(tick := e.tick + 1))
  }

  lemma CallIsFrom(nature: Nature, identity: string, scripts: nat -> Script, limits: Limits, resume: Option<ResumeState>, e: Env)
    requires LimitsOk(limits)
    ensures IsFrom(Call(nature, identity, scripts, limits, e), FirstHead(resume, e), TransferOf(nature, identity, scripts, limits, resume, e))
  {
  }

  /** Every transfer ends within the attempt limit; for each attempt its
      observers see one running transition, at most one partial and one terminal
      transition, numbered from one; received bytes are charged; a kept partial
      is the pending file gone on with or a new one, with the bytes of the start
      and those received since; and the result is what the last attempt left. */
  lemma TransferTells(nature: Nature, identity: string, scripts: nat -> Script, limits: Limits, resume: Option<ResumeState>,
                      e: Env)
    requires LimitsOk(limits) && PendingOk(resume) && (resume.Some? ==> resume.value.partial.name < e.files)
    ensures var t := TransferOf(nature, identity, scripts, limits, resume, e);
      && Tells(t.events, 1, resume, resume, 0, e.files) && Paced(Call(nature, identity, scripts, limits, e), 1, t)
      && t.env.used >= e.used + Received(t.events) && (e.used <= nature.maxBytes ==> t.env.used <= nature.maxBytes)
      && t.env.files >= e.files && KeptBelow(t.events, t.env.files) && (t.end.Returned? ==> Concludes(t.end.result, t.events))
  {
    var x, h, t := Call(nature, identity, scripts, limits, e), FirstHead(resume, e), TransferOf(nature, identity, scripts, limits, resume, e);
    CallIsFrom(nature, identity, scripts, limits, resume, e);
    FromRuns(x, h, t, resume, e.files);
    FromPaced(x, h, t);
  }

  /** The bytes a transfer reports are the sum over the attempts it recorded. */
  lemma TransferReceived(nature: Nature, identity: string, scripts: nat -> Script, limits: Limits, resume: Option<ResumeState>,
                         e: Env)
    requires LimitsOk(limits)
    ensures var t := TransferOf(nature, identity, scripts, limits, resume, e);
      t.end.Returned? ==> t.end.result.received == TotalOf(Attempts(t.events)) == Received(t.events)
  {
    var t := TransferOf(nature, identity, scripts, limits, resume, e);
    CallIsFrom(nature, identity, scripts, limits, resume, e);
    FromReceived(Call(nature, identity, scripts, limits, e), FirstHead(resume, e), t);
    ReceivedIsTotal(t.events);
  }

  lemma BackoffStep(limits: Limits, n: nat)
    requires LimitsOk(limits) && n > 0
    ensures Backoff(limits, n) <= Backoff(limits, n + 1)
  {
    var p := Pow2(n - 1);
    Pow2Positive(n - 1);
    Scale(limits.initialBackoff, p);
    assert Pow2(n) == 2 * p;
  }

  /** The delay the engine chooses is positive, never decreases and never
      exceeds its cap. */
  lemma {:induction false} BackoffGrows(limits: Limits, k: nat, n: nat)
    requires LimitsOk(limits) && 0 < k <= n
    ensures 0.0 < Backoff(limits, k) <= Backoff(limits, n) <= limits.maxBackoff
    decreases n
  {
    if k < n {
      BackoffGrows(limits, k, n - 1);
      BackoffStep(limits, n - 1);
    } else {
      Pow2Positive(n - 1);
      Scale(limits.initialBackoff, Pow2(n - 1));
    }
  }

  lemma Pow2Positive(n: nat)
    ensures Pow2(n) >= 1
  {
  }

  lemma Scale(x: real, n: nat)
    requires x > 0.0 && n >= 1
    ensures 0.0 < x * n as real <= x * (2 * n) as real
  {
    assert (2 * n) as real == n as real + n as real;
    assert x * (n as real) >= x * 1.0;
  }

  // ----- honest servers -----

  /** The server is honest in every attempt and the pending resume is too. */
  ghost predicate HonestWorld(named: Naming, identity: string, scripts: nat -> Script, resume: Option<ResumeState>) {
    && (forall n: nat {:trigger HonestScript(named, identity, scripts(n))} :: HonestScript(named, identity, scripts(n)))
    && HonestPending(named, resume)
  }

  /** The attempt that began with this transition met a retryable error response
      whose strong ETag is not that of the pending partial. */
  predicate RelabelledIn(scripts: nat -> Script, began: Transition) {
    && began.etag.Some? && scripts(began.attempt).answer.Answered?
    && var r := scripts(began.attempt).answer.response;
      && ClassifyStatus(r.status).Some? && ClassifyStatus(r.status).value.retryable
      && StrongEtag(r.etag) && r.etag != began.etag
  }

  predicate NoneRelabels(scripts: nat -> Script, events: seq<Event>) {
    forall i | 0 <= i < |events| && events[i].Began? :: !RelabelledIn(scripts, events[i].transition)
  }

  ghost predicate KeptHonest(named: Naming, identity: string, events: seq<Event>, sized: bool) {
    forall i | 0 <= i < |events| && events[i].KeptPartial? ::
      && HonestResume(named, events[i].resume) && events[i].resume.partial.identity == identity
      && (sized ==> HonestSize(named, events[i].resume))
  }

  /** Staged bytes come from one representation that the last attempt's response
      served, and are all of it when its size was announced. */
  ghost predicate StagedHonest(named: Naming, identity: string, scripts: nat -> Script, t: Transferred) {
    t.end.Returned? && t.end.result.staged.Some? ==>
      && |t.events| > 0 && t.events[|t.events| - 1].Ended?
      && var last := t.events[|t.events| - 1].transition;
         && OneRepresentation(named, identity, scripts(last.attempt), last.size, t.end.result.staged.value)
         && Genuine(named, identity, scripts(last.attempt), t.end.result.staged.value)
  }

  ghost predicate HonestRun(named: Naming, x: Setup, t: Transferred, sized: bool) {
    t.end.Returned? && KeptHonest(named, x.identity, t.events, sized) && StagedHonest(named, x.identity, x.scripts, t)
  }

  ghost predicate SizedPending(named: Naming, current: Option<ResumeState>) {
    current.Some? ==> HonestSize(named, current.value)
  }

  lemma AttemptOfHonest(named: Naming, x: Setup, h: Head, a: AttemptEnd)
    requires IsAttempt(x, h, a) && Trusted(named, x.identity, x.scripts(h.n), h.current)
    ensures HonestEnd(named, x.identity, x.scripts(h.n), a)
  {
    assert Shown(true);
    AttemptHonest(named, x, x.scripts(h.n), h.current, h.env);
  }

  lemma AttemptOfCompletes(x: Setup, h: Head, a: AttemptEnd)
    requires IsAttempt(x, h, a)
    ensures a.verdict.Staged? ==> CompletesWith(x.identity, x.scripts(h.n), h.current, a.left.size, a.status, a.received, a.verdict.bytes)
  {
    assert Shown(true);
    AttemptCompletes(x, x.scripts(h.n), h.current, h.env);
  }

  lemma AttemptOfGenuine(named: Naming, x: Setup, h: Head, a: AttemptEnd)
    requires IsAttempt(x, h, a) && HonestEnd(named, x.identity, x.scripts(h.n), a) && PendingOk(h.current)
    ensures a.verdict.Staged? ==> Genuine(named, x.identity, x.scripts(h.n), a.verdict.bytes)
  {
    AttemptOfCompletes(x, h, a);
    if a.verdict.Staged? {
      CompletionGenuine(named, x.identity, x.scripts(h.n), h.current, a.left.size, a.status, a.received, a.verdict.bytes);
    }
  }

  /** A failed honest attempt does not escape, and what it keeps is honest. */
  lemma LossHonest(named: Naming, x: Setup, h: Head, a: AttemptEnd, sized: bool)
    requires h.n > 0 && HonestEnd(named, x.identity, x.scripts(h.n), a) && a.verdict.Failed? && Leaves(x, h.current, h.env, a)
    requires sized ==> SizedPending(named, h.current)
    ensures !Overruns(a, x.identity)
    ensures var kept := Lose(x, h.n, a, h.status).kept;
      HonestPending(named, kept) && (sized ==> SizedPending(named, kept)) && (kept.Some? ==> kept.value.partial.identity == x.identity)
  {
    SalvageHonest(named, x.identity, a.left, a.verdict.failure.retryable);
  }

  lemma TurnHonest(named: Naming, x: Setup, h: Head, a: AttemptEnd, t: Transferred, rest: Transferred, sized: bool)
    requires Turns(x, h, a, t, rest) && HonestEnd(named, x.identity, x.scripts(h.n), a) && Leaves(x, h.current, h.env, a)
    requires a.verdict.Staged? ==> Genuine(named, x.identity, x.scripts(h.n), a.verdict.bytes)
    requires sized ==> SizedPending(named, h.current)
    requires GoesOn(x, h, a) ==> HonestRun(named, x, rest, sized) && (rest.end.result.staged.Some? ==> |rest.events| > 0)
    ensures HonestRun(named, x, t, sized)
  {
    if a.verdict.Failed? {
      LossHonest(named, x, h, a, sized);
      var own := LossEvents(x, h.n, h.current, Lose(x, h.n, a, h.status), h.got + a.received);
      if GoesOn(x, h, a) {
        assert forall i | |own| <= i < |t.events| :: t.events[i] == rest.events[i - |own|];
      }
    }
  }

  lemma RestRelabelsNone(scripts: nat -> Script, own: seq<Event>, rest: seq<Event>)
    requires NoneRelabels(scripts, own + rest)
    ensures NoneRelabels(scripts, rest)
  {
    assert forall i | 0 <= i < |rest| :: rest[i] == (own + rest)[|own| + i];
  }

  lemma {:induction false} FromHonest(named: Naming, x: Setup, h: Head, t: Transferred, sized: bool)
    requires IsFrom(x, h, t) && HonestWorld(named, x.identity, x.scripts, h.current) && NoneRelabels(x.scripts, t.events)
    requires sized ==> SizedPending(named, h.current)
    ensures HonestRun(named, x, t, sized)
    decreases x.limits.maxAttempts - h.n
  {
    var a, rest := Unfold(x, h, t);
    AttemptOfLeaves(x, h, a);
    assert t.events[0] == Began(RunningTransition(h.n, h.current));
    assert HonestScript(named, x.identity, x.scripts(h.n));
    AttemptOfHonest(named, x, h, a);
    AttemptOfGenuine(named, x, h, a);
    if GoesOn(x, h, a) {
      LossHonest(named, x, h, a, sized);
      RestRelabelsNone(x.scripts, LossEvents(x, h.n, h.current, Lose(x, h.n, a, h.status), h.got + a.received), rest.events);
      FromHonest(named, x, NextHead(x, h, a), rest, sized);
    }
    TurnHonest(named, x, h, a, t, rest, sized);
  }

  /** With honest servers that never relabel the pending partial, a transfer
      never escapes, every partial it keeps is a beginning of the representation
      its ETag names, and what it stages is of one representation. */
  lemma TransferHonest(named: Naming, nature: Nature, identity: string, scripts: nat -> Script, limits: Limits,
                       resume: Option<ResumeState>, e: Env)
    requires LimitsOk(limits) && HonestWorld(named, identity, scripts, resume)
    requires NoneRelabels(scripts, TransferOf(nature, identity, scripts, limits, resume, e).events)
    ensures HonestRun(named, Call(nature, identity, scripts, limits, e), TransferOf(nature, identity, scripts, limits, resume, e),
                      SizedPending(named, resume))
  {
    CallIsFrom(nature, identity, scripts, limits, resume, e);
    FromHonest(named, Call(nature, identity, scripts, limits, e), FirstHead(resume, e),
               TransferOf(nature, identity, scripts, limits, resume, e), SizedPending(named, resume));
  }

  // ----- what any completed transfer stages -----

  /** The partial pending in the last attempt: the one the transfer started
      from, or the one kept in the attempt before. */
  function PendingAtEnd(events: seq<Event>, start: Option<ResumeState>): Option<ResumeState> {
    if |events| <= 2 then start
    else if |events| >= 4 && events[|events| - 4].KeptPartial? then Some(events[|events| - 4].resume) else None
  }

  ghost predicate Completes(x: Setup, t: Transferred, start: Option<ResumeState>) {
    t.end.Returned? && t.end.result.staged.Some? ==>
      && (|t.events| == 2 || |t.events| >= 4) && t.events[|t.events| - 1].Ended?
      && var last := t.events[|t.events| - 1].transition;
         && last.state == Complete
         && CompletesWith(x.identity, x.scripts(last.attempt), PendingAtEnd(t.events, start), last.size, last.status, last.received,
                          t.end.result.staged.value)
  }

  lemma LossCompletes(x: Setup, n: nat, current: Option<ResumeState>, loss: Loss, got: nat, t: Transferred, rest: Transferred)
    requires Completes(x, rest, loss.kept) && t.end == rest.end && t.events == LossEvents(x, n, current, loss, got) + rest.events
    ensures Completes(x, t, current)
  {
    if t.end.Returned? && t.end.result.staged.Some? {
      var own := LossEvents(x, n, current, loss, got);
      assert forall i | |own| <= i < |t.events| :: t.events[i] == rest.events[i - |own|];
      assert forall i | 0 <= i < |own| :: t.events[i] == own[i];
      assert PendingAtEnd(t.events, current) == PendingAtEnd(rest.events, loss.kept);
    }
  }

  lemma {:induction false} FromCompletes(x: Setup, h: Head, t: Transferred)
    requires IsFrom(x, h, t)
    ensures Completes(x, t, h.current)
    decreases x.limits.maxAttempts - h.n
  {
    var a, rest := Unfold(x, h, t);
    AttemptOfCompletes(x, h, a);
    if GoesOn(x, h, a) {
      FromCompletes(x, NextHead(x, h, a), rest);
      LossCompletes(x, h.n, h.current, Lose(x, h.n, a, h.status), h.got + a.received, t, rest);
    }
  }

  /** Whatever the servers are, a completed transfer stages the body of its last
      response, after the pending partial if that is a 206 for its ETag. */
  lemma TransferCompletes(nature: Nature, identity: string, scripts: nat -> Script, limits: Limits, resume: Option<ResumeState>,
                          e: Env)
    requires LimitsOk(limits)
    ensures Completes(Call(nature, identity, scripts, limits, e), TransferOf(nature, identity, scripts, limits, resume, e), resume)
  {
    CallIsFrom(nature, identity, scripts, limits, resume, e);
    FromCompletes(Call(nature, identity, scripts, limits, e), FirstHead(resume, e), TransferOf(nature, identity, scripts, limits, resume, e));
  }

  // ----- the undisturbed first attempt -----

  /** Nothing disturbs the first attempt, and lengths are as announced. */
  ghost predicate Undisturbed(x: Setup, script: Script, resume: Option<ResumeState>, e: Env, whole: Bytes) {
    && Streams(x, script, resume, e)
    && var r, plan := script.answer.response, PlanFor(x, script, resume, e).plan;
      && whole == plan.file.bytes + BodyBytes(r.body)
      && NotClosed(script, r, plan, |BodyBytes(r.body)|, |whole|).None?
  }

  /** Then it stages the pending bytes and the body. */
  lemma TransferStages(nature: Nature, identity: string, scripts: nat -> Script, limits: Limits, resume: Option<ResumeState>,
                       e: Env, whole: Bytes)
    requires LimitsOk(limits)
    requires Undisturbed(Call(nature, identity, scripts, limits, e), scripts(1), resume, FirstHead(resume, e).env, whole)
    ensures var t := TransferOf(nature, identity, scripts, limits, resume, e);
      t.end.Returned? && t.end.result.staged == Some(whole) && |Attempts(t.events)| == 1
  {
    var x, h, t := Call(nature, identity, scripts, limits, e), FirstHead(resume, e), TransferOf(nature, identity, scripts, limits, resume, e);
    CallIsFrom(nature, identity, scripts, limits, resume, e);
    FromPaced(x, h, t);
    var a, rest := Unfold(x, h, t);
    AttemptOfStages(x, h, a);
  }

  lemma AttemptOfStages(x: Setup, h: Head, a: AttemptEnd)
    requires IsAttempt(x, h, a) && Streams(x, x.scripts(h.n), h.current, h.env)
    ensures var r, plan := x.scripts(h.n).answer.response, PlanFor(x, x.scripts(h.n), h.current, h.env).plan;
      var whole := plan.file.bytes + BodyBytes(r.body);
      NotClosed(x.scripts(h.n), r, plan, |BodyBytes(r.body)|, |whole|).None? ==> a.verdict == Staged(whole)
    ensures PendingOk(h.current) ==> (Overruns(a, x.identity) <==> Overlong(x.scripts(h.n).answer.response))
  {
    assert Shown(true);
    StagesExactly(x, x.scripts(h.n), h.current, h.env);
    if PendingOk(h.current) { EscapesUndisturbed(x, x.scripts(h.n), h.current, h.env); }
  }

  // ----- the escaping ValueError -----

  ghost predicate SomeOverlong(scripts: nat -> Script, from: nat, upTo: nat) {
    exists n: nat :: from <= n <= upTo && scripts(n).answer.Answered? && Overlong(scripts(n).answer.response)
  }

  lemma AttemptOfEscapes(x: Setup, h: Head, a: AttemptEnd)
    requires IsAttempt(x, h, a) && PendingOk(h.current) && Overruns(a, x.identity)
    ensures x.scripts(h.n).answer.Answered? && Overlong(x.scripts(h.n).answer.response)
  {
    assert Shown(true);
    EscapeNeedsOverlong(x, x.scripts(h.n), h.current, h.env);
  }

  lemma {:induction false} FromEscapes(x: Setup, h: Head, t: Transferred)
    requires IsFrom(x, h, t) && PendingOk(h.current) && t.end.RaisedValueError?
    ensures SomeOverlong(x.scripts, h.n, x.limits.maxAttempts)
    decreases x.limits.maxAttempts - h.n
  {
    var a, rest := Unfold(x, h, t);
    if GoesOn(x, h, a) {
      FromEscapes(x, NextHead(x, h, a), rest);
    } else {
      AttemptOfEscapes(x, h, a);
    }
  }

  /** A transfer ends in a ValueError only if some response is overlong, and an
      undisturbed first attempt does exactly if its response is. */
  lemma TransferEscapes(nature: Nature, identity: string, scripts: nat -> Script, limits: Limits, resume: Option<ResumeState>,
                        e: Env)
    requires LimitsOk(limits) && PendingOk(resume)
    ensures var t := TransferOf(nature, identity, scripts, limits, resume, e);
      && (t.end.RaisedValueError? ==> SomeOverlong(scripts, 1, limits.maxAttempts))
      && (Streams(Call(nature, identity, scripts, limits, e), scripts(1), resume, FirstHead(resume, e).env) ==>
            (t.end.RaisedValueError? && Attempts(t.events) == [] <==> Overlong(scripts(1).answer.response)))
  {
    var x, h, t := Call(nature, identity, scripts, limits, e), FirstHead(resume, e), TransferOf(nature, identity, scripts, limits, resume, e);
    CallIsFrom(nature, identity, scripts, limits, resume, e);
    if t.end.RaisedValueError? { FromEscapes(x, h, t); }
    var a, rest := Unfold(x, h, t);
    if Streams(x, scripts(1), resume, h.env) {
      AttemptOfStages(x, h, a);
      if Overruns(a, identity) {
        AttemptsOne(Began(RunningTransition(1, resume)));
      } else if GoesOn(x, h, a) {
        LossAttempts(x, 1, resume, Lose(x, 1, a, None), a.received);
        AttemptsAppend(LossEvents(x, 1, resume, Lose(x, 1, a, None), a.received), rest.events);
      }
    }
  }

  /** Such a server: two bytes where one was announced. */
  function TwoForOne(): Response {
    Response(200, Some("\"a\""), Length(1), NoRange, true, None, [Data([1, 2], None)])
  }

  lemma OverlongBodyEscapes(identity: string, e: Env, limits: Limits)
    requires LimitsOk(limits) && limits.maxItemBytes >= 2 && e.used == 0
    ensures TransferOf(Nature(_ => 0.0, _ => false, 2), identity, _ => Script(None, None, [], Answered(TwoForOne()), None), limits, None, e)
              .end.RaisedValueError?
  {
    var nature := Nature(_ => 0.0, _ => false, 2);
    var script := Script(None, None, [], Answered(TwoForOne()), None);
    var scripts: nat -> Script := _ => script;
    var x := Call(nature, identity, scripts, limits, e);
    assert BodyBytes(TwoForOne().body) == [1, 2] by {
      assert TwoForOne().body[1..] == [];
    }
    assert Quiet(x);
    RequestAnswers(x, script, 0, Opened(None, Control(x, FirstHead(None, e).env).1).1);
    RequestKeeps(x, script, 0, Opened(None, Control(x, FirstHead(None, e).env).1).1);
    assert Streams(x, script, None, FirstHead(None, e).env);
    TransferEscapes(nature, identity, scripts, limits, None, e);
  }

  // ----- the size an attempt row announces -----

  lemma RestartKeeps(x: Setup, script: Script, resume: ResumeState, e: Env, n: nat)
    requires Streams(x, script, Some(resume), e) && resume.partial.identity == x.identity
    requires var r := script.answer.response;
      r.status == 200 && r.length == Length(n) && StrongEtag(r.etag) && 0 < |BodyBytes(r.body)| < n
    ensures var r, a := script.answer.response, Attempt(x, script, Some(resume), e);
      && a.verdict.Failed? && !Overruns(a, x.identity) && KeptOf(a, x.identity, a.verdict.failure.retryable).Some?
      && var kept := KeptOf(a, x.identity, a.verdict.failure.retryable).value;
         kept.size == Some(n) && kept.etag == r.etag.value && kept.partial.bytes == BodyBytes(r.body)
  {
    StagesExactly(x, script, Some(resume), e);
    assert [] + BodyBytes(script.answer.response.body) == BodyBytes(script.answer.response.body);
  }

  /** A resumed attempt is restarted by a 200 whose body is cut short: the attempt
      row keeps announcing the old partial's size while the partial shown is of
      the new response, until the attempt's end is recorded. */
  lemma RestartAnnounces(nature: Nature, identity: string, scripts: nat -> Script, limits: Limits, resume: ResumeState,
                         e: Env, n: nat)
    requires LimitsOk(limits) && resume.partial.identity == identity
    requires Streams(Call(nature, identity, scripts, limits, e), scripts(1), Some(resume), FirstHead(Some(resume), e).env)
    requires var r := scripts(1).answer.response;
      r.status == 200 && r.length == Length(n) && StrongEtag(r.etag) && 0 < |BodyBytes(r.body)| < n
    ensures var events := TransferOf(nature, identity, scripts, limits, Some(resume), e).events;
      && |events| > 2 && events[0] == Began(RunningTransition(1, Some(resume))) && events[0].transition.size == resume.size
      && events[1].KeptPartial? && events[1].resume.size == Some(n)
      && events[1].resume.partial.bytes == BodyBytes(scripts(1).answer.response.body)
  {
    var x, h, t := Call(nature, identity, scripts, limits, e), FirstHead(Some(resume), e), TransferOf(nature, identity, scripts, limits, Some(resume), e);
    CallIsFrom(nature, identity, scripts, limits, Some(resume), e);
    RestartKeeps(x, scripts(1), resume, h.env, n);
    var a, rest := Unfold(x, h, t);
    assert a == Attempt(x, scripts(1), Some(resume), h.env) by { assert Shown(true); }
    var own := LossEvents(x, 1, Some(resume), Lose(x, 1, a, None), a.received);
    assert |own| == 3 && own[0] == t.events[0] && own[1] == t.events[1];
  }

  // ----- why a transfer gives up -----

  /** The reasons not to make another attempt. */
  ghost predicate Reason(x: Setup, r: Result, last: Transition) {
    || !last.retryable || last.outcome == Some(BudgetExhausted) || last.attempt == x.limits.maxAttempts
    || (r.outcome == TimedOut && r.retryable && last.attempt > 0 && exists k: nat :: x.nature.readings(k) + DelayAfter(x.limits, last) >= x.deadline)
  }

  /** The failure recorded is the failure that happened. */
  lemma LossReason(x: Setup, h: Head, a: AttemptEnd)
    requires Quiet(x) && 0 < h.n <= x.limits.maxAttempts && a.verdict.Failed? && !Overruns(a, x.identity) && !GoesOn(x, h, a)
    ensures var loss := Lose(x, h.n, a, h.status);
      loss.settled == a.verdict.failure && Reason(x, GivenUp(loss, Pause(x, loss.terminal, loss.env).TooLate?, h.got + a.received), loss.terminal)
  {
    var loss := Lose(x, h.n, a, h.status);
    if Pause(x, loss.terminal, loss.env).TooLate? {
      assert x.nature.readings(loss.env.tick + 1) + DelayAfter(x.limits, loss.terminal) >= x.deadline;
    }
  }

  lemma {:induction false} FromGivesUp(x: Setup, h: Head, t: Transferred)
    requires IsFrom(x, h, t) && Quiet(x) && t.end.Returned? && t.end.result.staged.None?
    ensures |t.events| > 0 && t.events[|t.events| - 1].Ended? && Reason(x, t.end.result, t.events[|t.events| - 1].transition)
    decreases x.limits.maxAttempts - h.n
  {
    var a, rest := Unfold(x, h, t);
    if GoesOn(x, h, a) {
      FromGivesUp(x, NextHead(x, h, a), rest);
    } else if a.verdict.Failed? && !Overruns(a, x.identity) {
      LossReason(x, h, a);
    }
  }

  /** When nobody cancels and the deadline stays ahead, a transfer that returns
      without the file stopped at a failure that is not retryable, at an
      exhausted budget, at its last attempt, or before a sleep that would have
      reached the deadline, which it reports as a timeout. */
  lemma TransferGivesUp(nature: Nature, identity: string, scripts: nat -> Script, limits: Limits, resume: Option<ResumeState>,
                        e: Env)
    requires LimitsOk(limits) && Quiet(Call(nature, identity, scripts, limits, e))
    ensures var t := TransferOf(nature, identity, scripts, limits, resume, e);
      t.end.Returned? && t.end.result.staged.None? ==>
        && |t.events| > 0 && t.events[|t.events| - 1].Ended?
        && Reason(Call(nature, identity, scripts, limits, e), t.end.result, t.events[|t.events| - 1].transition)
  {
    var x, h, t := Call(nature, identity, scripts, limits, e), FirstHead(resume, e), TransferOf(nature, identity, scripts, limits, resume, e);
    CallIsFrom(nature, identity, scripts, limits, resume, e);
    if t.end.Returned? && t.end.result.staged.None? { FromGivesUp(x, h, t); }
  }
}

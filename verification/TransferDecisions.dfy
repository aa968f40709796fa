/** What the first attempt of a transfer decides, what interrupts it, and what
    every attempt's row says: the theorems about whole transfers that spell the
    decision table out. */
module TransferDecisions {

  import opened Basics
  import opened TransferProtocol
  import opened TransferSpec
  import opened TransferLoop
  import opened TransferProperties
  import opened TransferResults
  import opened TransferTable

  // ----- the first attempt of a transfer -----

  lemma AttemptLost(x: Setup, h: Head, t: Transferred, outcome: Outcome, retryable: bool)
    requires Quiet(x) && IsFrom(x, h, t)
    requires FailsAtOnce(x, h.current, h.env, Attempt(x, x.scripts(h.n), h.current, h.env), outcome, retryable)
    ensures var a := Attempt(x, x.scripts(h.n), h.current, h.env);
      Loses(x, h.n, t, outcome, retryable, LastStatus(a, h.status), 0, a.retryAfter)
  {
    hide Attempt, Overruns, Quiet, Loses;
    LostLoses(x, h, Attempt(x, x.scripts(h.n), h.current, h.env), t);
  }

  /** The status of the first answer decides: 408, 425, 429 and 500 to 599 are
      tried again, and every other status outside 200 to 299 ends the transfer
      with its own outcome. */
  lemma StatusDecides(nature: Nature, identity: string, scripts: nat -> Script, limits: Limits, resume: Option<ResumeState>,
                      e: Env, r: Response, outcome: Outcome, retryable: bool)
    requires LimitsOk(limits) && PendingOk(resume) && Quiet(Call(nature, identity, scripts, limits, e))
    requires Gets(scripts(1), limits, resume, r) && StatusMeans(r.status, outcome, retryable)
    ensures var x, t := Call(nature, identity, scripts, limits, e), TransferOf(nature, identity, scripts, limits, resume, e);
      Loses(x, 1, t, outcome, retryable, Some(r.status), 0, r.retryAfter) && RowShows(t, |scripts(1).hops|, None, r.etag)
  {
    hide Attempt, Overruns, Quiet, Gets, StatusMeans, From, Wait;
    RowIsEnd(Call(nature, identity, scripts, limits, e), FirstHead(resume, e), TransferOf(nature, identity, scripts, limits, resume, e));
    var x, h := Call(nature, identity, scripts, limits, e), FirstHead(resume, e);
    CallIsFrom(nature, identity, scripts, limits, resume, e);
    BadStatus(x, scripts(1), resume, h.env, r, outcome, retryable);
    AttemptLost(x, h, TransferOf(nature, identity, scripts, limits, resume, e), outcome, retryable);
  }

  /** With a second attempt allowed and the deadline far enough, the engine
      sleeps after such an answer and tries again. */
  lemma RetriedStatus(nature: Nature, identity: string, scripts: nat -> Script, limits: Limits, resume: Option<ResumeState>,
                      e: Env, r: Response)
    requires LimitsOk(limits) && PendingOk(resume) && Quiet(Call(nature, identity, scripts, limits, e))
    requires Gets(scripts(1), limits, resume, r)
    requires r.status in {408, 425, 429} || 500 <= r.status <= 599
    requires var delay := Wait(limits, 1, r.retryAfter);
      limits.maxAttempts >= 2 && forall k: nat :: nature.readings(k) + delay < nature.readings(e.tick) + limits.maxSeconds
    ensures var t := TransferOf(nature, identity, scripts, limits, resume, e);
      && SleepsThenBegins(t, 1, Wait(limits, 1, r.retryAfter), nature.readings(e.tick) + limits.maxSeconds)
      && Recorded(t, 1, if r.status == 429 then RateLimited else TransientProvider, true, Some(r.status), 0)
  {
    StatusDecides(nature, identity, scripts, limits, resume, e, r, if r.status == 429 then RateLimited else TransientProvider, true);
  }

  /** Any other status outside 200 to 299 ends the transfer at once. */
  lemma FinalStatus(nature: Nature, identity: string, scripts: nat -> Script, limits: Limits, resume: Option<ResumeState>,
                    e: Env, r: Response)
    requires LimitsOk(limits) && PendingOk(resume) && Quiet(Call(nature, identity, scripts, limits, e))
    requires Gets(scripts(1), limits, resume, r)
    requires !(200 <= r.status <= 299) && r.status !in {408, 425, 429} && !(500 <= r.status <= 599)
    ensures var t := TransferOf(nature, identity, scripts, limits, resume, e);
      var outcome := if r.status == 401 then AuthenticationRequired else if r.status == 403 then AuthorizationDenied
                     else if r.status == 404 || r.status == 410 then Unavailable else InvalidContent;
      Ends(t, outcome, false) && Recorded(t, 1, outcome, false, Some(r.status), 0) && t.end.result.resume.None?
  {
    var outcome := if r.status == 401 then AuthenticationRequired else if r.status == 403 then AuthorizationDenied
                   else if r.status == 404 || r.status == 410 then Unavailable else InvalidContent;
    StatusDecides(nature, identity, scripts, limits, resume, e, r, outcome, false);
    CallIsFrom(nature, identity, scripts, limits, resume, e);
    NotKept(Call(nature, identity, scripts, limits, e), FirstHead(resume, e), TransferOf(nature, identity, scripts, limits, resume, e));
  }

  /** A transfer that ends returns the partial its last events show. */
  lemma NotKept(x: Setup, h: Head, t: Transferred)
    requires IsFrom(x, h, t) && t.naps == [] && t.end.Returned? && |t.events| >= 2 && !t.events[1].KeptPartial?
    ensures t.end.result.resume.None?
  {
    var a, rest := Unfold(x, h, t);
    if Lost(x, h, a) { LossShape(x, h.n, h.current, Lose(x, h.n, a, h.status), h.got + a.received); }
  }

  /** The fault that keeps the first attempt from an answer decides. */
  lemma FaultDecides(nature: Nature, identity: string, scripts: nat -> Script, limits: Limits, resume: Option<ResumeState>,
                     e: Env, f: Fault, outcome: Outcome, retryable: bool)
    requires LimitsOk(limits) && PendingOk(resume) && Quiet(Call(nature, identity, scripts, limits, e)) && Means(f, outcome, retryable)
    requires var script := scripts(1);
      || script.openFault == Some(f)
      || (script.openFault.None? && script.credentialFault == Some(f) && (resume.Some? ==> |resume.value.partial.bytes| <= limits.maxItemBytes))
      || (Sends(script, limits, resume) && |script.hops| <= limits.maxRedirects
          && (forall i | 0 <= i < |script.hops| :: script.hops[i]) && script.answer == Silent(f))
    ensures var x, t := Call(nature, identity, scripts, limits, e), TransferOf(nature, identity, scripts, limits, resume, e);
      Loses(x, 1, t, outcome, retryable, None, 0, None)
  {
    hide Attempt, Overruns, Quiet, Loses, From, Means;
    var x, h := Call(nature, identity, scripts, limits, e), FirstHead(resume, e);
    CallIsFrom(nature, identity, scripts, limits, resume, e);
    NeverGets(x, scripts(1), resume, h.env, f, outcome, retryable);
    AttemptLost(x, h, TransferOf(nature, identity, scripts, limits, resume, e), outcome, retryable);
  }

  /** A pending partial larger than the item limit is not opened. */
  lemma PartialTooLarge(nature: Nature, identity: string, scripts: nat -> Script, limits: Limits, pending: ResumeState, e: Env)
    requires LimitsOk(limits) && Quiet(Call(nature, identity, scripts, limits, e)) && scripts(1).openFault.None?
    requires |pending.partial.bytes| > limits.maxItemBytes
    ensures var x, t := Call(nature, identity, scripts, limits, e), TransferOf(nature, identity, scripts, limits, Some(pending), e);
      Loses(x, 1, t, StorageFailure("limit_exceeded"), false, None, 0, None)
  {
    hide Attempt, Overruns, Quiet, Loses, From;
    var x, h := Call(nature, identity, scripts, limits, e), FirstHead(Some(pending), e);
    CallIsFrom(nature, identity, scripts, limits, Some(pending), e);
    OversizedPartial(x, scripts(1), Some(pending), h.env);
    AttemptLost(x, h, TransferOf(nature, identity, scripts, limits, Some(pending), e), StorageFailure("limit_exceeded"), false);
  }

  /** A redirect too many, or one to a host that is not allowed. */
  lemma RedirectDecides(nature: Nature, identity: string, scripts: nat -> Script, limits: Limits, resume: Option<ResumeState>,
                        e: Env)
    requires LimitsOk(limits) && PendingOk(resume) && Quiet(Call(nature, identity, scripts, limits, e)) && Sends(scripts(1), limits, resume)
    requires |scripts(1).hops| > limits.maxRedirects || exists i :: 0 <= i < |scripts(1).hops| && !scripts(1).hops[i]
    ensures var x, t := Call(nature, identity, scripts, limits, e), TransferOf(nature, identity, scripts, limits, resume, e);
      Loses(x, 1, t, PolicyFailure, false, None, 0, None)
  {
    hide Attempt, Overruns, Quiet, Loses, From, Sends;
    var x, h := Call(nature, identity, scripts, limits, e), FirstHead(resume, e);
    CallIsFrom(nature, identity, scripts, limits, resume, e);
    BadRedirect(x, scripts(1), resume, h.env);
    AttemptLost(x, h, TransferOf(nature, identity, scripts, limits, resume, e), PolicyFailure, false);
  }

  lemma UsedAtEnd(x: Setup, h: Head, t: Transferred)
    requires Quiet(x) && IsFrom(x, h, t) && t.naps == []
    ensures t.env.used == Attempt(x, x.scripts(h.n), h.current, h.env).env.used
  {
    hide Attempt, Overruns;
    var a, rest := Unfold(x, h, t);
    SameAttempt(x, h, a, Attempt(x, x.scripts(h.n), h.current, h.env));
    if Lost(x, h, a) {
      var loss := Lose(x, h.n, a, h.status);
      LostPauses(x, loss.terminal, loss.env);
    }
  }

  /** Without a pending partial only a 200 is received, and it has to have a
      well-formed length and an accepted type. */
  lemma NewFileRefused(nature: Nature, identity: string, scripts: nat -> Script, limits: Limits, resume: Option<ResumeState>,
                       e: Env, r: Response)
    requires LimitsOk(limits) && PendingOk(resume) && Quiet(Call(nature, identity, scripts, limits, e))
    requires Gets(scripts(1), limits, resume, r)
    requires 200 <= r.status <= 299 && (r.status != 200 || r.length.BadLength? || !r.accepted)
    requires resume.None? || resume.value.partial.identity != identity
    ensures var t := TransferOf(nature, identity, scripts, limits, resume, e);
      Ends(t, InvalidContent, false) && Recorded(t, 1, InvalidContent, false, Some(r.status), 0) && t.env.used == e.used
  {
    hide Attempt, Overruns, Quiet, From, Gets, PendingOk;
    var x, h, t := Call(nature, identity, scripts, limits, e), FirstHead(resume, e), TransferOf(nature, identity, scripts, limits, resume, e);
    CallIsFrom(nature, identity, scripts, limits, resume, e);
    NotAFile(x, scripts(1), resume, h.env, r);
    AttemptLost(x, h, t, InvalidContent, false);
    UsedAtEnd(x, h, t);
  }

  /** A pending partial is continued by no other answer than a 206 with its
      ETag, from its end to the end of what it was announced to be; any other
      success but a 200 means that the source has changed. */
  lemma ResumeRefused(nature: Nature, identity: string, scripts: nat -> Script, limits: Limits, pending: ResumeState, e: Env,
                      r: Response)
    requires LimitsOk(limits) && ConstructedResume(pending) && pending.partial.identity == identity
    requires Quiet(Call(nature, identity, scripts, limits, e)) && Gets(scripts(1), limits, Some(pending), r) && 201 <= r.status <= 299
    requires r.status == 206 ==> forall total: nat {:trigger Continued(r, pending, total)} :: !Continued(r, pending, total)
    ensures var t := TransferOf(nature, identity, scripts, limits, Some(pending), e);
      var outcome := if r.status == 206 && InvalidLength(r, pending) then InvalidContent else SourceChanged;
      Ends(t, outcome, false) && Recorded(t, 1, outcome, false, Some(r.status), 0) && t.end.result.resume.None? && t.env.used == e.used
  {
    hide Attempt, Overruns, Quiet, From, Gets, Continued, InvalidLength, ConstructedResume;
    var x, h := Call(nature, identity, scripts, limits, e), FirstHead(Some(pending), e);
    var t := TransferOf(nature, identity, scripts, limits, Some(pending), e);
    CallIsFrom(nature, identity, scripts, limits, Some(pending), e);
    NotContinued(x, scripts(1), pending, h.env, r);
    AttemptLost(x, h, t, if r.status == 206 && InvalidLength(r, pending) then InvalidContent else SourceChanged, false);
    UsedAtEnd(x, h, t);
    NotKept(x, h, t);
  }

  /** An announced size over the item limit, or over what is left of the budget,
      ends the transfer before anything is received or charged. */
  lemma SizeRefused(nature: Nature, identity: string, scripts: nat -> Script, limits: Limits, resume: Option<ResumeState>,
                    e: Env, r: Response, base: Bytes, size: nat)
    requires LimitsOk(limits) && PendingOk(resume) && Quiet(Call(nature, identity, scripts, limits, e)) && e.used <= nature.maxBytes
    requires Gets(scripts(1), limits, resume, r) && r.accepted && Admitted(identity, resume, r, base, Some(size))
    requires size > limits.maxItemBytes || e.used + size - |base| > nature.maxBytes
    ensures var t := TransferOf(nature, identity, scripts, limits, resume, e);
      && (size > limits.maxItemBytes ==> Ends(t, ResponseTooLarge, false) && Recorded(t, 1, ResponseTooLarge, false, Some(r.status), 0))
      && (size <= limits.maxItemBytes ==> Ends(t, BudgetExhausted, true) && Recorded(t, 1, BudgetExhausted, true, Some(r.status), 0))
      && t.env.used == e.used
  {
    hide Attempt, Overruns, Quiet, From, Gets, Admitted, PendingOk;
    var x, h, t := Call(nature, identity, scripts, limits, e), FirstHead(resume, e), TransferOf(nature, identity, scripts, limits, resume, e);
    CallIsFrom(nature, identity, scripts, limits, resume, e);
    NoRoomForIt(x, scripts(1), resume, h.env, r, base, size);
    AttemptLost(x, h, t, if size > limits.maxItemBytes then ResponseTooLarge else BudgetExhausted, size <= limits.maxItemBytes);
    UsedAtEnd(x, h, t);
  }

  lemma TypeRefused(nature: Nature, identity: string, scripts: nat -> Script, limits: Limits, resume: Option<ResumeState>,
                    e: Env, r: Response, base: Bytes, size: Option<nat>)
    requires LimitsOk(limits) && PendingOk(resume) && Quiet(Call(nature, identity, scripts, limits, e))
    requires Gets(scripts(1), limits, resume, r) && !r.accepted && Admitted(identity, resume, r, base, size)
    ensures var t := TransferOf(nature, identity, scripts, limits, resume, e);
      Ends(t, InvalidContent, false) && Recorded(t, 1, InvalidContent, false, Some(r.status), 0) && t.env.used == e.used
  {
    hide Attempt, Overruns, Quiet, From, Gets, Admitted, PendingOk;
    var x, h, t := Call(nature, identity, scripts, limits, e), FirstHead(resume, e), TransferOf(nature, identity, scripts, limits, resume, e);
    CallIsFrom(nature, identity, scripts, limits, resume, e);
    NotAccepted(x, scripts(1), resume, h.env, r, base, size);
    AttemptLost(x, h, t, InvalidContent, false);
    UsedAtEnd(x, h, t);
  }

  // ----- bodies cut short or of another length -----

  /** The bytes of a failed attempt are kept for the next one exactly when it is
      retryable, there are any and the response has a strong ETag. */
  ghost predicate KeepsBytes(t: Transferred, n: nat, identity: string, r: Response, size: Option<nat>, bytes: Bytes,
                             received: nat, retryable: bool) {
    |t.events| >= 2 &&
    if retryable && bytes != [] && StrongEtag(r.etag) then
      exists name :: t.events[1] == KeptPartial(n, ResumeState(Partial(name, identity, bytes), r.etag.value, size), received)
    else !t.events[1].KeptPartial?
  }

  /** A received body failed: the constructor raises when it is longer than the
      size announced; else the bytes are kept or not. */
  ghost predicate BodyFails(x: Setup, t: Transferred, r: Response, size: Option<nat>, bytes: Bytes, received: nat,
                            outcome: Outcome, retryable: bool)
  {
    if retryable && bytes != [] && StrongEtag(r.etag) && size.Some? && size.value < |bytes| then t.end.RaisedValueError? && |t.events| == 1
    else
      && Loses(x, 1, t, outcome, retryable, Some(r.status), received, r.retryAfter)
      && KeepsBytes(t, 1, x.identity, r, size, bytes, received, retryable)
      && RowShows(t, |x.scripts(1).hops|, size, r.etag)
  }

  lemma BodyLost(x: Setup, h: Head, t: Transferred, r: Response, size: Option<nat>, bytes: Bytes, received: nat,
                 outcome: Outcome, retryable: bool)
    requires Quiet(x) && IsFrom(x, h, t) && h.n == 1 && h.got == 0 && outcome != Cancelled && Sane(Failure(outcome, retryable))
    requires var a := Attempt(x, x.scripts(1), h.current, h.env);
      && a.verdict == Failed(Failure(outcome, retryable)) && a.received == received && a.status == Some(r.status)
      && a.retryAfter == r.retryAfter && a.left.etag == r.etag && a.left.size == size && a.redirects == |x.scripts(1).hops|
      && a.left.session.Some? && a.left.session.value.bytes == bytes && (a.left.active.Some? ==> StrongEtag(r.etag))
    ensures BodyFails(x, t, r, size, bytes, received, outcome, retryable)
  {
    hide Attempt, Quiet, Wait, From, RowShows;
    RowIsEnd(x, h, t);
    var b, rest := Unfold(x, h, t);
    SameAttempt(x, h, b, Attempt(x, x.scripts(1), h.current, h.env));
    if !Overruns(b, x.identity) {
      LostLoses(x, h, b, t);
      LossShape(x, 1, h.current, Lose(x, 1, b, h.status), received);
    }
  }

  /** A body that is cut short: what came before is received, charged and kept,
      and what stopped it decides. */
  lemma BodyDecides(nature: Nature, identity: string, scripts: nat -> Script, limits: Limits, resume: Option<ResumeState>,
                    e: Env, r: Response, base: Bytes, size: Option<nat>, clean: seq<BodyEvent>, more: seq<BodyEvent>,
                    outcome: Outcome, retryable: bool, charged: nat)
    requires LimitsOk(limits) && PendingOk(resume) && Quiet(Call(nature, identity, scripts, limits, e))
    requires Gets(scripts(1), limits, resume, r) && Admitted(identity, resume, r, base, size) && r.accepted
    requires Fits(limits, nature.maxBytes, e.used, base, clean, size) && more != [] && r.body == clean + more
    requires Stops(limits, nature.maxBytes - e.used - |BodyBytes(clean)|, |base| + |BodyBytes(clean)|, more[0], outcome, retryable, charged)
    ensures var x, t := Call(nature, identity, scripts, limits, e), TransferOf(nature, identity, scripts, limits, resume, e);
      && BodyFails(x, t, r, size, base + BodyBytes(clean), |BodyBytes(clean)|, outcome, retryable)
      && (t.naps == [] ==> t.env.used == e.used + |BodyBytes(clean)| + charged)
  {
    hide Attempt, Overruns, Quiet, From, Gets, Fits, BodyFails;
    var x, h, t := Call(nature, identity, scripts, limits, e), FirstHead(resume, e), TransferOf(nature, identity, scripts, limits, resume, e);
    CallIsFrom(nature, identity, scripts, limits, resume, e);
    CutShort(x, scripts(1), resume, h.env, r, base, size, clean, more, outcome, retryable, charged);
    BodyLost(x, h, t, r, size, base + BodyBytes(clean), |BodyBytes(clean)|, outcome, retryable);
    if t.naps == [] { UsedAtEnd(x, h, t); }
  }

  /** A body of another length than announced means that the source has changed,
      and is tried again. */
  lemma LengthDecides(nature: Nature, identity: string, scripts: nat -> Script, limits: Limits, resume: Option<ResumeState>,
                      e: Env, r: Response, base: Bytes, size: Option<nat>)
    requires LimitsOk(limits) && PendingOk(resume) && Quiet(Call(nature, identity, scripts, limits, e))
    requires Gets(scripts(1), limits, resume, r) && Admitted(identity, resume, r, base, size) && r.accepted
    requires Fits(limits, nature.maxBytes, e.used, base, r.body, size)
    requires (r.length.Length? && r.length.value != |BodyBytes(r.body)|) || (size.Some? && size.value != |base| + |BodyBytes(r.body)|)
    ensures var x, t := Call(nature, identity, scripts, limits, e), TransferOf(nature, identity, scripts, limits, resume, e);
      BodyFails(x, t, r, size, base + BodyBytes(r.body), |BodyBytes(r.body)|, SourceChanged, true)
  {
    hide Attempt, Overruns, Quiet, From, Gets, Fits, BodyFails;
    var x, h, t := Call(nature, identity, scripts, limits, e), FirstHead(resume, e), TransferOf(nature, identity, scripts, limits, resume, e);
    CallIsFrom(nature, identity, scripts, limits, resume, e);
    ArrivedWhole(x, scripts(1), resume, h.env, r, base, size);
    BodyLost(x, h, t, r, size, base + BodyBytes(r.body), |BodyBytes(r.body)|, SourceChanged, true);
  }

  // ----- files -----

  /** A whole clean answer: it arrives, fits and has the announced length, and
      the file can be closed. */
  predicate CleanAnswer(script: Script, limits: Limits, budget: nat, used: nat, identity: string,
                        current: Option<ResumeState>, r: Response,
                        base: Bytes, size: Option<nat>)
  {
    && Gets(script, limits, current, r) && Admitted(identity, current, r, base, size) && r.accepted && script.finishFault.None?
    && Fits(limits, budget, used, base, r.body, size)
    && (r.length.Length? ==> r.length.value == |BodyBytes(r.body)|) && (size.Some? ==> size.value == |base| + |BodyBytes(r.body)|)
  }

  lemma HeadStages(x: Setup, h: Head, t: Transferred, r: Response, base: Bytes, size: Option<nat>)
    requires Quiet(x) && IsFrom(x, h, t)
    requires CleanAnswer(x.scripts(h.n), x.limits, x.nature.maxBytes, h.env.used, x.identity, h.current, r, base, size)
    ensures t.naps == [] && t.env.used == h.env.used + |BodyBytes(r.body)|
    ensures t.end == Returned(Result(Complete, Downloaded, false, h.got + |BodyBytes(r.body)|, Some(base + BodyBytes(r.body)), None, Some(r.status)))
  {
    hide Attempt, Quiet, From, Gets, Fits;
    var b, rest := Unfold(x, h, t);
    SameAttempt(x, h, b, Attempt(x, x.scripts(h.n), h.current, h.env));
    ArrivedWhole(x, x.scripts(h.n), h.current, h.env, r, base, size);
  }

  lemma StagedRow(x: Setup, h: Head, t: Transferred, r: Response, base: Bytes, size: Option<nat>)
    requires Quiet(x) && IsFrom(x, h, t)
    requires CleanAnswer(x.scripts(h.n), x.limits, x.nature.maxBytes, h.env.used, x.identity, h.current, r, base, size)
    ensures RowShows(t, |x.scripts(h.n).hops|, size, r.etag) && |Attempts(t.events)| == 1
    ensures var row := Attempts(t.events)[0];
      row.state == Complete && row.outcome == Some(Downloaded) && row.received == |BodyBytes(r.body)| && row.status == Some(r.status)
  {
    hide Attempt, Quiet, From, Gets, Fits;
    var a, rest := Unfold(x, h, t);
    SameAttempt(x, h, a, Attempt(x, x.scripts(h.n), h.current, h.env));
    ArrivedWhole(x, x.scripts(h.n), h.current, h.env, r, base, size);
    RowIsEnd(x, h, t);
    var began, ended := Began(RunningTransition(h.n, h.current)), Ended(Terminal(h.n, Complete, Failure(Downloaded, false), a, a.status));
    AttemptsOne(began);
    AttemptsAppend([began], [ended]);
    AttemptsOne(ended);
    assert [began] + [ended] == [began, ended];
  }

  /** A clean first answer is staged: the body of a 200, or the partial and the
      body of a 206 that continues it. Only the body is charged. */
  lemma AnswerStaged(nature: Nature, identity: string, scripts: nat -> Script, limits: Limits, resume: Option<ResumeState>,
                     e: Env, r: Response, base: Bytes, size: Option<nat>)
    requires LimitsOk(limits) && Quiet(Call(nature, identity, scripts, limits, e))
    requires CleanAnswer(scripts(1), limits, nature.maxBytes, e.used, identity, resume, r, base, size)
    ensures var t, body := TransferOf(nature, identity, scripts, limits, resume, e), BodyBytes(r.body);
      && t.end == Returned(Result(Complete, Downloaded, false, |body|, Some(base + body), None, Some(r.status)))
      && t.naps == [] && t.env.used == e.used + |body| && RowShows(t, |scripts(1).hops|, size, r.etag)
      && |Attempts(t.events)| == 1 && Attempts(t.events)[0].state == Complete && Attempts(t.events)[0].outcome == Some(Downloaded)
      && Attempts(t.events)[0].received == |body| && Attempts(t.events)[0].status == Some(r.status)
  {
    hide Quiet, CleanAnswer, From;
    var x, h, t := Call(nature, identity, scripts, limits, e), FirstHead(resume, e), TransferOf(nature, identity, scripts, limits, resume, e);
    StagedRow(x, h, t, r, base, size);
    CallIsFrom(nature, identity, scripts, limits, resume, e);
    HeadStages(x, h, t, r, base, size);
  }

  lemma GoesOnWith(x: Setup, h: Head, t: Transferred, outcome: Outcome) returns (rest: Transferred)
    requires Quiet(x) && IsFrom(x, h, t) && t.naps != []
    requires FailsAtOnce(x, h.current, h.env, Attempt(x, x.scripts(h.n), h.current, h.env), outcome, true)
    ensures var a := Attempt(x, x.scripts(h.n), h.current, h.env);
      && GoesOn(x, h, a) && IsFrom(x, NextHead(x, h, a), rest) && NextHead(x, h, a).env.used == h.env.used
      && NextHead(x, h, a).got == h.got && NextHead(x, h, a).n == h.n + 1
      && t.end == rest.end && |t.naps| == |rest.naps| + 1 && t.env == rest.env
  {
    hide Attempt, Overruns, From;
    var a;
    a, rest := Unfold(x, h, t);
    SameAttempt(x, h, a, Attempt(x, x.scripts(h.n), h.current, h.env));
    LostSettles(x, h, a);
    var loss := Lose(x, h.n, a, h.status);
    LostPauses(x, loss.terminal, loss.env);
  }

  /** A 200 replaces whatever partial is pending. */
  lemma CleanRestarts(script: Script, limits: Limits, budget: nat, used: nat, identity: string, current: Option<ResumeState>,
                      r: Response,
                      size: Option<nat>)
    requires r.status == 200 && CleanAnswer(script, limits, budget, used, identity, None, r, [], size)
    requires current.Some? ==> |current.value.partial.bytes| <= limits.maxItemBytes
    ensures CleanAnswer(script, limits, budget, used, identity, current, r, [], size)
  {
  }

  /** A 408, 425, 429 or 500 to 599 and then a clean 200: the second attempt
      completes with exactly its body. */
  lemma Recovers(nature: Nature, identity: string, scripts: nat -> Script, limits: Limits, resume: Option<ResumeState>,
                 e: Env, r: Response, next: Response, size: Option<nat>)
    requires LimitsOk(limits) && PendingOk(resume) && Quiet(Call(nature, identity, scripts, limits, e))
    requires Gets(scripts(1), limits, resume, r)
    requires r.status in {408, 425, 429} || 500 <= r.status <= 599
    requires var delay := Wait(limits, 1, r.retryAfter);
      limits.maxAttempts >= 2 && forall k: nat :: nature.readings(k) + delay < nature.readings(e.tick) + limits.maxSeconds
    requires next.status == 200 && CleanAnswer(scripts(2), limits, nature.maxBytes, e.used, identity, None, next, [], size)
    ensures var t, body := TransferOf(nature, identity, scripts, limits, resume, e), BodyBytes(next.body);
      && t.end == Returned(Result(Complete, Downloaded, false, |body|, Some(body), None, Some(200)))
      && |t.naps| == 1 && t.naps[0].delay == Wait(limits, 1, r.retryAfter) && t.env.used == e.used + |body|
  {
    hide Attempt, Overruns, Quiet, From, BodyBytes, Fits, FailsAtOnce, Lose, Pause, Wait;
    var x, h, t := Call(nature, identity, scripts, limits, e), FirstHead(resume, e), TransferOf(nature, identity, scripts, limits, resume, e);
    CallIsFrom(nature, identity, scripts, limits, resume, e);
    RetriedStatus(nature, identity, scripts, limits, resume, e, r);
    BadStatus(x, scripts(1), resume, h.env, r, if r.status == 429 then RateLimited else TransientProvider, true);
    var rest := GoesOnWith(x, h, t, if r.status == 429 then RateLimited else TransientProvider);
    var a := Attempt(x, scripts(1), resume, h.env);
    PendingWithin(x, h, r);
    CleanRestarts(scripts(2), limits, nature.maxBytes, e.used, identity, NextHead(x, h, a).current, next, size);
    HeadStages(x, NextHead(x, h, a), rest, next, [], size);
    assert [] + BodyBytes(next.body) == BodyBytes(next.body);
  }

  /** After an error status no more than the old partial is pending. */
  lemma PendingWithin(x: Setup, h: Head, r: Response)
    requires Quiet(x) && Gets(x.scripts(h.n), x.limits, h.current, r) && ClassifyStatus(r.status).Some? && h.n > 0
    ensures var a := Attempt(x, x.scripts(h.n), h.current, h.env);
      a.verdict.Failed? && var next := NextHead(x, h, a).current; next.Some? ==> |next.value.partial.bytes| <= x.limits.maxItemBytes
  {
    hide Pause;
    GetsHandled(x, x.scripts(h.n), h.current, h.env, r);
  }

  // ----- cancellation and the deadline -----

  /** The next checks of the control find nothing; from then on the transfer is
      cancelled, or else the deadline has passed. */
  ghost predicate StoppedAfter(x: Setup, e: Env, checks: nat, cancelled: bool) {
    && (forall k: nat {:trigger x.nature.cancels(k)} | k >= e.polls :: x.nature.cancels(k) <==> cancelled && k >= e.polls + checks)
    && (forall k: nat {:trigger x.nature.readings(k)} | k >= e.tick :: x.nature.readings(k) >= x.deadline <==> !cancelled && k >= e.tick + checks)
  }

  function Later(e: Env, checks: nat): Env {
    e.(polls := e.polls + checks, tick := e.tick + checks)
  }

  lemma CheckPasses(x: Setup, e: Env, checks: nat, cancelled: bool)
    requires StoppedAfter(x, e, checks, cancelled) && checks > 0
    ensures Control(x, e) == (None, Later(e, 1)) && StoppedAfter(x, Later(e, 1), checks - 1, cancelled)
  {
  }

  lemma ChunkPasses(x: Setup, more: Bytes, start: nat, e: Env, checks: nat, cancelled: bool) returns (e1: Env)
    requires StoppedAfter(x, e, checks, cancelled) && checks > 0
    requires start + |more| <= x.limits.maxItemBytes && e.used + |more| <= x.nature.maxBytes
    ensures Chunk(x, more, None, start, e) == (None, e1) && e1.used == e.used + |more| && StoppedAfter(x, e1, checks - 1, cancelled)
  {
    e1 := Later(e, 1).(used := e.used + |more|);
  }

  lemma CheckStops(x: Setup, next: BodyEvent, start: nat, e: Env, cancelled: bool)
    requires StoppedAfter(x, e, 0, cancelled) && next.Data?
    ensures var (stop, e1) := Chunk(x, next.bytes, next.writeFault, start, e);
      && stop == Some(Failure(if cancelled then Cancelled else TimedOut, true)) && e1.used == e.used && StoppedAfter(x, e1, 0, cancelled)
  {
  }

  lemma {:induction false} RequestChecks(x: Setup, script: Script, hop: nat, e: Env, checks: nat, cancelled: bool)
    requires hop <= |script.hops| <= x.limits.maxRedirects
    requires (forall i | 0 <= i < |script.hops| :: script.hops[i]) && script.answer.Answered?
    requires StoppedAfter(x, e, checks, cancelled)
    ensures var q := Request(x, script, hop, e);
      if checks > |script.hops| - hop then
        && q.response == Some(script.answer.response) && q.redirects == |script.hops|
        && q.env == Later(e, |script.hops| - hop + 1) && StoppedAfter(x, q.env, checks - (|script.hops| - hop + 1), cancelled)
      else q.response.None? && q.failure == Failure(if cancelled then Cancelled else TimedOut, true) && q.env.used == e.used
           && StoppedAfter(x, q.env, 0, cancelled)
    decreases |script.hops| - hop
  {
    if checks > 0 && hop < |script.hops| { RequestChecks(x, script, hop + 1, Later(e, 1), checks - 1, cancelled); }
  }

  lemma {:induction false} StreamChecks(x: Setup, clean: seq<BodyEvent>, more: seq<BodyEvent>, bytes: Bytes, received: nat,
                                        e: Env, cancelled: bool)
    requires StoppedAfter(x, e, |clean|, cancelled) && e.used <= x.nature.maxBytes && CleanBody(clean) && more != [] && more[0].Data?
    requires |bytes| + |BodyBytes(clean)| <= x.limits.maxItemBytes && e.used + |BodyBytes(clean)| <= x.nature.maxBytes
    ensures var s := StreamBody(x, clean + more, bytes, received, e);
      && s.stop == Some(Failure(if cancelled then Cancelled else TimedOut, true)) && StoppedAfter(x, s.env, 0, cancelled)
      && s.bytes == bytes + BodyBytes(clean) && s.received == received + |BodyBytes(clean)| && s.env.used == e.used + |BodyBytes(clean)|
    decreases |clean|
  {
    hide StoppedAfter, Chunk, BodyBytes, CleanBody;
    if clean == [] {
      EmptyFront(more, bytes);
      CheckStops(x, more[0], |bytes|, e, cancelled);
    } else {
      FrontChunk(clean, more, bytes);
      var first := clean[0].bytes;
      var e1 := ChunkPasses(x, first, |bytes|, e, |clean|, cancelled);
      StreamChecks(x, clean[1..], more, bytes + first, received + |first|, e1, cancelled);
    }
  }

  /** The attempt is stopped while the body arrives, after these chunks. */
  lemma StoppedInBody(x: Setup, script: Script, current: Option<ResumeState>, e: Env, r: Response, base: Bytes, size: Option<nat>,
                      clean: seq<BodyEvent>, more: seq<BodyEvent>, cancelled: bool)
    requires StoppedAfter(x, e, |script.hops| + 2 + |clean|, cancelled) && e.used <= x.nature.maxBytes
    requires Gets(script, x.limits, current, r) && Admitted(x.identity, current, r, base, size) && r.accepted
    requires Fits(x.limits, x.nature.maxBytes, e.used, base, clean, size) && more != [] && more[0].Data? && r.body == clean + more
    ensures var a := Attempt(x, script, current, e);
      && a.verdict == Failed(Failure(if cancelled then Cancelled else TimedOut, true)) && a.received == |BodyBytes(clean)|
      && a.status == Some(r.status) && a.env.used == e.used + |BodyBytes(clean)| && StoppedAfter(x, a.env, 0, cancelled)
      && a.retryAfter == r.retryAfter && a.left.etag == r.etag && a.left.size == size
      && a.left.session.Some? && a.left.session.value.bytes == base + BodyBytes(clean) && (a.left.active.Some? ==> r.status == 206)
  {
    hide StoppedAfter, StreamBody, NotClosed, Request, Fits;
    var active := Continues(current, x.identity);
    CheckPasses(x, e, |script.hops| + 2 + |clean|, cancelled);
    var (file, e2) := Opened(active, Later(e, 1));
    StoppedFiles(x, Later(e, 1), e2.files, |script.hops| + 1 + |clean|, cancelled);
    RequestChecks(x, script, 0, e2, |script.hops| + 1 + |clean|, cancelled);
    var q := Request(x, script, 0, e2);
    var a := Attempt(x, script, current, e);
    assert Handled(x, script, current, r, file, q.env, a) by { hide HandleResponse; }
    var plan, e3 := HandledReceives(x, script, current, r, file, q.env, a, base, size);
    StoppedFiles(x, q.env, e3.files, |clean|, cancelled);
    BodyStops(x, script, current, r, base, size, plan, e3, a, clean, more, cancelled);
  }

  lemma StoppedFiles(x: Setup, e: Env, files: nat, checks: nat, cancelled: bool)
    requires StoppedAfter(x, e, checks, cancelled)
    ensures StoppedAfter(x, e.(files := files), checks, cancelled)
  {
  }

  lemma BodyStops(x: Setup, script: Script, current: Option<ResumeState>, r: Response, base: Bytes, size: Option<nat>,
                  plan: Plan, e: Env,
                  a: AttemptEnd, clean: seq<BodyEvent>, more: seq<BodyEvent>, cancelled: bool)
    requires Receives(x, script, current, r, base, size, plan, e, a) && Admitted(x.identity, current, r, base, size) && r.accepted
    requires StoppedAfter(x, e, |clean|, cancelled) && e.used <= x.nature.maxBytes
    requires Fits(x.limits, x.nature.maxBytes, e.used, base, clean, size) && more != [] && more[0].Data? && r.body == clean + more
    ensures
      && a.verdict == Failed(Failure(if cancelled then Cancelled else TimedOut, true)) && a.received == |BodyBytes(clean)|
      && a.status == Some(r.status) && a.env.used == e.used + |BodyBytes(clean)| && StoppedAfter(x, a.env, 0, cancelled)
      && a.retryAfter == r.retryAfter && a.left.etag == r.etag && a.left.size == size
      && a.left.session.Some? && a.left.session.value.bytes == base + BodyBytes(clean) && (a.left.active.Some? ==> r.status == 206)
  {
    hide StoppedAfter, StreamBody, NotClosed;
    assert Refusal(x, r, plan, e).None?;
    StreamChecks(x, clean, more, base, 0, e, cancelled);
  }

  /** The first attempt is interrupted by the cancellation or the deadline, and
      the transfer ends with what it has. */
  ghost predicate Interrupts(x: Setup, t: Transferred, cancelled: bool, status: Option<nat>, received: nat, used: nat) {
    var outcome := if cancelled then Cancelled else TimedOut;
    && Ends(t, outcome, true) && t.end.result.received == received && t.env.used == used
    && var row := Attempts(t.events)[0];
       && row.attempt == 1 && row.state == Interrupted && row.outcome == Some(outcome) && row.retryable
       && row.status == status && row.received == received
  }

  lemma InterruptedAttempt(x: Setup, h: Head, t: Transferred, cancelled: bool)
    requires IsFrom(x, h, t) && h.n == 1 && h.got == 0 && h.status.None?
    requires var a := Attempt(x, x.scripts(1), h.current, h.env);
      && a.verdict == Failed(Failure(if cancelled then Cancelled else TimedOut, true)) && StoppedAfter(x, a.env, 0, cancelled)
      && !Overruns(a, x.identity)
    ensures var a := Attempt(x, x.scripts(1), h.current, h.env); Interrupts(x, t, cancelled, a.status, a.received, a.env.used)
    ensures t.end.result.resume == KeptOf(Attempt(x, x.scripts(1), h.current, h.env), x.identity, true)
  {
    hide Attempt, Overruns, Salvage;
    var b, rest := Unfold(x, h, t);
    SameAttempt(x, h, b, Attempt(x, x.scripts(1), h.current, h.env));
    var loss := Lose(x, 1, b, None);
    LossAttempts(x, 1, h.current, loss, b.received);
    LossShape(x, 1, h.current, loss, b.received);
  }

  /** The transfer is cancelled, or its deadline passes, at the check before
      this chunk of the first response: everything before it is received and
      charged, nothing after it, and it is kept if the ETag is strong. */
  lemma StoppedTransfer(nature: Nature, identity: string, scripts: nat -> Script, limits: Limits, resume: Option<ResumeState>,
                        e: Env, r: Response, base: Bytes, size: Option<nat>, clean: seq<BodyEvent>, more: seq<BodyEvent>, cancelled: bool)
    requires LimitsOk(limits) && PendingOk(resume) && e.used <= nature.maxBytes
    requires var x := Call(nature, identity, scripts, limits, e);
      StoppedAfter(x, e.(tick := e.tick + 1), |scripts(1).hops| + 2 + |clean|, cancelled)
    requires Gets(scripts(1), limits, resume, r) && Admitted(identity, resume, r, base, size) && r.accepted
    requires Fits(limits, nature.maxBytes, e.used, base, clean, size) && more != [] && more[0].Data? && r.body == clean + more
    requires size.Some? ==> |base| + |BodyBytes(clean)| <= size.value
    ensures var x, t := Call(nature, identity, scripts, limits, e), TransferOf(nature, identity, scripts, limits, resume, e);
      var bytes := base + BodyBytes(clean);
      && Interrupts(x, t, cancelled, Some(r.status), |BodyBytes(clean)|, e.used + |BodyBytes(clean)|)
      && (t.end.result.resume.Some? <==> bytes != [] && StrongEtag(r.etag))
      && (t.end.result.resume.Some? ==> var kept := t.end.result.resume.value;
            kept.partial.bytes == bytes && kept.partial.identity == identity && Some(kept.etag) == r.etag && kept.size == size)
  {
    hide Attempt, StoppedAfter, Fits, Gets, From;
    var x, h, t := Call(nature, identity, scripts, limits, e), FirstHead(resume, e), TransferOf(nature, identity, scripts, limits, resume, e);
    CallIsFrom(nature, identity, scripts, limits, resume, e);
    StoppedInBody(x, scripts(1), resume, h.env, r, base, size, clean, more, cancelled);
    InterruptedAttempt(x, h, t, cancelled);
  }

  /** The transfer is cancelled, or its deadline passes, before there is an
      answer: nothing is received or charged. */
  lemma StoppedEarly(nature: Nature, identity: string, scripts: nat -> Script, limits: Limits, resume: Option<ResumeState>,
                     e: Env, r: Response, checks: nat, cancelled: bool)
    requires LimitsOk(limits) && PendingOk(resume) && checks < |scripts(1).hops| + 2 && Gets(scripts(1), limits, resume, r)
    requires StoppedAfter(Call(nature, identity, scripts, limits, e), e.(tick := e.tick + 1), checks, cancelled)
    ensures var x, t := Call(nature, identity, scripts, limits, e), TransferOf(nature, identity, scripts, limits, resume, e);
      Interrupts(x, t, cancelled, None, 0, e.used)
  {
    hide Attempt, StoppedAfter, From;
    var x, h, t := Call(nature, identity, scripts, limits, e), FirstHead(resume, e), TransferOf(nature, identity, scripts, limits, resume, e);
    CallIsFrom(nature, identity, scripts, limits, resume, e);
    NotAnswered(x, scripts(1), resume, h.env, r, checks, cancelled);
    InterruptedAttempt(x, h, t, cancelled);
  }

  lemma NotAnswered(x: Setup, script: Script, current: Option<ResumeState>, e: Env, r: Response, checks: nat, cancelled: bool)
    requires PendingOk(current) && checks < |script.hops| + 2 && Gets(script, x.limits, current, r) && StoppedAfter(x, e, checks, cancelled)
    ensures var a := Attempt(x, script, current, e);
      && a.verdict == Failed(Failure(if cancelled then Cancelled else TimedOut, true)) && StoppedAfter(x, a.env, 0, cancelled)
      && a.received == 0 && a.status.None? && a.env.used == e.used && !Overruns(a, x.identity)
  {
    hide Request;
    if checks > 0 {
      var active := Continues(current, x.identity);
      var (file, e2) := Opened(active, Later(e, 1));
      RequestChecks(x, script, 0, e2, checks - 1, cancelled);
    }
  }

  // ----- every attempt of a transfer -----

  /** The row of an attempt whose request was answered with a status outside 200
      to 299. */
  ghost predicate RowMeans(script: Script, limits: Limits, row: Transition) {
    forall r {:trigger Gets(script, limits, None, r)} | Gets(script, limits, None, r) && !(200 <= r.status <= 299) ::
      && row.status == Some(r.status) && row.outcome.Some? && StatusMeans(r.status, row.outcome.value, row.retryable)
      && row.received == 0 && row.retryAfter == r.retryAfter
  }

  predicate SleptAfter(limits: Limits, n: nat, row: Transition, nap: Nap) {
    n > 0 && row.retryable && row.outcome != Some(BudgetExhausted) && n < limits.maxAttempts && nap.delay == Wait(limits, n, row.retryAfter)
  }

  ghost predicate Tabled(x: Setup, n: nat, rows: seq<Transition>, naps: seq<Nap>) {
    && |naps| <= |rows|
    && (forall i {:trigger rows[i]} | 0 <= i < |rows| :: RowMeans(x.scripts(n + i), x.limits, rows[i]))
    && (forall i {:trigger naps[i]} | 0 <= i < |naps| :: SleptAfter(x.limits, n + i, rows[i], naps[i]))
  }

  predicate Within(limits: Limits, current: Option<ResumeState>) {
    PendingOk(current) && (current.Some? ==> |current.value.partial.bytes| <= limits.maxItemBytes)
  }

  lemma TabledMore(x: Setup, n: nat, row: Transition, nap: Nap, rows: seq<Transition>, naps: seq<Nap>)
    requires RowMeans(x.scripts(n), x.limits, row) && SleptAfter(x.limits, n, row, nap) && Tabled(x, n + 1, rows, naps)
    ensures Tabled(x, n, [row] + rows, [nap] + naps)
  {
    hide RowMeans, SleptAfter;
    forall i | 0 <= i < |rows| + 1 ensures RowMeans(x.scripts(n + i), x.limits, ([row] + rows)[i]) {
      if i > 0 { assert RowMeans(x.scripts(n + 1 + (i - 1)), x.limits, rows[i - 1]); }
    }
    forall i | 0 <= i < |naps| + 1 ensures SleptAfter(x.limits, n + i, ([row] + rows)[i], ([nap] + naps)[i]) {
      if i > 0 { assert SleptAfter(x.limits, n + 1 + (i - 1), rows[i - 1], naps[i - 1]); }
    }
  }

  lemma RowOf(x: Setup, h: Head, a: AttemptEnd)
    requires Quiet(x) && IsAttempt(x, h, a) && Within(x.limits, h.current) && h.n > 0
    ensures a.verdict.Staged? ==> RowMeans(x.scripts(h.n), x.limits, Terminal(h.n, Complete, Failure(Downloaded, false), a, a.status))
    ensures a.verdict.Failed? && !Overruns(a, x.identity) ==> RowMeans(x.scripts(h.n), x.limits, Lose(x, h.n, a, h.status).terminal)
  {
    hide Attempt, Overruns, Lose;
    var script := x.scripts(h.n);
    assert a == Attempt(x, script, h.current, h.env) by { assert Shown(true); }
    if r :| Gets(script, x.limits, None, r) && !(200 <= r.status <= 299) {
      var failure := StatusFailure(r.status);
      BadStatus(x, script, h.current, h.env, r, failure.outcome, failure.retryable);
      if !Overruns(a, x.identity) { LostSettles(x, h, a); }
    }
  }

  lemma StatusFailure(status: nat) returns (f: Failure)
    requires !(200 <= status <= 299)
    ensures StatusMeans(status, f.outcome, f.retryable)
  {
    f := Failure(if TriedAgain(status) then (if status == 429 then RateLimited else TransientProvider)
                 else if status == 401 then AuthenticationRequired else if status == 403 then AuthorizationDenied
                 else if status == 404 || status == 410 then Unavailable else InvalidContent, TriedAgain(status));
  }

  lemma HandlesWithin(x: Setup, script: Script, r: Response, file: Session, active: Option<ResumeState>, redirects: nat, e: Env)
    requires |file.bytes| <= x.limits.maxItemBytes
    ensures var a := HandleResponse(x, script, r, file, active, redirects, e);
      a.left.session.Some? ==> |a.left.session.value.bytes| <= x.limits.maxItemBytes
  {
    match Admit(r, file, active, e)
    case Nowhere(_, _) =>
    case Into(plan, e1) => StreamFlows(x, r.body, plan.file.bytes, 0, e1);
  }

  /** What an attempt leaves is within the item limit. */
  lemma LeavesWithin(x: Setup, script: Script, current: Option<ResumeState>, e: Env)
    requires Within(x.limits, current)
    ensures var a := Attempt(x, script, current, e); a.left.session.Some? ==> |a.left.session.value.bytes| <= x.limits.maxItemBytes
  {
    hide HandleResponse, Request;
    var active := Continues(current, x.identity);
    var (file, e2) := Opened(active, Control(x, e).1);
    var q := Request(x, script, 0, e2);
    if q.response.Some? { HandlesWithin(x, script, q.response.value, file, active, q.redirects, q.env); }
  }

  lemma NextWithin(x: Setup, h: Head, a: AttemptEnd)
    requires IsAttempt(x, h, a) && Within(x.limits, h.current) && GoesOn(x, h, a)
    ensures Within(x.limits, NextHead(x, h, a).current)
  {
    hide Attempt, Settle, Pause;
    assert a == Attempt(x, x.scripts(h.n), h.current, h.env) by { assert Shown(true); }
    LeavesWithin(x, x.scripts(h.n), h.current, h.env);
  }

  lemma TurnTabled(x: Setup, h: Head, a: AttemptEnd, t: Transferred, rest: Transferred)
    requires Quiet(x) && Turns(x, h, a, t, rest) && IsAttempt(x, h, a) && Within(x.limits, h.current) && 0 < h.n <= x.limits.maxAttempts
    requires GoesOn(x, h, a) ==> Tabled(x, h.n + 1, Attempts(rest.events), rest.naps)
    ensures Tabled(x, h.n, Attempts(t.events), t.naps)
  {
    hide Attempt, Overruns, Lose, Pause, RowMeans, LossEvents, IsFrom, IsAttempt, Quiet;
    RowOf(x, h, a);
    var began := Began(RunningTransition(h.n, h.current));
    AttemptsOne(began);
    if a.verdict.Staged? {
      var ended := Ended(Terminal(h.n, Complete, Failure(Downloaded, false), a, a.status));
      AttemptsAppend([began], [ended]);
      AttemptsOne(ended);
      assert [began] + [ended] == [began, ended];
    } else if !Overruns(a, x.identity) {
      var loss := Lose(x, h.n, a, h.status);
      LossAttempts(x, h.n, h.current, loss, h.got + a.received);
      LossNumbered(x, h, a);
      LostPauses(x, loss.terminal, loss.env);
      if GoesOn(x, h, a) {
        AttemptsAppend(LossEvents(x, h.n, h.current, loss, h.got + a.received), rest.events);
        TabledMore(x, h.n, loss.terminal, Pause(x, loss.terminal, loss.env).nap, Attempts(rest.events), rest.naps);
      }
    }
  }

  lemma LossNumbered(x: Setup, h: Head, a: AttemptEnd)
    requires Lost(x, h, a)
    ensures Lose(x, h.n, a, h.status).terminal.attempt == h.n
  {
  }

  lemma {:induction false} FromTabled(x: Setup, h: Head, t: Transferred)
    requires Quiet(x) && IsFrom(x, h, t) && Within(x.limits, h.current)
    ensures Tabled(x, h.n, Attempts(t.events), t.naps)
    decreases x.limits.maxAttempts - h.n
  {
    hide Tabled, Within, Quiet;
    var a, rest := Unfold(x, h, t);
    if GoesOn(x, h, a) {
      NextWithin(x, h, a);
      FromTabled(x, NextHead(x, h, a), rest);
    }
    TurnTabled(x, h, a, t, rest);
  }

  /** The same table for every attempt: its row says what its status means, and
      each sleep follows a retryable row and lasts as long as that row asks. */
  lemma EveryStatus(nature: Nature, identity: string, scripts: nat -> Script, limits: Limits, resume: Option<ResumeState>, e: Env)
    requires LimitsOk(limits) && Within(limits, resume) && Quiet(Call(nature, identity, scripts, limits, e))
    ensures var x, t := Call(nature, identity, scripts, limits, e), TransferOf(nature, identity, scripts, limits, resume, e);
      Tabled(x, 1, Attempts(t.events), t.naps)
  {
    CallIsFrom(nature, identity, scripts, limits, resume, e);
    FromTabled(Call(nature, identity, scripts, limits, e), FirstHead(resume, e), TransferOf(nature, identity, scripts, limits, resume, e));
  }
}

/** Which attempts and partials the catalogue can record. An event it cannot
    record makes the observer raise inside the transfer. */
module TransferRecords {

  import opened Basics
  import opened TransferProtocol
  import opened TransferSpec
  import opened TransferLoop
  import opened TransferProperties
  import opened TransferResults

  /** The storage error categories that are outcomes of the catalogue. */
  const CATALOGUED: set<string> := {"storage_failure", "source_changed", "hash_mismatch"}

  predicate OutcomeRecordable(o: Outcome) {
    o.StorageFailure? ==> o.category in CATALOGUED
  }

  predicate EtagRecordable(etag: Option<string>) {
    etag.Some? ==> 1 <= |etag.value| <= 1000
  }

  predicate StatusRecordable(status: Option<nat>) {
    status.Some? ==> 100 <= status.value <= 599
  }

  predicate AttemptRecordable(t: Transition) {
    (t.outcome.Some? ==> OutcomeRecordable(t.outcome.value)) && EtagRecordable(t.etag) && StatusRecordable(t.status)
  }

  /** CHECK (length(strong_etag) BETWEEN 3 AND 1000). */
  predicate PartialRecordable(resume: ResumeState) {
    3 <= |resume.etag| <= 1000
  }

  predicate Recordable(e: Event) {
    match e
    case Began(t) => AttemptRecordable(t)
    case KeptPartial(_, resume, _) => PartialRecordable(resume)
    case Ended(t) => AttemptRecordable(t)
  }

  predicate AllRecordable(events: seq<Event>) {
    forall i | 0 <= i < |events| :: Recordable(events[i])
  }

  // ----- the scripts whose events can all be recorded -----

  predicate FaultCatalogued(f: Option<Fault>) {
    f.Some? && f.value.StorageError? ==> f.value.category in CATALOGUED
  }

  predicate BodyCatalogued(body: seq<BodyEvent>) {
    forall i | 0 <= i < |body| :: FaultCatalogued(if body[i].Data? then body[i].writeFault else Some(body[i].fault))
  }

  /** Where the body of the response would start in its file. */
  function Offset(r: Response): nat {
    if r.status == 206 && r.range.Range? then r.range.first else 0
  }

  /** An answer within the catalogue's and the item's limits, and as long as it
      announces. */
  predicate Modest(limits: Limits, r: Response) {
    && 100 <= r.status <= 599 && EtagRecordable(r.etag) && (StrongEtag(r.etag) ==> |r.etag.value| >= 3)
    && BodyCatalogued(r.body) && Offset(r) + |BodyBytes(r.body)| <= limits.maxItemBytes && !Overlong(r)
  }

  /** The storage fails only in ways the catalogue knows, and the answer is modest. */
  predicate Benign(limits: Limits, s: Script) {
    && FaultCatalogued(s.openFault) && FaultCatalogued(s.credentialFault) && FaultCatalogued(s.finishFault)
    && match s.answer
       case Silent(fault) => FaultCatalogued(Some(fault))
       case Answered(r) => Modest(limits, r)
  }

  /** The pending partial is within the item limit and was recorded before. */
  predicate BenignPending(limits: Limits, current: Option<ResumeState>) {
    PendingOk(current) && (current.Some? ==> |current.value.partial.bytes| <= limits.maxItemBytes && PartialRecordable(current.value))
  }

  lemma {:induction false} StreamRecordable(x: Setup, body: seq<BodyEvent>, bytes: Bytes, received: nat, e: Env)
    requires BodyCatalogued(body) && |bytes| + |BodyBytes(body)| <= x.limits.maxItemBytes
    ensures var s := StreamBody(x, body, bytes, received, e); s.stop.Some? ==> OutcomeRecordable(s.stop.value.outcome)
    decreases |body|
  {
    if body != [] {
      assert FaultCatalogued(if body[0].Data? then body[0].writeFault else Some(body[0].fault));
      if body[0].Data? {
        var more := body[0].bytes;
        assert BodyBytes(body) == more + BodyBytes(body[1..]);
        assert BodyCatalogued(body[1..]) by {
          assert forall i | 0 <= i < |body[1..]| :: body[1..][i] == body[i + 1];
        }
        var (stop, e1) := Chunk(x, more, body[0].writeFault, |bytes|, e);
        if stop.None? { StreamRecordable(x, body[1..], bytes + more, received + |more|, e1); }
      }
    }
  }

  lemma {:induction false} RequestRecordable(x: Setup, script: Script, hop: nat, e: Env)
    requires hop <= |script.hops| && (script.answer.Silent? ==> FaultCatalogued(Some(script.answer.fault)))
    ensures Request(x, script, hop, e).response.None? ==> OutcomeRecordable(Request(x, script, hop, e).failure.outcome)
    decreases |script.hops| - hop
  {
    if hop < |script.hops| {
      var (stop, e1) := Control(x, e);
      if stop.None? { RequestRecordable(x, script, hop + 1, e1); }
    }
  }

  /** What a benign attempt leaves can be recorded, and its file stays within
      the item limit. */
  predicate EndRecordable(limits: Limits, a: AttemptEnd) {
    && (a.verdict.Failed? ==> OutcomeRecordable(a.verdict.failure.outcome))
    && EtagRecordable(a.left.etag) && StatusRecordable(a.status) && (StrongEtag(a.left.etag) ==> |a.left.etag.value| >= 3)
    && (a.left.session.Some? ==> |a.left.session.value.bytes| <= limits.maxItemBytes)
  }

  lemma ReceiveRecordable(x: Setup, script: Script, r: Response, plan: Plan, redirects: nat, e: Env)
    requires Modest(x.limits, r) && FaultCatalogued(script.finishFault) && |plan.file.bytes| + |BodyBytes(r.body)| <= x.limits.maxItemBytes
    ensures EndRecordable(x.limits, Receive(x, script, r, plan, redirects, e))
  {
    StreamRecordable(x, r.body, plan.file.bytes, 0, e);
    StreamFlows(x, r.body, plan.file.bytes, 0, e);
    var s := StreamBody(x, r.body, plan.file.bytes, 0, e);
    if s.stop.None? { ClosedRecordable(script, r, plan, s.received, |s.bytes|); }
  }

  lemma ClosedRecordable(script: Script, r: Response, plan: Plan, received: nat, total: nat)
    requires FaultCatalogued(script.finishFault)
    ensures NotClosed(script, r, plan, received, total).Some? ==> OutcomeRecordable(NotClosed(script, r, plan, received, total).value.outcome)
  {
  }

  /** An admitted body starts where the response says. */
  lemma PlanOffset(r: Response, file: Session, active: Option<ResumeState>, e: Env)
    requires active.Some? ==> file.bytes == active.value.partial.bytes
    requires active.None? ==> file.bytes == []
    ensures Admit(r, file, active, e).Into? ==> |Admit(r, file, active, e).plan.file.bytes| == Offset(r)
  {
  }

  lemma HandleRecordable(x: Setup, script: Script, r: Response, file: Session, active: Option<ResumeState>, redirects: nat,
                         e: Env)
    requires Modest(x.limits, r) && FaultCatalogued(script.finishFault) && |file.bytes| <= x.limits.maxItemBytes
    requires active.Some? ==> file.bytes == active.value.partial.bytes
    requires active.None? ==> file.bytes == []
    ensures EndRecordable(x.limits, HandleResponse(x, script, r, file, active, redirects, e))
  {
    if ClassifyStatus(r.status).None? {
      PlanOffset(r, file, active, e);
      match Admit(r, file, active, e)
      case Nowhere(_, _) =>
      case Into(plan, e1) => ReceiveRecordable(x, script, r, plan, redirects, e1);
    }
  }

  lemma AttemptRecordableEnd(x: Setup, script: Script, current: Option<ResumeState>, e: Env)
    requires Benign(x.limits, script) && BenignPending(x.limits, current)
    ensures EndRecordable(x.limits, Attempt(x, script, current, e))
  {
    var (stop, e1) := Control(x, e);
    if stop.None? && script.openFault.None? {
      var active := Continues(current, x.identity);
      var (file, e2) := Opened(active, e1);
      RequestKeeps(x, script, 0, e2);
      RequestRecordable(x, script, 0, e2);
      var q := Request(x, script, 0, e2);
      if q.response.Some? {
        HandleRecordable(x, script, q.response.value, file, active, q.redirects, q.env);
      }
    }
  }

  lemma AttemptOfRecordable(x: Setup, h: Head, a: AttemptEnd)
    requires IsAttempt(x, h, a) && Benign(x.limits, x.scripts(h.n)) && BenignPending(x.limits, h.current)
    ensures EndRecordable(x.limits, a) && !Overruns(a, x.identity) && Leaves(x, h.current, h.env, a)
  {
    assert Shown(true);
    AttemptRecordableEnd(x, x.scripts(h.n), h.current, h.env);
    AttemptLeaves(x, x.scripts(h.n), h.current, h.env);
    if Overruns(a, x.identity) { EscapeNeedsOverlong(x, x.scripts(h.n), h.current, h.env); }
  }

  lemma LossRecordable(x: Setup, h: Head, a: AttemptEnd)
    requires h.n > 0 && EndRecordable(x.limits, a) && Leaves(x, h.current, h.env, a) && a.verdict.Failed? && !Overruns(a, x.identity)
    requires BenignPending(x.limits, h.current) && StatusRecordable(h.status)
    ensures var loss := Lose(x, h.n, a, h.status);
      && AllRecordable(LossEvents(x, h.n, h.current, loss, h.got + a.received))
      && BenignPending(x.limits, loss.kept) && StatusRecordable(loss.terminal.status)
  {
  }

  lemma {:induction false} FromRecordable(x: Setup, h: Head, t: Transferred)
    requires IsFrom(x, h, t) && BenignPending(x.limits, h.current) && StatusRecordable(h.status)
    requires forall n: nat | h.n <= n <= x.limits.maxAttempts :: Benign(x.limits, x.scripts(n))
    ensures t.end.Returned? && AllRecordable(t.events)
    decreases x.limits.maxAttempts - h.n
  {
    var a, rest := Unfold(x, h, t);
    AttemptOfRecordable(x, h, a);
    if a.verdict.Failed? {
      LossRecordable(x, h, a);
      if GoesOn(x, h, a) { FromRecordable(x, NextHead(x, h, a), rest); }
    }
  }

  /** A transfer whose storage fails only in catalogued ways and whose answers
      are modest returns, and all it reports can be recorded. */
  lemma BenignTransfer(nature: Nature, identity: string, scripts: nat -> Script, limits: Limits, resume: Option<ResumeState>,
                       e: Env)
    requires LimitsOk(limits) && BenignPending(limits, resume) && forall n: nat | 1 <= n <= limits.maxAttempts :: Benign(limits, scripts(n))
    ensures var t := TransferOf(nature, identity, scripts, limits, resume, e); t.end.Returned? && AllRecordable(t.events)
  {
    CallIsFrom(nature, identity, scripts, limits, resume, e);
    FromRecordable(Call(nature, identity, scripts, limits, e), FirstHead(resume, e), TransferOf(nature, identity, scripts, limits, resume, e));
  }

  // ----- faults that cannot be recorded -----

  /** The first attempt fails with this storage error. */
  lemma FirstFaultRecorded(x: Setup, h: Head, t: Transferred, a: AttemptEnd, category: string)
    requires IsFrom(x, h, t) && IsAttempt(x, h, a) && Quiet(x) && h.n == 1
    requires a.verdict == Failed(Failure(StorageFailure(category), false)) && category !in CATALOGUED
    ensures !AllRecordable(t.events)
  {
    var b, rest := Unfold(x, h, t);
    SameAttempt(x, h, a, b);
    var loss := Lose(x, 1, a, h.status);
    assert !AttemptRecordable(loss.terminal);
    var own := LossEvents(x, 1, h.current, loss, h.got + a.received);
    assert own[|own| - 1] == Ended(loss.terminal) && t.events == own;
    assert !Recordable(t.events[|own| - 1]);
  }

  /** A staging file that cannot be opened, for instance because it was changed
      or is gone, and a partial beyond the item limit. */
  lemma UnopenedUnrecordable(nature: Nature, identity: string, scripts: nat -> Script, limits: Limits,
                             resume: Option<ResumeState>, e: Env, category: string)
    requires LimitsOk(limits) && Quiet(Call(nature, identity, scripts, limits, e)) && category !in CATALOGUED
    requires scripts(1).openFault == Some(StorageError(category)) ||
             (scripts(1).openFault.None? && category == "limit_exceeded" && resume.Some? && |resume.value.partial.bytes| > limits.maxItemBytes)
    ensures !AllRecordable(TransferOf(nature, identity, scripts, limits, resume, e).events)
  {
    var x, h, t := Call(nature, identity, scripts, limits, e), FirstHead(resume, e), TransferOf(nature, identity, scripts, limits, resume, e);
    CallIsFrom(nature, identity, scripts, limits, resume, e);
    FirstFaultRecorded(x, h, t, Attempt(x, scripts(1), resume, h.env), category);
  }

  lemma {:induction false} StreamOverflows(x: Setup, body: seq<BodyEvent>, bytes: Bytes, received: nat, e: Env)
    requires Quiet(x) && CleanBody(body) && e.used <= x.nature.maxBytes && |BodyBytes(body)| <= x.nature.maxBytes - e.used
    requires |bytes| <= x.limits.maxItemBytes < |bytes| + |BodyBytes(body)|
    ensures StreamBody(x, body, bytes, received, e).stop == Some(Caught(StorageError("limit_exceeded")))
    decreases |body|
  {
    var more := body[0].bytes;
    assert BodyBytes(body) == more + BodyBytes(body[1..]);
    assert CleanBody(body[1..]);
    var (stop, e1) := Chunk(x, more, body[0].writeFault, |bytes|, e);
    if stop.None? { StreamOverflows(x, body[1..], bytes + more, received + |more|, e1); }
  }

  /** A body of unannounced length beyond the item limit. */
  lemma OversizeUnrecordable(nature: Nature, identity: string, scripts: nat -> Script, limits: Limits, e: Env)
    requires LimitsOk(limits) && Answers(Call(nature, identity, scripts, limits, e), scripts(1), None) && e.used <= nature.maxBytes
    requires var r := scripts(1).answer.response;
      && r.status == 200 && r.length.NoLength? && r.accepted && CleanBody(r.body)
      && limits.maxItemBytes < |BodyBytes(r.body)| <= nature.maxBytes - e.used
    ensures !AllRecordable(TransferOf(nature, identity, scripts, limits, None, e).events)
  {
    var x, h, t := Call(nature, identity, scripts, limits, e), FirstHead(None, e), TransferOf(nature, identity, scripts, limits, None, e);
    CallIsFrom(nature, identity, scripts, limits, None, e);
    AttemptReceives(x, scripts(1), None, h.env);
    var plan, e1 := PlanFor(x, scripts(1), None, h.env).plan, PlanFor(x, scripts(1), None, h.env).env;
    StreamOverflows(x, scripts(1).answer.response.body, plan.file.bytes, 0, e1);
    LimitNotCatalogued();
    FirstFaultRecorded(x, h, t, Attempt(x, scripts(1), None, h.env), "limit_exceeded");
  }

  lemma LimitNotCatalogued()
    ensures "limit_exceeded" !in CATALOGUED && "storage_integrity_failed" !in CATALOGUED
  {
    assert |"limit_exceeded"| == 14 && |"storage_integrity_failed"| == 24;
    assert "limit_exceeded"[0] == 'l' && "source_changed"[0] == 's';
  }
}

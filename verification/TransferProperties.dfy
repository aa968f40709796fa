/** What holds of every transfer, proved of the functions of TransferSpec. */
module TransferProperties {

  import opened Basics
  import opened TransferProtocol
  import opened TransferSpec
  import opened TransferLoop

  /** The failures that are worth another attempt; a storage failure is none. */
  predicate Sane(f: Failure) {
    (f.retryable ==> f.outcome in RESUMABLE || f.outcome == Cancelled) && f.outcome != ProcessEnded
  }

  // ----- bodies -----

  /** The body arrives and is written without a fault. */
  predicate CleanBody(body: seq<BodyEvent>) {
    forall i | 0 <= i < |body| :: body[i].Data? && body[i].writeFault.None?
  }

  /** Nobody cancels and the deadline stays ahead. */
  ghost predicate Quiet(x: Setup) {
    forall k: nat {:trigger x.nature.cancels(k)} {:trigger x.nature.readings(k)} :: !x.nature.cancels(k) && x.nature.readings(k) < x.deadline
  }

  /** Bytes taken from a body: a beginning of it, appended and charged. */
  ghost predicate Flows(x: Setup, body: seq<BodyEvent>, bytes: Bytes, received: nat, e: Env, s: Streamed) {
    && bytes <= s.bytes && s.received == received + |s.bytes| - |bytes|
    && s.bytes[|bytes|..] <= BodyBytes(body) && (s.stop.None? ==> s.bytes == bytes + BodyBytes(body))
    && (s.received > received ==> |s.bytes| <= x.limits.maxItemBytes)
    && s.env.used >= e.used + |s.bytes| - |bytes| && (e.used <= x.nature.maxBytes ==> s.env.used <= x.nature.maxBytes)
    && s.env.files == e.files && (s.stop.Some? ==> Sane(s.stop.value))
  }

  /** One chunk more at the front. */
  lemma FlowsOne(x: Setup, body: seq<BodyEvent>, bytes: Bytes, received: nat, e: Env, e1: Env, s: Streamed)
    requires body != [] && body[0].Data?
    requires var more := body[0].bytes;
      && Flows(x, body[1..], bytes + more, received + |more|, e1, s)
      && |bytes| + |more| <= x.limits.maxItemBytes
      && e1.used == e.used + |more| && e1.files == e.files && (e.used <= x.nature.maxBytes ==> e1.used <= x.nature.maxBytes)
    ensures Flows(x, body, bytes, received, e, s)
  {
    var more := body[0].bytes;
    assert s.bytes[|bytes|..] == more + s.bytes[|bytes + more|..];
    assert bytes + more + BodyBytes(body[1..]) == bytes + (more + BodyBytes(body[1..]));
  }

  lemma FlowsNothing(x: Setup, body: seq<BodyEvent>, bytes: Bytes, received: nat, e: Env, s: Streamed)
    requires s.bytes == bytes && s.received == received && (s.stop.Some? ==> Sane(s.stop.value)) && (s.stop.None? ==> body == [])
    requires s.env.used >= e.used && (e.used <= x.nature.maxBytes ==> s.env.used <= x.nature.maxBytes) && s.env.files == e.files
    ensures Flows(x, body, bytes, received, e, s)
  {
  }

  lemma {:induction false} StreamFlows(x: Setup, body: seq<BodyEvent>, bytes: Bytes, received: nat, e: Env)
    ensures Flows(x, body, bytes, received, e, StreamBody(x, body, bytes, received, e))
    decreases |body|
  {
    var s := StreamBody(x, body, bytes, received, e);
    if body == [] || body[0].Broken? {
      FlowsNothing(x, body, bytes, received, e, s);
    } else {
      var more := body[0].bytes;
      var (stop, e1) := Chunk(x, more, body[0].writeFault, |bytes|, e);
      if stop.Some? {
        FlowsNothing(x, body, bytes, received, e, s);
      } else {
        StreamFlows(x, body[1..], bytes + more, received + |more|, e1);
        FlowsOne(x, body, bytes, received, e, e1, s);
      }
    }
  }

  /** Nothing disturbs the body and the limits leave room for it. */
  ghost predicate Arrives(x: Setup, body: seq<BodyEvent>, start: nat, left: nat) {
    Quiet(x) && CleanBody(body) && start + |BodyBytes(body)| <= x.limits.maxItemBytes && |BodyBytes(body)| <= left
  }

  lemma {:induction false} ArrivesWhole(x: Setup, body: seq<BodyEvent>, bytes: Bytes, received: nat, e: Env)
    requires Arrives(x, body, |bytes|, Room(x, e)) && e.used <= x.nature.maxBytes
    ensures StreamBody(x, body, bytes, received, e).stop.None?
    decreases |body|
  {
    if body != [] {
      var more := body[0].bytes;
      assert BodyBytes(body) == more + BodyBytes(body[1..]);
      assert CleanBody(body[1..]);
      var (stop, e1) := Chunk(x, more, body[0].writeFault, |bytes|, e);
      assert stop.None?;
      ArrivesWhole(x, body[1..], bytes + more, received + |more|, e1);
    }
  }

  // ----- one attempt -----

  /** The staging file and the bytes an attempt leaves: it goes on with the
      pending partial or has a new file holding what it received. */
  ghost predicate Leaves(x: Setup, current: Option<ResumeState>, e: Env, a: AttemptEnd) {
    && a.env.used >= e.used + a.received && (e.used <= x.nature.maxBytes ==> a.env.used <= x.nature.maxBytes)
    && a.env.files >= e.files
    && (a.verdict.Staged? ==> a.left.session.None?) && (a.verdict.Failed? ==> Sane(a.verdict.failure))
    && (a.left.session.Some? ==>
          var file := a.left.session.value;
          if a.left.active.Some? then
            && a.left.active == current && file.name == current.value.partial.name
            && current.value.partial.bytes <= file.bytes && |file.bytes| == |current.value.partial.bytes| + a.received
          else e.files <= file.name < a.env.files && |file.bytes| == a.received)
  }

  /** When the interrupted download's ETag has to stand in, nothing was appended
      and no size was announced. */
  ghost predicate InheritsClean(a: AttemptEnd) {
    a.left.session.Some? && Inherits(a.left) ==> a.left.size.None? && a.received == 0
  }

  lemma {:induction false} RequestKeeps(x: Setup, script: Script, hop: nat, e: Env)
    requires hop <= |script.hops|
    ensures var q := Request(x, script, hop, e);
      && q.env.used == e.used && q.env.files == e.files
      && (q.response.None? ==> Sane(q.failure))
      && (q.response.Some? ==> script.answer == Answered(q.response.value))
    decreases |script.hops| - hop
  {
    if hop < |script.hops| {
      var (stop, e1) := Control(x, e);
      if stop.None? { RequestKeeps(x, script, hop + 1, e1); }
    }
  }

  lemma ReceiveLeaves(x: Setup, script: Script, r: Response, plan: Plan, redirects: nat, e: Env)
    ensures var a := Receive(x, script, r, plan, redirects, e);
      && a.env.used >= e.used + a.received && (e.used <= x.nature.maxBytes ==> a.env.used <= x.nature.maxBytes)
      && a.env.files == e.files && a.left.active == plan.active && a.left.etag == r.etag && a.left.size == plan.size
      && (a.verdict.Staged? ==> a.left.session.None?) && (a.verdict.Failed? ==> Sane(a.verdict.failure))
      && (a.left.session.Some? ==> && a.left.session.value.name == plan.file.name && plan.file.bytes <= a.left.session.value.bytes
                                   && |a.left.session.value.bytes| == |plan.file.bytes| + a.received)
  {
    StreamFlows(x, r.body, plan.file.bytes, 0, e);
  }

  lemma HandleLeaves(x: Setup, script: Script, r: Response, file: Session, active: Option<ResumeState>, redirects: nat,
                     e: Env, before: Env)
    requires active.Some? ==> file == Session(active.value.partial.name, active.value.partial.bytes) && ConstructedResume(active.value)
    requires active.None? ==> before.files <= file.name < e.files && file.bytes == []
    requires e.used == before.used && e.files >= before.files
    ensures var a := HandleResponse(x, script, r, file, active, redirects, e); Leaves(x, active, before, a) && InheritsClean(a)
  {
    if ClassifyStatus(r.status).None? {
      match Admit(r, file, active, e)
      case Nowhere(_, _) =>
      case Into(plan, e1) => ReceiveLeaves(x, script, r, plan, redirects, e1);
    }
  }

  /** The pending resume satisfies what its constructor enforces. */
  predicate PendingOk(current: Option<ResumeState>) {
    current.Some? ==> ConstructedResume(current.value)
  }

  lemma AttemptLeaves(x: Setup, script: Script, current: Option<ResumeState>, e: Env)
    requires PendingOk(current)
    ensures var a := Attempt(x, script, current, e); Leaves(x, current, e, a) && InheritsClean(a)
  {
    var (stop, e1) := Control(x, e);
    if stop.None? && script.openFault.None? && (current.Some? ==> |current.value.partial.bytes| <= x.limits.maxItemBytes) {
      var active := Continues(current, x.identity);
      var (file, e2) := Opened(active, e1);
      RequestKeeps(x, script, 0, e2);
      var q := Request(x, script, 0, e2);
      if q.response.Some? {
        HandleLeaves(x, script, q.response.value, file, active, q.redirects, q.env, e);
      }
    }
  }

  // ----- honest servers -----

  ghost predicate HonestScript(named: Naming, identity: string, script: Script) {
    script.answer.Answered? ==> Honest(named, identity, script.answer.response)
  }

  ghost predicate HonestPending(named: Naming, current: Option<ResumeState>) {
    current.Some? ==> HonestResume(named, current.value)
  }

  ghost predicate Relabelled(script: Script, active: Option<ResumeState>) {
    script.answer.Answered? && active.Some? && Relabels(script.answer.response, active.value)
  }

  /** The server is honest, the pending resume is honest, and the response does
      not relabel it. */
  ghost predicate Trusted(named: Naming, identity: string, script: Script, current: Option<ResumeState>) {
    HonestScript(named, identity, script) && HonestPending(named, current) && !Relabelled(script, Continues(current, identity))
  }

  /** What was staged is a beginning of the one representation the script's
      response sends, and all of it when its size was announced. */
  ghost predicate StagedFrom(named: Naming, identity: string, script: Script, size: Option<nat>, staged: Bytes, whole: Bytes) {
    && script.answer.Answered? && Serves(named, identity, script.answer.response, whole)
    && staged <= whole && (size.Some? ==> staged == whole)
  }

  ghost predicate OneRepresentation(named: Naming, identity: string, script: Script, size: Option<nat>, staged: Bytes) {
    exists whole :: StagedFrom(named, identity, script, size, staged, whole)
  }

  ghost predicate HonestEnd(named: Naming, identity: string, script: Script, a: AttemptEnd) {
    match a.verdict
    case Staged(bytes) => OneRepresentation(named, identity, script, a.left.size, bytes)
    case Failed(failure) => HonestLeftover(named, identity, a.left, failure.retryable)
  }

  /** The response really continues (or starts) the representation it sends. */
  ghost predicate PlanServes(named: Naming, identity: string, r: Response, plan: Plan, whole: Bytes) {
    && Serves(named, identity, r, whole)
    && plan.file.bytes + BodyBytes(r.body) <= whole
    && (plan.size.Some? ==> plan.size.value == |whole|)
    && (plan.active.Some? ==> plan.active.value.partial.identity == identity && HonestResume(named, plan.active.value)
                              && r.etag == Some(plan.active.value.etag))
  }

  /** A 206 that passes the checks continues exactly the partial it is appended
      to, whatever size the partial was thought to have. */
  lemma AppendServes(named: Naming, identity: string, r: Response, active: ResumeState)
    requires Honest(named, identity, r) && HonestResume(named, active) && active.partial.identity == identity
    requires AdmitResumed(r, active).Append?
    ensures exists whole ::
      PlanServes(named, identity, r, Plan(Session(active.partial.name, active.partial.bytes), Some(active), Some(AdmitResumed(r, active).total)), whole)
  {
    var whole :| Serves(named, identity, r, whole);
    var bytes := active.partial.bytes;
    assert whole == whole[..|bytes|] + whole[|bytes|..];
    assert PlanServes(named, identity, r, Plan(Session(active.partial.name, bytes), Some(active), Some(AdmitResumed(r, active).total)), whole);
  }

  /** A resume with a wrong size is not continued: an honest 206 for its ETag
      is refused. */
  lemma WrongSizeRefused(named: Naming, r: Response, active: ResumeState)
    requires Honest(named, active.partial.identity, r) && HonestResume(named, active) && !HonestSize(named, active)
    requires r.status == 206
    ensures AdmitResumed(r, active).Refuse? && !AdmitResumed(r, active).failure.retryable
  {
    var whole :| Serves(named, active.partial.identity, r, whole);
  }

  lemma FreshServes(named: Naming, identity: string, r: Response, name: nat, size: Option<nat>)
    requires r.status == 200 && ContentLength(r) == Good(size) && Honest(named, identity, r)
    ensures exists whole :: PlanServes(named, identity, r, Plan(Session(name, []), None, size), whole)
  {
    var whole :| Serves(named, identity, r, whole);
    assert [] + BodyBytes(r.body) == BodyBytes(r.body);
    assert PlanServes(named, identity, r, Plan(Session(name, []), None, size), whole);
  }

  lemma RefusedHonest(named: Naming, identity: string, r: Response, active: ResumeState, file: Session)
    requires Honest(named, identity, r) && HonestResume(named, active) && active.partial.identity == identity
    requires AdmitResumed(r, active).Refuse? && file.bytes == active.partial.bytes
    ensures HonestLeftover(named, identity, Leftover(Some(file), Some(active), r.etag, AdmitResumed(r, active).announced),
                           AdmitResumed(r, active).failure.retryable)
  {
    var whole :| Serves(named, identity, r, whole);
  }

  lemma ReceiveHonest(named: Naming, identity: string, x: Setup, script: Script, r: Response, plan: Plan, redirects: nat,
                      e: Env, whole: Bytes)
    requires script.answer == Answered(r) && PlanServes(named, identity, r, plan, whole)
    ensures HonestEnd(named, identity, script, Receive(x, script, r, plan, redirects, e))
  {
    var a := Receive(x, script, r, plan, redirects, e);
    StreamFlows(x, r.body, plan.file.bytes, 0, e);
    match a.verdict
    case Staged(bytes) =>
      assert StagedFrom(named, identity, script, plan.size, bytes, whole);
    case Failed(_) =>
      var session := a.left.session.value.bytes;
      assert session == plan.file.bytes + session[|plan.file.bytes|..];
      assert plan.active.None? ==> BeginsOne(named, identity, a.left, whole);
  }

  lemma HandleHonest(named: Naming, x: Setup, script: Script, r: Response, file: Session, active: Option<ResumeState>,
                     redirects: nat, e: Env)
    requires script.answer == Answered(r) && HonestScript(named, x.identity, script)
    requires HonestPending(named, active) && !Relabelled(script, active)
    requires active.Some? ==> file == Session(active.value.partial.name, active.value.partial.bytes) && active.value.partial.identity == x.identity
    requires active.None? ==> file.bytes == []
    ensures HonestEnd(named, x.identity, script, HandleResponse(x, script, r, file, active, redirects, e))
  {
    if ClassifyStatus(r.status).None? {
      match Admit(r, file, active, e)
      case Nowhere(_, _) =>
        if active.Some? { RefusedHonest(named, x.identity, r, active.value, file); }
      case Into(plan, e1) =>
        if plan.active.Some? { AppendServes(named, x.identity, r, active.value); }
        else { FreshServes(named, x.identity, r, plan.file.name, plan.size); }
        var whole :| PlanServes(named, x.identity, r, plan, whole);
        ReceiveHonest(named, x.identity, x, script, r, plan, redirects, e1, whole);
    }
  }

  /** An attempt on a trusted server stages bytes of one representation, or
      leaves a beginning of one. */
  lemma AttemptHonest(named: Naming, x: Setup, script: Script, current: Option<ResumeState>, e: Env)
    requires Trusted(named, x.identity, script, current)
    ensures HonestEnd(named, x.identity, script, Attempt(x, script, current, e))
  {
    var (stop, e1) := Control(x, e);
    if stop.None? && script.openFault.None? && (current.Some? ==> |current.value.partial.bytes| <= x.limits.maxItemBytes) {
      var active := Continues(current, x.identity);
      var (file, e2) := Opened(active, e1);
      RequestKeeps(x, script, 0, e2);
      var q := Request(x, script, 0, e2);
      if q.response.Some? {
        HandleHonest(named, x, script, q.response.value, file, active, q.redirects, q.env);
      }
    }
  }

  // ----- what a completing attempt stages -----

  /** A 200 stages its body, and a 206 for the pending partial's ETag stages the
      partial and its body; lengths are as announced. */
  predicate CompletesWith(identity: string, script: Script, pending: Option<ResumeState>, size: Option<nat>, status: Option<nat>,
                          received: nat, bytes: Bytes) {
    script.answer.Answered? &&
    var r := script.answer.response;
    && status == Some(r.status) && r.accepted && received == |BodyBytes(r.body)| && (size.Some? ==> size.value == |bytes|)
    && (r.length.Length? ==> r.length.value == received)
    && if r.status == 206 then
         && pending.Some? && pending.value.partial.identity == identity && r.etag == Some(pending.value.etag)
         && size.Some? && bytes == pending.value.partial.bytes + BodyBytes(r.body)
       else r.status == 200 && bytes == BodyBytes(r.body) && (r.length.Length? ==> size == Some(r.length.value))
  }

  lemma ReceiveCompletes(x: Setup, script: Script, r: Response, plan: Plan, redirects: nat, e: Env)
    ensures var a := Receive(x, script, r, plan, redirects, e);
      a.verdict.Staged? ==>
        && a.status == Some(r.status) && r.accepted && a.received == |BodyBytes(r.body)| && a.left.size == plan.size
        && a.verdict.bytes == plan.file.bytes + BodyBytes(r.body) && (plan.size.Some? ==> plan.size.value == |a.verdict.bytes|)
        && (r.length.Length? ==> r.length.value == a.received)
  {
    StreamFlows(x, r.body, plan.file.bytes, 0, e);
  }

  lemma AttemptCompletes(x: Setup, script: Script, current: Option<ResumeState>, e: Env)
    ensures var a := Attempt(x, script, current, e);
      a.verdict.Staged? ==> CompletesWith(x.identity, script, current, a.left.size, a.status, a.received, a.verdict.bytes)
  {
    var a := Attempt(x, script, current, e);
    if a.verdict.Staged? {
      var active := Continues(current, x.identity);
      var (stop, e1) := Control(x, e);
      var (file, e2) := Opened(active, e1);
      RequestKeeps(x, script, 0, e2);
      var q := Request(x, script, 0, e2);
      match Admit(q.response.value, file, active, q.env)
      case Into(plan, e3) =>
        ReceiveCompletes(x, script, q.response.value, plan, q.redirects, e3);
        assert [] + BodyBytes(q.response.value.body) == BodyBytes(q.response.value.body);
    }
  }

  /** The bytes are what the response is part of: for a 206 the whole
      representation its ETag names, for a 200 its body, a beginning of the
      representation a strong ETag names and all of it when the length is
      announced. */
  ghost predicate Genuine(named: Naming, identity: string, script: Script, bytes: Bytes) {
    script.answer.Answered? &&
    var r := script.answer.response;
    if r.status == 206 then StrongEtag(r.etag) && bytes == named(identity, r.etag.value)
    else
      && r.status == 200 && bytes == BodyBytes(r.body) && (r.length.Length? ==> |bytes| == r.length.value)
      && (StrongEtag(r.etag) ==> bytes <= named(identity, r.etag.value))
      && (StrongEtag(r.etag) && r.length.Length? ==> bytes == named(identity, r.etag.value))
  }

  lemma CompletionGenuine(named: Naming, identity: string, script: Script, pending: Option<ResumeState>, size: Option<nat>,
                          status: Option<nat>,
                          received: nat, bytes: Bytes)
    requires CompletesWith(identity, script, pending, size, status, received, bytes) && PendingOk(pending)
    requires OneRepresentation(named, identity, script, size, bytes)
    ensures Genuine(named, identity, script, bytes)
  {
    var whole :| StagedFrom(named, identity, script, size, bytes, whole);
  }

  // ----- complete responses -----

  /** Every redirect is allowed and there are not too many. */
  predicate Follows(hops: seq<bool>, maxRedirects: nat) {
    |hops| <= maxRedirects && forall i | 0 <= i < |hops| :: hops[i]
  }

  lemma {:induction false} RequestAnswers(x: Setup, script: Script, hop: nat, e: Env)
    requires hop <= |script.hops| && Quiet(x) && script.answer.Answered? && Follows(script.hops, x.limits.maxRedirects)
    ensures Request(x, script, hop, e).response == Some(script.answer.response)
    decreases |script.hops| - hop
  {
    if hop < |script.hops| {
      var (stop, e1) := Control(x, e);
      RequestAnswers(x, script, hop + 1, e1);
    }
  }

  /** The request of the attempt is made and answered. */
  ghost predicate Answers(x: Setup, script: Script, current: Option<ResumeState>) {
    && Quiet(x) && script.openFault.None? && script.credentialFault.None? && script.answer.Answered?
    && Follows(script.hops, x.limits.maxRedirects)
    && (current.Some? ==> |current.value.partial.bytes| <= x.limits.maxItemBytes)
    && ClassifyStatus(script.answer.response.status).None?
  }

  /** Where its body goes. */
  function PlanFor(x: Setup, script: Script, current: Option<ResumeState>, e: Env): Course
    requires script.answer.Answered?
  {
    var active := Continues(current, x.identity);
    var (_, e1) := Control(x, e);
    var (file, e2) := Opened(active, e1);
    Admit(script.answer.response, file, active, Request(x, script, 0, e2).env)
  }

  lemma AttemptReceives(x: Setup, script: Script, current: Option<ResumeState>, e: Env)
    requires Answers(x, script, current) && PlanFor(x, script, current, e).Into?
    ensures var plan, e1 := PlanFor(x, script, current, e).plan, PlanFor(x, script, current, e).env;
      e1.used == e.used && exists redirects :: Attempt(x, script, current, e) == Receive(x, script, script.answer.response, plan, redirects, e1)
  {
    var active := Continues(current, x.identity);
    var (_, e1) := Control(x, e);
    var (file, e2) := Opened(active, e1);
    RequestAnswers(x, script, 0, e2);
    RequestKeeps(x, script, 0, e2);
    var q := Request(x, script, 0, e2);
    assert Attempt(x, script, current, e)
        == Receive(x, script, script.answer.response, PlanFor(x, script, current, e).plan, q.redirects, PlanFor(x, script, current, e).env);
  }

  /** The response is accepted and its clean body fits. */
  ghost predicate Streams(x: Setup, script: Script, current: Option<ResumeState>, e: Env) {
    && e.used <= x.nature.maxBytes && Answers(x, script, current) && PlanFor(x, script, current, e).Into?
    && var r, plan, left := script.answer.response, PlanFor(x, script, current, e).plan, x.nature.maxBytes - e.used;
      r.accepted && NoRoom(r, plan, x.limits, left).None? && Arrives(x, r.body, |plan.file.bytes|, left)
  }

  /** An undisturbed attempt stages the pending bytes and the body, exactly when
      their lengths are as announced and the file can be closed. */
  lemma StagesExactly(x: Setup, script: Script, current: Option<ResumeState>, e: Env)
    requires Streams(x, script, current, e)
    ensures var r, plan, a := script.answer.response, PlanFor(x, script, current, e).plan, Attempt(x, script, current, e);
      var whole := plan.file.bytes + BodyBytes(r.body);
      && a.left.etag == r.etag && a.left.active == plan.active && a.left.size == plan.size
      && (NotClosed(script, r, plan, |BodyBytes(r.body)|, |whole|).None? ==> a.verdict == Staged(whole))
      && (NotClosed(script, r, plan, |BodyBytes(r.body)|, |whole|).Some? ==>
            a.verdict == Failed(NotClosed(script, r, plan, |BodyBytes(r.body)|, |whole|).value)
            && a.left.session == Some(Session(plan.file.name, whole)))
  {
    var plan, e1 := PlanFor(x, script, current, e).plan, PlanFor(x, script, current, e).env;
    AttemptReceives(x, script, current, e);
    ArrivesWhole(x, script.answer.response.body, plan.file.bytes, 0, e1);
    StreamFlows(x, script.answer.response.body, plan.file.bytes, 0, e1);
  }

  // ----- when a transfer escapes -----

  /** More staged bytes than were announced with a strong ETag. */
  predicate Exceeds(left: Leftover) {
    left.session.Some? && StrongEtag(left.etag) && left.size.Some? && left.size.value < |left.session.value.bytes|
  }

  /** The ResumeState constructor raises exactly when a retryable failure leaves
      more staged bytes than the size announced with a strong ETag. */
  lemma OverrunsExactly(x: Setup, script: Script, current: Option<ResumeState>, e: Env)
    requires PendingOk(current)
    ensures var a := Attempt(x, script, current, e);
      Overruns(a, x.identity) <==>
        a.verdict.Failed? && a.verdict.failure.retryable && Exceeds(a.left)
  {
    AttemptLeaves(x, script, current, e);
  }

  /** The body is longer than announced beside a strong ETag: by Content-Length
      for a 200, by the total of Content-Range for a 206. */
  predicate Overlong(r: Response) {
    && StrongEtag(r.etag)
    && ((r.status == 200 && r.length.Length? && r.length.value < |BodyBytes(r.body)|) ||
        (r.status == 206 && r.range.Range? && r.range.total.Some? && r.range.total.value < r.range.first + |BodyBytes(r.body)|))
  }

  lemma HandleExceeds(x: Setup, script: Script, r: Response, file: Session, active: Option<ResumeState>, redirects: nat, e: Env)
    requires active.Some? ==> file.bytes == active.value.partial.bytes && ConstructedResume(active.value)
    requires active.None? ==> file.bytes == []
    requires var a := HandleResponse(x, script, r, file, active, redirects, e); a.verdict.Failed? && a.verdict.failure.retryable && Exceeds(a.left)
    ensures Overlong(r)
  {
    match Admit(r, file, active, e)
    case Nowhere(_, _) =>
    case Into(plan, e1) => StreamFlows(x, r.body, plan.file.bytes, 0, e1);
  }

  /** An attempt can escape only on an overlong response. */
  lemma EscapeNeedsOverlong(x: Setup, script: Script, current: Option<ResumeState>, e: Env)
    requires PendingOk(current) && Overruns(Attempt(x, script, current, e), x.identity)
    ensures script.answer.Answered? && Overlong(script.answer.response)
  {
    OverrunsExactly(x, script, current, e);
    var (stop, e1) := Control(x, e);
    var active := Continues(current, x.identity);
    var (file, e2) := Opened(active, e1);
    RequestKeeps(x, script, 0, e2);
    var q := Request(x, script, 0, e2);
    HandleExceeds(x, script, q.response.value, file, active, q.redirects, q.env);
  }

  /** An undisturbed attempt escapes exactly on an overlong response. */
  lemma EscapesUndisturbed(x: Setup, script: Script, current: Option<ResumeState>, e: Env)
    requires PendingOk(current) && Streams(x, script, current, e)
    ensures Overruns(Attempt(x, script, current, e), x.identity) <==> Overlong(script.answer.response)
  {
    hide Attempt, Request, Overruns;
    OverrunsExactly(x, script, current, e);
    StagesExactly(x, script, current, e);
  }

  /** Honest responses are never overlong. */
  lemma HonestNotOverlong(named: Naming, identity: string, r: Response)
    requires Honest(named, identity, r) && ClassifyStatus(r.status).None?
    requires r.status == 206 && r.range.Range? ==> r.range.first <= r.range.last
    ensures !Overlong(r)
  {
    var whole :| Serves(named, identity, r, whole);
  }

  lemma AttemptOfLeaves(x: Setup, h: Head, a: AttemptEnd)
    requires IsAttempt(x, h, a) && PendingOk(h.current)
    ensures Leaves(x, h.current, h.env, a) && InheritsClean(a)
  {
    assert Shown(true);
    AttemptLeaves(x, x.scripts(h.n), h.current, h.env);
  }

  // ----- what the observers are told -----

  /** The bytes of a partial: those taken over with the file it started from and
      those received since, or not more than was received. */
  predicate BytesFrom(resume: ResumeState, start: Option<ResumeState>, got: nat) {
    if start.Some? && resume.partial.name == start.value.partial.name then |resume.partial.bytes| == |start.value.partial.bytes| + got
    else |resume.partial.bytes| <= got
  }

  predicate EndsAttempt(t: Transition, n: nat) {
    t.attempt == n && t.state != Running && t.outcome.Some? && t.outcome != Some(ProcessEnded)
  }

  /** A partial kept in attempt n: the attempt is retryable, interrupted (or
      cancelled by a cancellation since lifted) and announced no other size, and
      the partial is the pending one gone on with or has a new file. */
  predicate KeepsPartial(k: Event, t: Transition, n: nat, pending: Option<ResumeState>, start: Option<ResumeState>, got: nat,
                         files: nat)
    requires k.KeptPartial?
  {
    && k.attempt == n && k.got == got + t.received && ConstructedResume(k.resume) && |k.resume.partial.bytes| > 0
    && (t.size.None? || t.size == k.resume.size)
    && ((pending.Some? && k.resume.partial.name == pending.value.partial.name) || k.resume.partial.name >= files)
    && BytesFrom(k.resume, start, k.got)
    && t.retryable && t.outcome.Some? && !t.outcome.value.StorageFailure?
    && (t.state == Interrupted || (t.state == NotComplete && t.outcome == Some(Cancelled)))
  }

  function Beyond(files: nat, name: nat): nat {
    if name >= files then name + 1 else files
  }

  /** The events from attempt n on: each attempt is one running transition, at
      most one partial and one terminal transition; only the last may lack it. */
  predicate Tells(events: seq<Event>, n: nat, pending: Option<ResumeState>, start: Option<ResumeState>, got: nat, files: nat)
    decreases |events|
  {
    && |events| > 0 && events[0] == Began(RunningTransition(n, pending))
    && (|events| == 1 || (
          match events[1]
          case Began(_) => false
          case Ended(t) =>
            EndsAttempt(t, n) && (|events| == 2 || Tells(events[2..], n + 1, None, start, got + t.received, files))
          case KeptPartial(_, resume, _) =>
            && |events| > 2 && events[2].Ended? && EndsAttempt(events[2].transition, n)
            && KeepsPartial(events[1], events[2].transition, n, pending, start, got, files)
            && (|events| == 3 || Tells(events[3..], n + 1, Some(resume), start, events[1].got, Beyond(files, resume.partial.name)))))
  }

  /** A pending partial is the one the transfer started from, gone on with, or
      one of its own, and no file beyond `files` exists. */
  predicate PendingFrom(current: Option<ResumeState>, start: Option<ResumeState>, got: nat, files: nat, e: Env) {
    && PendingOk(current) && files <= e.files
    && (start.Some? ==> start.value.partial.name < files)
    && (current.Some? ==> current.value.partial.name < files && BytesFrom(current.value, start, got))
  }

  /** A failed attempt, settled and recorded. */
  ghost predicate LossOk(x: Setup, n: nat, current: Option<ResumeState>, got: nat, e: Env, start: Option<ResumeState>, files: nat,
                         received: nat, loss: Loss) {
    && EndsAttempt(loss.terminal, n) && loss.terminal.received == received && Sane(loss.settled)
    && loss.terminal.state != Complete && loss.terminal.outcome == Some(loss.settled.outcome) && loss.terminal.retryable == loss.settled.retryable
    && loss.env.files >= e.files && loss.env.used >= e.used + received
    && (e.used <= x.nature.maxBytes ==> loss.env.used <= x.nature.maxBytes)
    && if loss.kept.Some? then
         && KeepsPartial(KeptPartial(n, loss.kept.value, got + received), loss.terminal, n, current, start, got, files)
         && loss.kept.value.partial.identity == x.identity
         && PendingFrom(loss.kept, start, got + received, Beyond(files, loss.kept.value.partial.name), loss.env)
       else PendingFrom(None, start, got + received, files, loss.env)
  }

  lemma LoseOk(x: Setup, n: nat, current: Option<ResumeState>, status: Option<nat>, got: nat, e: Env,
               start: Option<ResumeState>, files: nat, a: AttemptEnd)
    requires PendingFrom(current, start, got, files, e) && 0 < n
    requires Leaves(x, current, e, a) && InheritsClean(a) && a.verdict.Failed? && !Overruns(a, x.identity)
    ensures LossOk(x, n, current, got, e, start, files, a.received, Lose(x, n, a, status))
  {
  }

  /** Every file a partial is kept in has been created by then. */
  predicate KeptBelow(events: seq<Event>, files: nat) {
    forall k | 0 <= k < |events| && events[k].KeptPartial? :: events[k].resume.partial.name < files
  }

  /** From attempt n on: what the observers are told, what is charged, and what
      the end says. */
  ghost predicate Runs(x: Setup, n: nat, current: Option<ResumeState>, start: Option<ResumeState>, got: nat, files: nat,
                       e: Env, t: Transferred) {
    && Tells(t.events, n, current, start, got, files) && KeptBelow(t.events, t.env.files)
    && t.env.used >= e.used + Received(t.events) && t.env.files >= e.files
    && (e.used <= x.nature.maxBytes ==> t.env.used <= x.nature.maxBytes)
    && (t.end.Returned? ==> Concludes(t.end.result, t.events))
  }

  /** The result repeats the last terminal transition; a resume is the last
      partial the observer was shown. */
  predicate Concludes(r: Result, events: seq<Event>) {
    && |events| >= 2 && events[|events| - 1].Ended?
    && var last := events[|events| - 1].transition;
      && r.state == last.state && r.status == last.status
      && (r.staged.Some? <==> r.state == Complete) && (r.staged.Some? ==> r.resume.None? && r.outcome == Downloaded)
      && (r.staged.None? ==> (Some(r.outcome) == last.outcome && r.retryable == last.retryable) || (r.outcome == TimedOut && r.retryable && last.retryable))
      && r.resume == (if events[|events| - 2].KeptPartial? then Some(events[|events| - 2].resume) else None)
      && (r.resume.Some? ==> r.retryable && !r.outcome.StorageFailure?)
  }

  lemma {:induction false} ReceivedAppend(a: seq<Event>, b: seq<Event>)
    ensures Received(a + b) == Received(a) + Received(b)
  {
    if a == [] {
      assert a + b == b;
    } else {
      ReceivedAppend(a[1..], b);
      assert (a + b)[1..] == a[1..] + b;
    }
  }

  lemma LossReceived(x: Setup, n: nat, current: Option<ResumeState>, loss: Loss, got: nat)
    ensures Received(LossEvents(x, n, current, loss, got)) == loss.terminal.received
  {
    var began := [Began(RunningTransition(n, current))];
    var kept := if loss.kept.Some? then [KeptPartial(n, loss.kept.value, got)] else [];
    ReceivedAppend(began + kept, [Ended(loss.terminal)]);
    ReceivedAppend(began, kept);
    ReceivedOne(began[0]);
    ReceivedOne(Ended(loss.terminal));
    if kept != [] { ReceivedOne(kept[0]); }
  }

  lemma ReceivedOne(e: Event)
    ensures Received([e]) == if e.Ended? then e.transition.received else 0
  {
    assert [e][1..] == [];
  }

  /** The events of one recorded loss, alone or before others. */
  lemma StopsRuns(x: Setup, n: nat, current: Option<ResumeState>, got: nat, e: Env, start: Option<ResumeState>, files: nat,
                  received: nat, loss: Loss, late: bool, env: Env)
    requires LossOk(x, n, current, got, e, start, files, received, loss)
    requires env.used == loss.env.used && env.files == loss.env.files && (late ==> loss.settled.retryable)
    ensures Runs(x, n, current, start, got, files, e,
                 Transferred(Returned(GivenUp(loss, late, got + received)), LossEvents(x, n, current, loss, got + received), [], env))
  {
    LossReceived(x, n, current, loss, got + received);
  }

  lemma KeptBelowAppend(a: seq<Event>, b: seq<Event>, files: nat)
    requires KeptBelow(a, files) && KeptBelow(b, files)
    ensures KeptBelow(a + b, files)
  {
  }

  lemma SleepsRuns(x: Setup, n: nat, current: Option<ResumeState>, got: nat, e: Env, start: Option<ResumeState>, files: nat,
                   received: nat, loss: Loss, naps: seq<Nap>, env: Env, rest: Transferred)
    requires LossOk(x, n, current, got, e, start, files, received, loss)
    requires env.used == loss.env.used && env.files == loss.env.files
    requires Runs(x, n + 1, loss.kept, start, got + received,
                  if loss.kept.Some? then Beyond(files, loss.kept.value.partial.name) else files, env, rest)
    ensures Runs(x, n, current, start, got, files, e,
                 Transferred(rest.end, LossEvents(x, n, current, loss, got + received) + rest.events, naps, rest.env))
  {
    var own := LossEvents(x, n, current, loss, got + received);
    var events := own + rest.events;
    ReceivedAppend(own, rest.events);
    LossReceived(x, n, current, loss, got + received);
    assert events[|own|..] == rest.events;
    KeptBelowAppend(own, rest.events, rest.env.files);
    assert |rest.events| >= 2 ==> events[|events| - 2] == rest.events[|rest.events| - 2];
  }

  lemma StagesRuns(x: Setup, n: nat, current: Option<ResumeState>, got: nat, e: Env, start: Option<ResumeState>, files: nat,
                   a: AttemptEnd)
    requires Leaves(x, current, e, a) && a.verdict.Staged?
    ensures Runs(x, n, current, start, got, files, e,
                 Transferred(Returned(Result(Complete, Downloaded, false, got + a.received, Some(a.verdict.bytes), None, a.status)),
                             [Began(RunningTransition(n, current)), Ended(Terminal(n, Complete, Failure(Downloaded, false), a, a.status))], [], a.env))
  {
    var began, ended := Began(RunningTransition(n, current)), Ended(Terminal(n, Complete, Failure(Downloaded, false), a, a.status));
    ReceivedAppend([began], [ended]);
    ReceivedOne(began);
    ReceivedOne(ended);
    assert [began] + [ended] == [began, ended];
  }

  /** The file names the next attempt may not draw. */
  function NextBound(x: Setup, h: Head, a: AttemptEnd, files: nat): nat
    requires h.n > 0 && a.verdict.Failed?
  {
    var kept := Lose(x, h.n, a, h.status).kept;
    if kept.Some? then Beyond(files, kept.value.partial.name) else files
  }

  lemma NextPending(x: Setup, h: Head, a: AttemptEnd, start: Option<ResumeState>, files: nat)
    requires GoesOn(x, h, a) && PendingFrom(h.current, start, h.got, files, h.env) && Leaves(x, h.current, h.env, a) && InheritsClean(a)
    ensures var next := NextHead(x, h, a); PendingFrom(next.current, start, next.got, NextBound(x, h, a, files), next.env)
  {
    LoseOk(x, h.n, h.current, h.status, h.got, h.env, start, files, a);
  }

  lemma EscapeRuns(x: Setup, h: Head, a: AttemptEnd, t: Transferred, start: Option<ResumeState>, files: nat)
    requires Leaves(x, h.current, h.env, a) && t == Transferred(RaisedValueError, [Began(RunningTransition(h.n, h.current))], [], a.env)
    ensures Runs(x, h.n, h.current, start, h.got, files, h.env, t)
  {
    ReceivedOne(Began(RunningTransition(h.n, h.current)));
  }

  lemma SleepTurnRuns(x: Setup, h: Head, a: AttemptEnd, t: Transferred, rest: Transferred, start: Option<ResumeState>, files: nat)
    requires Turns(x, h, a, t, rest) && GoesOn(x, h, a)
    requires LossOk(x, h.n, h.current, h.got, h.env, start, files, a.received, Lose(x, h.n, a, h.status))
    requires var next := NextHead(x, h, a); Runs(x, next.n, next.current, start, next.got, NextBound(x, h, a, files), next.env, rest)
    ensures Runs(x, h.n, h.current, start, h.got, files, h.env, t)
  {
    hide Runs, LossOk;
    var loss := Lose(x, h.n, a, h.status);
    var p := Pause(x, loss.terminal, loss.env);
    SleepsRuns(x, h.n, h.current, h.got, h.env, start, files, a.received, loss, [p.nap] + rest.naps, p.env, rest);
  }

  lemma StopTurnRuns(x: Setup, h: Head, a: AttemptEnd, t: Transferred, rest: Transferred, start: Option<ResumeState>, files: nat)
    requires Turns(x, h, a, t, rest) && a.verdict.Failed? && !Overruns(a, x.identity) && !GoesOn(x, h, a)
    requires LossOk(x, h.n, h.current, h.got, h.env, start, files, a.received, Lose(x, h.n, a, h.status))
    ensures Runs(x, h.n, h.current, start, h.got, files, h.env, t)
  {
    hide Runs, LossOk;
    var loss := Lose(x, h.n, a, h.status);
    var p := Pause(x, loss.terminal, loss.env);
    StopsRuns(x, h.n, h.current, h.got, h.env, start, files, a.received, loss, p.TooLate?, p.env);
  }

  lemma LossTurnRuns(x: Setup, h: Head, a: AttemptEnd, t: Transferred, rest: Transferred, start: Option<ResumeState>, files: nat)
    requires Turns(x, h, a, t, rest) && a.verdict.Failed? && !Overruns(a, x.identity)
    requires LossOk(x, h.n, h.current, h.got, h.env, start, files, a.received, Lose(x, h.n, a, h.status))
    requires GoesOn(x, h, a) ==>
               var next := NextHead(x, h, a); Runs(x, next.n, next.current, start, next.got, NextBound(x, h, a, files), next.env, rest)
    ensures Runs(x, h.n, h.current, start, h.got, files, h.env, t)
  {
    if GoesOn(x, h, a) {
      SleepTurnRuns(x, h, a, t, rest, start, files);
    } else {
      StopTurnRuns(x, h, a, t, rest, start, files);
    }
  }

  lemma {:induction false} FromRuns(x: Setup, h: Head, t: Transferred, start: Option<ResumeState>, files: nat)
    requires IsFrom(x, h, t) && PendingFrom(h.current, start, h.got, files, h.env)
    ensures Runs(x, h.n, h.current, start, h.got, files, h.env, t)
    decreases x.limits.maxAttempts - h.n
  {
    var a, rest := Unfold(x, h, t);
    AttemptOfLeaves(x, h, a);
    if a.verdict.Staged? {
      StagesRuns(x, h.n, h.current, h.got, h.env, start, files, a);
    } else if Overruns(a, x.identity) {
      EscapeRuns(x, h, a, t, start, files);
    } else {
      if GoesOn(x, h, a) {
        NextPending(x, h, a, start, files);
        FromRuns(x, NextHead(x, h, a), rest, start, NextBound(x, h, a, files));
      }
      LoseOk(x, h.n, h.current, h.status, h.got, h.env, start, files, a);
      LossTurnRuns(x, h, a, t, rest, start, files);
    }
  }
}

/** The catalog tables that account reviews read and write, what each review
    does to them, and the invariant every run keeps. */
module IdentityTables {

  import opened Basics
  import opened Graph

  datatype ReviewState = Pending | Confirmed | Rejected
  datatype Relation = SameIdentity | OfficiallyLinked
  datatype ObjectKind = AccountObject | OtherObject

  datatype Candidate = Candidate(
    subject: nat, target: Option<nat>, reference: Option<nat>, relation: Relation,
    state: ReviewState, generation: nat, revision: nat)
  datatype Decision = Decision(candidate: nat, prior: ReviewState, verdict: ReviewState, generation: nat)
  datatype Membership = Membership(identity: nat, candidate: nat, decision: nat)
  datatype Account = Account(platform: nat, native: string)
  datatype Reference = Reference(kind: ObjectKind, stableId: bool, platform: nat, native: string, resolved: Option<nat>)

  /** `members` is identity_accounts, whose account_id column is unique. */
  datatype Tables = Tables(
    candidates: map<nat, Candidate>, decisions: map<nat, Decision>, references: map<nat, Reference>,
    accounts: map<nat, Account>, identities: set<nat>, members: map<nat, Membership>)

  // ----- the confirmed graph -----

  predicate IsConfirmedEdge(c: Candidate) {
    c.state == Confirmed && c.relation == SameIdentity && c.target.Some?
  }

  function EdgeOf(c: Candidate): Edge
    requires c.target.Some?
  {
    Edge(c.subject, c.target.value)
  }

  ghost function ConfirmedGraph(candidates: map<nat, Candidate>): set<Edge> {
    set id | id in candidates && IsConfirmedEdge(candidates[id]) :: EdgeOf(candidates[id])
  }

  // ----- the invariant -----

  // Foreign keys, CHECK and UNIQUE constraints of the schema.

  ghost predicate CandidateRow(accounts: map<nat, Account>, references: map<nat, Reference>, c: Candidate) {
    && c.subject in accounts
    && (c.target.None? <==> c.reference.Some?)
    && (c.target.Some? ==> c.target.value in accounts && c.target.value != c.subject)
    && (c.reference.Some? ==> c.reference.value in references)
  }

  ghost predicate CandidateRows(candidates: map<nat, Candidate>, accounts: map<nat, Account>, references: map<nat, Reference>) {
    forall id {:trigger CandidateRow(accounts, references, candidates[id])} | id in candidates ::
      CandidateRow(accounts, references, candidates[id])
  }

  ghost predicate UniqueAccounts(accounts: map<nat, Account>) {
    forall a, b {:trigger accounts[a], accounts[b]} | a in accounts && b in accounts && accounts[a] == accounts[b] :: a == b
  }

  ghost predicate MemberRows(members: map<nat, Membership>, accounts: map<nat, Account>, identities: set<nat>) {
    forall a {:trigger members[a]} | a in members :: a in accounts && members[a].identity in identities
  }

  ghost predicate Schema(t: Tables) {
    && CandidateRows(t.candidates, t.accounts, t.references)
    && UniqueAccounts(t.accounts)
    && MemberRows(t.members, t.accounts, t.identities)
  }

  /** A membership row cites a candidate that is confirmed now and ends at the
      account, and a "confirmed" decision on that very candidate. */
  ghost predicate Evidence(candidates: map<nat, Candidate>, decisions: map<nat, Decision>, account: nat, m: Membership) {
    && m.candidate in candidates && IsConfirmedEdge(candidates[m.candidate])
    && EndpointOf(EdgeOf(candidates[m.candidate]), account)
    && m.decision in decisions && IsConfirmation(decisions[m.decision], m.candidate)
  }

  /** Identities are exactly the connected components of the confirmed graph
      that hold an edge. */
  ghost predicate PartitionOk(es: set<Edge>, members: map<nat, Membership>) {
    && (forall a :: a in members <==> Touches(es, a))
    && (forall a, b | a in members && b in members ::
          members[a].identity == members[b].identity <==> Connected(es, a, b))
  }

  ghost predicate Used(members: map<nat, Membership>, identity: nat) {
    exists a :: a in members && members[a].identity == identity
  }

  /** A confirmed same-identity candidate has its target account and a
      recorded confirmation. */
  ghost predicate ConfirmedRow(decisions: map<nat, Decision>, id: nat, c: Candidate) {
    c.state == Confirmed && c.relation == SameIdentity ==> c.target.Some? && HasConfirmation(decisions, id)
  }

  ghost predicate ConfirmedRows(candidates: map<nat, Candidate>, decisions: map<nat, Decision>) {
    forall id {:trigger ConfirmedRow(decisions, id, candidates[id])} | id in candidates ::
      ConfirmedRow(decisions, id, candidates[id])
  }

  ghost predicate EvidenceRows(candidates: map<nat, Candidate>, decisions: map<nat, Decision>, members: map<nat, Membership>) {
    forall a {:trigger Evidence(candidates, decisions, a, members[a])} | a in members ::
      Evidence(candidates, decisions, a, members[a])
  }

  ghost predicate NoEmptyIdentity(identities: set<nat>, members: map<nat, Membership>) {
    forall i {:trigger Used(members, i)} :: i in identities <==> Used(members, i)
  }

  ghost predicate HasConfirmation(decisions: map<nat, Decision>, id: nat) {
    exists d :: d in decisions && IsConfirmation(decisions[d], id)
  }

  predicate IsConfirmation(d: Decision, candidate: nat) {
    d.candidate == candidate && d.verdict == Confirmed
  }

  ghost predicate NewestConfirmation(decisions: map<nat, Decision>, m: Membership) {
    forall d | d in decisions && IsConfirmation(decisions[d], m.candidate) :: d <= m.decision
  }

  ghost predicate Inv(t: Tables) {
    && Schema(t)
    && PartitionOk(ConfirmedGraph(t.candidates), t.members)
    && EvidenceRows(t.candidates, t.decisions, t.members)
    && NoEmptyIdentity(t.identities, t.members)
    && ConfirmedRows(t.candidates, t.decisions)
  }

  // ----- what one review does -----

  datatype Request = Request(
    candidate: nat, verdict: ReviewState, expectedGeneration: Option<nat>, expectedRevision: Option<nat>)
  datatype Refusal =
    | NotFound | StaleGeneration | StaleRevision
    | NoCompatibleTarget | NoStableId | SelfTarget | IdentityConflict
  datatype Outcome = Refused(reason: Refusal) | Recorded(decision: nat, identity: Option<nat>)

  /** The account a candidate points at, directly or through its reference. */
  ghost predicate PointsAt(t: Tables, c: Candidate, account: nat) {
    if c.target.Some? then account == c.target.value
    else c.reference.Some? && c.reference.value in t.references && account in t.accounts
         && t.accounts[account] == ReferencedAccount(t.references[c.reference.value])
  }

  function ReferencedAccount(r: Reference): Account {
    Account(r.platform, r.native)
  }

  ghost predicate InTwoIdentities(members: map<nat, Membership>, a: nat, b: nat) {
    a in members && b in members && members[a].identity != members[b].identity
  }

  predicate Confirms(c: Candidate, req: Request) {
    req.verdict == Confirmed && c.relation == SameIdentity
  }

  predicate Unconfirms(c: Candidate, req: Request) {
    req.verdict != Confirmed && c.relation == SameIdentity && c.state == Confirmed
  }

  /** Exactly when a review is refused, and with which error. */
  ghost predicate Refuses(t: Tables, req: Request, reason: Refusal) {
    if req.candidate !in t.candidates then reason == NotFound
    else
      var c := t.candidates[req.candidate];
      if req.expectedGeneration.Some? && req.expectedGeneration.value != c.generation then reason == StaleGeneration
      else if req.expectedRevision.Some? && req.expectedRevision.value != c.revision then reason == StaleRevision
      else Confirms(c, req) && RefusesTarget(t, c, reason)
  }

  ghost predicate RefusesTarget(t: Tables, c: Candidate, reason: Refusal) {
    if c.target.None? && !(c.reference.Some? && c.reference.value in t.references
                           && t.references[c.reference.value].kind == AccountObject) then reason == NoCompatibleTarget
    else if c.target.None? && !t.references[c.reference.value].stableId then reason == NoStableId
    else if PointsAt(t, c, c.subject) then reason == SelfTarget
    else reason == IdentityConflict && exists x :: PointsAt(t, c, x) && InTwoIdentities(t.members, c.subject, x)
  }

  /** The requests that go through. */
  ghost predicate Accepts(t: Tables, req: Request) {
    && req.candidate in t.candidates
    && var c := t.candidates[req.candidate];
       && (req.expectedGeneration.Some? ==> req.expectedGeneration.value == c.generation)
       && (req.expectedRevision.Some? ==> req.expectedRevision.value == c.revision)
       && (Confirms(c, req) ==> HasTarget(t, c) && !PointsAt(t, c, c.subject) && MergesNothing(t, c))
  }

  ghost predicate HasTarget(t: Tables, c: Candidate) {
    c.target.Some? || (c.reference.Some? && c.reference.value in t.references
                       && t.references[c.reference.value].kind == AccountObject && t.references[c.reference.value].stableId)
  }

  ghost predicate MergesNothing(t: Tables, c: Candidate) {
    forall x | PointsAt(t, c, x) :: !InTwoIdentities(t.members, c.subject, x)
  }

  /** A request is refused, with one of the errors, exactly when it does not go
      through. */
  lemma RefusesOrAccepts(t: Tables, req: Request)
    ensures (exists reason :: Refuses(t, req, reason)) <==> !Accepts(t, req)
  {
    if !Accepts(t, req) {
      if req.candidate !in t.candidates {
        assert Refuses(t, req, NotFound);
      } else {
        var c := t.candidates[req.candidate];
        if req.expectedGeneration.Some? && req.expectedGeneration.value != c.generation {
          assert Refuses(t, req, StaleGeneration);
        } else if req.expectedRevision.Some? && req.expectedRevision.value != c.revision {
          assert Refuses(t, req, StaleRevision);
        } else if c.target.None? && !(c.reference.Some? && c.reference.value in t.references
                                      && t.references[c.reference.value].kind == AccountObject) {
          assert Refuses(t, req, NoCompatibleTarget);
        } else if !HasTarget(t, c) {
          assert Refuses(t, req, NoStableId);
        } else if PointsAt(t, c, c.subject) {
          assert Refuses(t, req, SelfTarget);
        } else {
          assert Refuses(t, req, IdentityConflict);
        }
      }
    }
  }

  /** The candidate row and the appended decision, common to every review. */
  ghost predicate Marked(t: Tables, req: Request, decision: nat, t': Tables)
    requires req.candidate in t.candidates
  {
    var c := t.candidates[req.candidate];
    && decision !in t.decisions
    && t' == t.(
         candidates := t.candidates[req.candidate := c.(state := req.verdict, revision := c.revision + 1)],
         decisions := t.decisions[decision := Decision(req.candidate, c.state, req.verdict, c.generation)])
  }

  /** The target of a confirmed candidate becomes an account, new or known. */
  ghost predicate Resolved(t: Tables, id: nat, target: nat, t': Tables)
    requires id in t.candidates
  {
    var c := t.candidates[id];
    if c.target.Some? then target == c.target.value && t' == t
    else
      && c.reference.Some? && c.reference.value in t.references
      && var r := t.references[c.reference.value];
         && (if exists a :: PointsAt(t, c, a) then PointsAt(t, c, target) else target !in t.accounts)
         && t' == t.(
              accounts := t.accounts[target := ReferencedAccount(r)],
              references := t.references[c.reference.value := r.(resolved := Some(target))],
              candidates := t.candidates[id := c.(target := Some(target), reference := None)])
  }

  ghost function AddMember(members: map<nat, Membership>, account: nat, m: Membership): map<nat, Membership> {
    if account in members then members else members[account := m]
  }

  /** The incremental confirmation: join, extend, or create an identity. */
  ghost predicate Attached(t: Tables, a: nat, b: nat, m: Membership, t': Tables) {
    && (if a in t.members then m.identity == t.members[a].identity
        else if b in t.members then m.identity == t.members[b].identity
        else m.identity !in t.identities)
    && t' == t.(identities := t.identities + {m.identity},
                members := AddMember(AddMember(t.members, a, m), b, m))
  }

  function EndsOf(c: Candidate): set<nat> {
    {c.subject} + (if c.target.Some? then {c.target.value} else {})
  }

  /** The accounts a rebuild starts from: both ends of the edge and everybody
      in their identities. */
  ghost function RebuildStart(members: map<nat, Membership>, ends: set<nat>): set<nat> {
    ends + OldGroups(members, ends).Keys
  }

  ghost predicate SharesIdentity(members: map<nat, Membership>, ends: set<nat>, a: nat)
    requires a in members
  {
    exists b :: b in ends && b in members && members[b].identity == members[a].identity
  }

  /** The members of the dissolved identities, with those identities. */
  ghost function OldGroups(members: map<nat, Membership>, ends: set<nat>): map<nat, nat> {
    map a | a in members && SharesIdentity(members, ends, a) :: members[a].identity
  }

  /** What a rebuild establishes over the closed set it works on, from any
      tables at all: every component with an edge is one identity, told apart
      from all others, with fresh evidence for each account; a component takes
      a new identity only when its old ones were all taken. */
  ghost predicate RebuiltOver(t: Tables, ends: set<nat>, within: set<nat>, t': Tables) {
    var es := ConfirmedGraph(t.candidates);
    && IsClosure(es, RebuildStart(t.members, ends), within)
    && t' == t.(identities := t'.identities, members := t'.members)
    && NoEmptyIdentity(t'.identities, t'.members)
    && (forall a | a !in within :: a in t'.members <==> a in t.members)
    && (forall a | a !in within && a in t.members :: t'.members[a] == t.members[a])
    && (forall a | a in within :: a in t'.members <==> Touches(es, a))
    && (forall a | a in within && a in t'.members :: Evidence(t.candidates, t.decisions, a, t'.members[a]))
    && (forall a | a in within && a in t'.members :: NewestConfirmation(t.decisions, t'.members[a]))
    && (forall a, b | a in within && a in t'.members && b in t'.members ::
          t'.members[a].identity == t'.members[b].identity <==> Connected(es, a, b))
    && (forall a, b | a in within && a in t'.members && b in OldGroups(t.members, ends) && Connected(es, a, b)
          && t'.members[a].identity !in t.identities :: Used(t'.members, t.members[b].identity))
  }

  ghost predicate Rebuilt(t: Tables, ends: set<nat>, t': Tables) {
    exists within :: RebuiltOver(t, ends, within, t')
  }

  /** One call of review: its outcome and the tables after it. */
  ghost predicate Reviewed(t: Tables, req: Request, r: Outcome, t': Tables) {
    match r
    case Refused(reason) => Refuses(t, req, reason) && t' == t
    case Recorded(decision, identity) =>
      && Accepts(t, req)
      && exists marked :: Marked(t, req, decision, marked) && Completed(marked, t.candidates[req.candidate], req, decision, identity, t')
  }

  ghost predicate Completed(t: Tables, c: Candidate, req: Request, decision: nat, identity: Option<nat>, t': Tables)
    requires req.candidate in t.candidates
  {
    if Confirms(c, req) then
      && identity.Some?
      && exists target, resolved ::
           Resolved(t, req.candidate, target, resolved)
           && Attached(resolved, c.subject, target, Membership(identity.value, req.candidate, decision), t')
    else
      && identity.None?
      && if Unconfirms(c, req)
         then Rebuilt(t, EndsOf(c), t')
         else t' == t
  }

  // ----- runs -----

  /** What discovery and lookups may do between reviews: add accounts and
      references, add pending candidates, count evidence, and give a candidate
      without a target account its target. Rows are never removed. */
  ghost predicate Discovered(t: Tables, t': Tables) {
    && CandidateRows(t'.candidates, t'.accounts, t'.references) && UniqueAccounts(t'.accounts)
    && (forall a | a in t.accounts :: a in t'.accounts && t'.accounts[a] == t.accounts[a])
    && (forall id | id in t.candidates :: id in t'.candidates && Rediscovered(t.candidates[id], t'.candidates[id]))
    && (forall id | id in t'.candidates && id !in t.candidates :: t'.candidates[id].state == Pending)
    && t'.decisions == t.decisions && t'.identities == t.identities && t'.members == t.members
  }

  ghost predicate Rediscovered(c: Candidate, c': Candidate) {
    && (c.target.Some? ==> c'.target == c.target)
    && c' == c.(target := c'.target, reference := c'.reference, generation := c'.generation)
  }

  ghost predicate RunStep(t: Tables, t': Tables) {
    (exists req, r :: Reviewed(t, req, r, t')) || Discovered(t, t')
  }

  ghost predicate StepAt(ts: seq<Tables>, i: nat)
    requires i + 1 < |ts|
  {
    RunStep(ts[i], ts[i + 1])
  }

  /** Any sequence of reviews, accepted and refused, and discoveries from an
      empty catalog. */
  ghost predicate Run(ts: seq<Tables>) {
    && |ts| > 0 && ts[0] == Tables(map[], map[], map[], map[], {}, map[])
    && forall i {:trigger StepAt(ts, i)} | 0 <= i < |ts| - 1 :: StepAt(ts, i)
  }
}

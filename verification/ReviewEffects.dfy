/** What a review does to the tables, row by row and field by field. */
module ReviewEffects {

  import opened Basics
  import opened IdentityTables

  // ----- the account a confirmation joins -----

  /** The account has the platform and the native id the reference gives. */
  predicate Names(r: Reference, a: Account) {
    a.platform == r.platform && a.native == r.native
  }

  /** Some account already has what the reference gives. */
  predicate Known(t: Tables, r: Reference) {
    exists a :: a in t.accounts && Names(r, t.accounts[a])
  }

  /** The confirmed candidate and nothing else points at the target. */
  predicate Retargeted(t: Tables, id: nat, target: nat, t': Tables)
    requires id in t.candidates
  {
    var c := t.candidates[id];
    && t'.candidates.Keys == t.candidates.Keys && (forall i | i in t.candidates && i != id :: t'.candidates[i] == t.candidates[i])
    && t'.candidates[id].target == Some(target) && t'.candidates[id].subject == c.subject && target != c.subject
    && t'.candidates[id].state == Confirmed && t'.candidates[id].relation == c.relation
    && t'.candidates[id].revision == c.revision + 1 && t'.candidates[id].generation == c.generation
    && (c.target.Some? ==> target == c.target.value && t'.candidates[id].reference == c.reference)
    && (c.target.None? ==> t'.candidates[id].reference == None)
  }

  /** The target is the one account that the reference names: a known one, or
      one that is added; and the reference resolves to it. */
  predicate NamedTarget(t: Tables, reference: nat, target: nat, t': Tables)
    requires reference in t.references
  {
    var r := t.references[reference];
    && r.kind == AccountObject && r.stableId
    && target in t'.accounts && t'.accounts[target].platform == r.platform && t'.accounts[target].native == r.native
    && (forall a | a in t.accounts :: a in t'.accounts && t'.accounts[a] == t.accounts[a])
    && (Known(t, r) ==> target in t.accounts && t'.accounts.Keys == t.accounts.Keys)
    && (!Known(t, r) ==> target !in t.accounts && t'.accounts.Keys == t.accounts.Keys + {target})
    && t'.references.Keys == t.references.Keys
    && t'.references[reference] == r.(resolved := Some(target))
    && (forall i | i in t.references && i != reference :: t'.references[i] == t.references[i])
  }

  /** Both accounts are members of the identity, and every old member stays. */
  predicate Joined(t: Tables, a: nat, b: nat, identity: nat, t': Tables) {
    && t'.members.Keys == t.members.Keys + {a, b} && (forall x | x in t.members :: t'.members[x] == t.members[x])
    && t'.members[a].identity == identity && t'.members[b].identity == identity && t'.identities == t.identities + {identity}
  }

  predicate DecisionAdded(t: Tables, req: Request, decision: nat, t': Tables)
    requires req.candidate in t.candidates
  {
    var c := t.candidates[req.candidate];
    && decision !in t.decisions && t'.decisions.Keys == t.decisions.Keys + {decision}
    && (forall d | d in t.decisions :: t'.decisions[d] == t.decisions[d])
    && t'.decisions[decision] == Decision(req.candidate, c.state, req.verdict, c.generation)
  }

  lemma ResolvedNames(t: Tables, marked: Tables, id: nat, target: nat, resolved: Tables)
    requires Schema(t) && id in t.candidates && id in marked.candidates && t.candidates[id].target.None?
    requires marked.accounts == t.accounts && marked.references == t.references
    requires marked.candidates[id].target.None? && marked.candidates[id].reference == t.candidates[id].reference
    requires HasTarget(t, t.candidates[id]) && Resolved(marked, id, target, resolved)
    ensures NamedTarget(t, t.candidates[id].reference.value, target, resolved)
  {
    var r, c := t.references[t.candidates[id].reference.value], marked.candidates[id];
    forall a | a in t.accounts ensures PointsAt(marked, c, a) <==> Names(r, t.accounts[a]) {}
  }

  lemma MembersThere(t: Tables)
    requires Schema(t)
    ensures forall a | a in t.members :: a in t.accounts
  {
    forall a | a in t.members ensures a in t.accounts { assert t.members[a] == t.members[a]; }
  }

  lemma ResolvedElsewhere(t: Tables, c: Candidate, r: Reference, target: nat)
    requires Schema(t) && CandidateRow(t.accounts, t.references, c) && HasTarget(t, c) && !PointsAt(t, c, c.subject)
    requires if c.target.Some? then target == c.target.value
             else
               && r == t.references[c.reference.value]
               && (if Known(t, r) then target in t.accounts && Names(r, t.accounts[target]) else target !in t.accounts)
    ensures target != c.subject
    ensures MergesNothing(t, c) ==> !InTwoIdentities(t.members, c.subject, target)
  {
    if c.target.Some? || Known(t, r) { assert PointsAt(t, c, target); }
    MembersThere(t);
  }

  /** The same when the candidate has its target already. */
  lemma TargetJoins(t: Tables, marked: Tables, req: Request, decision: nat, identity: nat, target: nat, resolved: Tables,
                    t': Tables)
    requires Inv(t) && Accepts(t, req) && Confirms(t.candidates[req.candidate], req) && Marked(t, req, decision, marked)
    requires Resolved(marked, req.candidate, target, resolved)
    requires Attached(resolved, t.candidates[req.candidate].subject, target, Membership(identity, req.candidate, decision), t')
    requires t.candidates[req.candidate].target.Some?
    ensures Retargeted(t, req.candidate, target, t') && Joined(t, t.candidates[req.candidate].subject, target, identity, t')
    ensures t'.accounts == t.accounts && t'.references == t.references
  {
    hide PartitionOk, EvidenceRows, NoEmptyIdentity;
    var c := t.candidates[req.candidate];
    assert CandidateRow(t.accounts, t.references, c);
    ResolvedElsewhere(t, c, Reference(AccountObject, true, 0, "", None), target);
    AttachedJoins(t, resolved, c.subject, target, Membership(identity, req.candidate, decision), t');
  }

  lemma ReferenceJoins(t: Tables, marked: Tables, req: Request, decision: nat, identity: nat, target: nat, resolved: Tables,
                       t': Tables)
    requires Inv(t) && Accepts(t, req) && Confirms(t.candidates[req.candidate], req) && Marked(t, req, decision, marked)
    requires Resolved(marked, req.candidate, target, resolved)
    requires Attached(resolved, t.candidates[req.candidate].subject, target, Membership(identity, req.candidate, decision), t')
    requires t.candidates[req.candidate].target.None?
    ensures Retargeted(t, req.candidate, target, t') && Joined(t, t.candidates[req.candidate].subject, target, identity, t')
    ensures var c := t.candidates[req.candidate];
      c.reference.Some? && c.reference.value in t.references && NamedTarget(t, c.reference.value, target, t')
  {
    hide PartitionOk, EvidenceRows, NoEmptyIdentity;
    var c := t.candidates[req.candidate];
    assert CandidateRow(t.accounts, t.references, c);
    ResolvedNames(t, marked, req.candidate, target, resolved);
    ResolvedElsewhere(t, c, t.references[c.reference.value], target);
    AttachedJoins(t, resolved, c.subject, target, Membership(identity, req.candidate, decision), t');
  }

  /** A recorded confirmation joins the candidate's subject with the target it
      has, or else with the account its reference names. */
  lemma ConfirmationJoins(t: Tables, req: Request, decision: nat, identity: Option<nat>, t': Tables) returns (target: nat)
    requires Inv(t) && Reviewed(t, req, Recorded(decision, identity), t')
    requires req.verdict == Confirmed && t.candidates[req.candidate].relation == SameIdentity
    ensures DecisionAdded(t, req, decision, t') && Retargeted(t, req.candidate, target, t')
    ensures var c := t.candidates[req.candidate];
      && identity.Some? && Joined(t, c.subject, target, identity.value, t')
      && (c.target.Some? ==> t'.accounts == t.accounts && t'.references == t.references)
      && (c.target.None? ==> c.reference.Some? && c.reference.value in t.references && NamedTarget(t, c.reference.value, target, t'))
  {
    hide NamedTarget, Joined, Retargeted, Inv;
    var c := t.candidates[req.candidate];
    var marked :| Marked(t, req, decision, marked) && Completed(marked, c, req, decision, identity, t');
    var joined, resolved :| Resolved(marked, req.candidate, joined, resolved)
                            && Attached(resolved, c.subject, joined, Membership(identity.value, req.candidate, decision), t');
    target := joined;
    if c.target.None? {
      ReferenceJoins(t, marked, req, decision, identity.value, target, resolved, t');
    } else {
      TargetJoins(t, marked, req, decision, identity.value, target, resolved, t');
    }
  }

  /** The same as a fact about the two states. */
  ghost predicate JoinsNamed(t: Tables, req: Request, decision: nat, identity: Option<nat>, t': Tables) {
    req.candidate in t.candidates && DecisionAdded(t, req, decision, t') && identity.Some? && exists target ::
      && Retargeted(t, req.candidate, target, t')
      && Joined(t, t.candidates[req.candidate].subject, target, identity.value, t')
      && (t.candidates[req.candidate].target.Some? ==> t'.accounts == t.accounts && t'.references == t.references)
      && (t.candidates[req.candidate].target.None? ==>
            && t.candidates[req.candidate].reference.Some? && t.candidates[req.candidate].reference.value in t.references
            && NamedTarget(t, t.candidates[req.candidate].reference.value, target, t'))
  }

  lemma ConfirmationShown(t: Tables, req: Request, decision: nat, identity: Option<nat>, t': Tables)
    requires Inv(t) && Reviewed(t, req, Recorded(decision, identity), t')
    requires req.verdict == Confirmed && req.candidate in t.candidates && t.candidates[req.candidate].relation == SameIdentity
    ensures JoinsNamed(t, req, decision, identity, t')
  {
    hide Inv, Reviewed, NamedTarget, Joined, Retargeted, DecisionAdded;
    var target := ConfirmationJoins(t, req, decision, identity, t');
  }

  lemma AttachedJoins(t: Tables, resolved: Tables, a: nat, b: nat, m: Membership, t': Tables)
    requires Attached(resolved, a, b, m, t') && resolved.members == t.members && resolved.identities == t.identities
    requires !InTwoIdentities(t.members, a, b)
    ensures Joined(t, a, b, m.identity, t')
  {
  }

  // ----- why a review is refused -----

  /** A candidate that is not there, or that is not in the generation or the
      revision the reviewer saw, is refused, in this order; and a refused review
      writes nothing. */
  lemma ExpectationsChecked(t: Tables, req: Request, r: Outcome, t': Tables)
    requires Reviewed(t, req, r, t')
    ensures r.Refused? ==> t' == t
    ensures r == Refused(NotFound) <==> req.candidate !in t.candidates
    ensures req.candidate in t.candidates ==>
      var c := t.candidates[req.candidate];
      var stale := req.expectedGeneration.Some? && req.expectedGeneration.value != c.generation;
      && (r == Refused(StaleGeneration) <==> stale)
      && (r == Refused(StaleRevision) <==> !stale && req.expectedRevision.Some? && req.expectedRevision.value != c.revision)
  {
    hide Completed, PointsAt;
  }

  /** The reasons a confirmation of a current candidate is refused, in the order
      they are looked for. */
  lemma ConfirmationRefused(t: Tables, req: Request, reason: Refusal)
    requires Inv(t) && req.candidate in t.candidates && req.verdict == Confirmed
    requires req.expectedGeneration.None? || req.expectedGeneration.value == t.candidates[req.candidate].generation
    requires req.expectedRevision.None? || req.expectedRevision.value == t.candidates[req.candidate].revision
    requires t.candidates[req.candidate].relation == SameIdentity
    ensures var c := t.candidates[req.candidate];
      c.subject in t.accounts && (c.target.None? ==> c.reference.Some? && c.reference.value in t.references)
    ensures var c := t.candidates[req.candidate];
      Refuses(t, req, reason) <==>
        if c.target.Some? then
          && reason == IdentityConflict && c.subject in t.members && c.target.value in t.members
          && t.members[c.subject].identity != t.members[c.target.value].identity
        else
          var r := t.references[c.reference.value];
          if r.kind != AccountObject then reason == NoCompatibleTarget
          else if !r.stableId then reason == NoStableId
          else if t.accounts[c.subject].platform == r.platform && t.accounts[c.subject].native == r.native then reason == SelfTarget
          else reason == IdentityConflict && exists a :: && a in t.accounts && t.accounts[a].platform == r.platform && t.accounts[a].native == r.native
                                                         && a in t.members && c.subject in t.members
                                                         && t.members[a].identity != t.members[c.subject].identity
  {
    var c := t.candidates[req.candidate];
    assert CandidateRow(t.accounts, t.references, c);
    MembersThere(t);
    if c.target.Some? {
      assert PointsAt(t, c, c.target.value);
    } else {
      var r := t.references[c.reference.value];
      forall a | a in t.accounts ensures PointsAt(t, c, a) <==> Names(r, t.accounts[a]) {}
      assert forall a | a in t.accounts && a in t.members && PointsAt(t, c, a) :: InTwoIdentities(t.members, c.subject, a) <==>
        c.subject in t.members && t.members[a].identity != t.members[c.subject].identity;
      if a :| a in t.accounts && Names(r, t.accounts[a]) && InTwoIdentities(t.members, c.subject, a) { assert PointsAt(t, c, a); }
    }
  }

  // ----- the other reviews -----

  /** Any other verdict changes the candidate's state and revision and adds the
      decision; memberships change only when a confirmed edge is withdrawn. */
  lemma OtherReviews(t: Tables, req: Request, decision: nat, identity: Option<nat>, t': Tables)
    requires Inv(t) && Reviewed(t, req, Recorded(decision, identity), t')
    requires req.verdict != Confirmed || t.candidates[req.candidate].relation != SameIdentity
    ensures DecisionAdded(t, req, decision, t') && identity.None?
    ensures var c := t.candidates[req.candidate];
      && t'.candidates == t.candidates[req.candidate := c.(state := req.verdict, revision := c.revision + 1)]
      && t'.accounts == t.accounts && t'.references == t.references
      && (!(c.relation == SameIdentity && c.state == Confirmed) ==> t'.members == t.members && t'.identities == t.identities)
  {
    hide Inv, Rebuilt;
    var c := t.candidates[req.candidate];
    var marked :| Marked(t, req, decision, marked) && Completed(marked, c, req, decision, identity, t');
    if Unconfirms(c, req) { RebuildTouches(marked, EndsOf(c), t'); }
  }

  /** A rebuild writes memberships and identities only. */
  lemma RebuildTouches(t: Tables, ends: set<nat>, t': Tables)
    requires Rebuilt(t, ends, t')
    ensures t' == t.(identities := t'.identities, members := t'.members)
  {
    hide RebuildStart, Evidence, NewestConfirmation, NoEmptyIdentity, OldGroups;
  }
}

/** What each writer puts into the candidate tables, field by field. */
module CandidateEffects {

  import opened Basics
  import opened ScoreStore
  import opened CandidateWriters

  // ----- points -----

  /** Exact evidence is worth 100 points, strong 70, moderate 35, weak 10. */
  predicate Worth(strength: Strength, points: nat) {
    && (strength == Exact ==> points == 100) && (strength == Strong ==> points == 70)
    && (strength == Moderate ==> points == 35) && (strength == Weak ==> points == 10)
  }

  lemma EvidenceIsWorth(store: Store, ref: CandidateRef, digest: Digest, strength: Strength, e: nat, store': Store)
    requires Inv(store) && ref in store.candidates && Recorded(store, ref, digest, strength, e, store') && !HasDigest(store, digest)
    ensures store'.candidates[ref].score >= store.candidates[ref].score
    ensures Worth(strength, store'.candidates[ref].score - store.candidates[ref].score)
  {
    RecordAddsPoints(store, ref, digest, strength, e, store');
  }

  // ----- links -----

  /** An occurrence that leads to a candidate: an attribution's or an account's
      link to an account, the latter only under a stable id, or a post's link to
      a post; and none to what it was found on. */
  predicate Leads(o: Occurrence) {
    || (o.subjectKind == AttributionKind && o.semantic.objectKind == "account")
    || (o.subjectKind == AccountKind && o.semantic.objectKind == "account" && o.semantic.idKind == "stable_id"
        && o.resolvedAccount != Some(o.subject))
    || (o.subjectKind == PostKind && o.semantic.objectKind == "post" && o.resolvedPost != Some(o.subject))
  }

  /** The candidate of the occurrence: its kind, its subject, the relation, and
      the row the link resolves to or else the reference; one candidate more or
      the one that was there, and nothing else touched. */
  predicate LinkRow(s: Store, o: Occurrence, r: CandidateRef, s': Store) {
    && r.kind == o.subjectKind && s'.candidates.Keys == s.candidates.Keys + {r}
    && (forall q | q in s.candidates && q != r :: s'.candidates[q] == s.candidates[q])
    && var c, resolved := s'.candidates[r], if o.subjectKind == PostKind then o.resolvedPost else o.resolvedAccount;
       && c.subject == o.subject && c.relation == (if o.subjectKind == PostKind then SourcedFrom else SameIdentity)
       && c.key == Link(o.subjectKind, o.subject, c.relation, o.semantic)
       && c.target == (if r in s.candidates && s.candidates[r].target.Some? then s.candidates[r].target else resolved)
       && c.reference == (if resolved.Some? then None else Some(o.reference))
       && forall q | q in s.candidates && IsKeyOf(o, c.relation, s.candidates[q].key) :: q == r
  }

  /** The key of the occurrence's candidate, or the older form without the kind
      of the identifier. */
  predicate IsKeyOf(o: Occurrence, relation: Relation, key: Key) {
    || key == Link(o.subjectKind, o.subject, relation, o.semantic)
    || key == LegacyLink(o.subjectKind, o.subject, relation, o.semantic.platform, o.semantic.host, o.semantic.objectKind, o.semantic.native)
  }

  /** The occurrence is strong evidence for it, once. */
  ghost predicate LinkEvidence(s: Store, o: Occurrence, r: CandidateRef, e: nat, s': Store) {
    && s'.links == s.links + {EvidenceLink(r, e)} && s'.evidence.Keys == s.evidence.Keys + {e}
    && (forall d | d in s.evidence && d != e :: s'.evidence[d] == s.evidence[d])
    && r in s'.candidates && s'.evidence[e].digest == OfficialLink(o.subjectKind, s'.candidates[r].key, o.digest)
    && (e !in s.evidence ==> s'.evidence[e].strength == Strong && s'.evidence[e].stance == Supports)
    && (forall d, key | d in s.evidence && s.evidence[d].digest == OfficialLink(o.subjectKind, key, o.digest)
          && IsKeyOf(o, s'.candidates[r].relation, key) :: d == e)
  }

  /** An occurrence that leads nowhere, such as a link to an account by its
      handle, changes nothing; one that does writes its candidate. */
  lemma OccurrenceWrites(s: Store, o: Occurrence, s': Store)
    requires Inv(s) && Handled(s, o, s')
    ensures !Leads(o) ==> s' == s
    ensures Leads(o) ==> exists r, e :: LinkRow(s, o, r, s') && LinkEvidence(s, o, r, e, s')
    ensures o.subjectKind == AccountKind && o.semantic.idKind != "stable_id" ==> s'.candidates == s.candidates
  {
    if Leads(o) {
      var step := Generated(o).value;
      var r, e :| Upserted(s, step, r, e, s');
      StepWrites(s, o, step, r, e, s');
    }
  }

  lemma StepWrites(s: Store, o: Occurrence, step: LinkStep, r: CandidateRef, e: nat, s': Store)
    requires Inv(s) && Generated(o) == Some(step) && Upserted(s, step, r, e, s') && !UpsertRefused(s, step)
    ensures LinkRow(s, o, r, s') && LinkEvidence(s, o, r, e, s')
  {
    hide CandidatesOk, CachedOk, RowUpserted, EvidenceUpserted;
    StepRow(s, o, step, r, s');
    StepEvidence(s, o, step, r, e, s');
  }

  lemma StepRow(s: Store, o: Occurrence, step: LinkStep, r: CandidateRef, s': Store)
    requires Inv(s) && Generated(o) == Some(step) && RowUpserted(s, step, r, s') && !KeyRefused(s, step)
    ensures LinkRow(s, o, r, s')
  {
    hide CandidatesOk, UniqueDigests, CachedOk;
    forall q | q in s.candidates && s.candidates[q].key in {step.LegacyKey(), step.NewKey()} ensures q == r {
      assert HasKey(s, s.candidates[q].key);
      if r in s.candidates { assert HasKey(s, s.candidates[r].key); }
    }
  }

  lemma StepEvidence(s: Store, o: Occurrence, step: LinkStep, r: CandidateRef, e: nat, s': Store)
    requires Inv(s) && Generated(o) == Some(step) && RowUpserted(s, step, r, s')
    requires EvidenceUpserted(s, step, r, e, s') && !DigestRefused(s, step)
    ensures LinkEvidence(s, o, r, e, s')
  {
    hide CandidatesOk, UniqueKeys, CachedOk, HasKey;
    forall d | d in s.evidence && s.evidence[d].digest in {step.LegacyDigest(), step.NewDigest()} ensures d == e {
      assert HasDigest(s, s.evidence[d].digest);
      if e in s.evidence { assert HasDigest(s, s.evidence[e].digest); }
    }
  }

  // ----- assertions -----

  /** The asserted row: a same_work row from the smaller to the larger post id,
      any other as it was asserted. */
  predicate AssertedRow(s: Store, subject: nat, target: nat, relation: Relation, r: CandidateRef, s': Store) {
    var flip := relation == SameWork && target < subject;
    var a, b := if flip then target else subject, if flip then subject else target;
    && s'.candidates.Keys == s.candidates.Keys + {r} && (forall q | q in s.candidates && q != r :: s'.candidates[q] == s.candidates[q])
    && r.kind == PostKind && s'.candidates[r].key == Local(a, relation, b)
    && s'.candidates[r].subject == a && s'.candidates[r].target == Some(b) && s'.candidates[r].relation == relation
  }

  /** Evidence was added to a row that was there, or to a new one. */
  lemma AddedRow(s: Store, c: Candidate, r: CandidateRef, digest: Digest, strength: Strength, e: nat, s': Store)
    requires AddedTo(s, c, r, digest, strength, e, s')
    ensures s'.candidates.Keys == s.candidates.Keys + {r} && (forall q | q in s.candidates && q != r :: s'.candidates[q] == s.candidates[q])
    ensures var row := s'.candidates[r];
      && row.key == c.key
      && row == (if r in s.candidates then s.candidates[r] else c).(score := row.score, generation := row.generation)
  {
    hide CachedOk, HasDigest, HasKey;
  }

  lemma OldRow(s: Store, r: CandidateRef)
    requires Inv(s) && r in s.candidates
    ensures KeyOk(r, s.candidates[r])
  {
    assert CachedOk(s, r);
  }

  lemma AssertionWrites(s: Store, a: Assertion, s': Store)
    requires Inv(s) && PostAsserted(s, a, s')
    ensures a.relation == SameIdentity || a.subject == a.target ==> s' == s
    ensures a.relation != SameIdentity && a.subject != a.target ==>
              exists r :: AssertedRow(s, a.subject, a.target, a.relation, r, s')
  {
    hide AddedTo, Inv;
    if a.relation != SameIdentity && a.subject != a.target {
      var r, e :| (r in s.candidates || r.kind == PostKind)
                  && AddedTo(s, a.Row(), r, Manual(a.AssertedKey(), a.explanation, a.strength), a.strength, e, s');
      AddedRow(s, a.Row(), r, Manual(a.AssertedKey(), a.explanation, a.strength), a.strength, e, s');
      if r in s.candidates { OldRow(s, r); }
      assert AssertedRow(s, a.subject, a.target, a.relation, r, s');
    }
  }

  /** Two posts asserted to be the same work, from either side: one row. */
  lemma SameWorkEitherWay(s: Store, a: Assertion, b: Assertion, s1: Store, s2: Store)
    requires Inv(s) && a.relation == SameWork && b.relation == SameWork && a.subject != a.target
    requires b.subject == a.target && b.target == a.subject && PostAsserted(s, a, s1) && PostAsserted(s1, b, s2)
    ensures exists r :: AssertedRow(s, a.subject, a.target, SameWork, r, s1) && AssertedRow(s1, b.subject, b.target, SameWork, r, s2)
    ensures s2.candidates.Keys == s1.candidates.Keys
  {
    hide PostAsserted, Inv;
    AssertionKeepsInv(s, a, s1);
    AssertionWrites(s, a, s1);
    AssertionWrites(s1, b, s2);
    var r :| AssertedRow(s, a.subject, a.target, SameWork, r, s1);
    var q :| AssertedRow(s1, b.subject, b.target, SameWork, q, s2);
    AssertionKeepsInv(s1, b, s2);
    SameRow(s2, r, q);
  }

  lemma SameRow(s: Store, r: CandidateRef, q: CandidateRef)
    requires Inv(s) && r in s.candidates && q in s.candidates && s.candidates[r].key == s.candidates[q].key
    ensures r == q
  {
  }

  // ----- account lookups -----

  predicate LookupRow(s: Store, look: AccountLookup, r: CandidateRef, s': Store) {
    && s'.candidates.Keys == s.candidates.Keys + {r} && (forall q | q in s.candidates && q != r :: s'.candidates[q] == s.candidates[q])
    && r.kind == AccountKind && s'.candidates[r].key == Link(AccountKind, look.seed, SameIdentity, look.semantic)
    && s'.candidates[r].subject == look.seed && s'.candidates[r].relation == SameIdentity
    && (r !in s.candidates ==>
          && s'.candidates[r].target == look.resolved && s'.candidates[r].reference == (if look.resolved.Some? then None else Some(look.reference)))
    && (r in s.candidates ==> s'.candidates[r].target == s.candidates[r].target && s'.candidates[r].reference == s.candidates[r].reference)
  }

  lemma LookupWrites(s: Store, look: AccountLookup, s': Store)
    requires Inv(s) && AccountLookedUp(s, look, s')
    ensures look.resolved == Some(look.seed) ==> s' == s
    ensures look.resolved != Some(look.seed) ==> exists r :: LookupRow(s, look, r, s')
  {
    hide AddedTo, Inv;
    if look.resolved != Some(look.seed) {
      var r, e :| (r in s.candidates || r.kind == AccountKind)
                  && AddedTo(s, look.Row(), r, LookupAccount(look.AccountKey(), look.material, look.raw), Strong, e, s');
      AddedRow(s, look.Row(), r, LookupAccount(look.AccountKey(), look.material, look.raw), Strong, e, s');
      if r in s.candidates { OldRow(s, r); }
      assert LookupRow(s, look, r, s');
    }
  }
}

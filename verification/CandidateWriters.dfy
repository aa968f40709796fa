/** The writers of the score cache: link discovery with its legacy key
    migration, lookup interpretation, and manual assertion of post matches. */
module CandidateWriters {

  import opened Basics
  import opened ScoreStore

  // ----- link discovery -----

  /** One occurrence of a recognized link: the subject it was found on, and the
      platform reference with the row it resolves to, if any. */
  datatype LinkStep = LinkStep(kind: Kind, subject: nat, relation: Relation, semantic: Target, reference: nat,
                               resolved: Option<nat>, occurrence: string)
  {
    function LegacyKey(): Key {
      LegacyLink(kind, subject, relation, semantic.platform, semantic.host, semantic.objectKind, semantic.native)
    }
    function NewKey(): Key { Link(kind, subject, relation, semantic) }
    function LegacyDigest(): Digest { OfficialLink(kind, LegacyKey(), occurrence) }
    function NewDigest(): Digest { OfficialLink(kind, NewKey(), occurrence) }
  }

  /** A stored link occurrence and the reference its URL was recognized as. */
  datatype Occurrence = Occurrence(subjectKind: Kind, subject: nat, semantic: Target, reference: nat,
                                   resolvedAccount: Option<nat>, resolvedPost: Option<nat>, digest: string)

  /** The candidate an occurrence generates, if any. */
  function Generated(o: Occurrence): (step: Option<LinkStep>)
    ensures step.Some? && step.value.kind != AttributionKind ==> step.value.resolved != Some(o.subject)
    ensures step.Some? ==> step.value.kind == o.subjectKind && (step.value.relation == SourcedFrom <==> o.subjectKind == PostKind)
  {
    if o.subjectKind == AttributionKind && o.semantic.objectKind == "account" then
      Some(LinkStep(AttributionKind, o.subject, SameIdentity, o.semantic, o.reference, o.resolvedAccount, o.digest))
    else if o.subjectKind == AccountKind && o.semantic.objectKind == "account" then
      if o.semantic.idKind != "stable_id" || o.resolvedAccount == Some(o.subject) then None
      else Some(LinkStep(AccountKind, o.subject, SameIdentity, o.semantic, o.reference, o.resolvedAccount, o.digest))
    else if o.subjectKind == PostKind && o.semantic.objectKind == "post" then
      if o.resolvedPost == Some(o.subject) then None
      else Some(LinkStep(PostKind, o.subject, SourcedFrom, o.semantic, o.reference, o.resolvedPost, o.digest))
    else None
  }

  /** Both forms of the candidate key are taken. */
  ghost predicate KeyRefused(s: Store, step: LinkStep) {
    HasKey(s, step.LegacyKey()) && HasKey(s, step.NewKey())
  }

  /** The row to be written breaks a CHECK: a candidate of its own subject, or
      a reference beside the target that is already known. */
  ghost predicate CheckRefused(s: Store, step: LinkStep) {
    step.kind != AttributionKind &&
      (step.resolved == Some(step.subject) ||
       (step.resolved.None? && exists r :: r in s.candidates && s.candidates[r].target.Some? &&
                                           s.candidates[r].key in {step.LegacyKey(), step.NewKey()}))
  }

  /** Both forms of the evidence digest are taken. */
  ghost predicate DigestRefused(s: Store, step: LinkStep) {
    HasDigest(s, step.LegacyDigest()) && HasDigest(s, step.NewDigest())
  }

  ghost predicate UpsertRefused(s: Store, step: LinkStep) {
    KeyRefused(s, step) || CheckRefused(s, step) || DigestRefused(s, step)
  }

  /** The candidate's row after the upsert: the legacy row keeps its id, a known
      target is kept, and a reference stays only while nothing is resolved. */
  ghost predicate RowUpserted(s: Store, step: LinkStep, r: CandidateRef, s': Store) {
    && r.kind == step.kind
    && (if r in s.candidates then s.candidates[r].key in {step.LegacyKey(), step.NewKey()}
        else !HasKey(s, step.LegacyKey()) && !HasKey(s, step.NewKey()))
    && s'.candidates.Keys == s.candidates.Keys + {r} && !HasKey(s', step.LegacyKey())
    && (forall q | q in s.candidates && q != r :: s'.candidates[q] == s.candidates[q])
    && var c := s'.candidates[r];
      && c.key == step.NewKey() && c.subject == step.subject && c.relation == step.relation
      && c.target == (if r in s.candidates && s.candidates[r].target.Some? then s.candidates[r].target else step.resolved)
      && c.reference == (if step.resolved.Some? then None else Some(step.reference))
  }

  /** The legacy row, if there is one, carries the new key. */
  ghost predicate KeyMigrated(s: Store, step: LinkStep, s': Store) {
    && s'.evidence == s.evidence && s'.links == s.links && s'.candidates.Keys == s.candidates.Keys
    && forall r | r in s.candidates :: s'.candidates[r] ==
         if s.candidates[r].key == step.LegacyKey() then s.candidates[r].(key := step.NewKey()) else s.candidates[r]
  }

  /** Of the candidates only the cache of one is rewritten. */
  ghost predicate CacheOnly(s: Store, r: CandidateRef, s': Store) {
    && r in s.candidates && r in s'.candidates
    && s'.candidates == s.candidates[r :=
         s.candidates[r].(score := s'.candidates[r].score, generation := s'.candidates[r].generation)]
  }

  /** The legacy evidence, if there is any, carries the new digest. */
  ghost predicate DigestMigrated(s: Store, step: LinkStep, s': Store) {
    && s'.candidates == s.candidates && s'.links == s.links && s'.evidence.Keys == s.evidence.Keys
    && forall e | e in s.evidence :: s'.evidence[e] ==
         if s.evidence[e].digest == step.LegacyDigest() then s.evidence[e].(digest := step.NewDigest()) else s.evidence[e]
  }

  ghost predicate EvidenceUpserted(s: Store, step: LinkStep, r: CandidateRef, e: nat, s': Store) {
    && s'.links == s.links + {EvidenceLink(r, e)} && !HasDigest(s', step.LegacyDigest())
    && (if e in s.evidence
        then s.evidence[e].digest in {step.LegacyDigest(), step.NewDigest()}
             && s'.evidence == s.evidence[e := s.evidence[e].(digest := step.NewDigest())]
        else !HasDigest(s, step.LegacyDigest()) && !HasDigest(s, step.NewDigest())
             && s'.evidence == s.evidence[e := Evidence(step.NewDigest(), Supports, Strong)])
  }

  ghost predicate Upserted(s: Store, step: LinkStep, r: CandidateRef, e: nat, s': Store) {
    RowUpserted(s, step, r, s') && EvidenceUpserted(s, step, r, e, s') && CachedOk(s', r)
  }

  /** An upsert that is not refused keeps the invariant, read off its effect alone. */
  lemma UpsertedKeepsInv(s: Store, step: LinkStep, r: CandidateRef, e: nat, s': Store)
    requires Inv(s) && !UpsertRefused(s, step) && Upserted(s, step, r, e, s')
    ensures Inv(s')
  {
    UpsertedRows(s, step, r, e, s');
    UpsertedRow(s, step, r, s');
    forall q | q in s'.candidates ensures CachedOk(s', q) && KeyOk(q, s'.candidates[q]) && RowOk(q, s'.candidates[q]) {
      if q != r { OtherRowKept(s, step, r, e, s', q); }
    }
  }

  lemma OtherRowKept(s: Store, step: LinkStep, r: CandidateRef, e: nat, s': Store, q: CandidateRef)
    requires Inv(s) && q in s.candidates && q != r && s'.candidates.Keys == s.candidates.Keys + {r}
    requires s'.candidates[q] == s.candidates[q] && EvidenceUpserted(s, step, r, e, s')
    ensures CachedOk(s', q) && KeyOk(q, s'.candidates[q]) && RowOk(q, s'.candidates[q])
  {
    assert CachedOk(s, q);
    assert Supporting(s', q) == Supporting(s, q);
    SumSame(Supporting(s, q), PointsIn(s.evidence), PointsIn(s'.evidence));
  }

  lemma UpsertedRow(s: Store, step: LinkStep, r: CandidateRef, s': Store)
    requires Inv(s) && !CheckRefused(s, step) && RowUpserted(s, step, r, s')
    ensures KeyOk(r, s'.candidates[r]) && RowOk(r, s'.candidates[r])
  {
    if r in s.candidates { assert CachedOk(s, r); }
  }

  lemma UpsertedRows(s: Store, step: LinkStep, r: CandidateRef, e: nat, s': Store)
    requires Inv(s) && !KeyRefused(s, step) && !DigestRefused(s, step) && Upserted(s, step, r, e, s')
    ensures UniqueKeys(s'.candidates) && UniqueDigests(s'.evidence)
  {
    forall q | q in s.candidates && q != r ensures s.candidates[q].key != step.NewKey() {
      if s.candidates[q].key == step.NewKey() { assert HasKey(s, step.NewKey()); }
    }
    forall d | d in s.evidence && d != e ensures s.evidence[d].digest != step.NewDigest() {
      if s.evidence[d].digest == step.NewDigest() { assert HasDigest(s, step.NewDigest()); }
    }
  }

  /** The link's occurrence already supports the candidate, under either form
      of its digest: the score and the generation do not move. */
  lemma OccurrenceCountsOnce(s: Store, step: LinkStep, r: CandidateRef, e: nat, s': Store, known: nat)
    requires Inv(s) && !UpsertRefused(s, step) && Upserted(s, step, r, e, s')
    requires r in s.candidates && EvidenceLink(r, known) in s.links
    requires s.evidence[known].digest in {step.LegacyDigest(), step.NewDigest()}
    ensures s'.candidates[r].score == s.candidates[r].score
    ensures s'.candidates[r].generation == s.candidates[r].generation
  {
    UpsertedKeepsInv(s, step, r, e, s');
    assert e == known by {
      assert known in s'.evidence && e in s'.evidence && s'.evidence[e].digest == step.NewDigest();
      assert s'.evidence[known].digest != step.LegacyDigest();
    }
    assert CachedOk(s, r);
    assert Supporting(s', r) == Supporting(s, r);
    SumSame(Supporting(s, r), PointsIn(s.evidence), PointsIn(s'.evidence));
  }

  /** Running the same step again succeeds and changes nothing. */
  lemma UpsertTwiceIsOnce(s: Store, step: LinkStep, r: CandidateRef, e: nat, s': Store)
    requires Inv(s) && !UpsertRefused(s, step) && Upserted(s, step, r, e, s')
    ensures !UpsertRefused(s', step)
    ensures forall r2, e2, s2 {:trigger Upserted(s', step, r2, e2, s2)} | Upserted(s', step, r2, e2, s2) :: r2 == r && s2 == s'
  {
    UpsertedKeepsInv(s, step, r, e, s');
    assert CachedOk(s', r);
    forall q | q in s'.candidates && s'.candidates[q].key in {step.LegacyKey(), step.NewKey()} ensures q == r {
      assert s'.candidates[q].key == s'.candidates[r].key;
    }
    assert HasKey(s', step.NewKey());
    assert HasDigest(s', step.NewDigest()) by { assert s'.evidence[e].digest == step.NewDigest(); }
    forall r2, e2, s2 | Upserted(s', step, r2, e2, s2) ensures r2 == r && s2 == s' {
      SecondUpsert(s', step, r, e, r2, e2, s2);
    }
  }

  lemma SecondUpsert(s: Store, step: LinkStep, r: CandidateRef, e: nat, r2: CandidateRef, e2: nat, s2: Store)
    requires Inv(s) && Upserted(s, step, r2, e2, s2)
    requires r in s.candidates && s.candidates[r].key == step.NewKey() && e in s.evidence
    requires s.evidence[e].digest == step.NewDigest() && EvidenceLink(r, e) in s.links
    requires !HasKey(s, step.LegacyKey()) && !HasDigest(s, step.LegacyDigest())
    requires s.candidates[r].reference == (if step.resolved.Some? then None else Some(step.reference))
    requires step.resolved.Some? ==> s.candidates[r].target.Some?
    requires s.candidates[r].subject == step.subject && s.candidates[r].relation == step.relation
    ensures r2 == r && s2 == s
  {
    assert s.candidates[r2].key == s.candidates[r].key;
    assert s.evidence[e2].digest == s.evidence[e].digest;
    assert s2.evidence == s.evidence && s2.links == s.links;
    assert CachedOk(s, r);
    assert Supporting(s2, r) == Supporting(s, r);
    assert s2.candidates[r] == s.candidates[r];
  }

  // ----- the steps of an upsert compose -----

  lemma CheckSame(s: Store, step: LinkStep, m: Store)
    requires KeyMigrated(s, step, m)
    ensures CheckRefused(m, step) <==> CheckRefused(s, step)
  {
    if r :| r in s.candidates && s.candidates[r].target.Some? && s.candidates[r].key in {step.LegacyKey(), step.NewKey()} {
      assert m.candidates[r].key == step.NewKey() && m.candidates[r].target.Some?;
    }
    if r :| r in m.candidates && m.candidates[r].target.Some? && m.candidates[r].key in {step.LegacyKey(), step.NewKey()} {
      assert s.candidates[r].target.Some? && s.candidates[r].key in {step.LegacyKey(), step.NewKey()};
    }
  }

  lemma DigestSame(s: Store, w: Store, step: LinkStep)
    requires w.evidence == s.evidence
    ensures DigestRefused(w, step) <==> DigestRefused(s, step)
  {
    assert HasDigest(s, step.LegacyDigest()) == HasDigest(w, step.LegacyDigest());
    assert HasDigest(s, step.NewDigest()) == HasDigest(w, step.NewDigest());
  }

  lemma MigratedRow(s: Store, step: LinkStep, m: Store, r: CandidateRef, w: Store)
    requires KeyMigrated(s, step, m) && !KeyRefused(s, step) && Inv(s)
    requires RowUpserted(m, step, r, w)
    ensures RowUpserted(s, step, r, w)
  {
    if r !in s.candidates {
      forall q | q in s.candidates ensures s.candidates[q].key !in {step.LegacyKey(), step.NewKey()} {
        assert m.candidates[q].key != step.NewKey();
      }
    } else {
      assert forall q | q in s.candidates && q != r :: w.candidates[q] == s.candidates[q];
    }
  }

  lemma EvidenceComposed(w: Store, step: LinkStep, r: CandidateRef, v: Store, e: nat, s': Store)
    requires r in w.candidates && DigestMigrated(w, step, v) && !DigestRefused(w, step) && Inv(w) && Inv(v)
    requires Recorded(v, r, step.NewDigest(), Strong, e, s')
    ensures EvidenceUpserted(w, step, r, e, s') && CacheOnly(w, r, s')
  {
    hide CandidatesOk, UniqueKeys, CachedOk;
    if e in w.evidence {
      assert v.evidence[e].digest == step.NewDigest();
    }
  }

  lemma UpsertComposed(s: Store, step: LinkStep, r: CandidateRef, w: Store, e: nat, s': Store)
    requires RowUpserted(s, step, r, w) && w.evidence == s.evidence && w.links == s.links
    requires EvidenceUpserted(w, step, r, e, s') && CacheOnly(w, r, s') && CachedOk(s', r)
    ensures Upserted(s, step, r, e, s')
  {
    assert HasDigest(s, step.LegacyDigest()) == HasDigest(w, step.LegacyDigest());
    assert HasDigest(s, step.NewDigest()) == HasDigest(w, step.NewDigest());
  }

  // ----- an upsert that fails -----

  const MET: Target := Target(1, "example.org", "account", "stable_id", "7")
  const MET_FIRST: LinkStep := LinkStep(AccountKind, 1, SameIdentity, MET, 3, None, "first")
  const MET_AGAIN: LinkStep := MET_FIRST.(reference := 4, occurrence := "second")
  const FOUND: CandidateRef := CandidateRef(AccountKind, 1)

  /** The store after the first link to an account nobody has imported. */
  function FirstMet(): Store {
    Store(map[FOUND := Candidate(MET_FIRST.NewKey(), 1, None, Some(3), SameIdentity, 70, 1)],
          map[1 := Evidence(MET_FIRST.NewDigest(), Supports, Strong)], {EvidenceLink(FOUND, 1)})
  }

  /** A review then points the candidate at the account it created. */
  function TargetReviewed(): Store {
    var c := FirstMet().candidates[FOUND];
    FirstMet().(candidates := FirstMet().candidates[FOUND := c.(target := Some(2), reference := None)])
  }

  lemma OneSupports(store: Store, r: CandidateRef, e: nat)
    requires store.links == {EvidenceLink(r, e)} && e in store.evidence
    requires store.evidence[e] == Evidence(store.evidence[e].digest, Supports, Strong)
    ensures SumOf(Supporting(store, r), PointsIn(store.evidence)) == 70 && |Supporting(store, r)| == 1
  {
    assert Supporting(store, r) == {e};
    SumSplit({e}, PointsIn(store.evidence), e);
    assert {e} - {e} == {};
  }

  lemma FirstMetOk()
    ensures Upserted(Store(map[], map[], {}), MET_FIRST, FOUND, 1, FirstMet()) && Inv(FirstMet())
  {
    OneSupports(FirstMet(), FOUND, 1);
    assert CachedOk(FirstMet(), FOUND);
  }

  lemma TargetReviewedOk()
    ensures Inv(TargetReviewed())
  {
    OneSupports(TargetReviewed(), FOUND, 1);
    assert CachedOk(TargetReviewed(), FOUND);
  }

  /** A target that a review resolved, met again under a new reference that
      nothing resolves: both stores are in order, and the upsert fails. */
  lemma MetAgainFails()
    ensures Upserted(Store(map[], map[], {}), MET_FIRST, FOUND, 1, FirstMet()) && Inv(FirstMet())
    ensures Inv(TargetReviewed()) && UpsertRefused(TargetReviewed(), MET_AGAIN)
  {
    hide Inv, Upserted;
    FirstMetOk();
    TargetReviewedOk();
    assert FOUND in TargetReviewed().candidates && TargetReviewed().candidates[FOUND].target.Some?;
    assert TargetReviewed().candidates[FOUND].key == MET_AGAIN.NewKey();
  }

  // ----- lookup interpretation -----

  /** Two distinct posts a provider lookup related. */
  datatype PostLookup = PostLookup(subject: nat, target: nat, relation: Relation, strength: Strength,
                                   evidenceKind: string, direction: string, material: string, raw: nat)
  {
    function LookupKey(): Key { Local(subject, relation, target) }
  }

  predicate IsLookup(look: PostLookup) {
    look.subject != look.target && look.relation in {SourcedFrom, SameWork}
  }

  /** The unordered pair of posts a sourced_from or same_work row is about. */
  predicate OnPair(ref: CandidateRef, c: Candidate, a: nat, b: nat) {
    && ref.kind == PostKind && c.relation in {SourcedFrom, SameWork}
    && ((c.target == Some(b) && c.subject == a) || (c.target == Some(a) && c.subject == b))
  }

  ghost predicate NoneOnPair(s: Store, a: nat, b: nat) {
    forall r | r in s.candidates :: !OnPair(r, s.candidates[r], a, b)
  }

  /** ORDER BY sourced_from first, then the row id. */
  predicate Before(r: CandidateRef, c: Candidate, q: CandidateRef, d: Candidate) {
    if c.relation == d.relation then r.id <= q.id else c.relation == SourcedFrom
  }

  ghost predicate ChosenOnPair(s: Store, r: CandidateRef, a: nat, b: nat) {
    && r in s.candidates && OnPair(r, s.candidates[r], a, b)
    && forall q | q in s.candidates && OnPair(q, s.candidates[q], a, b) :: Before(r, s.candidates[r], q, s.candidates[q])
  }

  predicate Upgrades(c: Candidate, look: PostLookup) {
    look.relation == SourcedFrom && c.relation == SameWork
  }

  /** The pair's chosen row is used; a same_work row turns into the sourced_from
      row of the lookup; a missing row is inserted. */
  ghost predicate PairChosen(s: Store, look: PostLookup, r: CandidateRef, s': Store) {
    && s'.evidence == s.evidence && s'.links == s.links
    && if r in s.candidates then
         && ChosenOnPair(s, r, look.subject, look.target)
         && s'.candidates == (if Upgrades(s.candidates[r], look)
              then s.candidates[r := s.candidates[r].(key := look.LookupKey(), subject := look.subject,
                                                     target := Some(look.target), relation := SourcedFrom)]
              else s.candidates)
       else
         && NoneOnPair(s, look.subject, look.target) && r.kind == PostKind
         && s'.candidates == s.candidates[r := Candidate(look.LookupKey(), look.subject, Some(look.target), None, look.relation, 0, 0)]
  }

  /** A candidate's own (subject, relation, target) key is never taken by a row
      outside its pair. */
  lemma LocalKeyOnPair(s: Store, look: PostLookup, q: CandidateRef)
    requires Inv(s) && IsLookup(look) && q in s.candidates && s.candidates[q].key == look.LookupKey()
    ensures OnPair(q, s.candidates[q], look.subject, look.target) && s.candidates[q].relation == look.relation
  {
    assert CachedOk(s, q);
  }

  /** Neither the upgrade nor the insertion can collide on a candidate key. */
  lemma NoKeyCollision(s: Store, look: PostLookup, r: CandidateRef)
    requires Inv(s) && IsLookup(look)
    requires NoneOnPair(s, look.subject, look.target) ||
             (ChosenOnPair(s, r, look.subject, look.target) && Upgrades(s.candidates[r], look))
    ensures !HasKey(s, look.LookupKey())
  {
    if q :| q in s.candidates && s.candidates[q].key == look.LookupKey() {
      LocalKeyOnPair(s, look, q);
    }
  }

  lemma PairChosenKeepsInv(s: Store, look: PostLookup, r: CandidateRef, s': Store)
    requires Inv(s) && IsLookup(look) && PairChosen(s, look, r, s')
    ensures Inv(s')
  {
    if r !in s.candidates {
      NoKeyCollision(s, look, r);
      InsertKeepsInv(s, r, s'.candidates[r], s');
    } else if Upgrades(s.candidates[r], look) {
      NoKeyCollision(s, look, r);
      assert CachedOk(s, r);
      UpdateKeepsInv(s, r, s'.candidates[r], s');
    } else {
      assert s' == s;
    }
  }

  ghost predicate RowOnPair(s: Store, r: CandidateRef, a: nat, b: nat) {
    r in s.candidates && OnPair(r, s.candidates[r], a, b)
  }

  /** At most one candidate per unordered pair among sourced_from and same_work. */
  ghost predicate OnePerPair(s: Store) {
    forall r, q, a, b {:trigger RowOnPair(s, r, a, b), RowOnPair(s, q, a, b)} |
      RowOnPair(s, r, a, b) && RowOnPair(s, q, a, b) :: r == q
  }

  ghost predicate NeverDowngraded(s: Store, s': Store) {
    forall r | r in s.candidates && s.candidates[r].relation == SourcedFrom :: r in s'.candidates && s'.candidates[r].relation == SourcedFrom
  }

  lemma PairStaysUnique(s: Store, look: PostLookup, r: CandidateRef, s': Store)
    requires IsLookup(look) && PairChosen(s, look, r, s')
    ensures OnePerPair(s) ==> OnePerPair(s')
    ensures NeverDowngraded(s, s')
  {
    if OnePerPair(s) {
      forall p, q, a, b | RowOnPair(s', p, a, b) && RowOnPair(s', q, a, b) ensures p == q {
        if p != r && q != r {
          assert RowOnPair(s, p, a, b) && RowOnPair(s, q, a, b);
        } else if p != q {
          var other := if p == r then q else p;
          assert RowOnPair(s, other, a, b);
          if r in s.candidates { assert RowOnPair(s, r, a, b); }
        }
      }
    }
  }

  // ----- account lookups and manual assertions -----

  /** A candidate of the key is used as it is, or the given row inserted. */
  ghost predicate Ensured(s: Store, c: Candidate, r: CandidateRef, s': Store) {
    && s'.evidence == s.evidence && s'.links == s.links
    && if r in s.candidates then s.candidates[r].key == c.key && s'.candidates == s.candidates
       else !HasKey(s, c.key) && s'.candidates == s.candidates[r := c]
  }

  /** The candidate exists and one more piece of evidence is recorded for it. */
  ghost predicate AddedTo(s: Store, c: Candidate, r: CandidateRef, digest: Digest, strength: Strength, e: nat, s': Store) {
    exists m :: Ensured(s, c, r, m) && r in m.candidates && Recorded(m, r, digest, strength, e, s')
  }

  /** The pair's candidate is chosen and one more piece of evidence is recorded for it. */
  ghost predicate PostLookedUp(s: Store, look: PostLookup, r: CandidateRef, e: nat, s': Store) {
    exists m :: PairChosen(s, look, r, m) && r in m.candidates &&
      Recorded(m, r, LookupPost(m.candidates[r].key, look.evidenceKind, look.direction, look.material, look.raw), look.strength, e, s')
  }

  /** Rewriting a cache, or a row that is on no pair, leaves the pairs alone. */
  lemma CacheKeepsPairs(m: Store, r: CandidateRef, s': Store)
    requires CacheOnly(m, r, s')
    ensures OnePerPair(m) ==> OnePerPair(s')
    ensures NeverDowngraded(m, s')
  {
    if OnePerPair(m) {
      forall p, q, a, b | RowOnPair(s', p, a, b) && RowOnPair(s', q, a, b) ensures p == q {
        assert RowOnPair(m, p, a, b) && RowOnPair(m, q, a, b);
      }
    }
  }

  lemma OtherKindKeepsPairs(s: Store, c: Candidate, r: CandidateRef, m: Store)
    requires Ensured(s, c, r, m) && (r in s.candidates || r.kind != PostKind)
    ensures OnePerPair(s) ==> OnePerPair(m)
    ensures NeverDowngraded(s, m)
  {
    if OnePerPair(s) {
      forall p, q, a, b | RowOnPair(m, p, a, b) && RowOnPair(m, q, a, b) ensures p == q {
        assert RowOnPair(s, p, a, b) && RowOnPair(s, q, a, b);
      }
    }
  }

  /** A provider's attribution record showing a stable account URL. */
  datatype AccountLookup = AccountLookup(seed: nat, semantic: Target, reference: nat, resolved: Option<nat>,
                                         material: string, raw: nat)
  {
    function AccountKey(): Key { Link(AccountKind, seed, SameIdentity, semantic) }
    function Row(): Candidate {
      Candidate(AccountKey(), seed, resolved, if resolved.Some? then None else Some(reference), SameIdentity, 0, 0)
    }
  }

  /** A relation between two posts asserted by hand. */
  datatype Assertion = Assertion(subject: nat, target: nat, relation: Relation, explanation: string, strength: Strength)
  {
    function Ordered(): (nat, nat) {
      if relation == SameWork && target < subject then (target, subject) else (subject, target)
    }
    function AssertedKey(): Key { Local(Ordered().0, relation, Ordered().1) }
    function Row(): Candidate { Candidate(AssertedKey(), Ordered().0, Some(Ordered().1), None, relation, 0, 0) }
  }

  datatype Writing =
    | Discovery(found: seq<Occurrence>)
    | PostFound(post: PostLookup)
    | AccountFound(account: AccountLookup)
    | Asserted(assertion: Assertion)

  predicate LookupsOnly(writings: seq<Writing>) {
    forall w | w in writings :: w.PostFound? || w.AccountFound?
  }

  // ----- what a writing does, and any history of them -----

  /** What one stored occurrence does to the store. */
  ghost predicate Handled(s: Store, o: Occurrence, s': Store) {
    match Generated(o)
    case None => s' == s
    case Some(step) => !UpsertRefused(s, step) && exists r, e :: Upserted(s, step, r, e, s')
  }

  ghost predicate Stuck(s: Store, o: Occurrence) {
    Generated(o).Some? && UpsertRefused(s, Generated(o).value)
  }

  /** The occurrences handled one after another, as far as `passed` goes. */
  ghost predicate Passes(found: seq<Occurrence>, passed: seq<Store>) {
    && 0 < |passed| <= |found| + 1
    && forall i {:trigger HandledAt(found, passed, i)} | 0 <= i < |passed| - 1 :: HandledAt(found, passed, i)
  }

  ghost predicate HandledAt(found: seq<Occurrence>, passed: seq<Store>, i: nat)
    requires i < |found| && i + 1 < |passed|
  {
    Handled(passed[i], found[i], passed[i + 1])
  }

  /** One discovery: all occurrences are handled, or one is refused and nothing
      of the discovery stays. */
  ghost predicate Discovers(s: Store, found: seq<Occurrence>, passed: seq<Store>, s': Store) {
    && Passes(found, passed) && passed[0] == s
    && if |passed| == |found| + 1 then s' == passed[|found|] else Stuck(passed[|passed| - 1], found[|passed| - 1]) && s' == s
  }

  ghost predicate Wrote(s: Store, w: Writing, s': Store) {
    match w
    case Discovery(found) => exists passed :: Discovers(s, found, passed, s')
    case PostFound(post) => IsLookup(post) && exists r, e :: PostLookedUp(s, post, r, e, s')
    case AccountFound(account) => AccountLookedUp(s, account, s')
    case Asserted(assertion) => PostAsserted(s, assertion, s')
  }

  /** Nothing, exactly when the URL resolves to the seed account itself. */
  ghost predicate AccountLookedUp(s: Store, look: AccountLookup, s': Store) {
    if look.resolved == Some(look.seed) then s' == s
    else exists r, e :: (r in s.candidates || r.kind == AccountKind)
                        && AddedTo(s, look.Row(), r, LookupAccount(look.AccountKey(), look.material, look.raw), Strong, e, s')
  }

  /** Nothing, exactly for equal endpoints or a relation posts cannot have. */
  ghost predicate PostAsserted(s: Store, a: Assertion, s': Store) {
    if a.relation == SameIdentity || a.subject == a.target then s' == s
    else exists r, e :: (r in s.candidates || r.kind == PostKind)
                        && AddedTo(s, a.Row(), r, Manual(a.AssertedKey(), a.explanation, a.strength), a.strength, e, s')
  }

  /** Stores one writing apart. */
  ghost predicate History(writings: seq<Writing>, ss: seq<Store>) {
    && |ss| == |writings| + 1
    && forall i {:trigger WroteAt(writings, ss, i)} | 0 <= i < |writings| :: WroteAt(writings, ss, i)
  }

  ghost predicate WroteAt(writings: seq<Writing>, ss: seq<Store>, i: nat)
    requires i < |writings| && i + 1 < |ss|
  {
    Wrote(ss[i], writings[i], ss[i + 1])
  }

  lemma HistoryOne(writings: seq<Writing>, ss: seq<Store>, w: Writing, s: Store)
    requires History(writings, ss) && Wrote(ss[|writings|], w, s)
    ensures History(writings + [w], ss + [s])
  {
    var ws, more := writings + [w], ss + [s];
    forall i | 0 <= i < |ws| ensures WroteAt(ws, more, i) {
      if i < |writings| { assert WroteAt(writings, ss, i); }
    }
  }

  lemma PassOne(found: seq<Occurrence>, passed: seq<Store>, s: Store)
    requires Passes(found, passed) && |passed| <= |found| && Handled(passed[|passed| - 1], found[|passed| - 1], s)
    ensures Passes(found, passed + [s])
  {
    var more := passed + [s];
    forall i | 0 <= i < |more| - 1 ensures HandledAt(found, more, i) {
      if i < |passed| - 1 { assert HandledAt(found, passed, i); }
    }
  }

  lemma {:induction false} PassesKeepsInv(found: seq<Occurrence>, passed: seq<Store>, n: nat)
    requires Passes(found, passed) && Inv(passed[0]) && n < |passed|
    ensures Inv(passed[n])
  {
    if n > 0 {
      PassesKeepsInv(found, passed, n - 1);
      assert HandledAt(found, passed, n - 1);
      if Generated(found[n - 1]).Some? {
        var step := Generated(found[n - 1]).value;
        var r, e :| Upserted(passed[n - 1], step, r, e, passed[n]);
        UpsertedKeepsInv(passed[n - 1], step, r, e, passed[n]);
      }
    }
  }

  lemma AddedKeepsInv(s: Store, kind: Kind, c: Candidate, r: CandidateRef, digest: Digest, strength: Strength, e: nat, s': Store)
    requires Inv(s) && AddedTo(s, c, r, digest, strength, e, s') && (r in s.candidates || r.kind == kind)
    requires c.score == 0 && c.generation == 0 && forall q: CandidateRef | q.kind == kind :: KeyOk(q, c) && RowOk(q, c)
    ensures Inv(s')
  {
    var m :| Ensured(s, c, r, m) && r in m.candidates && Recorded(m, r, digest, strength, e, s');
    if r in s.candidates { assert m == s; } else { InsertKeepsInv(s, r, c, m); }
    RecordKeepsInv(m, r, digest, strength, e, s');
  }

  lemma PostLookupKeepsInv(s: Store, look: PostLookup, r: CandidateRef, e: nat, s': Store)
    requires Inv(s) && IsLookup(look) && PostLookedUp(s, look, r, e, s')
    ensures Inv(s') && (OnePerPair(s) ==> OnePerPair(s')) && NeverDowngraded(s, s')
  {
    var m :| PairChosen(s, look, r, m) && r in m.candidates &&
      Recorded(m, r, LookupPost(m.candidates[r].key, look.evidenceKind, look.direction, look.material, look.raw), look.strength, e, s');
    PairChosenKeepsInv(s, look, r, m);
    PairStaysUnique(s, look, r, m);
    RecordKeepsInv(m, r, LookupPost(m.candidates[r].key, look.evidenceKind, look.direction, look.material, look.raw), look.strength, e, s');
    CacheKeepsPairs(m, r, s');
  }

  lemma AccountLookupKeepsInv(s: Store, look: AccountLookup, s': Store)
    requires Inv(s) && AccountLookedUp(s, look, s')
    ensures Inv(s')
  {
    if look.resolved != Some(look.seed) {
      var r, e :| (r in s.candidates || r.kind == AccountKind)
                  && AddedTo(s, look.Row(), r, LookupAccount(look.AccountKey(), look.material, look.raw), Strong, e, s');
      AddedKeepsInv(s, AccountKind, look.Row(), r, LookupAccount(look.AccountKey(), look.material, look.raw), Strong, e, s');
    }
  }

  lemma AssertionKeepsInv(s: Store, a: Assertion, s': Store)
    requires Inv(s) && PostAsserted(s, a, s')
    ensures Inv(s')
  {
    hide Inv, AddedTo;
    if !(a.relation == SameIdentity || a.subject == a.target) {
      var r, e :| (r in s.candidates || r.kind == PostKind)
                  && AddedTo(s, a.Row(), r, Manual(a.AssertedKey(), a.explanation, a.strength), a.strength, e, s');
      AddedKeepsInv(s, PostKind, a.Row(), r, Manual(a.AssertedKey(), a.explanation, a.strength), a.strength, e, s');
    }
  }

  /** Every writing keeps every score equal to its fold. */
  lemma WroteKeepsInv(s: Store, w: Writing, s': Store)
    requires Inv(s) && Wrote(s, w, s')
    ensures Inv(s')
  {
    hide Inv;
    match w
    case Discovery(found) =>
      var passed :| Discovers(s, found, passed, s');
      PassesKeepsInv(found, passed, |passed| - 1);
    case PostFound(post) =>
      var r, e :| PostLookedUp(s, post, r, e, s');
      PostLookupKeepsInv(s, post, r, e, s');
    case AccountFound(look) => AccountLookupKeepsInv(s, look, s');
    case Asserted(a) => AssertionKeepsInv(s, a, s');
  }

  /** In every state of every history of writers each score is its fold. */
  lemma {:induction false} HistoryKeepsInv(writings: seq<Writing>, ss: seq<Store>, n: nat)
    requires History(writings, ss) && Inv(ss[0]) && n < |ss|
    ensures Inv(ss[n])
  {
    if n > 0 {
      HistoryKeepsInv(writings, ss, n - 1);
      assert WroteAt(writings, ss, n - 1);
      WroteKeepsInv(ss[n - 1], writings[n - 1], ss[n]);
    }
  }

  lemma LookupKeepsPairs(s: Store, w: Writing, s': Store)
    requires Inv(s) && Wrote(s, w, s') && (w.PostFound? || w.AccountFound?)
    ensures (OnePerPair(s) ==> OnePerPair(s')) && NeverDowngraded(s, s')
  {
    if w.PostFound? {
      var r, e :| PostLookedUp(s, w.post, r, e, s');
      PostLookupKeepsInv(s, w.post, r, e, s');
    } else if w.account.resolved != Some(w.account.seed) {
      var look := w.account;
      var r, e :| (r in s.candidates || r.kind == AccountKind)
                  && AddedTo(s, look.Row(), r, LookupAccount(look.AccountKey(), look.material, look.raw), Strong, e, s');
      var m :| Ensured(s, look.Row(), r, m) && r in m.candidates
               && Recorded(m, r, LookupAccount(look.AccountKey(), look.material, look.raw), Strong, e, s');
      OtherKindKeepsPairs(s, look.Row(), r, m);
      CacheKeepsPairs(m, r, s');
    }
  }

  /** Lookups alone keep one candidate per pair, and what was sourced_from once
      stays so. */
  lemma {:induction false} LookupsKeepPairs(writings: seq<Writing>, ss: seq<Store>, k: nat, n: nat)
    requires History(writings, ss) && LookupsOnly(writings) && Inv(ss[0]) && k <= n < |ss|
    ensures (OnePerPair(ss[k]) ==> OnePerPair(ss[n])) && NeverDowngraded(ss[k], ss[n])
    decreases n
  {
    if k < n {
      LookupsKeepPairs(writings, ss, k, n - 1);
      HistoryKeepsInv(writings, ss, n - 1);
      assert writings[n - 1] in writings && WroteAt(writings, ss, n - 1);
      LookupKeepsPairs(ss[n - 1], writings[n - 1], ss[n]);
    }
  }

  class CandidateStore {
    var candidates: map<CandidateRef, Candidate>
    var evidence: map<nat, Evidence>
    var links: set<EvidenceLink>

    function State(): Store
      reads this
    {
      Store(candidates, evidence, links)
    }

    constructor ()
      ensures State() == Store(map[], map[], {}) && Inv(State()) && OnePerPair(State())
    {
      candidates, evidence, links := map[], map[], {};
    }

    method FindCandidate(key: Key) returns (found: Option<CandidateRef>)
      ensures found.Some? ==> found.value in candidates && candidates[found.value].key == key
      ensures found.None? ==> !HasKey(State(), key)
    {
      if r :| r in candidates && candidates[r].key == key { return Some(r); }
      return None;
    }

    method FindEvidence(digest: Digest) returns (found: Option<nat>)
      ensures found.Some? ==> found.value in evidence && evidence[found.value].digest == digest
      ensures found.None? ==> !HasDigest(State(), digest)
    {
      if e :| e in evidence && evidence[e].digest == digest { return Some(e); }
      return None;
    }

    method InsertCandidate(kind: Kind, c: Candidate) returns (r: CandidateRef)
      modifies this`candidates
      ensures r !in old(candidates) && r.kind == kind && candidates == old(candidates)[r := c]
    {
      var id := NextRowId(set q | q in candidates :: q.id);
      r := CandidateRef(kind, id);
      assert r !in candidates;
      candidates := candidates[r := c];
    }

    /** SELECT SUM(CASE strength ...), COUNT(*) over the joined evidence. */
    method Fold(r: CandidateRef) returns (score: nat, generation: nat)
      ensures score == SumOf(Supporting(State(), r), PointsIn(evidence)) && generation == |Supporting(State(), r)|
    {
      var rows := Supporting(State(), r);
      var rest := rows;
      score, generation := 0, 0;
      while |rest| > 0
        invariant rest <= rows && score + SumOf(rest, PointsIn(evidence)) == SumOf(rows, PointsIn(evidence))
        invariant generation + |rest| == |rows|
        decreases |rest|
      {
        var e: nat :| e in rest;
        SumSplit(rest, PointsIn(evidence), e);
        score, generation := score + Points(evidence[e].strength), generation + 1;
        rest := rest - {e};
      }
    }

    /** INSERT INTO match_evidence ... ON CONFLICT DO NOTHING, the join row, and
        the refreshed cache. */
    method Record(r: CandidateRef, digest: Digest, strength: Strength) returns (e: nat)
      requires Inv(State()) && r in candidates
      modifies this
      ensures Recorded(old(State()), r, digest, strength, e, State()) && Inv(State())
    {
      var found := FindEvidence(digest);
      if found.Some? {
        e := found.value;
      } else {
        e := NextRowId(evidence.Keys);
        evidence := evidence[e := Evidence(digest, Supports, strength)];
      }
      links := links + {EvidenceLink(r, e)};
      Refresh(r);
      RecordKeepsInv(old(State()), r, digest, strength, e, State());
    }

    /** UPDATE ... SET score = ?, evidence_generation = ?. */
    method Refresh(r: CandidateRef)
      requires r in candidates
      modifies this`candidates
      ensures r in candidates && CachedOk(State(), r)
      ensures candidates == old(candidates)[r := old(candidates)[r].(score := candidates[r].score, generation := candidates[r].generation)]
    {
      var score, generation := Fold(r);
      ghost var s := State();
      candidates := candidates[r := candidates[r].(score := score, generation := generation)];
      assert Supporting(State(), r) == Supporting(s, r);
    }

    method Restore(s: Store)
      modifies this
      ensures State() == s
    {
      candidates, evidence, links := s.candidates, s.evidence, s.links;
    }

    /** The legacy row takes the new key; false stands for the UNIQUE error. */
    method MigrateKey(step: LinkStep) returns (ok: bool)
      requires Inv(State())
      modifies this`candidates
      ensures ok <==> !(HasKey(old(State()), step.LegacyKey()) && HasKey(old(State()), step.NewKey()))
      ensures ok ==> Inv(State()) && !HasKey(State(), step.LegacyKey())
      ensures ok ==> KeyMigrated(old(State()), step, State())
    {
      var legacy := FindCandidate(step.LegacyKey());
      var taken := FindCandidate(step.NewKey());
      ok := legacy.None? || taken.None?;
      if ok && legacy.Some? {
        ghost var s := State();
        var r := legacy.value;
        assert CachedOk(s, r);
        candidates := candidates[r := candidates[r].(key := step.NewKey())];
        UpdateKeepsInv(s, r, candidates[r], State());
      }
    }

    /** INSERT ... ON CONFLICT(candidate_key) DO UPDATE; None stands for a
        failed CHECK. */
    method UpsertRow(step: LinkStep) returns (done: Option<CandidateRef>)
      requires Inv(State()) && !HasKey(State(), step.LegacyKey())
      modifies this`candidates
      ensures done.None? <==> CheckRefused(old(State()), step)
      ensures done.Some? ==> RowUpserted(old(State()), step, done.value, State()) && Inv(State())
      ensures done.Some? ==> evidence == old(evidence) && links == old(links)
    {
      ghost var s := State();
      if step.kind != AttributionKind && step.resolved == Some(step.subject) { return None; }
      var reference := if step.resolved.Some? then None else Some(step.reference);
      var found := FindCandidate(step.NewKey());
      if found.None? {
        var c := Candidate(step.NewKey(), step.subject, step.resolved, reference, step.relation, 0, 0);
        var r := InsertCandidate(step.kind, c);
        InsertKeepsInv(s, r, c, State());
        return Some(r);
      }
      var r := found.value;
      assert CachedOk(s, r);
      var target := if candidates[r].target.Some? then candidates[r].target else step.resolved;
      if step.kind != AttributionKind && target.Some? && reference.Some? { return None; }
      assert forall q | q in candidates && candidates[q].key in {step.LegacyKey(), step.NewKey()} :: q == r;
      candidates := candidates[r := candidates[r].(target := target, reference := reference)];
      UpdateKeepsInv(s, r, candidates[r], State());
      return Some(r);
    }

    /** The legacy evidence takes the new digest; false stands for the UNIQUE error. */
    method MigrateDigest(step: LinkStep) returns (ok: bool)
      requires Inv(State())
      modifies this`evidence
      ensures ok <==> !DigestRefused(old(State()), step)
      ensures ok ==> Inv(State()) && DigestMigrated(old(State()), step, State())
    {
      var legacy := FindEvidence(step.LegacyDigest());
      var taken := FindEvidence(step.NewDigest());
      ok := legacy.None? || taken.None?;
      if ok && legacy.Some? {
        ghost var s := State();
        var e := legacy.value;
        evidence := evidence[e := evidence[e].(digest := step.NewDigest())];
        RedigestKeepsInv(s, e, step.NewDigest(), State());
      }
    }

    /** The occurrence's evidence; false stands for the UNIQUE error. */
    method WriteEvidence(step: LinkStep, r: CandidateRef) returns (ok: bool, e: nat)
      requires Inv(State()) && r in candidates
      modifies this
      ensures ok <==> !DigestRefused(old(State()), step)
      ensures ok ==> Inv(State()) && EvidenceUpserted(old(State()), step, r, e, State())
      ensures ok ==> CacheOnly(old(State()), r, State()) && CachedOk(State(), r)
    {
      ghost var w := State();
      e := 0;
      ok := MigrateDigest(step);
      ghost var v := State();
      if ok {
        e := Record(r, step.NewDigest(), Strong);
        EvidenceComposed(w, step, r, v, e, State());
      }
    }

    /** One generated candidate. On a failed constraint the transaction rolls back. */
    method Upsert(step: LinkStep) returns (done: Option<CandidateRef>, e: nat)
      requires Inv(State())
      modifies this
      ensures Inv(State())
      ensures done.None? <==> UpsertRefused(old(State()), step)
      ensures if done.None? then State() == old(State()) else Upserted(old(State()), step, done.value, e, State())
    {
      var s := State();
      done, e := None, 0;
      var ok := MigrateKey(step);
      if ok {
        ghost var m := State();
        CheckSame(s, step, m);
        done := UpsertRow(step);
        if done.Some? {
          ghost var w := State();
          MigratedRow(s, step, m, done.value, w);
          ok, e := WriteEvidence(step, done.value);
          DigestSame(s, w, step);
          if ok {
            UpsertComposed(s, step, done.value, w, e, State());
          } else {
            done := None;
          }
        }
      }
      if done.None? { Restore(s); }
    }

    /** All occurrences of a discovery run, in one transaction. */
    method Discover(found: seq<Occurrence>) returns (ok: bool, ghost passed: seq<Store>)
      requires Inv(State())
      modifies this
      ensures Inv(State()) && Discovers(old(State()), found, passed, State()) && (ok <==> |passed| == |found| + 1)
    {
      var s := State();
      ok, passed := true, [s];
      for i := 0 to |found|
        invariant Inv(State()) && |passed| == i + 1 && Passes(found, passed) && passed[0] == s && passed[i] == State()
      {
        var step := Generated(found[i]);
        if step.Some? {
          var done, _ := Upsert(step.value);
          if done.None? {
            Restore(s);
            return false, passed;
          }
        }
        assert Handled(passed[i], found[i], State());
        PassOne(found, passed, State());
        passed := passed + [State()];
      }
    }

    /** SELECT ... ORDER BY ... LIMIT 1 over the pair's rows. */
    method ChooseOnPair(a: nat, b: nat) returns (best: Option<CandidateRef>)
      ensures best.Some? ==> ChosenOnPair(State(), best.value, a, b)
      ensures best.None? ==> NoneOnPair(State(), a, b)
    {
      best := None;
      var rest := candidates.Keys;
      while rest != {}
        invariant rest <= candidates.Keys
        invariant best.Some? ==> best.value in candidates && OnPair(best.value, candidates[best.value], a, b)
        invariant forall q | q in candidates && q !in rest && OnPair(q, candidates[q], a, b) ::
          best.Some? && Before(best.value, candidates[best.value], q, candidates[q])
        decreases |rest|
      {
        var q :| q in rest;
        rest := rest - {q};
        if OnPair(q, candidates[q], a, b) && (best.None? || Before(q, candidates[q], best.value, candidates[best.value])) {
          best := Some(q);
        }
      }
    }

    method PreparePair(look: PostLookup) returns (r: CandidateRef)
      requires Inv(State()) && IsLookup(look)
      modifies this`candidates
      ensures PairChosen(old(State()), look, r, State()) && Inv(State()) && r in candidates
    {
      ghost var s := State();
      var existing := ChooseOnPair(look.subject, look.target);
      if existing.None? {
        r := InsertCandidate(PostKind, Candidate(look.LookupKey(), look.subject, Some(look.target), None, look.relation, 0, 0));
      } else {
        r := existing.value;
        if Upgrades(candidates[r], look) {
          candidates := candidates[r := candidates[r].(key := look.LookupKey(), subject := look.subject,
                                                       target := Some(look.target), relation := SourcedFrom)];
        }
      }
      PairChosenKeepsInv(s, look, r, State());
    }

    /** _post_candidate. */
    method LookUpPost(look: PostLookup) returns (r: CandidateRef, e: nat)
      requires Inv(State()) && IsLookup(look)
      modifies this
      ensures Inv(State()) && PostLookedUp(old(State()), look, r, e, State())
      ensures OnePerPair(old(State())) ==> OnePerPair(State())
      ensures NeverDowngraded(old(State()), State())
    {
      ghost var s := State();
      r := PreparePair(look);
      ghost var m := State();
      PairStaysUnique(s, look, r, m);
      e := Record(r, LookupPost(candidates[r].key, look.evidenceKind, look.direction, look.material, look.raw), look.strength);
      CacheKeepsPairs(m, r, State());
    }

    method EnsureRow(kind: Kind, c: Candidate) returns (r: CandidateRef)
      requires Inv(State()) && c.score == 0 && c.generation == 0
      requires forall q: CandidateRef | q.kind == kind :: KeyOk(q, c) && RowOk(q, c)
      modifies this`candidates
      ensures Ensured(old(State()), c, r, State()) && Inv(State()) && r in candidates
      ensures r in old(candidates) || r.kind == kind
    {
      var found := FindCandidate(c.key);
      if found.Some? {
        r := found.value;
      } else {
        ghost var s := State();
        r := InsertCandidate(kind, c);
        InsertKeepsInv(s, r, c, State());
      }
    }

    /** _artist_account_candidate for a recognized URL; false when it resolves
        to the seed account, which a CHECK rejects. */
    method LookUpAccount(look: AccountLookup) returns (ok: bool)
      requires Inv(State())
      modifies this
      ensures Inv(State()) && (ok <==> look.resolved != Some(look.seed))
      ensures AccountLookedUp(old(State()), look, State())
    {
      if look.resolved == Some(look.seed) { return false; }
      var r := EnsureRow(AccountKind, look.Row());
      ghost var m := State();
      var e := Record(r, LookupAccount(look.AccountKey(), look.material, look.raw), Strong);
      assert AddedTo(old(State()), look.Row(), r, LookupAccount(look.AccountKey(), look.material, look.raw), Strong, e, State()) by {
        assert Ensured(old(State()), look.Row(), r, m);
      }
      return true;
    }

    /** create_post_candidate; false for a relation posts cannot have or equal endpoints. */
    method AssertPost(a: Assertion) returns (ok: bool)
      requires Inv(State())
      modifies this
      ensures Inv(State()) && (ok <==> a.relation != SameIdentity && a.subject != a.target)
      ensures PostAsserted(old(State()), a, State())
    {
      if a.relation == SameIdentity || a.subject == a.target { return false; }
      var r := EnsureRow(PostKind, a.Row());
      ghost var m := State();
      var e := Record(r, Manual(a.AssertedKey(), a.explanation, a.strength), a.strength);
      assert AddedTo(old(State()), a.Row(), r, Manual(a.AssertedKey(), a.explanation, a.strength), a.strength, e, State()) by {
        assert Ensured(old(State()), a.Row(), r, m);
      }
      return true;
    }

    /** Any writings, one after another. */
    method WriteAll(writings: seq<Writing>) returns (ghost ss: seq<Store>)
      requires Inv(State())
      requires forall w | w in writings && w.PostFound? :: IsLookup(w.post)
      modifies this
      ensures History(writings, ss) && ss[0] == old(State()) && ss[|writings|] == State()
      ensures Inv(State())
    {
      ss := [State()];
      for i := 0 to |writings|
        invariant Inv(State()) && |ss| == i + 1 && ss[0] == old(State()) && ss[i] == State()
        invariant History(writings[..i], ss)
      {
        assert writings[i] in writings;
        match writings[i] {
          case Discovery(found) => var _, _ := Discover(found);
          case PostFound(post) => var _, _ := LookUpPost(post);
          case AccountFound(account) => var _ := LookUpAccount(account);
          case Asserted(assertion) => var _ := AssertPost(assertion);
        }
        HistoryOne(writings[..i], ss, writings[i], State());
        assert writings[..i] + [writings[i]] == writings[..i + 1];
        ss := ss + [State()];
      }
      assert writings[..|writings|] == writings;
    }
  }
}

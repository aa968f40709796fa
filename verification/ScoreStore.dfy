/** Match candidates with their cached scores, the evidence behind them, and
    the invariant all writers keep. A digest is modelled by what it is taken
    of: it is injective. */
module ScoreStore {

  import opened Basics

  datatype Kind = AccountKind | AttributionKind | PostKind
  datatype Relation = SameIdentity | SourcedFrom | SameWork | RepostOf | VariantOf | DerivedFrom | Unresolved
  datatype Strength = Weak | Moderate | Strong | Exact

  /** platform_id, instance_host, object_kind, identifier_kind, native_identifier */
  datatype Target = Target(platform: nat, host: string, objectKind: string, idKind: string, native: string)

  /** A candidate key is the digest of one of these tuples. The legacy form
      left out the identifier kind. */
  datatype Key =
    | LegacyLink(kind: Kind, subject: nat, relation: Relation, platform: nat, host: string, objectKind: string, native: string)
    | Link(kind: Kind, subject: nat, relation: Relation, target: Target)
    | Local(localSubject: nat, localRelation: Relation, localTarget: nat)

  datatype Digest =
    | OfficialLink(kind: Kind, key: Key, occurrence: string)
    | Manual(manualKey: Key, explanation: string, strength: Strength)
    | LookupPost(lookupKey: Key, evidenceKind: string, direction: string, material: string, raw: nat)
    | LookupAccount(accountKey: Key, accountMaterial: string, accountRaw: nat)

  datatype CandidateRef = CandidateRef(kind: Kind, id: nat)
  datatype Candidate = Candidate(key: Key, subject: nat, target: Option<nat>, reference: Option<nat>, relation: Relation,
                                 score: nat, generation: nat)
  datatype Stance = Supports | Contradicts | Neutral
  datatype Evidence = Evidence(digest: Digest, stance: Stance, strength: Strength)

  datatype EvidenceLink = EvidenceLink(candidate: CandidateRef, evidence: nat)
  datatype Store = Store(candidates: map<CandidateRef, Candidate>, evidence: map<nat, Evidence>, links: set<EvidenceLink>)

  function Points(s: Strength): nat {
    match s case Exact => 100 case Strong => 70 case Moderate => 35 case Weak => 10
  }

  // ----- the fold behind a score -----

  function Linked(links: set<EvidenceLink>, ref: CandidateRef): set<nat> {
    set l | l in links && l.candidate == ref :: l.evidence
  }

  function Supporting(store: Store, ref: CandidateRef): set<nat> {
    set e | e in Linked(store.links, ref) && e in store.evidence && store.evidence[e].stance == Supports
  }

  /** The points of an evidence row. */
  function PointsIn(evidence: map<nat, Evidence>): map<nat, nat> {
    map e | e in evidence :: Points(evidence[e].strength)
  }

  // ----- the invariant -----

  /** The cached score is the sum of points over the distinct supporting
      evidence, and the generation is their number. */
  ghost predicate CachedOk(store: Store, ref: CandidateRef)
    requires ref in store.candidates
  {
    && store.candidates[ref].score == SumOf(Supporting(store, ref), PointsIn(store.evidence))
    && store.candidates[ref].generation == |Supporting(store, ref)|
  }

  /** A key agrees with the row that carries it. */
  predicate KeyOk(ref: CandidateRef, c: Candidate) {
    match c.key
    case LegacyLink(kind, subject, relation, _, _, _, _) => ref.kind == kind && c.subject == subject && c.relation == relation
    case Link(kind, subject, relation, _) => ref.kind == kind && c.subject == subject && c.relation == relation
    case Local(subject, relation, target) =>
      ref.kind == PostKind && c.subject == subject && c.relation == relation && c.target == Some(target)
  }

  /** CHECK constraints: a resolved target or a reference, for account and post
      candidates exactly one of them and no candidate of a row with itself. */
  predicate RowOk(ref: CandidateRef, c: Candidate) {
    && (c.target.Some? || c.reference.Some?)
    && (ref.kind != AttributionKind ==> !(c.target.Some? && c.reference.Some?) && c.target != Some(c.subject))
  }

  ghost predicate UniqueKeys(candidates: map<CandidateRef, Candidate>) {
    forall r, q {:trigger candidates[r], candidates[q]} |
      r in candidates && q in candidates && candidates[r].key == candidates[q].key :: r == q
  }

  ghost predicate UniqueDigests(evidence: map<nat, Evidence>) {
    forall d, e {:trigger evidence[d], evidence[e]} |
      d in evidence && e in evidence && evidence[d].digest == evidence[e].digest :: d == e
  }

  ghost predicate CandidatesOk(store: Store) {
    forall r {:trigger CachedOk(store, r)} | r in store.candidates ::
      CachedOk(store, r) && KeyOk(r, store.candidates[r]) && RowOk(r, store.candidates[r])
  }

  ghost predicate Inv(store: Store) {
    && UniqueKeys(store.candidates) && UniqueDigests(store.evidence)
    && (forall l | l in store.links :: l.candidate in store.candidates && l.evidence in store.evidence)
    && (forall e | e in store.evidence :: store.evidence[e].stance == Supports)
    && CandidatesOk(store)
  }

  // ----- lookups -----

  ghost predicate HasKey(store: Store, key: Key) {
    exists r :: r in store.candidates && store.candidates[r].key == key
  }

  ghost predicate HasDigest(store: Store, digest: Digest) {
    exists e :: e in store.evidence && store.evidence[e].digest == digest
  }

  // ----- one more piece of evidence for one candidate -----

  /** The evidence row for a digest is found or inserted, linked, and the
      candidate's cache refreshed. */
  ghost predicate Recorded(store: Store, ref: CandidateRef, digest: Digest, strength: Strength, e: nat, store': Store)
    requires ref in store.candidates
  {
    && (if HasDigest(store, digest) then e in store.evidence && store.evidence[e].digest == digest && store'.evidence == store.evidence
        else e !in store.evidence && store'.evidence == store.evidence[e := Evidence(digest, Supports, strength)])
    && store'.links == store.links + {EvidenceLink(ref, e)}
    && ref in store'.candidates
    && store'.candidates == store.candidates[ref :=
         store.candidates[ref].(score := store'.candidates[ref].score, generation := store'.candidates[ref].generation)]
    && CachedOk(store', ref)
  }

  lemma RecordKeepsInv(store: Store, ref: CandidateRef, digest: Digest, strength: Strength, e: nat, store': Store)
    requires Inv(store) && ref in store.candidates && Recorded(store, ref, digest, strength, e, store')
    ensures Inv(store')
  {
    forall r | r in store'.candidates ensures CachedOk(store', r) && KeyOk(r, store'.candidates[r]) && RowOk(r, store'.candidates[r]) {
      assert CachedOk(store, r);
      if r != ref {
        assert Supporting(store', r) == Supporting(store, r);
        SumSame(Supporting(store, r), PointsIn(store.evidence), PointsIn(store'.evidence));
      }
    }
    assert UniqueKeys(store'.candidates);
  }

  /** Evidence already recorded for the candidate is not counted again. */
  lemma RecordTwiceIsOnce(store: Store, ref: CandidateRef, digest: Digest, strength: Strength, e: nat, store': Store)
    requires Inv(store) && ref in store.candidates && Recorded(store, ref, digest, strength, e, store')
    requires exists known :: known in store.evidence && store.evidence[known].digest == digest && EvidenceLink(ref, known) in store.links
    ensures store' == store
  {
    var known :| known in store.evidence && store.evidence[known].digest == digest && EvidenceLink(ref, known) in store.links;
    assert store.evidence[e].digest == store.evidence[known].digest;
    assert store'.links == store.links;
    assert CachedOk(store, ref);
    assert Supporting(store', ref) == Supporting(store, ref);
  }

  /** New evidence raises the score by exactly its points. */
  lemma RecordAddsPoints(store: Store, ref: CandidateRef, digest: Digest, strength: Strength, e: nat, store': Store)
    requires Inv(store) && ref in store.candidates && Recorded(store, ref, digest, strength, e, store')
    requires !HasDigest(store, digest)
    ensures store'.candidates[ref].score == store.candidates[ref].score + Points(strength)
    ensures store'.candidates[ref].generation == store.candidates[ref].generation + 1
  {
    assert CachedOk(store, ref) && CachedOk(store', ref);
    SupportingGrows(store, ref, digest, strength, e, store');
    PointsAdd(Supporting(store, ref), store.evidence, e, store'.evidence);
  }

  lemma SupportingGrows(store: Store, ref: CandidateRef, digest: Digest, strength: Strength, e: nat, store': Store)
    requires Inv(store) && ref in store.candidates && Recorded(store, ref, digest, strength, e, store') && !HasDigest(store, digest)
    ensures e !in Supporting(store, ref) && Supporting(store', ref) == Supporting(store, ref) + {e}
  {
  }

  lemma PointsAdd(before: set<nat>, evidence: map<nat, Evidence>, e: nat, evidence': map<nat, Evidence>)
    requires before <= evidence.Keys && e !in evidence && e in evidence' && evidence' == evidence[e := evidence'[e]]
    ensures SumOf(before + {e}, PointsIn(evidence')) == SumOf(before, PointsIn(evidence)) + Points(evidence'[e].strength)
  {
    SumSplit(before + {e}, PointsIn(evidence'), e);
    assert before + {e} - {e} == before;
    SumSame(before, PointsIn(evidence), PointsIn(evidence'));
  }

  // ----- the other changes a writer makes -----

  /** A new candidate starts with no evidence and an empty cache. */
  lemma InsertKeepsInv(store: Store, ref: CandidateRef, c: Candidate, store': Store)
    requires Inv(store) && ref !in store.candidates && !HasKey(store, c.key)
    requires KeyOk(ref, c) && RowOk(ref, c) && c.score == 0 && c.generation == 0
    requires store' == store.(candidates := store.candidates[ref := c])
    ensures Inv(store')
  {
    forall r | r in store'.candidates ensures CachedOk(store', r) && KeyOk(r, store'.candidates[r]) && RowOk(r, store'.candidates[r]) {
      if r in store.candidates {
        assert CachedOk(store, r);
      } else {
        assert forall l | l in store.links :: l.candidate != ref;
      }
      assert Supporting(store', r) == Supporting(store, r);
    }
  }

  /** Rekeying or completing a candidate keeps its evidence and its cache. */
  lemma UpdateKeepsInv(store: Store, ref: CandidateRef, c: Candidate, store': Store)
    requires Inv(store) && ref in store.candidates
    requires c.key == store.candidates[ref].key || !HasKey(store, c.key)
    requires KeyOk(ref, c) && RowOk(ref, c)
    requires c.score == store.candidates[ref].score && c.generation == store.candidates[ref].generation
    requires store' == store.(candidates := store.candidates[ref := c])
    ensures Inv(store')
  {
    forall r | r in store'.candidates ensures CachedOk(store', r) && KeyOk(r, store'.candidates[r]) && RowOk(r, store'.candidates[r]) {
      assert CachedOk(store, r);
      assert Supporting(store', r) == Supporting(store, r);
    }
  }

  lemma RedigestKeepsInv(store: Store, e: nat, digest: Digest, store': Store)
    requires Inv(store) && e in store.evidence && !HasDigest(store, digest)
    requires store' == store.(evidence := store.evidence[e := store.evidence[e].(digest := digest)])
    ensures Inv(store')
  {
    forall r | r in store'.candidates ensures CachedOk(store', r) && KeyOk(r, store'.candidates[r]) && RowOk(r, store'.candidates[r]) {
      assert CachedOk(store, r);
      assert Supporting(store', r) == Supporting(store, r);
      SumSame(Supporting(store, r), PointsIn(store.evidence), PointsIn(store'.evidence));
    }
  }
}

/** The two views of account candidates, the score cache's and the reviews',
    agree: whatever a candidate writer does is a discovery step of a run of
    reviews. */
module AccountDiscovery {

  import opened Basics
  import opened ScoreStore
  import opened CandidateWriters
  import Identity = IdentityTables

  function RelationOf(r: Relation): Identity.Relation {
    if r == SameIdentity then Identity.SameIdentity else Identity.OfficiallyLinked
  }

  predicate SameRow(c: Candidate, d: Identity.Candidate) {
    && d.subject == c.subject && d.target == c.target && d.reference == c.reference
    && d.relation == RelationOf(c.relation) && d.generation == c.generation
  }

  /** Both views hold the same account candidates. */
  ghost predicate Mirrors(s: Store, t: Identity.Tables) {
    && (forall id {:trigger id in t.candidates} :: id in t.candidates <==> CandidateRef(AccountKind, id) in s.candidates)
    && forall id | id in t.candidates :: SameRow(s.candidates[CandidateRef(AccountKind, id)], t.candidates[id])
  }

  /** The review state of a known candidate stays; a new one is pending. */
  function ReviewRow(t: Identity.Tables, id: nat, c: Candidate): Identity.Candidate {
    if id in t.candidates then t.candidates[id].(target := c.target, reference := c.reference, generation := c.generation)
    else Identity.Candidate(c.subject, c.target, c.reference, RelationOf(c.relation), Identity.Pending, c.generation, 0)
  }

  function AccountIds(s: Store): set<nat> {
    set r | r in s.candidates && r.kind == AccountKind :: r.id
  }

  /** The reviews' tables once the store has become s'. */
  function Caught(t: Identity.Tables, s': Store, accounts: map<nat, Identity.Account>,
                  references: map<nat, Identity.Reference>): Identity.Tables {
    t.(candidates := map id | id in AccountIds(s') && CandidateRef(AccountKind, id) in s'.candidates ::
                       ReviewRow(t, id, s'.candidates[CandidateRef(AccountKind, id)]),
       accounts := accounts, references := references)
  }

  /** Foreign keys of the account candidates. */
  ghost predicate AccountsThere(s: Store, accounts: map<nat, Identity.Account>, references: map<nat, Identity.Reference>) {
    forall r | r in s.candidates && r.kind == AccountKind ::
      && s.candidates[r].subject in accounts
      && (s.candidates[r].target.Some? ==> s.candidates[r].target.value in accounts)
      && (s.candidates[r].reference.Some? ==> s.candidates[r].reference.value in references)
  }

  predicate Completes(c: Candidate, d: Candidate) {
    d.subject == c.subject && d.relation == c.relation && (c.target.Some? ==> d.target == c.target)
  }

  /** Candidates of accounts are added or completed, never removed. */
  ghost predicate AccountRowsGrow(s: Store, s': Store) {
    forall r | r in s.candidates && r.kind == AccountKind :: r in s'.candidates && Completes(s.candidates[r], s'.candidates[r])
  }

  lemma UpsertGrows(s: Store, o: Occurrence, s': Store)
    requires Inv(s) && Handled(s, o, s')
    ensures AccountRowsGrow(s, s')
  {
    if Generated(o).Some? {
      var step := Generated(o).value;
      var r, e :| Upserted(s, step, r, e, s');
      if r in s.candidates { assert CachedOk(s, r); }
    }
  }

  lemma {:induction false} DiscoveryGrows(found: seq<Occurrence>, passed: seq<Store>, n: nat)
    requires Passes(found, passed) && Inv(passed[0]) && n < |passed|
    ensures AccountRowsGrow(passed[0], passed[n])
  {
    if n > 0 {
      DiscoveryGrows(found, passed, n - 1);
      PassesKeepsInv(found, passed, n - 1);
      assert HandledAt(found, passed, n - 1);
      UpsertGrows(passed[n - 1], found[n - 1], passed[n]);
    }
  }

  lemma AddedGrows(s: Store, c: Candidate, r: CandidateRef, digest: Digest, strength: Strength, e: nat, s': Store)
    requires AddedTo(s, c, r, digest, strength, e, s')
    ensures AccountRowsGrow(s, s')
  {
    var m :| Ensured(s, c, r, m) && r in m.candidates && Recorded(m, r, digest, strength, e, s');
  }

  lemma PostGrows(s: Store, look: PostLookup, r: CandidateRef, e: nat, s': Store)
    requires PostLookedUp(s, look, r, e, s')
    ensures AccountRowsGrow(s, s')
  {
    var m :| PairChosen(s, look, r, m) && r in m.candidates &&
      Recorded(m, r, LookupPost(m.candidates[r].key, look.evidenceKind, look.direction, look.material, look.raw), look.strength, e, s');
    assert AccountRowsGrow(s, m);
  }

  lemma AccountGrows(s: Store, look: AccountLookup, s': Store)
    requires AccountLookedUp(s, look, s')
    ensures AccountRowsGrow(s, s')
  {
    if look.resolved != Some(look.seed) {
      var r, e :| (r in s.candidates || r.kind == AccountKind)
                  && AddedTo(s, look.Row(), r, LookupAccount(look.AccountKey(), look.material, look.raw), Strong, e, s');
      AddedGrows(s, look.Row(), r, LookupAccount(look.AccountKey(), look.material, look.raw), Strong, e, s');
    }
  }

  lemma AssertionGrows(s: Store, a: Assertion, s': Store)
    requires PostAsserted(s, a, s')
    ensures AccountRowsGrow(s, s')
  {
    if !(a.relation == SameIdentity || a.subject == a.target) {
      var r, e :| (r in s.candidates || r.kind == PostKind)
                  && AddedTo(s, a.Row(), r, Manual(a.AssertedKey(), a.explanation, a.strength), a.strength, e, s');
      AddedGrows(s, a.Row(), r, Manual(a.AssertedKey(), a.explanation, a.strength), a.strength, e, s');
    }
  }

  lemma WritingGrows(s: Store, w: Writing, s': Store)
    requires Inv(s) && Wrote(s, w, s')
    ensures AccountRowsGrow(s, s')
  {
    match w
    case Discovery(found) =>
      var passed :| Discovers(s, found, passed, s');
      DiscoveryGrows(found, passed, |passed| - 1);
    case PostFound(post) =>
      var r, e :| PostLookedUp(s, post, r, e, s');
      PostGrows(s, post, r, e, s');
    case AccountFound(look) => AccountGrows(s, look, s');
    case Asserted(a) => AssertionGrows(s, a, s');
  }

  /** Every writing is a discovery step for the reviews, and both views still
      agree after it. */
  lemma WritingIsDiscovery(s: Store, w: Writing, s': Store, t: Identity.Tables,
                           accounts: map<nat, Identity.Account>, references: map<nat, Identity.Reference>)
    requires Inv(s) && Wrote(s, w, s') && Mirrors(s, t)
    requires Identity.UniqueAccounts(accounts) && AccountsThere(s', accounts, references)
    requires forall a | a in t.accounts :: a in accounts && accounts[a] == t.accounts[a]
    ensures Mirrors(s', Caught(t, s', accounts, references))
    ensures Identity.Discovered(t, Caught(t, s', accounts, references))
  {
    WritingGrows(s, w, s');
    WroteKeepsInv(s, w, s');
    var t' := Caught(t, s', accounts, references);
    forall id ensures id in t'.candidates <==> CandidateRef(AccountKind, id) in s'.candidates {
      assert CandidateRef(AccountKind, id) in s'.candidates ==> CandidateRef(AccountKind, id).id in AccountIds(s');
    }
    forall id | id in t'.candidates
      ensures SameRow(s'.candidates[CandidateRef(AccountKind, id)], t'.candidates[id])
      ensures Identity.CandidateRow(accounts, references, t'.candidates[id])
    {
      assert CachedOk(s', CandidateRef(AccountKind, id));
      if id in t.candidates { assert Completes(s.candidates[CandidateRef(AccountKind, id)], s'.candidates[CandidateRef(AccountKind, id)]); }
    }
    forall id | id in t.candidates
      ensures id in t'.candidates && Identity.Rediscovered(t.candidates[id], t'.candidates[id])
    {
      assert Completes(s.candidates[CandidateRef(AccountKind, id)], s'.candidates[CandidateRef(AccountKind, id)]);
    }
  }
}

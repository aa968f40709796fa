/** The replay-stamp repair of a whole catalog: history rows are deleted,
    occurrence times restored, and current projections recomputed, in one
    transaction. */
module ReplayRepair {

  import opened Basics
  import opened ReplayHistory

  datatype PostFact = PostFact(
    post: nat, scoreUp: Option<int>, scoreDown: Option<int>, scoreTotal: Option<int>, favorites: Option<int>,
    comments: Option<int>, deleted: Option<bool>, pending: Option<bool>, flagged: Option<bool>)
  datatype SnapshotFact = SnapshotFact(account: nat, digest: string)
  datatype TagFact = TagFact(
    postTag: nat, spelling: string, translated: Option<string>, position: Option<int>,
    category: Option<string>, categoryCode: Option<nat>)
  datatype Occurrence = Occurrence(post: nat, raw: Option<nat>, at: nat)
  datatype PostTag = PostTag(post: nat, tag: nat)

  /** A current-projection column: row id to timestamp, or NULL. */
  type Column = map<nat, Option<nat>>

  /** `links` are the rows that reference an account snapshot; `tagHistory`
      maps a tag observation to its tag. */
  datatype Db = Db(
    posts: History<PostFact>, snapshots: History<SnapshotFact>, tags: History<TagFact>,
    occurrences: map<nat, Occurrence>, raws: map<nat, nat>, tagHistory: History<nat>, postTags: map<nat, PostTag>,
    links: map<nat, Option<nat>>,
    postSeen: Column, tagSeen: Column, postTagSeen: Column, accountSeen: Column)

  // ----- the newest time -----

  predicate IsMax(s: set<nat>, m: nat) {
    m in s && forall x | x in s :: x <= m
  }

  lemma {:induction false} HasMax(s: set<nat>)
    requires |s| > 0
    ensures exists m: nat :: IsMax(s, m)
    decreases |s|
  {
    var x: nat :| x in s;
    var rest := s - {x};
    if |rest| == 0 {
      assert IsMax(s, x);
    } else {
      HasMax(rest);
      var m: nat :| IsMax(rest, m);
      forall y | y in s ensures y <= (if m < x then x else m) {
        assert y == x || y in rest;
      }
      assert IsMax(s, if m < x then x else m);
    }
  }

  /** SELECT MAX(...): NULL when there is no row. */
  ghost function Latest(s: set<nat>): (m: Option<nat>)
    ensures m.None? <==> |s| == 0
    ensures m.Some? ==> IsMax(s, m.value)
  {
    if |s| == 0 then None
    else
      HasMax(s);
      var m: nat :| IsMax(s, m);
      Some(m)
  }

  method FindLatest(s: set<nat>) returns (m: Option<nat>)
    ensures m == Latest(s)
  {
    m := None;
    var rest := s;
    while |rest| > 0
      invariant rest <= s
      invariant m.None? ==> rest == s
      invariant m.Some? ==> m.value in s && forall x | x in s && x !in rest :: x <= m.value
      decreases |rest|
    {
      var x: nat :| x in rest;
      if m.None? || m.value < x { m := Some(x); }
      rest := rest - {x};
    }
    if m.Some? {
      assert IsMax(s, m.value) && IsMax(s, Latest(s).value);
    }
  }

  // ----- the observation times behind each projection -----

  predicate OnPost(postTags: map<nat, PostTag>, post: nat, f: TagFact) {
    f.postTag in postTags && postTags[f.postTag].post == post
  }

  predicate OnTag(postTags: map<nat, PostTag>, tag: nat, f: TagFact) {
    f.postTag in postTags && postTags[f.postTag].tag == tag
  }

  function OccurrenceTimes(occurrences: map<nat, Occurrence>, post: nat): set<nat> {
    set id | id in occurrences && occurrences[id].post == post :: occurrences[id].at
  }

  function PostTimes(db: Db, post: nat): set<nat> {
    TimesOf(db.posts, (f: PostFact) => f.post == post)
    + OccurrenceTimes(db.occurrences, post)
    + TimesOf(db.tags, f => OnPost(db.postTags, post, f))
  }

  function TagTimes(db: Db, tag: nat): set<nat> {
    TimesOf(db.tagHistory, f => f == tag) + TimesOf(db.tags, f => OnTag(db.postTags, tag, f))
  }

  function PostTagTimes(db: Db, postTag: nat): set<nat> {
    TimesOf(db.tags, (f: TagFact) => f.postTag == postTag)
  }

  function AccountTimes(db: Db, account: nat): set<nat> {
    TimesOf(db.snapshots, (f: SnapshotFact) => f.account == account)
  }

  // ----- the repaired catalog -----

  predicate Stamped(time: Option<nat>, stamps: set<nat>) {
    time.Some? && time.value in stamps
  }

  /** A stamped column value is replaced by the newest observation, if any. */
  ghost function Recomputed(column: Column, stamps: set<nat>, times: nat -> set<nat>): Column {
    map row | row in column ::
      if Stamped(column[row], stamps) && |times(row)| > 0 then Latest(times(row)) else column[row]
  }

  /** A stamped occurrence takes the time of its retained raw observation. */
  function Restored(o: Occurrence, raws: map<nat, nat>, stamps: set<nat>): Occurrence {
    if o.at in stamps && o.raw.Some? && o.raw.value in raws then o.(at := raws[o.raw.value]) else o
  }

  function RestoredAll(occurrences: map<nat, Occurrence>, raws: map<nat, nat>, stamps: set<nat>): map<nat, Occurrence> {
    map id | id in occurrences :: Restored(occurrences[id], raws, stamps)
  }

  function WithHistory(db: Db, stamps: set<nat>): Db {
    db.(posts := Cleaned(db.posts, stamps), snapshots := Cleaned(db.snapshots, stamps), tags := Cleaned(db.tags, stamps),
        occurrences := RestoredAll(db.occurrences, db.raws, stamps))
  }

  ghost function WithProjections(db: Db, stamps: set<nat>): Db {
    db.(postSeen := Recomputed(db.postSeen, stamps, (p: nat) => PostTimes(db, p)),
        tagSeen := Recomputed(db.tagSeen, stamps, (t: nat) => TagTimes(db, t)),
        postTagSeen := Recomputed(db.postTagSeen, stamps, (t: nat) => PostTagTimes(db, t)),
        accountSeen := Recomputed(db.accountSeen, stamps, (a: nat) => AccountTimes(db, a)))
  }

  ghost function Repaired(db: Db, stamps: set<nat>): Db {
    WithProjections(WithHistory(db, stamps), stamps)
  }

  /** PRAGMA foreign_key_check finds nothing. */
  predicate ForeignKeysHold(db: Db) {
    forall l | l in db.links :: db.links[l].Some? ==> db.links[l].value in db.snapshots
  }

  // ----- the whole repair -----

  /** Running the repair again changes nothing at all. */
  lemma RepairIsIdempotent(db: Db, stamps: set<nat>)
    ensures Repaired(Repaired(db, stamps), stamps) == Repaired(db, stamps)
  {
    var once := Repaired(db, stamps);
    HistoryIsStable(db, stamps, once);
    var before := WithHistory(db, stamps);
    SameColumn(before.postSeen, stamps, (p: nat) => PostTimes(before, p), (p: nat) => PostTimes(once, p));
    SameColumn(before.tagSeen, stamps, (t: nat) => TagTimes(before, t), (t: nat) => TagTimes(once, t));
    SameColumn(before.postTagSeen, stamps, (t: nat) => PostTagTimes(before, t), (t: nat) => PostTagTimes(once, t));
    SameColumn(before.accountSeen, stamps, (a: nat) => AccountTimes(before, a), (a: nat) => AccountTimes(once, a));
  }

  lemma HistoryIsStable(db: Db, stamps: set<nat>, once: Db)
    requires once.posts == Cleaned(db.posts, stamps) && once.snapshots == Cleaned(db.snapshots, stamps)
    requires once.tags == Cleaned(db.tags, stamps) && once.raws == db.raws
    requires once.occurrences == RestoredAll(db.occurrences, db.raws, stamps)
    ensures WithHistory(once, stamps) == once
  {
    SecondRunDeletesNothing(db.posts, stamps);
    SecondRunDeletesNothing(db.snapshots, stamps);
    SecondRunDeletesNothing(db.tags, stamps);
    assert WithHistory(once, stamps).occurrences == once.occurrences;
  }

  /** Recomputing a recomputed column from the same history keeps it. */
  lemma SameColumn(column: Column, stamps: set<nat>, times: nat -> set<nat>, again: nat -> set<nat>)
    requires forall row :: times(row) == again(row)
    ensures Recomputed(Recomputed(column, stamps, times), stamps, again) == Recomputed(column, stamps, times)
  {
  }

  /** The repair commits exactly when no row references a snapshot it deletes. */
  lemma CommitsExactly(db: Db, stamps: set<nat>)
    requires ForeignKeysHold(db)
    ensures ForeignKeysHold(WithHistory(db, stamps)) <==>
            forall l | l in db.links && db.links[l].Some? :: db.links[l].value !in DamagedRows(db.snapshots, stamps)
  {
  }

  /** An account's snapshot, the same snapshot again under a replay stamp, and a
      link observation that cites the second one. */
  function CitedDuplicate(): Db {
    var fact := SnapshotFact(1, "digest");
    Db(map[], map[1 := Row(fact, 3), 2 := Row(fact, 9)], map[], map[], map[], map[], map[], map[7 := Some(2)],
       map[], map[], map[], map[1 := Some(9)])
  }

  lemma CitedDuplicateAborts()
    ensures ForeignKeysHold(CitedDuplicate()) && !ForeignKeysHold(WithHistory(CitedDuplicate(), {9}))
  {
    var db := CitedDuplicate();
    assert IsTwin(db.snapshots, 2, 1);
    assert 2 in DamagedRows(db.snapshots, {9});
    assert db.links[7] == Some(2);
    CommitsExactly(db, {9});
  }

  /** The dry run announces exactly the projection rows that the repair will
      recompute: no subject loses its last observation. */
  lemma PlannedProjections(db: Db, stamps: set<nat>, row: nat)
    ensures var after := WithHistory(db, stamps);
      && (PostTimes(after, row) == {} <==> PostTimes(db, row) == {})
      && (TagTimes(after, row) == {} <==> TagTimes(db, row) == {})
      && (PostTagTimes(after, row) == {} <==> PostTagTimes(db, row) == {})
      && (AccountTimes(after, row) == {} <==> AccountTimes(db, row) == {})
  {
    SubjectKeepsHistory(db.posts, stamps, (f: PostFact) => f.post == row);
    SubjectKeepsHistory(db.tags, stamps, f => OnPost(db.postTags, row, f));
    SubjectKeepsHistory(db.tags, stamps, f => OnTag(db.postTags, row, f));
    SubjectKeepsHistory(db.tags, stamps, (f: TagFact) => f.postTag == row);
    SubjectKeepsHistory(db.snapshots, stamps, (f: SnapshotFact) => f.account == row);
    OccurrencesKept(db, stamps, row);
  }

  lemma OccurrencesKept(db: Db, stamps: set<nat>, post: nat)
    ensures OccurrenceTimes(WithHistory(db, stamps).occurrences, post) == {} <==> OccurrenceTimes(db.occurrences, post) == {}
  {
    var after := WithHistory(db, stamps).occurrences;
    forall id | id in db.occurrences && db.occurrences[id].post == post
      ensures after[id].at in OccurrenceTimes(after, post) && db.occurrences[id].at in OccurrenceTimes(db.occurrences, post)
    {
      assert after[id].post == post;
    }
  }

  // ----- what an applied repair leaves, row by row -----

  /** A metadata observation, an occurrence or a tag observation of the post. */
  predicate PostObserved(db: Db, post: nat, at: nat) {
    || (exists id :: id in db.posts && db.posts[id].fact.post == post && db.posts[id].at == at)
    || (exists id :: id in db.occurrences && db.occurrences[id].post == post && db.occurrences[id].at == at)
    || (exists id :: id in db.tags && db.tags[id].fact.postTag in db.postTags && db.postTags[db.tags[id].fact.postTag].post == post
                     && db.tags[id].at == at)
  }

  /** An observation of the tag, alone or on a post. */
  predicate TagObserved(db: Db, tag: nat, at: nat) {
    || (exists id :: id in db.tagHistory && db.tagHistory[id].fact == tag && db.tagHistory[id].at == at)
    || (exists id :: id in db.tags && db.tags[id].fact.postTag in db.postTags && db.postTags[db.tags[id].fact.postTag].tag == tag
                     && db.tags[id].at == at)
  }

  predicate PostTagObserved(db: Db, postTag: nat, at: nat) {
    exists id :: id in db.tags && db.tags[id].fact.postTag == postTag && db.tags[id].at == at
  }

  predicate AccountObserved(db: Db, account: nat, at: nat) {
    exists id :: id in db.snapshots && db.snapshots[id].fact.account == account && db.snapshots[id].at == at
  }

  ghost function PostObservations(db: Db): (nat, nat) -> bool { (row: nat, at: nat) => PostObserved(db, row, at) }
  ghost function TagObservations(db: Db): (nat, nat) -> bool { (row: nat, at: nat) => TagObserved(db, row, at) }
  ghost function PostTagObservations(db: Db): (nat, nat) -> bool { (row: nat, at: nat) => PostTagObserved(db, row, at) }
  ghost function AccountObservations(db: Db): (nat, nat) -> bool { (row: nat, at: nat) => AccountObserved(db, row, at) }

  /** A stamped value becomes the time of the newest observation there is; one
      that is not stamped, or has no observation, stays. */
  ghost predicate Refreshed(before: Column, after: Column, stamps: set<nat>, observed: (nat, nat) -> bool) {
    after.Keys == before.Keys &&
    forall row {:trigger after[row]} | row in before ::
      if before[row].Some? && before[row].value in stamps && exists at: nat :: observed(row, at) then
        after[row].Some? && observed(row, after[row].value) && forall at: nat | observed(row, at) :: at <= after[row].value
      else after[row] == before[row]
  }

  /** A row is deleted exactly when it is stamped and an earlier row says the
      same; the others stay as they are. */
  ghost predicate Thinned<F(!new)>(before: History<F>, after: History<F>, stamps: set<nat>) {
    && (forall id :: id in after <==> (
          && id in before
          && !(before[id].at in stamps && exists e :: e in before && before[e].fact == before[id].fact && before[e].at < before[id].at)))
    && (forall id | id in after :: after[id] == before[id])
  }

  /** A stamped occurrence takes the time of its raw observation, if it is still
      there. */
  ghost predicate Retimed(before: map<nat, Occurrence>, after: map<nat, Occurrence>, raws: map<nat, nat>, stamps: set<nat>) {
    after.Keys == before.Keys &&
    forall id {:trigger after[id]} | id in before ::
      && after[id].post == before[id].post && after[id].raw == before[id].raw
      && after[id].at == if before[id].at in stamps && before[id].raw.Some? && before[id].raw.value in raws then raws[before[id].raw.value]
                         else before[id].at
  }

  ghost predicate RepairedRows(before: Db, after: Db, stamps: set<nat>) {
    && Thinned(before.posts, after.posts, stamps) && Thinned(before.snapshots, after.snapshots, stamps) && Thinned(before.tags, after.tags, stamps)
    && Retimed(before.occurrences, after.occurrences, before.raws, stamps)
    && after.raws == before.raws && after.tagHistory == before.tagHistory && after.postTags == before.postTags && after.links == before.links
    && Refreshed(before.postSeen, after.postSeen, stamps, PostObservations(after))
    && Refreshed(before.tagSeen, after.tagSeen, stamps, TagObservations(after))
    && Refreshed(before.postTagSeen, after.postTagSeen, stamps, PostTagObservations(after))
    && Refreshed(before.accountSeen, after.accountSeen, stamps, AccountObservations(after))
  }

  /** The projections read the rows that observe them, and all of them. */
  lemma TimesAreRows(db: Db, row: nat, at: nat)
    ensures at in PostTimes(db, row) <==> PostObserved(db, row, at)
    ensures at in TagTimes(db, row) <==> TagObserved(db, row, at)
    ensures at in PostTagTimes(db, row) <==> PostTagObserved(db, row, at)
    ensures at in AccountTimes(db, row) <==> AccountObserved(db, row, at)
  {
  }

  lemma ColumnRefreshed(column: Column, stamps: set<nat>, times: nat -> set<nat>, observed: (nat, nat) -> bool)
    requires forall row: nat, at: nat :: at in times(row) <==> observed(row, at)
    ensures Refreshed(column, Recomputed(column, stamps, times), stamps, observed)
  {
    var after := Recomputed(column, stamps, times);
    forall row | row in column
      ensures if column[row].Some? && column[row].value in stamps && exists at: nat :: observed(row, at) then
                after[row].Some? && observed(row, after[row].value) && forall at: nat | observed(row, at) :: at <= after[row].value
              else after[row] == column[row]
    {
      if at: nat :| observed(row, at) { assert at in times(row); }
      if |times(row)| > 0 { var at: nat :| at in times(row); assert observed(row, at); }
    }
  }

  lemma HistoryLeaves(db: Db, stamps: set<nat>)
    ensures var mid := WithHistory(db, stamps);
      && Thinned(db.posts, mid.posts, stamps) && Thinned(db.snapshots, mid.snapshots, stamps) && Thinned(db.tags, mid.tags, stamps)
      && Retimed(db.occurrences, mid.occurrences, db.raws, stamps)
  {
    hide Thinned, Cleaned, Retimed;
    CleanedThinned(db.posts, stamps);
    CleanedThinned(db.snapshots, stamps);
    CleanedThinned(db.tags, stamps);
    RestoredRetimed(db, stamps);
  }

  lemma RestoredRetimed(db: Db, stamps: set<nat>)
    ensures Retimed(db.occurrences, RestoredAll(db.occurrences, db.raws, stamps), db.raws, stamps)
  {
  }

  lemma CleanedThinned<F(!new)>(t: History<F>, stamps: set<nat>)
    ensures Thinned(t, Cleaned(t, stamps), stamps)
  {
    forall id | id in t
      ensures HasTwin(t, id) <==> exists e :: e in t && t[e].fact == t[id].fact && t[e].at < t[id].at
    {
      if e :| e in t && t[e].fact == t[id].fact && t[e].at < t[id].at { assert IsTwin(t, id, e); }
    }
  }

  lemma RepairLeaves(db: Db, stamps: set<nat>)
    ensures RepairedRows(db, Repaired(db, stamps), stamps)
  {
    hide PostTimes, TagTimes, PostTagTimes, AccountTimes, PostObserved, TagObserved, PostTagObserved, AccountObserved,
         Recomputed, Refreshed, Thinned, Retimed, Cleaned;
    HistoryLeaves(db, stamps);
    var mid, after := WithHistory(db, stamps), Repaired(db, stamps);
    forall row: nat, at: nat
      ensures at in PostTimes(mid, row) <==> PostObserved(after, row, at)
      ensures at in TagTimes(mid, row) <==> TagObserved(after, row, at)
      ensures at in PostTagTimes(mid, row) <==> PostTagObserved(after, row, at)
      ensures at in AccountTimes(mid, row) <==> AccountObserved(after, row, at)
    {
      TimesAreRows(mid, row, at);
      SameRows(mid, after, row, at);
    }
    ColumnRefreshed(db.postSeen, stamps, (p: nat) => PostTimes(mid, p), PostObservations(after));
    ColumnRefreshed(db.tagSeen, stamps, (t: nat) => TagTimes(mid, t), TagObservations(after));
    ColumnRefreshed(db.postTagSeen, stamps, (t: nat) => PostTagTimes(mid, t), PostTagObservations(after));
    ColumnRefreshed(db.accountSeen, stamps, (a: nat) => AccountTimes(mid, a), AccountObservations(after));
  }

  lemma SameRows(a: Db, b: Db, row: nat, at: nat)
    requires b == a.(postSeen := b.postSeen, tagSeen := b.tagSeen, postTagSeen := b.postTagSeen, accountSeen := b.accountSeen)
    ensures PostObserved(a, row, at) == PostObserved(b, row, at) && TagObserved(a, row, at) == TagObserved(b, row, at)
    ensures PostTagObserved(a, row, at) == PostTagObserved(b, row, at) && AccountObserved(a, row, at) == AccountObserved(b, row, at)
  {
  }

  /** No link cites a snapshot that is missing, or that is deleted because it is
      stamped and an earlier one says the same. */
  predicate LinksKept(db: Db, stamps: set<nat>) {
    forall l | l in db.links && db.links[l].Some? ::
      var s := db.links[l].value;
      && s in db.snapshots
      && !(db.snapshots[s].at in stamps
           && exists e :: e in db.snapshots && db.snapshots[e].fact == db.snapshots[s].fact && db.snapshots[e].at < db.snapshots[s].at)
  }

  lemma LinksDecide(db: Db, stamps: set<nat>)
    ensures ForeignKeysHold(WithHistory(db, stamps)) <==> LinksKept(db, stamps)
  {
    var after := WithHistory(db, stamps);
    forall l | l in db.links && db.links[l].Some? && db.links[l].value in db.snapshots
      ensures db.links[l].value in after.snapshots <==>
              var s := db.links[l].value;
              !(db.snapshots[s].at in stamps
                && exists e :: e in db.snapshots && db.snapshots[e].fact == db.snapshots[s].fact && db.snapshots[e].at < db.snapshots[s].at)
    {
      var s := db.links[l].value;
      if e :| e in db.snapshots && db.snapshots[e].fact == db.snapshots[s].fact && db.snapshots[e].at < db.snapshots[s].at {
        assert IsTwin(db.snapshots, s, e);
      }
    }
  }

  // ----- the script -----

  /** The UPDATE loop over the stamped rows of one projection column. */
  method RecomputeColumn(column: Column, stamps: set<nat>, times: nat -> set<nat>) returns (updated: Column)
    ensures updated == Recomputed(column, stamps, times)
  {
    updated := column;
    var planned := set row | row in column && Stamped(column[row], stamps);
    var rest := planned;
    ghost var target := Recomputed(column, stamps, times);
    while |rest| > 0
      invariant rest <= planned && updated.Keys == column.Keys
      invariant forall row | row in rest :: updated[row] == column[row]
      invariant forall row | row in column && row !in rest :: updated[row] == target[row]
      decreases |rest|
    {
      var row: nat :| row in rest;
      var newest := FindLatest(times(row));
      if newest.Some? {
        updated := updated[row := newest];
      }
      rest := rest - {row};
    }
  }

  /** The UPDATE loop over the stamped occurrences found while planning. */
  method RestoreOccurrences(occurrences: map<nat, Occurrence>, raws: map<nat, nat>, stamps: set<nat>)
    returns (updated: map<nat, Occurrence>)
    ensures updated == RestoredAll(occurrences, raws, stamps)
  {
    updated := occurrences;
    var planned := set id | id in occurrences && occurrences[id].at in stamps
                            && occurrences[id].raw.Some? && occurrences[id].raw.value in raws;
    var rest := planned;
    while |rest| > 0
      invariant rest <= planned && updated.Keys == occurrences.Keys
      invariant forall id | id in rest :: updated[id] == occurrences[id]
      invariant forall id | id in occurrences && id !in rest :: updated[id] == Restored(occurrences[id], raws, stamps)
      decreases |rest|
    {
      var id: nat :| id in rest;
      updated := updated[id := occurrences[id].(at := raws[occurrences[id].raw.value])];
      rest := rest - {id};
    }
  }

  class Catalog {
    var posts: History<PostFact>
    var snapshots: History<SnapshotFact>
    var tags: History<TagFact>
    var occurrences: map<nat, Occurrence>
    var raws: map<nat, nat>
    var tagHistory: History<nat>
    var postTags: map<nat, PostTag>
    var links: map<nat, Option<nat>>
    var postSeen: Column
    var tagSeen: Column
    var postTagSeen: Column
    var accountSeen: Column

    function State(): Db
      reads this
    {
      Db(posts, snapshots, tags, occurrences, raws, tagHistory, postTags, links, postSeen, tagSeen, postTagSeen, accountSeen)
    }

    method DeleteAndRestore(stamps: set<nat>)
      modifies this`posts, this`snapshots, this`tags, this`occurrences
      ensures State() == WithHistory(old(State()), stamps)
    {
      hide DamagedRows, RestoredAll;
      posts := posts - DamagedRows(posts, stamps);
      snapshots := snapshots - DamagedRows(snapshots, stamps);
      tags := tags - DamagedRows(tags, stamps);
      occurrences := RestoreOccurrences(occurrences, raws, stamps);
    }

    method Reproject(stamps: set<nat>)
      modifies this`postSeen, this`tagSeen, this`postTagSeen, this`accountSeen
      ensures State() == WithProjections(old(State()), stamps)
    {
      var db := State();
      postSeen := RecomputeColumn(postSeen, stamps, (p: nat) => PostTimes(db, p));
      tagSeen := RecomputeColumn(tagSeen, stamps, (t: nat) => TagTimes(db, t));
      postTagSeen := RecomputeColumn(postTagSeen, stamps, (t: nat) => PostTagTimes(db, t));
      accountSeen := RecomputeColumn(accountSeen, stamps, (a: nat) => AccountTimes(db, a));
    }

    method RollbackHistory(saved: Db)
      modifies this`posts, this`snapshots, this`tags, this`occurrences
      ensures State() == old(State()).(posts := saved.posts, snapshots := saved.snapshots, tags := saved.tags,
                                       occurrences := saved.occurrences)
    {
      posts, snapshots, tags, occurrences := saved.posts, saved.snapshots, saved.tags, saved.occurrences;
    }

    method RollbackProjections(saved: Db)
      modifies this`postSeen, this`tagSeen, this`postTagSeen, this`accountSeen
      ensures State() == old(State()).(postSeen := saved.postSeen, tagSeen := saved.tagSeen,
                                       postTagSeen := saved.postTagSeen, accountSeen := saved.accountSeen)
    {
      postSeen, tagSeen, postTagSeen, accountSeen := saved.postSeen, saved.tagSeen, saved.postTagSeen, saved.accountSeen;
    }

    /** Commit the repair, or roll everything back when the foreign key check
        or the count of remaining stamped rows fails. The count never does. */
    method Apply(stamps: set<nat>) returns (applied: bool)
      modifies this
      ensures applied <==> stamps != {} && ForeignKeysHold(WithHistory(old(State()), stamps))
      ensures State() == if applied then Repaired(old(State()), stamps) else old(State())
      ensures applied <==> stamps != {} && LinksKept(old(State()), stamps)
      ensures applied ==> RepairedRows(old(State()), State(), stamps)
    {
      hide RepairedRows, LinksKept;
      LinksDecide(State(), stamps);
      RepairLeaves(State(), stamps);
      if stamps == {} {
        return false;  // no reprocess run, nothing to repair
      }
      var saved := State();
      DeleteAndRestore(stamps);
      Reproject(stamps);
      RemainingAreOrphans(saved.posts, stamps);
      RemainingAreOrphans(saved.snapshots, stamps);
      RemainingAreOrphans(saved.tags, stamps);
      applied := ForeignKeysHold(State())
                 && |StampedRows(posts, stamps)| == |Orphans(saved.posts, stamps)|
                 && |StampedRows(snapshots, stamps)| == |Orphans(saved.snapshots, stamps)|
                 && |StampedRows(tags, stamps)| == |Orphans(saved.tags, stamps)|;
      if !applied {
        RollbackHistory(saved);
        RollbackProjections(saved);
      }
    }
  }
}

/** Folding anchorless duplicate observations into the earliest one: plan,
    re-point the referencing rows, delete, verify. */
module AnchorlessRepair {

  import opened Basics

  datatype Observation = Observation(kind: string, native: Option<string>, payload: nat, platform: Option<nat>, anchored: bool)

  /** A row referencing an observation through a raw_observation_id column.
      `slot` stands for the other columns of a UNIQUE constraint over that
      column, when the row's table has one and none of them is NULL. */
  datatype Reference = Reference(slot: Option<nat>, target: Option<nat>)

  /** `others` are references through columns of another name, such as
      source_raw_observation_id. */
  datatype Db = Db(observations: map<nat, Observation>, references: map<nat, Reference>, others: map<nat, Option<nat>>)

  predicate SameContent(a: Observation, b: Observation) {
    a.kind == b.kind && a.native == b.native && a.payload == b.payload
  }

  /** Two members of one anchorless group. */
  predicate Duplicates(obs: map<nat, Observation>, a: nat, b: nat)
    requires a in obs && b in obs
  {
    !obs[a].anchored && !obs[b].anchored && SameContent(obs[a], obs[b])
  }

  ghost predicate IsEarliest(obs: map<nat, Observation>, id: nat, keep: nat)
    requires id in obs
  {
    keep in obs && Duplicates(obs, id, keep) && forall other | other in obs && Duplicates(obs, id, other) :: keep <= other
  }

  lemma {:induction false} EarliestBelow(obs: map<nat, Observation>, id: nat, member: nat)
    requires id in obs && !obs[id].anchored && member in obs && Duplicates(obs, id, member)
    ensures exists keep :: IsEarliest(obs, id, keep)
    decreases member
  {
    if !IsEarliest(obs, id, member) {
      var other :| other in obs && Duplicates(obs, id, other) && other < member;
      EarliestBelow(obs, id, other);
    }
  }

  /** MIN(raw_observation_id) of the observation's group. */
  ghost function Earliest(obs: map<nat, Observation>, id: nat): (keep: nat)
    requires id in obs && !obs[id].anchored
    ensures IsEarliest(obs, id, keep)
  {
    EarliestBelow(obs, id, id);
    var keep :| IsEarliest(obs, id, keep);
    keep
  }

  ghost predicate IsDrop(obs: map<nat, Observation>, id: nat) {
    id in obs && !obs[id].anchored && Earliest(obs, id) != id
  }

  ghost function Drops(obs: map<nat, Observation>): set<nat> {
    set id | id in obs && IsDrop(obs, id)
  }

  ghost function Moved(obs: map<nat, Observation>, dropped: set<nat>, target: Option<nat>): Option<nat>
    requires dropped <= Drops(obs)
  {
    if target.Some? && target.value in dropped then Some(Earliest(obs, target.value)) else target
  }

  ghost function Repointed(db: Db, dropped: set<nat>): map<nat, Reference>
    requires dropped <= Drops(db.observations)
  {
    map r | r in db.references :: db.references[r].(target := Moved(db.observations, dropped, db.references[r].target))
  }

  ghost function Repaired(db: Db): Db {
    db.(observations := db.observations - Drops(db.observations), references := Repointed(db, Drops(db.observations)))
  }

  // ----- constraints -----

  predicate Collide(a: Reference, b: Reference) {
    a.slot.Some? && a.slot == b.slot && a.target.Some? && a.target == b.target
  }

  predicate Unique(refs: map<nat, Reference>) {
    forall r, q | r in refs && q in refs && r != q :: !Collide(refs[r], refs[q])
  }

  predicate ForeignKeysHold(db: Db) {
    && (forall r | r in db.references :: db.references[r].target.Some? ==> db.references[r].target.value in db.observations)
    && (forall r | r in db.others :: db.others[r].Some? ==> db.others[r].value in db.observations)
  }

  // ----- what the repair achieves -----

  lemma KeptIsKept(obs: map<nat, Observation>, id: nat)
    requires id in obs && !obs[id].anchored
    ensures !IsDrop(obs, Earliest(obs, id))
  {
    var keep := Earliest(obs, id);
    assert Duplicates(obs, keep, id) && Duplicates(obs, id, Earliest(obs, keep));
  }

  /** Every group keeps exactly one observation, its earliest. */
  lemma OnePerGroup(db: Db, id: nat, other: nat)
    requires id in db.observations && !db.observations[id].anchored && other in db.observations
    ensures var after := Repaired(db).observations;
      other in after && Duplicates(db.observations, id, other) <==> other == Earliest(db.observations, id)
    ensures var after, here := Repaired(db).observations, db.observations[id];
      other == Earliest(db.observations, id) ==>
        && other in after && !after[other].anchored
        && after[other].kind == here.kind && after[other].native == here.native && after[other].payload == here.payload
  {
    KeptIsKept(db.observations, id);
    if Duplicates(db.observations, id, other) {
      assert Duplicates(db.observations, other, Earliest(db.observations, id));
      assert Duplicates(db.observations, id, Earliest(db.observations, other));
    }
  }

  /** No observation changes, and anchored ones all stay. */
  lemma AnchoredUntouched(db: Db, id: nat)
    requires id in db.observations
    ensures db.observations[id].anchored ==> id in Repaired(db).observations
    ensures id in Repaired(db).observations ==> Repaired(db).observations[id] == db.observations[id]
  {
  }

  /** Every referencing row is still there, points to an existing observation
      with the content it pointed to before, and moves only off a duplicate. */
  lemma ReferencesKeepContent(db: Db, r: nat)
    requires ForeignKeysHold(db) && r in db.references
    ensures Repaired(db).references.Keys == db.references.Keys
    ensures var before, after := db.references[r], Repaired(db).references[r];
      && after.slot == before.slot && (after.target.None? <==> before.target.None?)
      && (before.target.Some? ==>
            && after.target.value in Repaired(db).observations
            && (after.target != before.target ==> IsDrop(db.observations, before.target.value) && after.target.value < before.target.value))
    ensures db.references[r].target.Some? ==>
              var cited, kept := db.observations[db.references[r].target.value], Repaired(db).observations[Repaired(db).references[r].target.value];
              cited.kind == kept.kind && cited.native == kept.native && cited.payload == kept.payload
  {
    var before := db.references[r];
    if before.target.Some? && before.target.value in Drops(db.observations) {
      KeptIsKept(db.observations, before.target.value);
      assert Duplicates(db.observations, before.target.value, before.target.value);
    }
  }

  /** A second run has an empty plan. */
  lemma SecondPlanEmpty(db: Db)
    ensures Drops(Repaired(db).observations) == {}
  {
    var after := Repaired(db).observations;
    forall id | id in after ensures !IsDrop(after, id) {
      if !after[id].anchored {
        var keep := Earliest(after, id);
        OnePerGroup(db, id, keep);
        OnePerGroup(db, id, id);
      }
    }
  }

  /** Two rows of one slot refer to duplicates of each other: re-pointing sends
      them to the same observation. */
  predicate Meet(obs: map<nat, Observation>, a: Reference, b: Reference) {
    && a.slot.Some? && a.slot == b.slot && a.target.Some? && b.target.Some?
    && a.target.value in obs && b.target.value in obs && Duplicates(obs, a.target.value, b.target.value)
  }

  predicate SlotsApart(db: Db) {
    forall r, q | r in db.references && q in db.references && r != q :: !Meet(db.observations, db.references[r], db.references[q])
  }

  /** No column of another name refers to a dropped observation. */
  ghost predicate OthersApart(db: Db) {
    forall r | r in db.others && db.others[r].Some? :: !IsDrop(db.observations, db.others[r].value)
  }

  /** Re-pointed rows collide exactly when they met before. */
  lemma MovedMeet(obs: map<nat, Observation>, a: Reference, b: Reference)
    requires !Collide(a, b)
    ensures var to := Drops(obs);
      Collide(a.(target := Moved(obs, to, a.target)), b.(target := Moved(obs, to, b.target))) <==> Meet(obs, a, b)
  {
    if a.target.Some? && b.target.Some? {
      var x, y := a.target.value, b.target.value;
      if x in obs && y in obs && Duplicates(obs, x, y) {
        var k, l := Earliest(obs, x), Earliest(obs, y);
        assert Duplicates(obs, x, l) && Duplicates(obs, y, k);
      }
    }
  }

  lemma UniqueExactly(db: Db)
    requires Unique(db.references)
    ensures Unique(Repaired(db).references) <==> SlotsApart(db)
  {
    var after := Repaired(db).references;
    forall r, q | r in db.references && q in db.references && r != q
      ensures Collide(after[r], after[q]) <==> Meet(db.observations, db.references[r], db.references[q])
    {
      MovedMeet(db.observations, db.references[r], db.references[q]);
    }
  }

  lemma ForeignKeysExactly(db: Db)
    ensures ForeignKeysHold(Repaired(db)) <==> ForeignKeysHold(db) && OthersApart(db)
  {
    var after := Repaired(db).references;
    forall r | r in db.references && db.references[r].target.Some?
      ensures after[r].target.value in Repaired(db).observations <==> db.references[r].target.value in db.observations
    {
      if db.references[r].target.value in Drops(db.observations) {
        KeptIsKept(db.observations, db.references[r].target.value);
      }
    }
  }

  /** The script's two checks, on the catalogue before it: re-pointing violates
      no UNIQUE constraint exactly when no two rows of one slot refer to
      duplicates of each other, and the foreign key check after the deletes
      passes exactly when it did before and no column of another name refers to
      a dropped observation. */
  lemma CommitsExactly(db: Db)
    requires Unique(db.references)
    ensures Unique(Repaired(db).references) <==> SlotsApart(db)
    ensures ForeignKeysHold(Repaired(db)) <==> ForeignKeysHold(db) && OthersApart(db)
  {
    UniqueExactly(db);
    ForeignKeysExactly(db);
  }

  /** The same provider document observed twice without an anchor, and two rows
      that differ in nothing but which of the two they cite. */
  function CitedTwice(): Db {
    var seen := Observation("post", Some("1"), 4, None, false);
    Db(map[1 := seen, 2 := seen], map[5 := Reference(Some(0), Some(1)), 6 := Reference(Some(0), Some(2))], map[])
  }

  lemma CitedTwiceAborts()
    ensures Unique(CitedTwice().references) && ForeignKeysHold(CitedTwice()) && !Unique(Repaired(CitedTwice()).references)
  {
    hide Repaired;
    var db := CitedTwice();
    assert Meet(db.observations, db.references[5], db.references[6]);
    UniqueExactly(db);
  }

  /** The second of the two is cited through a column of another name. */
  lemma CitedElsewhereAborts()
    ensures var db := CitedTwice().(references := map[], others := map[8 := Some(2)]);
      ForeignKeysHold(db) && !ForeignKeysHold(Repaired(db))
  {
    hide Repaired;
    var db := CitedTwice().(references := map[], others := map[8 := Some(2)]);
    assert Duplicates(db.observations, 2, 1);
    assert IsDrop(db.observations, 2) && db.others[8] == Some(2);
    ForeignKeysExactly(db);
  }

  // ----- what an applied repair leaves, row by row -----

  /** Two observations without an anchor of one document: same kind, same native
      id, same payload. */
  predicate Repeats(obs: map<nat, Observation>, a: nat, b: nat) {
    && a in obs && b in obs && !obs[a].anchored && !obs[b].anchored
    && obs[a].kind == obs[b].kind && obs[a].native == obs[b].native && obs[a].payload == obs[b].payload
  }

  /** It stays: it is anchored, or no earlier one repeats it. */
  predicate Stays(obs: map<nat, Observation>, id: nat) {
    id in obs && (obs[id].anchored || forall other | other in obs && Repeats(obs, id, other) :: id <= other)
  }

  /** A reference to an observation that goes cites the earliest of its document
      instead. */
  predicate Follows(obs: map<nat, Observation>, before: Option<nat>, after: Option<nat>) {
    if before.Some? && before.value in obs && !Stays(obs, before.value) then
      && after.Some? && Repeats(obs, before.value, after.value)
      && forall other | other in obs && Repeats(obs, before.value, other) :: after.value <= other
    else after == before
  }

  predicate FoldedRows(before: Db, after: Db) {
    && (forall id | id in before.observations :: id in after.observations <==> Stays(before.observations, id))
    && (forall id | id in after.observations :: id in before.observations && after.observations[id] == before.observations[id])
    && after.references.Keys == before.references.Keys && after.others == before.others
    && (forall r | r in before.references ::
          after.references[r].slot == before.references[r].slot
          && Follows(before.observations, before.references[r].target, after.references[r].target))
  }

  lemma DropsGo(obs: map<nat, Observation>, id: nat)
    requires id in obs
    ensures Stays(obs, id) <==> !IsDrop(obs, id)
  {
    if !obs[id].anchored {
      var keep := Earliest(obs, id);
      assert Repeats(obs, id, keep);
    }
  }

  lemma RepairFolds(db: Db)
    ensures FoldedRows(db, Repaired(db))
  {
    hide Stays, IsDrop;
    var obs := db.observations;
    forall id | id in obs ensures Stays(obs, id) <==> !IsDrop(obs, id) { DropsGo(obs, id); }
    forall r | r in db.references ensures Follows(obs, db.references[r].target, Repaired(db).references[r].target) {
      var target := db.references[r].target;
      if target.Some? && target.value in obs && IsDrop(obs, target.value) { FirstFollows(obs, target.value); }
    }
  }

  lemma FirstFollows(obs: map<nat, Observation>, id: nat)
    requires IsDrop(obs, id)
    ensures Follows(obs, Some(id), Some(Earliest(obs, id)))
  {
    DropsGo(obs, id);
    forall other | other in obs && Repeats(obs, id, other) ensures Earliest(obs, id) <= other {
      assert Duplicates(obs, id, other);
    }
  }

  /** Nothing stands in the way: every reference cites an observation, no two
      rows of one slot cite the same document without an anchor, and no column
      of another name cites an observation that goes. */
  predicate FoldsCleanly(db: Db) {
    && (forall r | r in db.references && db.references[r].target.Some? :: db.references[r].target.value in db.observations)
    && (forall r | r in db.others && db.others[r].Some? :: Stays(db.observations, db.others[r].value))
    && (forall r, q | r in db.references && q in db.references && r != q && db.references[r].slot.Some?
          && db.references[r].slot == db.references[q].slot && db.references[r].target.Some? && db.references[q].target.Some? ::
          !Repeats(db.observations, db.references[r].target.value, db.references[q].target.value))
  }

  lemma CleanExactly(db: Db)
    ensures ForeignKeysHold(db) && SlotsApart(db) && OthersApart(db) <==> FoldsCleanly(db)
  {
    hide Stays, IsDrop;
    forall id | id in db.observations ensures Stays(db.observations, id) <==> !IsDrop(db.observations, id) { DropsGo(db.observations, id); }
    StaysThere(db.observations);
    forall r, q | r in db.references && q in db.references && r != q
      ensures Meet(db.observations, db.references[r], db.references[q]) <==>
              && db.references[r].slot.Some? && db.references[r].slot == db.references[q].slot
              && db.references[r].target.Some? && db.references[q].target.Some?
              && Repeats(db.observations, db.references[r].target.value, db.references[q].target.value)
    {
    }
  }

  lemma StaysThere(obs: map<nat, Observation>)
    ensures forall id | Stays(obs, id) :: id in obs
  {
  }

  // ----- the script -----

  datatype Entry = Entry(drop: nat, keep: nat)

  predicate IsHead(obs: map<nat, Observation>, keep: nat) {
    keep in obs && !obs[keep].anchored && forall other | other in obs && Duplicates(obs, keep, other) :: keep <= other
  }

  ghost predicate EntryOk(obs: map<nat, Observation>, e: Entry) {
    IsDrop(obs, e.drop) && e.keep == Earliest(obs, e.drop)
  }

  ghost predicate Lists(plan: seq<Entry>, drop: nat) {
    exists i :: 0 <= i < |plan| && plan[i].drop == drop
  }

  ghost predicate Once(plan: seq<Entry>) {
    forall i, j | 0 <= i < j < |plan| :: plan[i].drop != plan[j].drop
  }

  ghost predicate PlanOk(obs: map<nat, Observation>, plan: seq<Entry>) {
    && Once(plan) && (forall e | e in plan :: EntryOk(obs, e))
    && (forall drop: nat | IsDrop(obs, drop) :: Lists(plan, drop))
  }

  lemma HeadIsEarliest(obs: map<nat, Observation>, keep: nat, member: nat)
    requires member in obs && !obs[member].anchored && keep in obs
    ensures IsHead(obs, keep) && Duplicates(obs, keep, member) <==> Earliest(obs, member) == keep
  {
    var first := Earliest(obs, member);
    if IsHead(obs, keep) && Duplicates(obs, keep, member) {
      assert Duplicates(obs, keep, first) && Duplicates(obs, member, keep);
    }
    if first == keep {
      forall other | other in obs && Duplicates(obs, keep, other) ensures keep <= other {
        assert Duplicates(obs, member, other);
      }
    }
  }

  method Bound(obs: map<nat, Observation>) returns (n: nat)
    ensures forall id | id in obs :: id < n
  {
    n := 0;
    var rest := obs.Keys;
    while |rest| > 0
      invariant rest <= obs.Keys && forall id | id in obs && id !in rest :: id < n
      decreases |rest|
    {
      var id: nat :| id in rest;
      if id >= n { n := id + 1; }
      rest := rest - {id};
    }
  }

  /** The members of one group after its head, in id order. */
  method GroupEntries(obs: map<nat, Observation>, keep: nat, n: nat) returns (entries: seq<Entry>)
    requires IsHead(obs, keep) && forall id | id in obs :: id < n
    ensures Once(entries) && forall e | e in entries :: EntryOk(obs, e) && e.keep == keep
    ensures forall drop: nat | IsDrop(obs, drop) && Earliest(obs, drop) == keep :: Lists(entries, drop)
  {
    entries := [];
    for member := keep + 1 to n
      invariant Once(entries) && forall e | e in entries :: EntryOk(obs, e) && e.keep == keep && e.drop < member
      invariant forall drop: nat | IsDrop(obs, drop) && Earliest(obs, drop) == keep && drop < member :: Lists(entries, drop)
    {
      ghost var before := entries;
      if member in obs && Duplicates(obs, keep, member) {
        HeadIsEarliest(obs, keep, member);
        entries := entries + [Entry(member, keep)];
        assert entries[|before|].drop == member;
      }
      forall drop: nat | IsDrop(obs, drop) && Earliest(obs, drop) == keep && drop <= member ensures Lists(entries, drop) {
        if drop < member {
          KeepListed(before, entries, drop);
        } else {
          HeadIsEarliest(obs, keep, drop);
        }
      }
    }
  }

  lemma KeepListed(some: seq<Entry>, more: seq<Entry>, drop: nat)
    requires some <= more && Lists(some, drop)
    ensures Lists(more, drop)
  {
    var i :| 0 <= i < |some| && some[i].drop == drop;
    assert more[i].drop == drop;
  }

  lemma OnceMore(obs: map<nat, Observation>, left: seq<Entry>, right: seq<Entry>, keep: nat)
    requires Once(left) && (forall e | e in left :: EntryOk(obs, e) && e.keep < keep)
    requires Once(right) && (forall e | e in right :: EntryOk(obs, e) && e.keep == keep)
    ensures Once(left + right)
  {
    var plan := left + right;
    forall i, j | 0 <= i < j < |plan| ensures plan[i].drop != plan[j].drop {
      if i < |left| <= j { assert left[i] in left && right[j - |left|] in right; }
    }
  }

  lemma ListedRight(left: seq<Entry>, right: seq<Entry>, drop: nat)
    requires Lists(right, drop)
    ensures Lists(left + right, drop)
  {
    var i :| 0 <= i < |right| && right[i].drop == drop;
    assert (left + right)[|left| + i].drop == drop;
  }

  /** The groups in the order of their heads, each folded into its head. */
  method Plan(obs: map<nat, Observation>) returns (plan: seq<Entry>)
    ensures PlanOk(obs, plan)
  {
    var n := Bound(obs);
    plan := [];
    for keep := 0 to n
      invariant Once(plan) && forall e | e in plan :: EntryOk(obs, e) && e.keep < keep
      invariant forall drop: nat | IsDrop(obs, drop) && Earliest(obs, drop) < keep :: Lists(plan, drop)
    {
      ghost var before := plan;
      ghost var group: seq<Entry> := [];
      if IsHead(obs, keep) {
        var entries := GroupEntries(obs, keep, n);
        OnceMore(obs, plan, entries, keep);
        plan := plan + entries;
        group := entries;
      }
      forall drop: nat | IsDrop(obs, drop) && Earliest(obs, drop) <= keep ensures Lists(plan, drop) {
        if Earliest(obs, drop) < keep {
          KeepListed(before, plan, drop);
        } else {
          HeadIsEarliest(obs, keep, drop);
          ListedRight(before, group, drop);
        }
      }
    }
  }

  ghost function DroppedIn(plan: seq<Entry>): set<nat> {
    set e | e in plan :: e.drop
  }

  lemma PlanDropsAll(obs: map<nat, Observation>, plan: seq<Entry>)
    requires PlanOk(obs, plan)
    ensures DroppedIn(plan) == Drops(obs)
  {
    forall d | d in Drops(obs) ensures d in DroppedIn(plan) {
      var i :| 0 <= i < |plan| && plan[i].drop == d;
      assert plan[i] in plan;
    }
  }

  /** One UPDATE of the script extends the re-pointing by one dropped id. */
  lemma RepointOne(db: Db, dropped: set<nat>, e: Entry)
    requires dropped <= Drops(db.observations) && EntryOk(db.observations, e)
    ensures var refs := Repointed(db, dropped);
      Repointed(db, dropped + {e.drop}) ==
      map r | r in refs :: if refs[r].target == Some(e.drop) then refs[r].(target := Some(e.keep)) else refs[r]
  {
    forall r | r in db.references && db.references[r].target.Some? && db.references[r].target.value in dropped
      ensures Earliest(db.observations, db.references[r].target.value) != e.drop
    {
      KeptIsKept(db.observations, db.references[r].target.value);
    }
  }

  /** Two rows that collide part way through also collide at the end. */
  lemma CollisionStays(db: Db, dropped: set<nat>)
    requires dropped <= Drops(db.observations) && Unique(db.references)
    requires !Unique(Repointed(db, dropped))
    ensures !Unique(Repaired(db).references)
  {
    var refs, final := Repointed(db, dropped), Repaired(db).references;
    var r, q :| r in refs && q in refs && r != q && Collide(refs[r], refs[q]);
    assert !Collide(db.references[r], db.references[q]);
    var a, b := db.references[r].target.value, db.references[q].target.value;
    if a in dropped { KeptIsKept(db.observations, a); }
    if b in dropped { KeptIsKept(db.observations, b); }
    assert Collide(final[r], final[q]);
  }

  class Catalog {
    var observations: map<nat, Observation>
    var references: map<nat, Reference>
    var others: map<nat, Option<nat>>

    function State(): Db
      reads this
    {
      Db(observations, references, others)
    }

    /** UPDATE ... SET raw_observation_id = keep WHERE raw_observation_id = drop;
        false stands for the UNIQUE constraint's IntegrityError. */
    method Repoint(e: Entry) returns (ok: bool)
      modifies this`references
      ensures references ==
        map r | r in old(references) :: if old(references)[r].target == Some(e.drop) then old(references)[r].(target := Some(e.keep)) else old(references)[r]
      ensures ok <==> Unique(references)
    {
      references := map r | r in references ::
        if references[r].target == Some(e.drop) then references[r].(target := Some(e.keep)) else references[r];
      ok := Unique(references);
    }

    /** The re-pointing loop over the plan. */
    method RepointAll(plan: seq<Entry>) returns (ok: bool)
      requires PlanOk(observations, plan) && Unique(references)
      modifies this`references
      ensures ok <==> SlotsApart(old(State()))
      ensures ok ==> references == Repaired(old(State())).references
    {
      ghost var db := State();
      CommitsExactly(db);
      ok := true;
      for i := 0 to |plan|
        invariant DroppedIn(plan[..i]) <= Drops(observations)
        invariant references == Repointed(db, DroppedIn(plan[..i])) && Unique(references)
      {
        RepointOne(db, DroppedIn(plan[..i]), plan[i]);
        assert DroppedIn(plan[..i + 1]) == DroppedIn(plan[..i]) + {plan[i].drop} by {
          assert plan[..i + 1] == plan[..i] + [plan[i]];
        }
        ok := Repoint(plan[i]);
        if !ok {
          CollisionStays(db, DroppedIn(plan[..i + 1]));
          return false;
        }
      }
      assert plan[..|plan|] == plan;
      PlanDropsAll(observations, plan);
    }

    /** The whole script: commit, or roll back on a UNIQUE violation, a dangling
        reference or a remaining group. A group never remains. */
    method Apply() returns (applied: bool)
      requires Unique(references)
      modifies this
      ensures applied <==> ForeignKeysHold(old(State())) && SlotsApart(old(State())) && OthersApart(old(State()))
      ensures State() == if applied then Repaired(old(State())) else old(State())
      ensures applied <==> FoldsCleanly(old(State()))
      ensures applied ==> FoldedRows(old(State()), State())
    {
      hide FoldsCleanly, FoldedRows;
      CleanExactly(State());
      RepairFolds(State());
      var saved := State();
      CommitsExactly(saved);
      var plan := Plan(observations);
      applied := RepointAll(plan);
      if applied {
        observations := observations - set e | e in plan :: e.drop;
        PlanDropsAll(saved.observations, plan);
        assert State() == Repaired(saved);
        SecondPlanEmpty(saved);
        var remaining := Plan(observations);
        PlanDropsAll(observations, remaining);
        applied := ForeignKeysHold(State()) && |set e | e in remaining :: e.drop| == 0;
      }
      if !applied {
        observations, references, others := saved.observations, saved.references, saved.others;
      }
    }
  }
}

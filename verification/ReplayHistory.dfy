/** Deleting replay-stamped duplicates from one history table: what is deleted,
    what stays, and why no fact is lost. Times are ordered like the timestamp
    texts; facts compare like SQL's IS. */
module ReplayHistory {

  datatype Row<F> = Row(fact: F, at: nat)
  type History<F> = map<nat, Row<F>>

  predicate IsTwin<F(==)>(t: History<F>, id: nat, e: nat)
    requires id in t && e in t
  {
    t[e].fact == t[id].fact && t[e].at < t[id].at
  }

  predicate HasTwin<F(==)>(t: History<F>, id: nat)
    requires id in t
  {
    exists e | e in t :: IsTwin(t, id, e)
  }

  /** A replay-stamped row with an identical-facts row at an earlier time. */
  predicate Damaged<F(==)>(t: History<F>, stamps: set<nat>, id: nat)
    requires id in t
  {
    t[id].at in stamps && HasTwin(t, id)
  }

  /** A replay-stamped row without one: the planner counts it and keeps it. */
  predicate Orphan<F(==)>(t: History<F>, stamps: set<nat>, id: nat)
    requires id in t
  {
    t[id].at in stamps && !HasTwin(t, id)
  }

  function DamagedRows<F(==)>(t: History<F>, stamps: set<nat>): set<nat> {
    set id | id in t && Damaged(t, stamps, id)
  }

  function Orphans<F(==)>(t: History<F>, stamps: set<nat>): set<nat> {
    set id | id in t && Orphan(t, stamps, id)
  }

  function StampedRows<F>(t: History<F>, stamps: set<nat>): set<nat> {
    set id | id in t && t[id].at in stamps
  }

  /** The DELETE statement; its subquery sees the table before any deletion. */
  function Cleaned<F(==)>(t: History<F>, stamps: set<nat>): History<F> {
    t - DamagedRows(t, stamps)
  }

  ghost function Before<F>(t: History<F>, at: nat): set<nat> {
    set e | e in t && t[e].at < at
  }

  /** Every deleted row has a surviving twin at a strictly earlier time, even
      when its nearest twins are deleted too: twins only ever lead back in
      time, and the earliest one is never deleted. */
  lemma {:induction false} SurvivingTwin<F>(t: History<F>, stamps: set<nat>, id: nat) returns (keeper: nat)
    requires id in t && Damaged(t, stamps, id)
    ensures keeper in Cleaned(t, stamps) && IsTwin(t, id, keeper) && Cleaned(t, stamps)[keeper] == t[keeper]
    decreases |Before(t, t[id].at)|
  {
    var e :| e in t && IsTwin(t, id, e);
    if Damaged(t, stamps, e) {
      assert Before(t, t[e].at) <= Before(t, t[id].at) && e in Before(t, t[id].at) && e !in Before(t, t[e].at);
      SmallerSet(Before(t, t[e].at), Before(t, t[id].at), e);
      keeper := SurvivingTwin(t, stamps, e);
    } else {
      keeper := e;
    }
  }

  lemma SmallerSet(a: set<nat>, b: set<nat>, x: nat)
    requires a <= b && x in b && x !in a
    ensures |a| < |b|
  {
    var rest := b - a;
    assert b == a + rest && x in rest;
    assert |b| == |a| + |rest|;
  }

  ghost predicate Holds<F(!new)>(t: History<F>, fact: F) {
    exists id :: id in t && t[id].fact == fact
  }

  /** The fact was observed at this time or earlier. */
  ghost predicate SeenBy<F(!new)>(t: History<F>, fact: F, at: nat) {
    exists id :: id in t && t[id].fact == fact && t[id].at <= at
  }

  /** The distinct facts, and since when each is known, are unchanged. */
  lemma NoFactLost<F(!new)>(t: History<F>, stamps: set<nat>, fact: F, at: nat)
    ensures Holds(Cleaned(t, stamps), fact) <==> Holds(t, fact)
    ensures SeenBy(Cleaned(t, stamps), fact, at) <==> SeenBy(t, fact, at)
  {
    if Holds(t, fact) {
      var id :| id in t && t[id].fact == fact;
      KeeperOf(t, stamps, id);
    }
    if SeenBy(t, fact, at) {
      var id :| id in t && t[id].fact == fact && t[id].at <= at;
      KeeperOf(t, stamps, id);
    }
  }

  lemma KeeperOf<F(!new)>(t: History<F>, stamps: set<nat>, id: nat)
    requires id in t
    ensures SeenBy(Cleaned(t, stamps), t[id].fact, t[id].at)
  {
    var k := id;
    if Damaged(t, stamps, id) {
      k := SurvivingTwin(t, stamps, id);
    }
    assert k in Cleaned(t, stamps);
  }

  /** The stamped rows that remain are exactly the planned orphans. */
  lemma RemainingAreOrphans<F>(t: History<F>, stamps: set<nat>)
    ensures StampedRows(Cleaned(t, stamps), stamps) == Orphans(t, stamps)
  {
  }

  /** A second run finds nothing to delete and the same orphans. */
  lemma SecondRunDeletesNothing<F>(t: History<F>, stamps: set<nat>)
    ensures DamagedRows(Cleaned(t, stamps), stamps) == {}
    ensures Orphans(Cleaned(t, stamps), stamps) == Orphans(t, stamps)
  {
    var u := Cleaned(t, stamps);
    forall id | id in u ensures HasTwin(u, id) <==> HasTwin(t, id) {
      if HasTwin(u, id) {
        var e :| e in u && IsTwin(u, id, e);
        assert IsTwin(t, id, e);
      }
      if HasTwin(t, id) {
        var e :| e in t && IsTwin(t, id, e);
        if Damaged(t, stamps, e) {
          var k := SurvivingTwin(t, stamps, e);
          assert IsTwin(u, id, k);
        } else {
          assert IsTwin(u, id, e);
        }
      }
    }
  }

  /** The times of the rows about one subject. */
  function TimesOf<F>(t: History<F>, about: F -> bool): set<nat> {
    set id | id in t && about(t[id].fact) :: t[id].at
  }

  /** No subject loses its last observation. */
  lemma SubjectKeepsHistory<F(!new)>(t: History<F>, stamps: set<nat>, about: F -> bool)
    ensures TimesOf(Cleaned(t, stamps), about) == {} <==> TimesOf(t, about) == {}
  {
    var u := Cleaned(t, stamps);
    if TimesOf(t, about) != {} {
      var at :| at in TimesOf(t, about);
      var id :| id in t && about(t[id].fact) && t[id].at == at;
      var k := id;
      if Damaged(t, stamps, id) {
        k := SurvivingTwin(t, stamps, id);
      }
      assert k in u && about(u[k].fact);
      assert u[k].at in TimesOf(u, about);
    }
    if TimesOf(u, about) != {} {
      var at :| at in TimesOf(u, about);
      assert at in TimesOf(t, about);
    }
  }
}

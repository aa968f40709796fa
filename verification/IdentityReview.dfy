/** Reviews of account candidates: recording the decision, joining identities
    on confirmation and rebuilding them when a confirmation is withdrawn. */
module IdentityReview {

  import opened Basics
  import opened Graph
  import opened AccountForest
  import opened IdentityTables
  import opened IdentityInvariant
  import Effects = ReviewEffects

  /** A row of the confirmed-edge query with its newest confirmation. */
  datatype EdgeRow = EdgeRow(candidate: nat, subject: nat, target: nat, decision: nat)

  function RowEdge(row: EdgeRow): Edge {
    Edge(row.subject, row.target)
  }

  function RowEdges(rows: seq<EdgeRow>): (es: seq<Edge>)
    ensures |es| == |rows| && forall i | 0 <= i < |rows| :: es[i] == RowEdge(rows[i])
  {
    seq(|rows|, i requires 0 <= i < |rows| => RowEdge(rows[i]))
  }

  ghost predicate RowOk(candidates: map<nat, Candidate>, decisions: map<nat, Decision>, row: EdgeRow) {
    && row.candidate in candidates && IsConfirmedEdge(candidates[row.candidate])
    && EdgeOf(candidates[row.candidate]) == RowEdge(row)
    && row.decision in decisions && IsConfirmation(decisions[row.decision], row.candidate)
    && forall d | d in decisions && IsConfirmation(decisions[d], row.candidate) :: d <= row.decision
  }

  /** `rows` is a result, in some order, of the query for confirmed edges. */
  ghost predicate QueryResult(candidates: map<nat, Candidate>, decisions: map<nat, Decision>, rows: seq<EdgeRow>) {
    && (forall row | row in rows :: RowOk(candidates, decisions, row))
    && EdgeSet(RowEdges(rows)) == ConfirmedGraph(candidates)
  }

  /** No edge leaves the set. */
  predicate Balanced(edges: seq<Edge>, within: set<nat>) {
    forall e | e in edges :: e.a in within <==> e.b in within
  }

  /** The loop's test: exactly one end is inside. */
  lemma OneEndInside(e: Edge, within: set<nat>)
    ensures ({e.a, e.b} * within != {} && !({e.a, e.b} <= within)) <==> (e.a in within) != (e.b in within)
  {
    if e.a in within { assert e.a in {e.a, e.b} * within; }
    if e.b in within { assert e.b in {e.a, e.b} * within; }
  }

  /** One pass of the closure loop over the edges. */
  method Pass(edges: seq<Edge>, start: set<nat>, before: set<nat>) returns (involved: set<nat>, changed: bool)
    requires start <= before && ReachedFrom(EdgeSet(edges), start, before)
    ensures before <= involved && ReachedFrom(EdgeSet(edges), start, involved)
    ensures !changed ==> Closed(EdgeSet(edges), before) && involved == before
    ensures changed ==> exists x :: x in Ends(EdgeSet(edges)) && x in involved && x !in before
  {
    involved, changed := before, false;
    for i := 0 to |edges|
      invariant before <= involved && ReachedFrom(EdgeSet(edges), start, involved)
      invariant !changed ==> involved == before && Balanced(edges[..i], before)
      invariant changed ==> exists x :: x in Ends(EdgeSet(edges)) && x in involved && x !in before
    {
      var endpoints := {edges[i].a, edges[i].b};
      OneEndInside(edges[i], involved);
      assert edges[..i + 1] == edges[..i] + [edges[i]];
      if endpoints * involved != {} && !(endpoints <= involved) {
        assert edges[i] in EdgeSet(edges);
        GrowReached(EdgeSet(edges), start, involved, edges[i]);
        involved := involved + endpoints;
        changed := true;
      }
    }
    assert edges[..|edges|] == edges;
  }

  /** The closure loop: passes over the edges until a pass adds nothing. */
  method CloseOver(edges: seq<Edge>, start: set<nat>) returns (involved: set<nat>)
    ensures IsClosure(EdgeSet(edges), start, involved)
  {
    forall x | x in start ensures Connected(EdgeSet(edges), x, x) { Reflexive(EdgeSet(edges), x); }
    involved := start;
    var changed := true;
    while changed
      invariant start <= involved && ReachedFrom(EdgeSet(edges), start, involved)
      invariant !changed ==> Closed(EdgeSet(edges), involved)
      decreases Ends(EdgeSet(edges)) - involved, changed
    {
      involved, changed := Pass(edges, start, involved);
    }
  }

  ghost function Ends(es: set<Edge>): set<nat> {
    (set e | e in es :: e.a) + (set e | e in es :: e.b)
  }

  ghost predicate ReachedFrom(es: set<Edge>, start: set<nat>, s: set<nat>) {
    forall x {:trigger Reachable(es, start, x)} | x in s :: Reachable(es, start, x)
  }

  lemma GrowReached(es: set<Edge>, start: set<nat>, s: set<nat>, e: Edge)
    requires ReachedFrom(es, start, s) && e in es && (e.a in s || e.b in s)
    ensures ReachedFrom(es, start, s + {e.a, e.b})
  {
    assert Edge(e.a, e.b) in es;
    Step(es, e.a, e.b);
    Step(es, e.b, e.a);
    forall x | x in s + {e.a, e.b} ensures Reachable(es, start, x) {
      if x in s {
        assert Reachable(es, start, x);
      } else {
        var other := if x == e.a then e.b else e.a;
        assert Reachable(es, start, other);
        var y :| y in start && Connected(es, y, other);
        Transitive(es, y, other, x);
      }
    }
  }

  // ----- assigning identities to components -----

  ghost predicate CitesRow(rows: seq<EdgeRow>, account: nat, m: Membership) {
    exists row :: row in rows && EndpointOf(RowEdge(row), account)
                  && m.candidate == row.candidate && m.decision == row.decision
  }

  /** The account's old identity is one no component has taken. */
  predicate Offers(oldGroups: map<nat, nat>, used: set<nat>, account: nat) {
    account in oldGroups && oldGroups[account] !in used
  }

  /** The first old identity of these accounts that no component has taken. */
  method ChooseIdentity(accounts: seq<nat>, oldGroups: map<nat, nat>, used: set<nat>) returns (r: Option<nat>)
    ensures r.None? <==> forall i | 0 <= i < |accounts| :: !Offers(oldGroups, used, accounts[i])
    ensures r.Some? ==> exists i :: 0 <= i < |accounts| && Offers(oldGroups, used, accounts[i]) && r.value == oldGroups[accounts[i]]
                                    && forall j | 0 <= j < i :: !Offers(oldGroups, used, accounts[j])
  {
    for i := 0 to |accounts|
      invariant forall j | 0 <= j < i :: !Offers(oldGroups, used, accounts[j])
    {
      if accounts[i] in oldGroups && oldGroups[accounts[i]] !in used {
        return Some(oldGroups[accounts[i]]);
      }
    }
    return None;
  }

  ghost predicate HasRow(rows: seq<EdgeRow>, account: nat) {
    exists i :: 0 <= i < |rows| && EndpointOf(RowEdge(rows[i]), account)
  }

  method FirstRowOf(rows: seq<EdgeRow>, account: nat) returns (row: EdgeRow)
    requires HasRow(rows, account)
    ensures row in rows && EndpointOf(RowEdge(row), account)
  {
    var i := 0;
    while !EndpointOf(RowEdge(rows[i]), account)
      invariant i < |rows| && exists j :: i <= j < |rows| && EndpointOf(RowEdge(rows[j]), account)
      decreases |rows| - i
    {
      i := i + 1;
    }
    row := rows[i];
  }

  /** Memberships after `rep`'s components got their identities. */
  ghost predicate Assigned(ids: set<nat>, members: map<nat, Membership>, rep: map<nat, nat>, oldGroups: map<nat, nat>,
                           rows: seq<EdgeRow>, ids': set<nat>, members': map<nat, Membership>) {
    && members'.Keys == members.Keys + rep.Keys
    && (forall a | a in members :: members'[a] == members[a])
    && (forall a | a in rep :: CitesRow(rows, a, members'[a]))
    && (forall a, b | a in rep && b in rep :: members'[a].identity == members'[b].identity <==> rep[a] == rep[b])
    && (forall a, b | a in rep && b in members :: members'[a].identity != members'[b].identity)
    && ids <= ids' && (forall a | a in members' :: members'[a].identity in ids')
    && (forall a, b | a in rep && b in rep && rep[a] == rep[b] && b in oldGroups && members'[a].identity !in ids ::
          Used(members', oldGroups[b]))
  }

  /** The state of the component loop: `chosen` maps every finished root to
      its identity. */
  ghost predicate Progress(ids0: set<nat>, m0: map<nat, Membership>, rep: map<nat, nat>, oldGroups: map<nat, nat>,
                           rows: seq<EdgeRow>, chosen: map<nat, nat>, used: set<nat>,
                           ids: set<nat>, members: map<nat, Membership>) {
    && ids0 <= ids && used == chosen.Values && used <= ids
    && (forall r, q | r in chosen && q in chosen && chosen[r] == chosen[q] :: r == q)
    && (forall a, r | a in m0 && r in chosen :: m0[a].identity != chosen[r])
    && (forall a :: a in members <==> a in m0 || (a in rep && rep[a] in chosen))
    && (forall a | a in m0 :: members[a] == m0[a])
    && (forall a | a in rep && rep[a] in chosen :: members[a].identity == chosen[rep[a]] && CitesRow(rows, a, members[a]))
    && (forall b | b in rep && rep[b] in chosen && b in oldGroups && chosen[rep[b]] !in ids0 :: oldGroups[b] in used)
  }

  lemma ValuesAfter(chosen: map<nat, nat>, root: nat, identity: nat)
    requires root !in chosen
    ensures chosen[root := identity].Values == chosen.Values + {identity}
  {
    var after := chosen[root := identity];
    forall i | i in chosen.Values + {identity} ensures i in after.Values {
      if i == identity {
        assert after[root] == i;
      } else {
        var r :| r in chosen && chosen[r] == i;
        assert after[r] == i;
      }
    }
  }

  /** One component more: its identity is an untaken old one or a new one. */
  lemma ProgressStep(ids0: set<nat>, m0: map<nat, Membership>, rep: map<nat, nat>, oldGroups: map<nat, nat>,
                     rows: seq<EdgeRow>, chosen: map<nat, nat>, used: set<nat>, ids: set<nat>, members: map<nat, Membership>,
                     root: nat, identity: nat, ids': set<nat>, members': map<nat, Membership>)
    requires Progress(ids0, m0, rep, oldGroups, rows, chosen, used, ids, members)
    requires (forall a | a in rep :: a !in m0) && root !in chosen && identity !in used
    requires (forall a | a in m0 :: m0[a].identity in ids0 && m0[a].identity !in oldGroups.Values) && oldGroups.Values <= ids0
    requires if identity in ids then identity in oldGroups.Values && ids' == ids
             else ids' == ids + {identity} && forall b | b in rep && rep[b] == root && b in oldGroups :: oldGroups[b] in used
    requires forall a :: a in members' <==> a in members || (a in rep && rep[a] == root)
    requires forall a | a in members :: members'[a] == members[a]
    requires forall a | a in rep && rep[a] == root :: members'[a].identity == identity && CitesRow(rows, a, members'[a])
    ensures Progress(ids0, m0, rep, oldGroups, rows, chosen[root := identity], used + {identity}, ids', members')
  {
    ValuesAfter(chosen, root, identity);
    var chosen' := chosen[root := identity];
    forall a, r | a in m0 && r in chosen' ensures m0[a].identity != chosen'[r] {}
    forall r, q | r in chosen' && q in chosen' && chosen'[r] == chosen'[q] ensures r == q {
      if r != root { assert chosen[r] in chosen.Values; }
      if q != root { assert chosen[q] in chosen.Values; }
    }
  }

  lemma MembersOfGroup(rep: map<nat, nat>, listed: seq<nat>, roots: seq<nat>, components: map<nat, seq<nat>>, root: nat)
    requires Grouped(rep, listed, roots, components) && (forall x :: x in listed <==> x in rep) && root in components
    ensures Distinct(components[root]) && forall a :: a in components[root] <==> a in rep && rep[a] == root
  {
  }

  lemma ProgressDone(ids0: set<nat>, m0: map<nat, Membership>, rep: map<nat, nat>, oldGroups: map<nat, nat>,
                     rows: seq<EdgeRow>, chosen: map<nat, nat>, used: set<nat>, ids: set<nat>, members: map<nat, Membership>)
    requires Progress(ids0, m0, rep, oldGroups, rows, chosen, used, ids, members)
    requires forall a | a in rep :: a !in m0 && rep[a] in chosen
    requires forall a | a in m0 :: m0[a].identity in ids0
    requires forall r | r in chosen :: exists a :: a in rep && rep[a] == r
    ensures Assigned(ids0, m0, rep, oldGroups, rows, ids, members)
  {
    forall i | i in used ensures Used(members, i) {
      var r :| r in chosen && chosen[r] == i;
      var a :| a in rep && rep[a] == r;
      assert members[a].identity == i;
    }
    forall a | a in members ensures members[a].identity in ids {
      if a in rep { assert chosen[rep[a]] in chosen.Values; }
    }
  }

  /** After the loop every component has its identity. */
  lemma AllAssigned(ids0: set<nat>, m0: map<nat, Membership>, rep: map<nat, nat>, listed: seq<nat>, roots: seq<nat>,
                    components: map<nat, seq<nat>>, oldGroups: map<nat, nat>, rows: seq<EdgeRow>, chosen: map<nat, nat>,
                    used: set<nat>, ids: set<nat>, members: map<nat, Membership>)
    requires Grouped(rep, listed, roots, components) && (forall x :: x in listed <==> x in rep)
    requires (forall r :: r in chosen <==> r in roots) && (forall a | a in rep :: a !in m0)
    requires Progress(ids0, m0, rep, oldGroups, rows, chosen, used, ids, members)
    requires forall a | a in m0 :: m0[a].identity in ids0
    ensures Assigned(ids0, m0, rep, oldGroups, rows, ids, members)
  {
    forall r | r in chosen ensures exists a :: a in rep && rep[a] == r {
      MembersOfGroup(rep, listed, roots, components, r);
      assert components[r][0] in components[r];
    }
    ProgressDone(ids0, m0, rep, oldGroups, rows, chosen, used, ids, members);
  }

  method NewestDecision(decisions: map<nat, Decision>, candidate: nat) returns (newest: nat)
    requires HasConfirmation(decisions, candidate)
    ensures newest in decisions && IsConfirmation(decisions[newest], candidate)
    ensures forall d | d in decisions && IsConfirmation(decisions[d], candidate) :: d <= newest
  {
    var found := set d | d in decisions && IsConfirmation(decisions[d], candidate);
    assert exists d :: d in found by {
      var d :| d in decisions && IsConfirmation(decisions[d], candidate);
      assert d in found;
    }
    newest :| newest in found;
    var rest := found;
    while rest != {}
      invariant newest in found && rest <= found
      invariant forall d | d in found && d !in rest :: d <= newest
      decreases |rest|
    {
      var d :| d in rest;
      if d > newest { newest := d; }
      rest := rest - {d};
    }
    forall d | d in decisions && IsConfirmation(decisions[d], candidate) ensures d <= newest {
      assert d in found;
    }
  }

  lemma RowsGiveGraph(candidates: map<nat, Candidate>, decisions: map<nat, Decision>, rows: seq<EdgeRow>)
    requires forall row | row in rows :: RowOk(candidates, decisions, row)
    requires forall id | id in candidates && IsConfirmedEdge(candidates[id]) :: ListsEdge(rows, EdgeOf(candidates[id]))
    ensures QueryResult(candidates, decisions, rows)
  {
    var es := RowEdges(rows);
    forall e | e in EdgeSet(es) ensures e in ConfirmedGraph(candidates) {
      var i :| 0 <= i < |es| && es[i] == e;
      var row := rows[i];
      assert row in rows && RowOk(candidates, decisions, row);
      assert e == EdgeOf(candidates[row.candidate]);
    }
    forall e | e in ConfirmedGraph(candidates) ensures e in EdgeSet(es) {
      var id :| id in candidates && IsConfirmedEdge(candidates[id]) && EdgeOf(candidates[id]) == e;
      assert ListsEdge(rows, e);
      var i :| 0 <= i < |rows| && RowEdge(rows[i]) == e;
      assert es[i] == e;
    }
  }

  ghost predicate ListsEdge(rows: seq<EdgeRow>, e: Edge) {
    exists i :: 0 <= i < |rows| && RowEdge(rows[i]) == e
  }

  /** Keep the rows that touch the involved accounts. */
  method RowsOn(rows: seq<EdgeRow>, involved: set<nat>) returns (inner: seq<EdgeRow>)
    ensures forall row :: row in inner <==> row in rows && (row.subject in involved || row.target in involved)
  {
    inner := [];
    for i := 0 to |rows|
      invariant forall row :: row in inner <==> row in rows[..i] && (row.subject in involved || row.target in involved)
    {
      if rows[i].subject in involved || rows[i].target in involved {
        inner := inner + [rows[i]];
      }
      assert rows[..i + 1] == rows[..i] + [rows[i]];
    }
    assert rows[..|rows|] == rows;
  }

  lemma InnerRows(candidates: map<nat, Candidate>, rows: seq<EdgeRow>, involved: set<nat>, inner: seq<EdgeRow>,
                  rep: map<nat, nat>)
    requires EdgeSet(RowEdges(rows)) == ConfirmedGraph(candidates) && Closed(ConfirmedGraph(candidates), involved)
    requires forall row :: row in inner <==> row in rows && (row.subject in involved || row.target in involved)
    requires NamesComponents(rep, EdgeSet(RowEdges(inner)))
    ensures EdgeSet(RowEdges(inner)) == EdgesOn(ConfirmedGraph(candidates), involved)
    ensures forall a | a in rep :: a in involved && HasRow(inner, a)
  {
    var es, some := RowEdges(rows), RowEdges(inner);
    forall e | e in EdgesOn(ConfirmedGraph(candidates), involved) ensures e in EdgeSet(some) {
      var i :| 0 <= i < |es| && es[i] == e;
      assert rows[i] in inner;
      var j :| 0 <= j < |inner| && inner[j] == rows[i];
      assert some[j] == e;
    }
    forall e | e in EdgeSet(some) ensures e in EdgesOn(ConfirmedGraph(candidates), involved) {
      var j :| 0 <= j < |some| && some[j] == e;
      assert inner[j] in rows;
      var i :| 0 <= i < |rows| && rows[i] == inner[j];
      assert es[i] == e;
    }
    forall a | a in rep ensures a in involved && HasRow(inner, a) {
      var e :| e in EdgeSet(some) && EndpointOf(e, a);
      var j :| 0 <= j < |some| && some[j] == e;
      assert EndpointOf(RowEdge(inner[j]), a);
    }
  }

  lemma DissolvedGroups(members: map<nat, Membership>, ends: set<nat>, dissolved: set<nat>)
    requires dissolved == set a | a in ends && a in members :: members[a].identity
    ensures (map a | a in members && members[a].identity in dissolved :: members[a].identity) == OldGroups(members, ends)
  {
    forall a | a in members ensures members[a].identity in dissolved <==> SharesIdentity(members, ends, a) {
      if members[a].identity in dissolved {
        var b :| b in ends && b in members && members[b].identity == members[a].identity;
      }
    }
  }

  lemma OldGroupsApart(members: map<nat, Membership>, ends: set<nat>, a: nat)
    requires a in members
    ensures a in OldGroups(members, ends) <==> members[a].identity in OldGroups(members, ends).Values
  {
    var groups := OldGroups(members, ends);
    if a in groups {
      assert groups[a] == members[a].identity;
    }
    if members[a].identity in groups.Values {
      var c :| c in groups && groups[c] == members[a].identity;
      var b :| b in ends && b in members && members[b].identity == members[c].identity;
      assert SharesIdentity(members, ends, a);
    }
  }

  lemma ForestKeys(forest: Forest)
    requires forest.Valid()
    ensures forall x :: x in forest.order <==> x in forest.rep
  {
  }

  // ----- identities assigned to the union-find components are what a rebuild promises -----

  /** What is known when the components have their identities. */
  ghost predicate AssignedWithin(t: Tables, ends: set<nat>, within: set<nat>, rep: map<nat, nat>,
                                 inner: seq<EdgeRow>, ids: set<nat>, members: map<nat, Membership>) {
    && IsClosure(ConfirmedGraph(t.candidates), RebuildStart(t.members, ends), within)
    && NamesComponents(rep, EdgesOn(ConfirmedGraph(t.candidates), within))
    && (forall row | row in inner :: RowOk(t.candidates, t.decisions, row))
    && rep.Keys <= within
    && Assigned(t.identities, t.members - within, rep, OldGroups(t.members, ends), inner, ids, members)
  }

  lemma WithinMembers(t: Tables, ends: set<nat>, within: set<nat>, rep: map<nat, nat>,
                      inner: seq<EdgeRow>, ids: set<nat>, members: map<nat, Membership>, a: nat)
    requires AssignedWithin(t, ends, within, rep, inner, ids, members) && a in within
    ensures a in members <==> Touches(ConfirmedGraph(t.candidates), a)
    ensures a in members <==> a in rep
  {
    var es := ConfirmedGraph(t.candidates);
    if Touches(es, a) {
      var e :| e in es && EndpointOf(e, a);
      assert e in EdgesOn(es, within);
    }
    if a in rep {
      var e :| e in EdgesOn(es, within) && EndpointOf(e, a);
      assert e in es;
    }
  }

  lemma WithinEvidence(t: Tables, ends: set<nat>, within: set<nat>, rep: map<nat, nat>,
                       inner: seq<EdgeRow>, ids: set<nat>, members: map<nat, Membership>, a: nat)
    requires AssignedWithin(t, ends, within, rep, inner, ids, members) && a in rep
    ensures Evidence(t.candidates, t.decisions, a, members[a]) && NewestConfirmation(t.decisions, members[a])
  {
    assert CitesRow(inner, a, members[a]);
    var row :| row in inner && EndpointOf(RowEdge(row), a)
               && members[a].candidate == row.candidate && members[a].decision == row.decision;
    assert RowOk(t.candidates, t.decisions, row);
  }

  lemma WithinPartition(t: Tables, ends: set<nat>, within: set<nat>, rep: map<nat, nat>,
                        inner: seq<EdgeRow>, ids: set<nat>, members: map<nat, Membership>, a: nat, b: nat)
    requires AssignedWithin(t, ends, within, rep, inner, ids, members) && a in within && a in members && b in members
    ensures members[a].identity == members[b].identity <==> Connected(ConfirmedGraph(t.candidates), a, b)
  {
    WithinMembers(t, ends, within, rep, inner, ids, members, a);
    RestrictToClosed(ConfirmedGraph(t.candidates), within, a, b);
    if b in within {
      WithinMembers(t, ends, within, rep, inner, ids, members, b);
    }
  }

  lemma WithinReuse(t: Tables, ends: set<nat>, within: set<nat>, rep: map<nat, nat>,
                    inner: seq<EdgeRow>, ids: set<nat>, members: map<nat, Membership>, a: nat, b: nat)
    requires AssignedWithin(t, ends, within, rep, inner, ids, members) && a in within && a in members
    requires b in OldGroups(t.members, ends) && Connected(ConfirmedGraph(t.candidates), a, b)
    requires members[a].identity !in t.identities
    ensures Used(members, t.members[b].identity)
  {
    WithinMembers(t, ends, within, rep, inner, ids, members, a);
    RestrictToClosed(ConfirmedGraph(t.candidates), within, a, b);
    if a != b { ConnectedTouches(EdgesOn(ConfirmedGraph(t.candidates), within), a, b); }
    assert b in rep && rep[a] == rep[b];
    assert OldGroups(t.members, ends)[b] == t.members[b].identity;
  }

  /** Outside the closed set nothing changes, and no identity is empty. */
  lemma AssignedFrame(t: Tables, ends: set<nat>, within: set<nat>, rep: map<nat, nat>, inner: seq<EdgeRow>, ids: set<nat>, t': Tables)
    requires AssignedWithin(t, ends, within, rep, inner, ids, t'.members)
    requires t'.identities == set a | a in t'.members :: t'.members[a].identity
    ensures IsClosure(ConfirmedGraph(t.candidates), RebuildStart(t.members, ends), within)
    ensures NoEmptyIdentity(t'.identities, t'.members)
    ensures forall a | a !in within :: a in t'.members <==> a in t.members
    ensures forall a | a !in within && a in t.members :: t'.members[a] == t.members[a]
  {
    hide IsClosure, RebuildStart;
  }

  lemma AssignedRebuilds(t: Tables, ends: set<nat>, within: set<nat>, rep: map<nat, nat>,
                         inner: seq<EdgeRow>, ids: set<nat>, t': Tables)
    requires AssignedWithin(t, ends, within, rep, inner, ids, t'.members)
    requires t' == t.(identities := t'.identities, members := t'.members)
    requires t'.identities == set a | a in t'.members :: t'.members[a].identity
    ensures Rebuilt(t, ends, t')
  {
    hide Evidence, NewestConfirmation, Touches, Connected, ConfirmedGraph, RebuildStart, Used, NoEmptyIdentity;
    var m' := t'.members;
    AssignedFrame(t, ends, within, rep, inner, ids, t');
    forall a | a in within ensures a in m' <==> Touches(ConfirmedGraph(t.candidates), a) {
      WithinMembers(t, ends, within, rep, inner, ids, m', a);
    }
    forall a | a in within && a in m'
      ensures Evidence(t.candidates, t.decisions, a, m'[a]) && NewestConfirmation(t.decisions, m'[a])
    {
      WithinMembers(t, ends, within, rep, inner, ids, m', a);
      WithinEvidence(t, ends, within, rep, inner, ids, m', a);
    }
    forall a, b | a in within && a in m' && b in m'
      ensures m'[a].identity == m'[b].identity <==> Connected(ConfirmedGraph(t.candidates), a, b)
    {
      WithinPartition(t, ends, within, rep, inner, ids, m', a, b);
    }
    forall a, b | a in within && a in m' && b in OldGroups(t.members, ends)
                  && Connected(ConfirmedGraph(t.candidates), a, b) && m'[a].identity !in t.identities
      ensures Used(m', t.members[b].identity)
    {
      WithinReuse(t, ends, within, rep, inner, ids, m', a, b);
    }
    assert RebuiltOver(t, ends, within, t');
  }

  class MatchReviewService {
    var candidates: map<nat, Candidate>
    var decisions: map<nat, Decision>
    var references: map<nat, Reference>
    var accounts: map<nat, Account>
    var identities: set<nat>
    var members: map<nat, Membership>

    function State(): Tables
      reads this
    {
      Tables(candidates, decisions, references, accounts, identities, members)
    }

    /** INSERT one component's memberships. */
    method InsertComponent(component: seq<nat>, identity: nat, rows: seq<EdgeRow>)
      requires Distinct(component) && forall a | a in component :: a !in members
      requires forall a | a in component :: HasRow(rows, a)
      modifies this`members
      ensures members.Keys == old(members).Keys + set a | a in component
      ensures forall a | a in old(members) :: members[a] == old(members)[a]
      ensures forall a | a in component :: members[a].identity == identity && CitesRow(rows, a, members[a])
    {
      for i := 0 to |component|
        invariant members.Keys == old(members).Keys + set a | a in component[..i]
        invariant forall a | a in old(members) :: members[a] == old(members)[a]
        invariant forall a | a in component[..i] :: members[a].identity == identity && CitesRow(rows, a, members[a])
      {
        var account := component[i];
        var evidence := FirstRowOf(rows, account);
        assert account !in component[..i];
        members := members[account := Membership(identity, evidence.candidate, evidence.decision)];
        assert CitesRow(rows, account, members[account]);
        assert component[..i + 1] == component[..i] + [account];
      }
      assert component[..|component|] == component;
    }

    /** One component: reuse an old identity or insert a new one, then insert
        the memberships. */
    method AssignComponent(component: seq<nat>, oldGroups: map<nat, nat>, used: set<nat>, rows: seq<EdgeRow>)
      returns (identity: nat)
      requires Distinct(component) && forall a | a in component :: a !in members && HasRow(rows, a)
      requires oldGroups.Values <= identities && used <= identities
      modifies this`members, this`identities
      ensures identity !in used
      ensures if identity in old(identities) then identity in oldGroups.Values && identities == old(identities)
              else identities == old(identities) + {identity} && forall b | b in component && b in oldGroups :: oldGroups[b] in used
      ensures forall a :: a in members <==> a in old(members) || a in component
      ensures forall a | a in old(members) :: members[a] == old(members)[a]
      ensures forall a | a in component :: members[a].identity == identity && CitesRow(rows, a, members[a])
    {
      var reuse := ChooseIdentity(component, oldGroups, used);
      if reuse.Some? {
        identity := reuse.value;
      } else {
        identity := NextRowId(identities);
        identities := identities + {identity};
      }
      InsertComponent(component, identity, rows);
    }

    /** The body of the loop over the components. */
    method AssignRoot(ghost ids0: set<nat>, ghost m0: map<nat, Membership>, ghost rep: map<nat, nat>, ghost listed: seq<nat>,
                      ghost roots: seq<nat>, components: map<nat, seq<nat>>, oldGroups: map<nat, nat>, rows: seq<EdgeRow>,
                      ghost chosen: map<nat, nat>, used: set<nat>, root: nat) returns (identity: nat)
      requires Grouped(rep, listed, roots, components) && (forall x :: x in listed <==> x in rep)
      requires (forall a | a in rep :: a !in m0 && HasRow(rows, a))
      requires forall a | a in m0 :: m0[a].identity in ids0 && m0[a].identity !in oldGroups.Values
      requires oldGroups.Values <= ids0 && root in roots && root !in chosen
      requires Progress(ids0, m0, rep, oldGroups, rows, chosen, used, identities, members)
      modifies this`members, this`identities
      ensures Progress(ids0, m0, rep, oldGroups, rows, chosen[root := identity], used + {identity}, identities, members)
    {
      ghost var ids1, m1 := identities, members;
      MembersOfGroup(rep, listed, roots, components, root);
      identity := AssignComponent(components[root], oldGroups, used, rows);
      ProgressStep(ids0, m0, rep, oldGroups, rows, chosen, used, ids1, m1, root, identity, identities, members);
    }

    /** The loop over the components. */
    method AssignComponents(ghost rep: map<nat, nat>, ghost listed: seq<nat>, roots: seq<nat>,
                            components: map<nat, seq<nat>>, oldGroups: map<nat, nat>, rows: seq<EdgeRow>)
      requires Grouped(rep, listed, roots, components) && (forall x :: x in listed <==> x in rep)
      requires (forall a | a in rep :: a !in members && HasRow(rows, a))
      requires forall a | a in members :: members[a].identity in identities && members[a].identity !in oldGroups.Values
      requires oldGroups.Values <= identities
      modifies this`members, this`identities
      ensures Assigned(old(identities), old(members), rep, oldGroups, rows, identities, members)
    {
      ghost var m0, ids0 := members, identities;
      var used: set<nat> := {};
      ghost var chosen: map<nat, nat> := map[];
      for k := 0 to |roots|
        invariant forall r :: r in chosen <==> r in roots[..k]
        invariant Progress(ids0, m0, rep, oldGroups, rows, chosen, used, identities, members)
      {
        assert roots[k] !in roots[..k];
        var identity := AssignRoot(ids0, m0, rep, listed, roots, components, oldGroups, rows, chosen, used, roots[k]);
        used := used + {identity};
        chosen := chosen[roots[k] := identity];
        assert roots[..k + 1] == roots[..k] + [roots[k]];
      }
      assert roots[..|roots|] == roots;
      AllAssigned(ids0, m0, rep, listed, roots, components, oldGroups, rows, chosen, used, identities, members);
    }

    /** SELECT the confirmed same-identity edges, in an order of the engine's
        choosing, each with its newest confirmation. */
    method QueryConfirmedEdges() returns (rows: seq<EdgeRow>)
      requires ConfirmedRows(candidates, decisions)
      ensures QueryResult(candidates, decisions, rows)
    {
      rows := [];
      var rest := candidates.Keys;
      ghost var done: set<nat> := {};
      while rest != {}
        invariant rest + done == candidates.Keys
        invariant forall row | row in rows :: RowOk(candidates, decisions, row)
        invariant forall id | id in done && IsConfirmedEdge(candidates[id]) :: ListsEdge(rows, EdgeOf(candidates[id]))
        decreases |rest|
      {
        var id :| id in rest;
        rest, done := rest - {id}, done + {id};
        if IsConfirmedEdge(candidates[id]) {
          assert ConfirmedRow(decisions, id, candidates[id]);
          var newest := NewestDecision(decisions, id);
          var row := EdgeRow(id, candidates[id].subject, candidates[id].target.value, newest);
          assert RowEdge(row) == EdgeOf(candidates[id]);
          ghost var shorter := rows;
          rows := rows + [row];
          assert RowEdge(rows[|rows| - 1]) == EdgeOf(candidates[id]);
          forall other | other in done && IsConfirmedEdge(candidates[other]) ensures ListsEdge(rows, EdgeOf(candidates[other])) {
            if other != id {
              var i :| 0 <= i < |shorter| && RowEdge(shorter[i]) == EdgeOf(candidates[other]);
              assert RowEdge(rows[i]) == EdgeOf(candidates[other]);
            }
          }
        }
      }
      RowsGiveGraph(candidates, decisions, rows);
    }

    /** From the involved accounts, whose memberships are deleted, to their new
        identities. */
    method Regroup(ghost t: Tables, ghost ends: set<nat>, rows: seq<EdgeRow>, involved: set<nat>, oldGroups: map<nat, nat>)
      returns (ghost rep: map<nat, nat>, ghost inner: seq<EdgeRow>)
      requires QueryResult(t.candidates, t.decisions, rows)
      requires IsClosure(ConfirmedGraph(t.candidates), RebuildStart(t.members, ends), involved)
      requires oldGroups == OldGroups(t.members, ends)
      requires t.identities == identities && members == t.members - involved
      requires forall a | a in t.members :: t.members[a].identity in identities
      modifies this`members, this`identities
      ensures AssignedWithin(t, ends, involved, rep, inner, identities, members)
    {
      var edges := RowsOn(rows, involved);
      inner := edges;
      var forest := new Forest();
      forest.UniteAll(RowEdges(edges));
      rep := forest.rep;
      var roots, components := forest.Components();
      InnerRows(t.candidates, rows, involved, inner, rep);
      ForestKeys(forest);
      forall a | a in members ensures members[a].identity !in oldGroups.Values {
        OldGroupsApart(t.members, ends, a);
      }
      AssignComponents(rep, forest.order, roots, components, oldGroups, edges);
    }

    /** DELETE the involved memberships, regroup, and drop empty identities. */
    method ReplaceMemberships(ghost ends: set<nat>, rows: seq<EdgeRow>, involved: set<nat>, oldGroups: map<nat, nat>)
      requires QueryResult(candidates, decisions, rows)
      requires IsClosure(ConfirmedGraph(candidates), RebuildStart(members, ends), involved)
      requires oldGroups == OldGroups(members, ends)
      requires forall a | a in members :: members[a].identity in identities
      modifies this`members, this`identities
      ensures Rebuilt(old(State()), ends, State())
    {
      ghost var before := State();
      members := members - involved;
      ghost var rep, inner := Regroup(before, ends, rows, involved, oldGroups);
      ghost var ids := identities;
      identities := set a | a in members :: members[a].identity;
      AssignedRebuilds(before, ends, involved, rep, inner, ids, State());
    }

    /** Withdraw a confirmation: dissolve the identities at its two ends and
        form identities again from the edges that are left. */
    method RebuildIdentityComponent(subject: nat, target: Option<nat>)
      requires ConfirmedRows(candidates, decisions)
      requires forall a | a in members :: members[a].identity in identities
      modifies this`members, this`identities
      ensures Rebuilt(old(State()), {subject} + (if target.Some? then {target.value} else {}), State())
    {
      var ends := {subject} + (if target.Some? then {target.value} else {});
      var dissolved := set a | a in ends && a in members :: members[a].identity;
      var oldGroups := map a | a in members && members[a].identity in dissolved :: members[a].identity;
      DissolvedGroups(members, ends, dissolved);
      var rows := QueryConfirmedEdges();
      var involved := CloseOver(RowEdges(rows), ends + oldGroups.Keys);
      assert EdgeSet(RowEdges(rows)) == ConfirmedGraph(candidates);
      assert ends + oldGroups.Keys == RebuildStart(members, ends);
      ReplaceMemberships(ends, rows, involved, oldGroups);
    }

    constructor ()
      ensures State() == Tables(map[], map[], map[], map[], {}, map[]) && Inv(State())
    {
      candidates, decisions, references, accounts, identities, members := map[], map[], map[], map[], {}, map[];
      new;
      EmptyInv(State());
    }

    /** ROLLBACK. */
    method Restore(saved: Tables)
      modifies this
      ensures State() == saved
    {
      candidates, decisions, references := saved.candidates, saved.decisions, saved.references;
      accounts, identities, members := saved.accounts, saved.identities, saved.members;
    }

    method FindAccount(wanted: Account) returns (found: Option<nat>)
      ensures found.Some? ==> found.value in accounts && accounts[found.value] == wanted
      ensures found.None? ==> forall a | a in accounts :: accounts[a] != wanted
    {
      if a: nat :| a in accounts.Keys && accounts[a] == wanted {
        return Some(a);
      }
      return None;
    }

    /** The first half of confirm_identity: make the target an account. */
    method ResolveTarget(id: nat) returns (target: Option<nat>, error: Refusal)
      requires id in candidates && CandidateRow(accounts, references, candidates[id]) && UniqueAccounts(accounts)
      modifies this`accounts, this`references, this`candidates
      ensures target.Some? ==>
        (var t, c := old(State()), old(candidates)[id];
         HasTarget(t, c) && !PointsAt(t, c, c.subject) && Resolved(t, id, target.value, State()))
      ensures target.None? ==> RefusesTarget(old(State()), old(candidates)[id], error)
      ensures target.Some? && old(candidates)[id].target.None? ==>
        (var r := old(references)[old(candidates)[id].reference.value];
         && r.kind == AccountObject && r.stableId && target.value in accounts
         && accounts[target.value].platform == r.platform && accounts[target.value].native == r.native)
    {
      error := NoCompatibleTarget;
      var c := candidates[id];
      if c.target.Some? {
        return c.target, error;
      }
      if references[c.reference.value].kind != AccountObject {
        return None, NoCompatibleTarget;
      }
      var reference := references[c.reference.value];
      if !reference.stableId {
        return None, NoStableId;
      }
      var found := FindAccount(ReferencedAccount(reference));
      var account;
      if found.Some? {
        account := found.value;
      } else {
        account := NextRowId(accounts.Keys);
        accounts := accounts[account := ReferencedAccount(reference)];
      }
      references := references[c.reference.value := reference.(resolved := Some(account))];
      if account == c.subject {
        return None, SelfTarget;  // CHECK (target_account_id <> subject_account_id)
      }
      candidates := candidates[id := c.(target := Some(account), reference := None)];
      target := Some(account);
      assert found.None? ==> forall a :: !PointsAt(old(State()), c, a);
      assert found.Some? ==> PointsAt(old(State()), c, account);
    }

    /** The second half of confirm_identity: join, extend or create an
        identity, unless two would merge. */
    method Attach(subject: nat, target: nat, candidate: nat, decision: nat) returns (identity: Option<nat>)
      modifies this`identities, this`members
      ensures identity.None? <==> InTwoIdentities(old(members), subject, target)
      ensures identity.Some? ==>
        Attached(old(State()), subject, target, Membership(identity.value, candidate, decision), State())
    {
      if subject in members && target in members && members[subject].identity != members[target].identity {
        return None;
      }
      var group;
      if subject in members {
        group := members[subject].identity;
      } else if target in members {
        group := members[target].identity;
      } else {
        group := NextRowId(identities);
      }
      identities := identities + {group};
      if subject !in members {
        members := members[subject := Membership(group, candidate, decision)];
      }
      if target !in members {
        members := members[target := Membership(group, candidate, decision)];
      }
      identity := Some(group);
    }

    method ConfirmIdentity(id: nat, decision: nat) returns (identity: Option<nat>, error: Refusal)
      requires id in candidates && CandidateRow(accounts, references, candidates[id])
      requires UniqueAccounts(accounts) && MemberRows(members, accounts, identities)
      modifies this
      ensures identity.Some? ==>
        (var t, c := old(State()), old(candidates)[id];
         && HasTarget(t, c) && !PointsAt(t, c, c.subject) && MergesNothing(t, c)
         && exists target, resolved :: Resolved(t, id, target, resolved)
              && Attached(resolved, c.subject, target, Membership(identity.value, id, decision), State()))
      ensures identity.None? ==> RefusesTarget(old(State()), old(candidates)[id], error)
    {
      var target;
      target, error := ResolveTarget(id);
      if target.None? {
        return None, error;
      }
      ghost var resolved := State();
      MergeSeen(old(State()), id, target.value, resolved);
      identity := Attach(candidates[id].subject, target.value, id, decision);
      error := IdentityConflict;
    }

    /** One review, in a transaction: any error restores the tables. */
    method Review(req: Request) returns (r: Outcome)
      requires Inv(State())
      modifies this
      ensures Reviewed(old(State()), req, r, State())
      ensures Inv(State())
      ensures r.Recorded? && req.verdict == Confirmed && old(candidates)[req.candidate].relation == SameIdentity ==>
        Effects.JoinsNamed(old(State()), req, r.decision, r.identity, State())
    {
      hide Inv, Effects.JoinsNamed;
      if req.candidate !in candidates {
        return Refused(NotFound);
      }
      var row := candidates[req.candidate];
      if req.expectedGeneration.Some? && row.generation != req.expectedGeneration.value {
        return Refused(StaleGeneration);
      }
      if req.expectedRevision.Some? && row.revision != req.expectedRevision.value {
        return Refused(StaleRevision);
      }
      r := Decide(req);
      if r.Recorded? && req.verdict == Confirmed && row.relation == SameIdentity {
        Effects.ConfirmationShown(old(State()), req, r.decision, r.identity, State());
      }
    }

    /** The transaction of a review that names a current candidate. */
    method Decide(req: Request) returns (r: Outcome)
      requires Inv(State()) && req.candidate in candidates
      requires req.expectedGeneration.Some? ==> candidates[req.candidate].generation == req.expectedGeneration.value
      requires req.expectedRevision.Some? ==> candidates[req.candidate].revision == req.expectedRevision.value
      modifies this
      ensures Reviewed(old(State()), req, r, State())
      ensures Inv(State())
    {
      var saved, row := State(), candidates[req.candidate];
      candidates := candidates[req.candidate := row.(state := req.verdict, revision := row.revision + 1)];
      var decision := NextRowId(decisions.Keys);
      decisions := decisions[decision := Decision(req.candidate, row.state, req.verdict, row.generation)];
      ghost var marked := State();
      assert CandidateRow(saved.accounts, saved.references, row);
      MarkKeepsSchema(saved, req, decision, marked);
      var identity: Option<nat> := None;
      if req.verdict == Confirmed && row.relation == SameIdentity {
        var error;
        identity, error := ConfirmIdentity(req.candidate, decision);
        MarkedTarget(saved, req, decision, marked, error);
        if identity.None? {
          Restore(saved);
          return Refused(error);
        }
      } else if row.relation == SameIdentity && row.state == Confirmed {
        ConfirmKeepsConfirmed(saved, req.candidate, candidates[req.candidate], decision, decisions[decision]);
        RebuildIdentityComponent(row.subject, row.target);
      }
      r := Recorded(decision, identity);
      assert Marked(saved, req, decision, marked) && Completed(marked, row, req, decision, identity, State());
      ReviewKeepsInv(saved, req, r, State());
    }
  }
}

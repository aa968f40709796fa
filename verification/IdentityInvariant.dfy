/** Every review and every discovery step keeps the invariant, so it holds
    over whole runs. */
module IdentityInvariant {

  import opened Basics
  import opened Graph
  import opened IdentityTables

  // ----- how marking a candidate changes the confirmed graph -----

  lemma ConfirmedGraphGrows(before: map<nat, Candidate>, id: nat, c: Candidate)
    requires id in before && IsConfirmedEdge(c)
    requires IsConfirmedEdge(before[id]) ==> EdgeOf(before[id]) == EdgeOf(c)
    ensures ConfirmedGraph(before[id := c]) == ConfirmedGraph(before) + {EdgeOf(c)}
  {
    var after := before[id := c];
    forall e | e in ConfirmedGraph(before) + {EdgeOf(c)} ensures e in ConfirmedGraph(after) {
      if e == EdgeOf(c) {
        assert after[id] == c;
      } else {
        var other :| other in before && IsConfirmedEdge(before[other]) && EdgeOf(before[other]) == e;
        assert other != id && after[other] == before[other];
      }
    }
  }

  lemma ConfirmedGraphKept(before: map<nat, Candidate>, id: nat, c: Candidate)
    requires id in before && !IsConfirmedEdge(before[id]) && !IsConfirmedEdge(c)
    ensures ConfirmedGraph(before[id := c]) == ConfirmedGraph(before)
  {
    var after := before[id := c];
    forall e | e in ConfirmedGraph(before) ensures e in ConfirmedGraph(after) {
      var other :| other in before && IsConfirmedEdge(before[other]) && EdgeOf(before[other]) == e;
      assert after[other] == before[other];
    }
  }

  lemma ConfirmedGraphShrinks(before: map<nat, Candidate>, id: nat, c: Candidate)
    requires id in before && IsConfirmedEdge(before[id]) && !IsConfirmedEdge(c)
    ensures ConfirmedGraph(before[id := c]) + {EdgeOf(before[id])} == ConfirmedGraph(before)
  {
    ConfirmedGraphGrows(before[id := c], id, before[id]);
    assert before[id := c][id := before[id]] == before;
  }

  // ----- confirmation -----

  /** Joining, extending or creating an identity keeps identities equal to the
      components of the grown graph, unless two identities would merge. */
  lemma AttachPartition(es: set<Edge>, members: map<nat, Membership>, a: nat, b: nat, m: Membership,
                        members': map<nat, Membership>)
    requires PartitionOk(es, members) && !InTwoIdentities(members, a, b)
    requires if a in members then m.identity == members[a].identity
             else if b in members then m.identity == members[b].identity
             else !Used(members, m.identity)
    requires members' == AddMember(AddMember(members, a, m), b, m)
    ensures PartitionOk(es + {Edge(a, b)}, members')
  {
    var more := es + {Edge(a, b)};
    forall x ensures x in members' <==> Touches(more, x) {
      if Touches(more, x) {
        var e :| e in more && EndpointOf(e, x);
        if e in es { assert Touches(es, x); }
      }
      if Touches(es, x) {
        var e :| e in es && EndpointOf(e, x);
        assert e in more;
      }
      assert Edge(a, b) in more;
      if x == a || x == b { assert EndpointOf(Edge(a, b), x); }
    }
    forall x, y | x in members' && y in members'
      ensures members'[x].identity == members'[y].identity <==> Connected(more, x, y)
    {
      AttachPair(es, members, a, b, m, members', x, y);
    }
  }

  lemma AttachPair(es: set<Edge>, members: map<nat, Membership>, a: nat, b: nat, m: Membership,
                   members': map<nat, Membership>, x: nat, y: nat)
    requires PartitionOk(es, members) && !InTwoIdentities(members, a, b)
    requires if a in members then m.identity == members[a].identity
             else if b in members then m.identity == members[b].identity
             else !Used(members, m.identity)
    requires members' == AddMember(AddMember(members, a, m), b, m)
    requires x in members' && y in members'
    ensures members'[x].identity == members'[y].identity <==> Connected(es + {Edge(a, b)}, x, y)
  {
    AddEdge(es, a, b, x, y);
    ConnectedToMember(es, members, x, y);
    ConnectedToMember(es, members, x, a);
    ConnectedToMember(es, members, x, b);
    ConnectedToMember(es, members, a, y);
    ConnectedToMember(es, members, b, y);
    if a !in members && b !in members {
      assert x in members ==> Used(members, members[x].identity);
      assert y in members ==> Used(members, members[y].identity);
    }
  }

  lemma ConnectedToMember(es: set<Edge>, members: map<nat, Membership>, x: nat, y: nat)
    requires PartitionOk(es, members)
    ensures Connected(es, x, y) <==> x == y || (x in members && y in members && members[x].identity == members[y].identity)
  {
    Reflexive(es, x);
    if Connected(es, x, y) && x != y {
      ConnectedTouches(es, x, y);
    }
  }

  /** The account a confirmation attaches is neither the subject nor in
      another identity. */
  lemma ResolvedTarget(t: Tables, req: Request, decision: nat, marked: Tables, target: nat, resolved: Tables)
    requires Accepts(t, req) && Confirms(t.candidates[req.candidate], req)
    requires t.candidates[req.candidate].subject in t.accounts && forall a | a in t.members :: a in t.accounts
    requires Marked(t, req, decision, marked) && Resolved(marked, req.candidate, target, resolved)
    ensures target != t.candidates[req.candidate].subject
    ensures !InTwoIdentities(t.members, t.candidates[req.candidate].subject, target)
  {
    var c, c' := t.candidates[req.candidate], marked.candidates[req.candidate];
    assert c' == c.(state := Confirmed, revision := c.revision + 1);
    assert forall x :: PointsAt(marked, c', x) <==> PointsAt(t, c, x);
    if c.target.Some? {
      assert PointsAt(t, c, target);
    }
  }

  lemma ConfirmKeepsSchema(t: Tables, req: Request, decision: nat, marked: Tables, target: nat, resolved: Tables,
                           m: Membership, t': Tables)
    requires Schema(t) && Accepts(t, req) && Confirms(t.candidates[req.candidate], req)
    requires Marked(t, req, decision, marked) && Resolved(marked, req.candidate, target, resolved)
    requires target != t.candidates[req.candidate].subject
    requires Attached(resolved, t.candidates[req.candidate].subject, target, m, t')
    ensures Schema(t')
  {
    var c := t.candidates[req.candidate];
    assert CandidateRow(t.accounts, t.references, c);
    forall other | other in t'.candidates ensures CandidateRow(t'.accounts, t'.references, t'.candidates[other]) {
      assert CandidateRow(t.accounts, t.references, t.candidates[other]);
    }
    ResolvedKeepsUnique(marked, req.candidate, target, resolved);
  }

  lemma ResolvedKeepsUnique(t: Tables, id: nat, target: nat, t': Tables)
    requires id in t.candidates && UniqueAccounts(t.accounts) && Resolved(t, id, target, t')
    ensures UniqueAccounts(t'.accounts)
  {
    var c := t.candidates[id];
    if c.target.None? {
      forall a, b | a in t'.accounts && b in t'.accounts && t'.accounts[a] == t'.accounts[b] ensures a == b {
        assert a in t.accounts ==> (PointsAt(t, c, a) <==> t.accounts[a] == t'.accounts[target]);
        assert b in t.accounts ==> (PointsAt(t, c, b) <==> t.accounts[b] == t'.accounts[target]);
      }
    }
  }

  lemma ConfirmKeepsInv(t: Tables, req: Request, decision: nat, marked: Tables, target: nat, resolved: Tables, identity: nat,
                        t': Tables)
    requires Inv(t) && Accepts(t, req) && Confirms(t.candidates[req.candidate], req)
    requires Marked(t, req, decision, marked) && Resolved(marked, req.candidate, target, resolved)
    requires Attached(resolved, t.candidates[req.candidate].subject, target, Membership(identity, req.candidate, decision), t')
    ensures Inv(t')
  {
    var id, c := req.candidate, t.candidates[req.candidate];
    var m := Membership(identity, id, decision);
    assert CandidateRow(t.accounts, t.references, c);
    ResolvedTarget(t, req, decision, marked, target, resolved);
    ConfirmKeepsSchema(t, req, decision, marked, target, resolved, m, t');
    var c' := resolved.candidates[id];
    assert resolved.candidates == t.candidates[id := c'];
    ConfirmedGraphGrows(t.candidates, id, c');
    AttachPartition(ConfirmedGraph(t.candidates), t.members, c.subject, target, m, t'.members);
    AttachKeepsIdentities(t.identities, t.members, c.subject, target, m);
    var d := Decision(id, c.state, Confirmed, c.generation);
    ConfirmKeepsEvidence(t, id, c', decision, d, m, c.subject, target);
    ConfirmKeepsConfirmed(t, id, c', decision, d);
  }

  lemma AttachKeepsIdentities(identities: set<nat>, members: map<nat, Membership>, a: nat, b: nat, m: Membership)
    requires NoEmptyIdentity(identities, members)
    requires a in members ==> m.identity == members[a].identity
    requires a !in members && b in members ==> m.identity == members[b].identity
    ensures NoEmptyIdentity(identities + {m.identity}, AddMember(AddMember(members, a, m), b, m))
  {
    var members' := AddMember(AddMember(members, a, m), b, m);
    forall i ensures i in identities + {m.identity} <==> Used(members', i) {
      assert Used(members, i) <==> i in identities;
      if i == m.identity {
        assert members'[a].identity == i;
      } else {
        if Used(members, i) {
          var x :| x in members && members[x].identity == i;
          assert members'[x] == members[x];
        }
        if Used(members', i) {
          var x :| x in members' && members'[x].identity == i;
          assert members[x].identity == i;
        }
      }
    }
  }

  lemma ConfirmKeepsEvidence(t: Tables, id: nat, c': Candidate, decision: nat, d: Decision, m: Membership, a: nat, b: nat)
    requires EvidenceRows(t.candidates, t.decisions, t.members)
    requires id in t.candidates && IsConfirmedEdge(c') && EdgeOf(c') == Edge(a, b)
    requires IsConfirmedEdge(t.candidates[id]) ==> EdgeOf(t.candidates[id]) == EdgeOf(c')
    requires decision !in t.decisions && IsConfirmation(d, id)
    requires m.candidate == id && m.decision == decision
    ensures EvidenceRows(t.candidates[id := c'], t.decisions[decision := d], AddMember(AddMember(t.members, a, m), b, m))
  {
    var members' := AddMember(AddMember(t.members, a, m), b, m);
    forall x | x in members' ensures Evidence(t.candidates[id := c'], t.decisions[decision := d], x, members'[x]) {
      if x in t.members {
        assert Evidence(t.candidates, t.decisions, x, t.members[x]);
      }
    }
  }

  lemma ConfirmKeepsConfirmed(t: Tables, id: nat, c': Candidate, decision: nat, d: Decision)
    requires ConfirmedRows(t.candidates, t.decisions) && id in t.candidates && decision !in t.decisions
    requires c'.state == Confirmed ==> c'.target.Some? && IsConfirmation(d, id)
    ensures ConfirmedRows(t.candidates[id := c'], t.decisions[decision := d])
  {
    var candidates', decisions' := t.candidates[id := c'], t.decisions[decision := d];
    forall other | other in candidates' ensures ConfirmedRow(decisions', other, candidates'[other]) {
      if other == id {
        assert decisions'[decision] == d;
      } else {
        assert ConfirmedRow(t.decisions, other, t.candidates[other]);
        KeepsConfirmation(t.decisions, decision, d, other);
      }
    }
  }

  lemma KeepsConfirmation(decisions: map<nat, Decision>, decision: nat, d: Decision, id: nat)
    requires decision !in decisions
    ensures HasConfirmation(decisions, id) ==> HasConfirmation(decisions[decision := d], id)
  {
    if HasConfirmation(decisions, id) {
      var old' :| old' in decisions && IsConfirmation(decisions[old'], id);
      assert decisions[decision := d][old'] == decisions[old'];
    }
  }

  // ----- withdrawing a confirmation -----

  /** Away from a closed set holding both ends of the lost edge, nothing
      changes. */
  lemma OutsideUnchanged(es: set<Edge>, lost: Edge, within: set<nat>, x: nat, y: nat)
    requires Closed(es, within) && lost.a in within && lost.b in within && x !in within
    ensures Touches(es + {lost}, x) <==> Touches(es, x)
    ensures Connected(es + {lost}, x, y) <==> Connected(es, x, y)
    ensures Connected(es, x, y) ==> y !in within
  {
    var more := es + {lost};
    if Touches(more, x) {
      var e :| e in more && EndpointOf(e, x);
      assert e in es;
    }
    if Touches(es, x) {
      var e :| e in es && EndpointOf(e, x);
      assert e in more;
    }
    AddEdge(es, lost.a, lost.b, x, y);
    assert lost == Edge(lost.a, lost.b);
    if Connected(es, x, lost.a) {
      Symmetric(es, x, lost.a);
      RestrictToClosed(es, within, lost.a, x);
    }
    if Connected(es, x, lost.b) {
      Symmetric(es, x, lost.b);
      RestrictToClosed(es, within, lost.b, x);
    }
    if Connected(es, x, y) && y in within {
      Symmetric(es, x, y);
      RestrictToClosed(es, within, y, x);
    }
  }

  lemma RebuildPartition(t: Tables, marked: Tables, lost: Edge, ends: set<nat>, within: set<nat>, t': Tables)
    requires PartitionOk(ConfirmedGraph(t.candidates), t.members)
    requires ConfirmedGraph(marked.candidates) + {lost} == ConfirmedGraph(t.candidates)
    requires marked.members == t.members && lost.a in ends && lost.b in ends
    requires RebuiltOver(marked, ends, within, t')
    ensures PartitionOk(ConfirmedGraph(t'.candidates), t'.members)
  {
    var es := ConfirmedGraph(marked.candidates);
    forall x ensures x in t'.members <==> Touches(es, x) {
      if x !in within { OutsideUnchanged(es, lost, within, x, x); }
    }
    forall x, y | x in t'.members && y in t'.members
      ensures t'.members[x].identity == t'.members[y].identity <==> Connected(es, x, y)
    {
      if x !in within && y !in within {
        OutsideUnchanged(es, lost, within, x, y);
      } else if x !in within {
        assert t'.members[y].identity == t'.members[x].identity <==> Connected(es, y, x);
        if Connected(es, y, x) { Symmetric(es, y, x); }
        if Connected(es, x, y) { Symmetric(es, x, y); }
      }
    }
  }

  lemma RebuildEvidence(t: Tables, id: nat, marked: Tables, ends: set<nat>, within: set<nat>, t': Tables)
    requires id in t.candidates && IsConfirmedEdge(t.candidates[id])
    requires EdgeOf(t.candidates[id]).a in ends && EdgeOf(t.candidates[id]).b in ends
    requires EvidenceRows(t.candidates, t.decisions, t.members)
    requires forall other | other in t.candidates && other != id ::
      other in marked.candidates && marked.candidates[other] == t.candidates[other]
    requires forall d | d in t.decisions :: d in marked.decisions && marked.decisions[d] == t.decisions[d]
    requires marked.members == t.members
    requires RebuiltOver(marked, ends, within, t')
    ensures EvidenceRows(t'.candidates, t'.decisions, t'.members)
  {
    forall x | x in t'.members ensures Evidence(t'.candidates, t'.decisions, x, t'.members[x]) {
      if x !in within {
        assert Evidence(t.candidates, t.decisions, x, t.members[x]);
        assert t.members[x].candidate != id;
      }
    }
  }

  lemma EdgesJoinAccounts(t: Tables, x: nat)
    requires CandidateRows(t.candidates, t.accounts, t.references) && Touches(ConfirmedGraph(t.candidates), x)
    ensures x in t.accounts
  {
    var e :| e in ConfirmedGraph(t.candidates) && EndpointOf(e, x);
    var id :| id in t.candidates && IsConfirmedEdge(t.candidates[id]) && EdgeOf(t.candidates[id]) == e;
    assert CandidateRow(t.accounts, t.references, t.candidates[id]);
  }

  lemma RebuildMemberRows(t: Tables, ends: set<nat>, within: set<nat>, t': Tables)
    requires CandidateRows(t.candidates, t.accounts, t.references) && MemberRows(t.members, t.accounts, t.identities)
    requires RebuiltOver(t, ends, within, t')
    ensures MemberRows(t'.members, t'.accounts, t'.identities)
  {
    forall x | x in t'.members ensures x in t'.accounts && t'.members[x].identity in t'.identities {
      assert Used(t'.members, t'.members[x].identity);
      if x in within {
        EdgesJoinAccounts(t, x);
      } else {
        assert t'.members[x] == t.members[x];
      }
    }
  }

  /** A new state and a new decision on one candidate keep the schema. */
  lemma MarkKeepsSchema(t: Tables, req: Request, decision: nat, marked: Tables)
    requires Schema(t) && req.candidate in t.candidates && Marked(t, req, decision, marked)
    ensures Schema(marked)
  {
    assert CandidateRow(t.accounts, t.references, t.candidates[req.candidate]);
    forall other | other in marked.candidates ensures CandidateRow(marked.accounts, marked.references, marked.candidates[other]) {
      assert CandidateRow(t.accounts, t.references, t.candidates[other]);
    }
  }

  lemma UnconfirmKeepsRows(t: Tables, req: Request, decision: nat, marked: Tables, within: set<nat>, t': Tables)
    requires Inv(t) && req.candidate in t.candidates && Unconfirms(t.candidates[req.candidate], req)
    requires t.candidates[req.candidate].target.Some?
    requires Marked(t, req, decision, marked) && RebuiltOver(marked, EndsOf(t.candidates[req.candidate]), within, t')
    ensures PartitionOk(ConfirmedGraph(t'.candidates), t'.members)
    ensures EvidenceRows(t'.candidates, t'.decisions, t'.members)
  {
    var id, c := req.candidate, t.candidates[req.candidate];
    var ends := EndsOf(c);
    ConfirmedGraphShrinks(t.candidates, id, marked.candidates[id]);
    RebuildPartition(t, marked, EdgeOf(c), ends, within, t');
    RebuildEvidence(t, id, marked, ends, within, t');
  }

  lemma UnconfirmKeepsInv(t: Tables, req: Request, decision: nat, marked: Tables, within: set<nat>, t': Tables)
    requires Inv(t) && req.candidate in t.candidates && Unconfirms(t.candidates[req.candidate], req)
    requires Marked(t, req, decision, marked) && RebuiltOver(marked, EndsOf(t.candidates[req.candidate]), within, t')
    ensures Inv(t')
  {
    var id, c := req.candidate, t.candidates[req.candidate];
    assert ConfirmedRow(t.decisions, id, c);
    MarkKeepsSchema(t, req, decision, marked);
    RebuildMemberRows(marked, EndsOf(c), within, t');
    UnconfirmKeepsRows(t, req, decision, marked, within, t');
    ConfirmKeepsConfirmed(t, id, marked.candidates[id], decision, marked.decisions[decision]);
  }

  /** Every other decision leaves the confirmed graph alone. */
  lemma MarkKeepsInv(t: Tables, req: Request, decision: nat, marked: Tables)
    requires Inv(t) && req.candidate in t.candidates && Marked(t, req, decision, marked)
    requires !Confirms(t.candidates[req.candidate], req) && !Unconfirms(t.candidates[req.candidate], req)
    ensures Inv(marked)
  {
    var id, c := req.candidate, t.candidates[req.candidate];
    MarkKeepsSchema(t, req, decision, marked);
    ConfirmedGraphKept(t.candidates, id, marked.candidates[id]);
    forall x | x in t.members ensures Evidence(marked.candidates, marked.decisions, x, t.members[x]) {
      assert Evidence(t.candidates, t.decisions, x, t.members[x]);
    }
    forall other | other in marked.candidates ensures ConfirmedRow(marked.decisions, other, marked.candidates[other]) {
      assert ConfirmedRow(t.decisions, other, t.candidates[other]);
      KeepsConfirmation(t.decisions, decision, marked.decisions[decision], other);
    }
  }

  /** Every review, accepted or refused, keeps the invariant. */
  lemma ReviewKeepsInv(t: Tables, req: Request, r: Outcome, t': Tables)
    requires Inv(t) && Reviewed(t, req, r, t')
    ensures Inv(t')
  {
    if r.Recorded? {
      var c := t.candidates[req.candidate];
      var marked :| Marked(t, req, r.decision, marked) && Completed(marked, c, req, r.decision, r.identity, t');
      if Confirms(c, req) {
        var target, resolved :| Resolved(marked, req.candidate, target, resolved)
          && Attached(resolved, c.subject, target, Membership(r.identity.value, req.candidate, r.decision), t');
        ConfirmKeepsInv(t, req, r.decision, marked, target, resolved, r.identity.value, t');
      } else if Unconfirms(c, req) {
        var within :| RebuiltOver(marked, EndsOf(c), within, t');
        UnconfirmKeepsInv(t, req, r.decision, marked, within, t');
      } else {
        MarkKeepsInv(t, req, r.decision, marked);
      }
    }
  }

  // ----- discovery -----

  lemma DiscoveryKeepsGraph(t: Tables, t': Tables)
    requires Discovered(t, t') && ConfirmedRows(t.candidates, t.decisions)
    ensures ConfirmedGraph(t'.candidates) == ConfirmedGraph(t.candidates)
  {
    forall id | id in t'.candidates && IsConfirmedEdge(t'.candidates[id])
      ensures id in t.candidates && IsConfirmedEdge(t.candidates[id]) && EdgeOf(t.candidates[id]) == EdgeOf(t'.candidates[id])
    {
      assert Rediscovered(t.candidates[id], t'.candidates[id]);
      assert ConfirmedRow(t.decisions, id, t.candidates[id]);
    }
    forall e | e in ConfirmedGraph(t.candidates) ensures e in ConfirmedGraph(t'.candidates) {
      var id :| id in t.candidates && IsConfirmedEdge(t.candidates[id]) && EdgeOf(t.candidates[id]) == e;
      assert Rediscovered(t.candidates[id], t'.candidates[id]);
    }
  }

  lemma DiscoveryKeepsInv(t: Tables, t': Tables)
    requires Inv(t) && Discovered(t, t')
    ensures Inv(t')
  {
    DiscoveryKeepsGraph(t, t');
    forall x | x in t.members ensures Evidence(t'.candidates, t'.decisions, x, t.members[x]) {
      assert Evidence(t.candidates, t.decisions, x, t.members[x]);
      var id := t.members[x].candidate;
      assert Rediscovered(t.candidates[id], t'.candidates[id]);
    }
    forall id | id in t'.candidates ensures ConfirmedRow(t'.decisions, id, t'.candidates[id]) {
      if id in t.candidates {
        assert Rediscovered(t.candidates[id], t'.candidates[id]);
        assert ConfirmedRow(t.decisions, id, t.candidates[id]);
      }
    }
  }

  // ----- whole runs -----

  lemma {:induction false} RunKeepsInv(ts: seq<Tables>, n: nat)
    requires Run(ts) && n < |ts|
    ensures Inv(ts[n])
    decreases n
  {
    if n == 0 {
      EmptyInv(ts[0]);
    } else {
      RunKeepsInv(ts, n - 1);
      var t, t' := ts[n - 1], ts[n];
      assert StepAt(ts, n - 1);
      if Discovered(t, t') {
        DiscoveryKeepsInv(t, t');
      } else {
        var req, r :| Reviewed(t, req, r, t');
        ReviewKeepsInv(t, req, r, t');
      }
    }
  }

  lemma EmptyInv(t: Tables)
    requires t == Tables(map[], map[], map[], map[], {}, map[])
    ensures Inv(t)
  {
    assert ConfirmedGraph(t.candidates) == {};
    forall x ensures !Touches({}, x) {}
  }

  /** In every state of every run, two accounts share an identity exactly when
      a path of currently confirmed edges joins them, and an account belongs
      to an identity exactly when it ends a confirmed edge. */
  lemma IdentitiesAreComponents(ts: seq<Tables>, n: nat, a: nat, b: nat)
    requires Run(ts) && n < |ts| && a != b
    ensures var t := ts[n]; var es := ConfirmedGraph(t.candidates);
      && (a in t.members <==> Touches(es, a))
      && (a in t.members && b in t.members && t.members[a].identity == t.members[b].identity <==> Connected(es, a, b))
  {
    RunKeepsInv(ts, n);
    var es := ConfirmedGraph(ts[n].candidates);
    ConnectedToMember(es, ts[n].members, a, b);
  }

  /** In every state of every run, each membership cites a candidate confirmed
      right now that ends at the account, and a confirmation of that same
      candidate; and every identity has a member. */
  lemma MembershipsStayJustified(ts: seq<Tables>, n: nat, a: nat, i: nat)
    requires Run(ts) && n < |ts|
    ensures var t := ts[n];
      && (a in t.members ==>
            var m := t.members[a];
            && m.candidate in t.candidates
            && var c := t.candidates[m.candidate];
            && c.state == Confirmed && c.relation == SameIdentity && (c.subject == a || c.target == Some(a))
            && m.decision in t.decisions && t.decisions[m.decision].candidate == m.candidate
            && t.decisions[m.decision].verdict == Confirmed)
      && (i in t.identities ==> exists x :: x in t.members && t.members[x].identity == i)
  {
    RunKeepsInv(ts, n);
    if a in ts[n].members {
      assert Evidence(ts[n].candidates, ts[n].decisions, a, ts[n].members[a]);
    }
    assert i in ts[n].identities <==> Used(ts[n].members, i);
  }

  // ----- refused merges, and decisions that cannot be taken back -----

  /** A confirmation would merge two identities exactly when both ends already
      belong to components and no path joins them. */
  lemma ConflictIsMerge(t: Tables, a: nat, b: nat)
    requires Inv(t)
    ensures InTwoIdentities(t.members, a, b) <==>
            var es := ConfirmedGraph(t.candidates); Touches(es, a) && Touches(es, b) && !Connected(es, a, b)
  {
    ConnectedToMember(ConfirmedGraph(t.candidates), t.members, a, b);
  }

  /** Withdrawing a confirmation and giving it again is refused exactly when
      both ends keep other confirmed edges and the withdrawn edge was the only
      link between them: a decision is not always reversible. */
  lemma ReconfirmRefused(t: Tables, withdraw: Request, r: Outcome, t': Tables, again: Request)
    requires Inv(t) && withdraw.candidate in t.candidates && Unconfirms(t.candidates[withdraw.candidate], withdraw)
    requires r.Recorded? && Reviewed(t, withdraw, r, t')
    requires again == Request(withdraw.candidate, Confirmed, None, None)
    ensures var c := t.candidates[withdraw.candidate]; var es := ConfirmedGraph(t'.candidates);
      && c.target.Some?
      && (!Accepts(t', again) <==>
            Touches(es, c.subject) && Touches(es, c.target.value) && !Connected(es, c.subject, c.target.value))
  {
    var c := t.candidates[withdraw.candidate];
    assert ConfirmedRow(t.decisions, withdraw.candidate, c);
    assert CandidateRow(t.accounts, t.references, c);
    ReviewKeepsInv(t, withdraw, r, t');
    assert t'.candidates[withdraw.candidate] == c.(state := withdraw.verdict, revision := c.revision + 1);
    ConflictIsMerge(t', c.subject, c.target.value);
    KnownTargetAccepted(t', again);
  }

  /** With a known target the only obstacle is two identities. */
  lemma KnownTargetAccepted(t: Tables, req: Request)
    requires req.candidate in t.candidates && req.expectedGeneration.None? && req.expectedRevision.None?
    requires var c := t.candidates[req.candidate]; c.target.Some? && c.target.value != c.subject && Confirms(c, req)
    ensures var c := t.candidates[req.candidate]; Accepts(t, req) <==> !InTwoIdentities(t.members, c.subject, c.target.value)
  {
    var c := t.candidates[req.candidate];
    assert PointsAt(t, c, c.target.value);
    assert forall x :: PointsAt(t, c, x) <==> x == c.target.value;
  }

  /** Withdrawing a confirmation keeps the identity's id for one of the parts
      as long as any of its accounts still ends a confirmed edge. */
  lemma IdentityIdSurvives(t: Tables, withdraw: Request, r: Outcome, t': Tables)
    requires Inv(t) && withdraw.candidate in t.candidates && Unconfirms(t.candidates[withdraw.candidate], withdraw)
    requires r.Recorded? && Reviewed(t, withdraw, r, t')
    ensures t.candidates[withdraw.candidate].subject in t.members
    ensures var old' := t.members[t.candidates[withdraw.candidate].subject].identity;
      old' in t'.identities <==>
        exists a :: a in t.members && t.members[a].identity == old' && Touches(ConfirmedGraph(t'.candidates), a)
  {
    var id, c := withdraw.candidate, t.candidates[withdraw.candidate];
    assert ConfirmedRow(t.decisions, id, c);
    ReviewKeepsInv(t, withdraw, r, t');
    var marked :| Marked(t, withdraw, r.decision, marked) && Completed(marked, c, withdraw, r.decision, r.identity, t');
    var within :| RebuiltOver(marked, EndsOf(c), within, t');
    ConfirmedGraphShrinks(t.candidates, id, marked.candidates[id]);
    assert EdgeOf(c) in ConfirmedGraph(t.candidates);
    Step(ConfirmedGraph(t.candidates), c.subject, c.target.value);
    assert EndpointOf(EdgeOf(c), c.subject) && EndpointOf(EdgeOf(c), c.target.value);
    SurvivesWithin(t, marked, c, within, t');
  }

  lemma SurvivesWithin(t: Tables, marked: Tables, c: Candidate, within: set<nat>, t': Tables)
    requires Inv(t) && Inv(t') && c.target.Some? && RebuiltOver(marked, EndsOf(c), within, t')
    requires marked.members == t.members && marked.identities == t.identities
    requires ConfirmedGraph(marked.candidates) + {EdgeOf(c)} == ConfirmedGraph(t.candidates)
    requires c.subject in t.members && c.target.value in t.members
    requires t.members[c.subject].identity == t.members[c.target.value].identity
    ensures var old' := t.members[c.subject].identity;
      old' in t'.identities <==>
        exists a :: a in t.members && t.members[a].identity == old' && Touches(ConfirmedGraph(t'.candidates), a)
  {
    var es' := ConfirmedGraph(t'.candidates);
    var old' := t.members[c.subject].identity;
    assert old' in t'.identities <==> Used(t'.members, old');
    if Used(t'.members, old') {
      var a :| a in t'.members && t'.members[a].identity == old';
      if a in within {
        InsideIsOld(ConfirmedGraph(t.candidates), es', t.members, c, within, a);
      }
    }
    if b: nat :| b in t.members && t.members[b].identity == old' && Touches(es', b) {
      assert SharesIdentity(marked.members, EndsOf(c), b);
      assert b in OldGroups(marked.members, EndsOf(c)) && b in within && b in t'.members;
      Reflexive(es', b);
      var i := t'.members[b].identity;
      if i in t.identities {
        assert i in t.identities <==> Used(t.members, i);
        var x :| x in t.members && t.members[x].identity == i;
        TakenFromInside(marked, c, within, t', x, b);
        InsideIsOld(ConfirmedGraph(t.candidates), es', t.members, c, within, x);
      }
    }
  }

  lemma TakenFromInside(t: Tables, c: Candidate, within: set<nat>, t': Tables, x: nat, b: nat)
    requires RebuiltOver(t, EndsOf(c), within, t') && b in within && b in t'.members
    requires x in t.members && t.members[x].identity == t'.members[b].identity
    ensures x in within
  {
    RestrictToClosed(ConfirmedGraph(t.candidates), within, b, x);
  }

  /** Everything a rebuild works on in a reachable state is the old component. */
  lemma InsideIsOld(es: set<Edge>, es': set<Edge>, members: map<nat, Membership>, c: Candidate, within: set<nat>, x: nat)
    requires PartitionOk(es, members) && es' <= es
    requires IsClosure(es', RebuildStart(members, EndsOf(c)), within)
    requires c.subject in members && c.target.Some? && c.target.value in members
    requires members[c.subject].identity == members[c.target.value].identity
    requires x in within
    ensures x in members && members[x].identity == members[c.subject].identity
  {
    assert Reachable(es', RebuildStart(members, EndsOf(c)), x);
    var y :| y in RebuildStart(members, EndsOf(c)) && Connected(es', y, x);
    Monotone(es', es, y, x);
    ConnectedToMember(es, members, y, x);
    if y in OldGroups(members, EndsOf(c)) {
      assert SharesIdentity(members, EndsOf(c), y);
    }
  }

  // ----- facts the transaction needs while it runs -----

  /** Whether a confirmation may go ahead does not depend on the mark. */
  lemma MarkedTarget(t: Tables, req: Request, decision: nat, marked: Tables, error: Refusal)
    requires req.candidate in t.candidates && Marked(t, req, decision, marked)
    ensures var c, c' := t.candidates[req.candidate], marked.candidates[req.candidate];
      && (HasTarget(marked, c') <==> HasTarget(t, c))
      && (PointsAt(marked, c', c.subject) <==> PointsAt(t, c, c.subject))
      && (MergesNothing(marked, c') <==> MergesNothing(t, c))
      && (RefusesTarget(marked, c', error) <==> RefusesTarget(t, c, error))
  {
    var c, c' := t.candidates[req.candidate], marked.candidates[req.candidate];
    forall x ensures PointsAt(marked, c', x) <==> PointsAt(t, c, x) {}
  }

  lemma MergeSeen(t: Tables, id: nat, target: nat, resolved: Tables)
    requires id in t.candidates && Resolved(t, id, target, resolved)
    requires UniqueAccounts(t.accounts) && MemberRows(t.members, t.accounts, t.identities)
    ensures var c := t.candidates[id];
      && (InTwoIdentities(t.members, c.subject, target) ==> PointsAt(t, c, target))
      && (MergesNothing(t, c) <==> !InTwoIdentities(t.members, c.subject, target))
  {
    var c := t.candidates[id];
    if InTwoIdentities(t.members, c.subject, target) {
      assert t.members[target] == t.members[target];
    }
    forall x | PointsAt(t, c, x) ensures x == target {
      if c.target.None? {
        assert t.accounts[x] == t.accounts[target];
      }
    }
    if exists a :: PointsAt(t, c, a) {
      assert PointsAt(t, c, target);
    }
  }
}

/** A run at whose end a withdrawn confirmation cannot be given again: accounts
    1-2-3-4 are confirmed in a chain, then the middle edge is withdrawn. */
module WithdrawnChain {

  import opened Basics
  import opened Graph
  import opened IdentityTables
  import opened IdentityInvariant

  function Accounts(): map<nat, Account> {
    map[1 := Account(1, "a"), 2 := Account(2, "a"), 3 := Account(3, "a"), 4 := Account(4, "a")]
  }

  /** The candidate for the edge between accounts n and n + 1. */
  function Link(n: nat, state: ReviewState, revision: nat): Candidate {
    Candidate(n, Some(n + 1), None, SameIdentity, state, 1, revision)
  }

  function Confirmation(n: nat): Decision { Decision(n, Pending, Confirmed, 1) }

  function Pair(): map<nat, Membership> { map[1 := Membership(1, 1, 1), 2 := Membership(1, 1, 1)] }

  function Found(): Tables {
    Tables(map[1 := Link(1, Pending, 0), 2 := Link(2, Pending, 0), 3 := Link(3, Pending, 0)], map[], map[], Accounts(), {}, map[])
  }

  /** The n-th edge confirmed by the n-th decision, with these memberships. */
  function Confirming(t: Tables, n: nat, members: map<nat, Membership>): Tables {
    t.(candidates := t.candidates[n := Link(n, Confirmed, 1)], decisions := t.decisions[n := Confirmation(n)],
       identities := {1}, members := members)
  }

  function OneEdge(): Tables { Confirming(Found(), 1, Pair()) }
  function TwoEdges(): Tables { Confirming(OneEdge(), 2, Pair()[3 := Membership(1, 2, 2)]) }
  function ThreeEdges(): Tables { Confirming(TwoEdges(), 3, Pair()[3 := Membership(1, 2, 2)][4 := Membership(1, 3, 3)]) }

  /** The middle edge withdrawn, its identity not yet rebuilt. */
  function Withdrawn(): Tables {
    ThreeEdges().(candidates := ThreeEdges().candidates[2 := Link(2, Rejected, 2)],
                  decisions := ThreeEdges().decisions[4 := Decision(2, Confirmed, Rejected, 1)])
  }

  function ChainMembers(): map<nat, Membership> {
    Pair()[3 := Membership(2, 3, 3)][4 := Membership(2, 3, 3)]
  }

  function ChainTables(): Tables {
    Withdrawn().(identities := {1, 2}, members := ChainMembers())
  }

  lemma ConfirmLink(t: Tables, n: nat, decision: nat, m: Membership, marked: Tables, t': Tables)
    requires n in t.candidates && t.candidates[n] == Link(n, Pending, 0)
    requires MergesNothing(t, t.candidates[n]) && Marked(t, Request(n, Confirmed, None, None), decision, marked)
    requires m.candidate == n && m.decision == decision && Attached(marked, n, n + 1, m, t')
    ensures RunStep(t, t')
  {
    var req := Request(n, Confirmed, None, None);
    assert Resolved(marked, n, n + 1, marked);
    assert Completed(marked, t.candidates[n], req, decision, Some(m.identity), t');
    assert Reviewed(t, req, Recorded(decision, Some(m.identity)), t');
  }

  lemma ConfirmFirst()
    ensures RunStep(Found(), OneEdge())
  {
    var t, t' := Found(), OneEdge();
    ConfirmLink(t, 1, 1, Membership(1, 1, 1), t.(candidates := t'.candidates, decisions := t'.decisions), t');
  }

  lemma ConfirmSecond()
    ensures RunStep(OneEdge(), TwoEdges())
  {
    var t, t' := OneEdge(), TwoEdges();
    ConfirmLink(t, 2, 2, Membership(1, 2, 2), t.(candidates := t'.candidates, decisions := t'.decisions), t');
  }

  lemma ConfirmThird()
    ensures RunStep(TwoEdges(), ThreeEdges())
  {
    var t, t' := TwoEdges(), ThreeEdges();
    ConfirmLink(t, 3, 3, Membership(1, 3, 3), t.(candidates := t'.candidates, decisions := t'.decisions), t');
  }

  lemma ChainGraph()
    ensures ConfirmedGraph(Withdrawn().candidates) == {Edge(1, 2), Edge(3, 4)}
  {
    var links := Withdrawn().candidates;
    assert links.Keys == {1, 2, 3} && links[1] == Link(1, Confirmed, 1) && links[2] == Link(2, Rejected, 2) && links[3] == Link(3, Confirmed, 1);
    assert EdgeOf(links[1]) == Edge(1, 2) && EdgeOf(links[3]) == Edge(3, 4);
  }

  lemma ChainRows()
    ensures EvidenceRows(Withdrawn().candidates, Withdrawn().decisions, ChainMembers())
    ensures NoEmptyIdentity({1, 2}, ChainMembers())
    ensures forall a | a in ChainMembers() :: NewestConfirmation(Withdrawn().decisions, ChainMembers()[a])
  {
    var decisions, members := Withdrawn().decisions, ChainMembers();
    assert IsConfirmation(decisions[1], 1) && IsConfirmation(decisions[3], 3);
    assert members[1].identity == 1 && members[3].identity == 2;
  }

  lemma TwoPairs(es: set<Edge>, members: map<nat, Membership>)
    requires es == {Edge(1, 2), Edge(3, 4)} && members.Keys == {1, 2, 3, 4}
    requires members[1].identity == members[2].identity && members[3].identity == members[4].identity
    requires members[1].identity != members[3].identity
    ensures PartitionOk(es, members)
  {
    forall x ensures x in members <==> Touches(es, x) {
      if x in members {
        assert EndpointOf(if x <= 2 then Edge(1, 2) else Edge(3, 4), x);
      }
    }
    forall x, y | x in members && y in members
      ensures members[x].identity == members[y].identity <==> Connected(es, x, y)
    {
      Reflexive(es, x);
      RestrictToClosed(es, if x <= 2 then {1, 2} else {3, 4}, x, y);
      if (x <= 2) == (y <= 2) && x != y {
        assert Adjacent(es, x, y);
        Step(es, x, y);
      }
    }
  }

  /** A rebuild that covers every account, from what it leaves behind. */
  lemma RebuiltEverywhere(t: Tables, ends: set<nat>, within: set<nat>, t': Tables)
    requires IsClosure(ConfirmedGraph(t.candidates), RebuildStart(t.members, ends), within)
    requires t' == t.(identities := t'.identities, members := t'.members)
    requires t.members.Keys <= within && t'.members.Keys <= within
    requires PartitionOk(ConfirmedGraph(t.candidates), t'.members) && NoEmptyIdentity(t'.identities, t'.members)
    requires EvidenceRows(t.candidates, t.decisions, t'.members)
    requires forall a | a in t'.members :: NewestConfirmation(t.decisions, t'.members[a])
    requires forall a | a in t.members :: Used(t'.members, t.members[a].identity)
    ensures Rebuilt(t, ends, t')
  {
    assert RebuiltOver(t, ends, within, t');
  }

  lemma StartIsAll(members: map<nat, Membership>, ends: set<nat>)
    requires forall a, b | a in members && b in members :: members[a].identity == members[b].identity
    requires exists b :: b in ends && b in members
    ensures RebuildStart(members, ends) == ends + members.Keys
  {
    var b :| b in ends && b in members;
    forall a | a in members ensures SharesIdentity(members, ends, a) {
      assert members[b].identity == members[a].identity;
    }
  }

  lemma AllIsClosure(es: set<Edge>, all: set<nat>)
    requires Closed(es, all)
    ensures IsClosure(es, all, all)
  {
    forall x | x in all ensures Reachable(es, all, x) { Reflexive(es, x); }
  }

  lemma ChainStart()
    ensures RebuildStart(Withdrawn().members, {2, 3}) == {1, 2, 3, 4} && Withdrawn().members.Keys == {1, 2, 3, 4}
    ensures forall a | a in Withdrawn().members :: Withdrawn().members[a].identity == 1
  {
    assert 2 in Withdrawn().members;
    StartIsAll(Withdrawn().members, {2, 3});
  }

  lemma ChainPartition()
    ensures IsClosure(ConfirmedGraph(Withdrawn().candidates), {1, 2, 3, 4}, {1, 2, 3, 4})
    ensures PartitionOk(ConfirmedGraph(Withdrawn().candidates), ChainMembers())
  {
    ChainGraph();
    AllIsClosure(ConfirmedGraph(Withdrawn().candidates), {1, 2, 3, 4});
    TwoPairs(ConfirmedGraph(Withdrawn().candidates), ChainMembers());
  }

  /** The rebuild after the withdrawal: the identity stays with accounts 1 and
      2, and 3 and 4 get a new one. */
  lemma ChainRebuilt()
    ensures Rebuilt(Withdrawn(), {2, 3}, ChainTables())
  {
    ChainStart();
    ChainRows();
    ChainPartition();
    assert Used(ChainMembers(), 1) by { assert ChainMembers()[1].identity == 1; }
    RebuiltEverywhere(Withdrawn(), {2, 3}, {1, 2, 3, 4}, ChainTables());
  }

  lemma WithdrawLink(t: Tables, n: nat, decision: nat, marked: Tables, t': Tables)
    requires n in t.candidates && t.candidates[n] == Link(n, Confirmed, 1)
    requires Marked(t, Request(n, Rejected, None, None), decision, marked) && Rebuilt(marked, {n, n + 1}, t')
    ensures RunStep(t, t')
  {
    var req := Request(n, Rejected, None, None);
    assert EndsOf(t.candidates[n]) == {n, n + 1};
    assert Completed(marked, t.candidates[n], req, decision, None, t');
    assert Reviewed(t, req, Recorded(decision, None), t');
  }

  lemma Withdraw()
    ensures RunStep(ThreeEdges(), ChainTables())
  {
    ChainRebuilt();
    WithdrawLink(ThreeEdges(), 2, 4, Withdrawn(), ChainTables());
  }

  lemma Discover()
    ensures Discovered(Tables(map[], map[], map[], map[], {}, map[]), Found())
  {
  }

  lemma RefusedThere()
    ensures Refuses(ChainTables(), Request(2, Confirmed, None, None), IdentityConflict)
  {
    var t := ChainTables();
    assert PointsAt(t, t.candidates[2], 3) && InTwoIdentities(t.members, 2, 3);
  }

  lemma FiveSteps(a: Tables, b: Tables, c: Tables, d: Tables, e: Tables, f: Tables)
    requires a == Tables(map[], map[], map[], map[], {}, map[])
    requires RunStep(a, b) && RunStep(b, c) && RunStep(c, d) && RunStep(d, e) && RunStep(e, f)
    ensures Run([a, b, c, d, e, f]) && Inv(f)
  {
    var ts := [a, b, c, d, e, f];
    forall i | 0 <= i < |ts| - 1 ensures StepAt(ts, i) {
      match i
      case 0 => case 1 => case 2 => case 3 => case 4 =>
      case _ => assert false;
    }
    RunKeepsInv(ts, 5);
  }

  /** A run of reviews reaches that state, and confirming the middle edge
      again, as a reviewer once did, is refused. */
  lemma ChainCannotBeRestored()
    ensures Run([Tables(map[], map[], map[], map[], {}, map[]), Found(), OneEdge(), TwoEdges(), ThreeEdges(), ChainTables()])
    ensures ThreeEdges().candidates[2].state == Confirmed && Inv(ChainTables())
    ensures Refuses(ChainTables(), Request(2, Confirmed, None, None), IdentityConflict)
  {
    Discover();
    ConfirmFirst();
    ConfirmSecond();
    ConfirmThird();
    Withdraw();
    FiveSteps(Tables(map[], map[], map[], map[], {}, map[]), Found(), OneEdge(), TwoEdges(), ThreeEdges(), ChainTables());
    RefusedThere();
  }
}

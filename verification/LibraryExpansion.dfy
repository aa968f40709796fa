/** The library planner's query for accounts confirmed to be the seed's own. */
module LibraryExpansion {

  import opened Basics
  import opened Graph
  import opened IdentityTables
  import opened IdentityInvariant

  datatype TargetRow = TargetRow(account: nat, candidate: nat, decision: nat)

  /** The WHERE clause over the joined rows, for one membership row. */
  predicate Selects(t: Tables, seed: nat, account: nat) {
    && seed in t.members && account in t.members
    && t.members[account].identity == t.members[seed].identity
    && account in t.accounts && account != seed
    && var m := t.members[account];
    && m.candidate in t.candidates && m.decision in t.decisions
    && t.candidates[m.candidate].state == Confirmed
    && t.candidates[m.candidate].relation == SameIdentity
    && t.decisions[m.decision].verdict == Confirmed
  }

  /** SELECT DISTINCT account, candidate, decision. */
  function ConfirmedTargets(t: Tables, seed: nat): set<TargetRow> {
    set account | account in t.members && Selects(t, seed, account) ::
      TargetRow(account, t.members[account].candidate, t.members[account].decision)
  }

  ghost predicate EndsAt(t: Tables, row: TargetRow) {
    && row.candidate in t.candidates
    && (t.candidates[row.candidate].subject == row.account || t.candidates[row.candidate].target == Some(row.account))
  }

  /** In every reachable state the query returns exactly one row for each
      other account that confirmed edges connect to the seed: no filter drops
      a member, and the cited candidate ends at the account. */
  lemma QueryReturnsComponent(ts: seq<Tables>, n: nat, seed: nat, account: nat)
    requires Run(ts) && n < |ts|
    ensures var t := ts[n]; var rows := ConfirmedTargets(t, seed);
      && ((exists row :: row in rows && row.account == account)
            <==> account != seed && Connected(ConfirmedGraph(t.candidates), seed, account))
      && (forall row, other | row in rows && other in rows && row.account == other.account :: row == other)
      && (forall row | row in rows :: EndsAt(t, row))
  {
    RunKeepsInv(ts, n);
    var t := ts[n];
    var rows := ConfirmedTargets(t, seed);
    ConnectedToMember(ConfirmedGraph(t.candidates), t.members, seed, account);
    forall row | row in rows ensures EndsAt(t, row) {
      assert Evidence(t.candidates, t.decisions, row.account, t.members[row.account]);
    }
    if account != seed && Connected(ConfirmedGraph(t.candidates), seed, account) {
      var m := t.members[account];
      assert Evidence(t.candidates, t.decisions, account, m);
      assert Selects(t, seed, account);
      assert TargetRow(account, m.candidate, m.decision) in rows;
    }
  }
}

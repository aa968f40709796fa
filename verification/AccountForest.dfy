/** The union-find forest that an identity rebuild keeps in its `parent`
    dictionary, with path halving in `find`. */
module AccountForest {
  import opened Graph

  ghost predicate Distinct(s: seq<nat>) {
    forall i, j | 0 <= i < j < |s| :: s[i] != s[j]
  }

  ghost function EdgeSet(edges: seq<Edge>): set<Edge> {
    set e | e in edges
  }

  lemma ExtendEdges(edges: seq<Edge>, i: nat)
    requires i < |edges|
    ensures EdgeSet(edges[..i + 1]) == EdgeSet(edges[..i]) + {Edge(edges[i].a, edges[i].b)}
  {
    assert edges[..i + 1] == edges[..i] + [edges[i]];
  }

  /** `rep` names the component of every listed account: two accounts have the
      same representative exactly when edges connect them. */
  ghost predicate NamesComponents(rep: map<nat, nat>, es: set<Edge>) {
    && (forall x :: x in rep <==> Touches(es, x))
    && (forall x, y | x in rep && y in rep :: rep[x] == rep[y] <==> Connected(es, x, y))
  }

  /** `rep` after accounts u and v have been listed. */
  ghost function Listed(rep: map<nat, nat>, u: nat): map<nat, nat> {
    if u in rep then rep else rep[u := u]
  }

  ghost function Linked(rep: map<nat, nat>, child: nat, top: nat): map<nat, nat> {
    map x | x in rep :: if rep[x] == child then top else rep[x]
  }

  ghost predicate RepAt(rep: map<nat, nat>, x: nat)
    requires x in rep
  {
    rep[x] in rep && rep[rep[x]] == rep[x]
  }

  ghost predicate RepValid(rep: map<nat, nat>) {
    forall x {:trigger RepAt(rep, x)} | x in rep :: RepAt(rep, x)
  }

  /** Linking the two roots of an edge keeps representatives in step with the
      graph that now holds the edge. */
  lemma LinkNames(rep: map<nat, nat>, es: set<Edge>, u: nat, v: nat, rep': map<nat, nat>)
    requires RepValid(rep) && NamesComponents(rep, es)
    requires var both := Listed(Listed(rep, u), v);
      u in both && v in both &&
      rep' == if both[u] == both[v] then both else Linked(both, both[v], both[u])
    ensures NamesComponents(rep', es + {Edge(u, v)})
  {
    var one := Listed(rep, u);
    var both := Listed(one, v);
    var more := es + {Edge(u, v)};
    forall x ensures x in rep' <==> Touches(more, x) {
      if Touches(more, x) {
        var e :| e in more && EndpointOf(e, x);
        if e in es { assert Touches(es, x); }
      }
      if x in rep {
        var e :| e in es && EndpointOf(e, x);
        assert e in more && EndpointOf(e, x);
      }
      assert Edge(u, v) in more;
      if x == u || x == v { assert EndpointOf(Edge(u, v), x); }
    }
    forall x, y | x in both && y in both
      ensures both[x] == both[y] <==> Connected(es, x, y)
    {
      BothNames(rep, es, u, v, x, y);
    }
    forall x, y | x in rep' && y in rep' ensures rep'[x] == rep'[y] <==> Connected(more, x, y) {
      AddEdge(es, u, v, x, y);
      if Connected(es, x, u) { Symmetric(es, x, u); }
      if Connected(es, v, y) { Symmetric(es, v, y); }
      if Connected(es, u, v) && Connected(es, x, u) && Connected(es, v, y) {
        Transitive(es, x, u, v);
        Transitive(es, x, v, y);
      }
      if Connected(es, x, v) && Connected(es, u, y) && Connected(es, u, v) {
        Symmetric(es, u, v);
        Transitive(es, x, v, u);
        Transitive(es, x, u, y);
      }
    }
  }

  lemma BothNames(rep: map<nat, nat>, es: set<Edge>, u: nat, v: nat, x: nat, y: nat)
    requires RepValid(rep) && NamesComponents(rep, es)
    requires var both := Listed(Listed(rep, u), v); x in both && y in both
    ensures var both := Listed(Listed(rep, u), v);
      both[x] == both[y] <==> Connected(es, x, y)
  {
    var one := Listed(rep, u);
    var both := Listed(one, v);
    Reflexive(es, x);
    if x != y {
      if x in rep { assert RepAt(rep, x); }
      if y in rep { assert RepAt(rep, y); }
      if !(x in rep && y in rep) && Connected(es, x, y) {
        ConnectedTouches(es, x, y);
      }
    }
  }

  /** One account's place in the forest: its parent is listed, ranks strictly
      grow towards the root, and its representative is the root above it. */
  ghost predicate NodeOk(parent: map<nat, nat>, rank: map<nat, nat>, top: nat, rep: map<nat, nat>, x: nat)
    requires rank.Keys == parent.Keys && rep.Keys == parent.Keys && x in parent
  {
    && parent[x] in parent
    && rank[x] <= top
    && (parent[x] != x ==> rank[x] < rank[parent[x]])
    && (parent[x] == x ==> rep[x] == x)
    && rep[x] == rep[parent[x]]
    && rep[x] in parent && parent[rep[x]] == rep[x]
  }

  /** Because ranks strictly grow along the links, the links hold no cycle. */
  ghost predicate ForestOk(parent: map<nat, nat>, rank: map<nat, nat>, top: nat, rep: map<nat, nat>) {
    && rank.Keys == parent.Keys && rep.Keys == parent.Keys
    && forall x {:trigger NodeOk(parent, rank, top, rep, x)} | x in parent :: NodeOk(parent, rank, top, rep, x)
  }

  lemma ForestRepValid(parent: map<nat, nat>, rank: map<nat, nat>, top: nat, rep: map<nat, nat>)
    requires ForestOk(parent, rank, top, rep)
    ensures RepValid(rep)
  {
    forall x | x in rep ensures RepAt(rep, x) {
      assert NodeOk(parent, rank, top, rep, x);
      assert NodeOk(parent, rank, top, rep, rep[x]);
    }
  }

  lemma AddRoot(parent: map<nat, nat>, rank: map<nat, nat>, top: nat, rep: map<nat, nat>, x: nat)
    requires ForestOk(parent, rank, top, rep) && x !in parent
    ensures ForestOk(parent[x := x], rank[x := 0], top, rep[x := x])
  {
    var parent', rank', rep' := parent[x := x], rank[x := 0], rep[x := x];
    forall y | y in parent' ensures NodeOk(parent', rank', top, rep', y) {
      if y != x { assert NodeOk(parent, rank, top, rep, y); }
    }
  }

  /** Path halving: pointing an account at its grandparent keeps the ranks
      growing and changes no representative. */
  lemma Halve(parent: map<nat, nat>, rank: map<nat, nat>, top: nat, rep: map<nat, nat>, x: nat)
    requires ForestOk(parent, rank, top, rep) && x in parent && parent[x] != x
    ensures parent[x] in parent && parent[parent[x]] in parent
    ensures ForestOk(parent[x := parent[parent[x]]], rank, top, rep)
    ensures var up := parent[parent[x]]; rank[x] < rank[up] <= top && rep[up] == rep[x]
  {
    assert NodeOk(parent, rank, top, rep, x);
    assert NodeOk(parent, rank, top, rep, parent[x]);
    assert NodeOk(parent, rank, top, rep, parent[parent[x]]);
    var parent' := parent[x := parent[parent[x]]];
    forall y | y in parent' ensures NodeOk(parent', rank, top, rep, y) {
      assert NodeOk(parent, rank, top, rep, y);
      assert NodeOk(parent, rank, top, rep, rep[y]);
    }
  }

  lemma LinkRoots(parent: map<nat, nat>, rank: map<nat, nat>, top: nat, rep: map<nat, nat>, child: nat, above: nat)
    returns (rank': map<nat, nat>, top': nat)
    requires ForestOk(parent, rank, top, rep) && child in parent && above in parent && child != above
    requires parent[child] == child && parent[above] == above
    ensures ForestOk(parent[child := above], rank', top', Linked(rep, child, above))
  {
    rank' := if rank[above] <= rank[child] then rank[above := rank[child] + 1] else rank;
    top' := top + 1;
    var parent', rep' := parent[child := above], Linked(rep, child, above);
    assert parent'.Keys == parent.Keys && rank'.Keys == rank.Keys && rep'.Keys == rep.Keys;
    forall y | y in parent' ensures NodeOk(parent', rank', top', rep', y) {
      LinkNode(parent, rank, top, rep, child, above, y, rank');
    }
  }

  /** Hanging one root below another keeps every account's place. */
  lemma LinkNode(parent: map<nat, nat>, rank: map<nat, nat>, top: nat, rep: map<nat, nat>, child: nat, above: nat, y: nat,
                 rank': map<nat, nat>)
    requires ForestOk(parent, rank, top, rep) && child in parent && above in parent && child != above && y in parent
    requires parent[child] == child && parent[above] == above
    requires rank' == if rank[above] <= rank[child] then rank[above := rank[child] + 1] else rank
    ensures NodeOk(parent[child := above], rank', top + 1, Linked(rep, child, above), y)
  {
    assert NodeOk(parent, rank, top, rep, y) && NodeOk(parent, rank, top, rep, parent[y]);
    assert NodeOk(parent, rank, top, rep, child) && NodeOk(parent, rank, top, rep, above);
    var rep' := Linked(rep, child, above);
    assert rep'[y] == if rep[y] == child then above else rep[y];
    assert rep'[parent[y]] == rep'[y] && rep'[above] == above;
  }

  /** `components` holds, per root, exactly the listed accounts below it, each
      once and no list empty. */
  ghost predicate Grouped(rep: map<nat, nat>, listed: seq<nat>, roots: seq<nat>, components: map<nat, seq<nat>>) {
    && Distinct(roots)
    && (forall r :: r in roots <==> r in components)
    && (forall r | r in components :: components[r] != [] && Distinct(components[r]))
    && (forall x | x in listed :: x in rep && rep[x] in components && x in components[rep[x]])
    && (forall r, x | r in components && x in components[r] :: x in listed && x in rep && rep[x] == r)
  }

  lemma AddToGroup(rep: map<nat, nat>, order: seq<nat>, i: nat, roots: seq<nat>, components: map<nat, seq<nat>>)
    requires i < |order| && Distinct(order) && order[i] in rep
    requires Grouped(rep, order[..i], roots, components)
    ensures Grouped(rep, order[..i + 1], RootsWith(roots, components, rep[order[i]]), GroupsWith(components, rep[order[i]], order[i]))
  {
    var x, r := order[i], rep[order[i]];
    assert x !in order[..i] && order[..i + 1] == order[..i] + [x];
    var groups := GroupsWith(components, r, x);
    if r in components { AppendDistinct(components[r], x); } else { AppendDistinct(roots, r); }
    assert forall q | q in groups && q != r :: groups[q] == components[q];
  }

  lemma AppendDistinct(s: seq<nat>, x: nat)
    requires Distinct(s) && x !in s
    ensures Distinct(s + [x])
  {
  }

  /** setdefault(root, []).append(x). */
  function GroupsWith(components: map<nat, seq<nat>>, root: nat, x: nat): map<nat, seq<nat>> {
    components[root := if root in components then components[root] + [x] else [x]]
  }

  function RootsWith(roots: seq<nat>, components: map<nat, seq<nat>>, root: nat): seq<nat> {
    if root in components then roots else roots + [root]
  }

  class Forest {
    var parent: map<nat, nat>
    var order: seq<nat>  // the accounts in the order the dictionary lists them
    ghost var rank: map<nat, nat>
    ghost var top: nat
    ghost var rep: map<nat, nat>

    ghost predicate Valid()
      reads this
    {
      && ForestOk(parent, rank, top, rep)
      && Distinct(order) && (forall x :: x in order <==> x in parent)
    }

    constructor ()
      ensures Valid() && rep == map[] && order == []
    {
      parent, order, rank, rep, top := map[], [], map[], map[], 0;
    }

    /** The nested `find`: list the account if it is new, then climb to the
        root, halving the path on the way. */
    method Find(account: nat) returns (root: nat)
      requires Valid()
      modifies this
      ensures Valid()
      ensures rep == Listed(old(rep), account) && account in rep && root == rep[account]
      ensures root in parent && parent[root] == root
      ensures order == if account in old(rep) then old(order) else old(order) + [account]
    {
      if account !in parent {
        AddRoot(parent, rank, top, rep, account);
        parent := parent[account := account];
        order := order + [account];
        rank, rep := rank[account := 0], rep[account := account];
      }
      root := account;
      while parent[root] != root
        invariant ForestOk(parent, rank, top, rep) && rep == Listed(old(rep), account)
        invariant parent.Keys == old(parent).Keys + {account} && root in parent && rep[root] == rep[account]
        invariant order == if account in old(rep) then old(order) else old(order) + [account]
        decreases top - rank[root]
      {
        Halve(parent, rank, top, rep, root);
        parent := parent[root := parent[parent[root]]];
        root := parent[root];
      }
      assert NodeOk(parent, rank, top, rep, root);
    }

    /** Hang one root below another. */
    method Link(child: nat, above: nat)
      requires Valid() && child in parent && above in parent && child != above
      requires parent[child] == child && parent[above] == above
      modifies this
      ensures Valid() && order == old(order)
      ensures rep == Linked(old(rep), child, above)
    {
      ghost var rank', top' := LinkRoots(parent, rank, top, rep, child, above);
      parent := parent[child := above];
      rank, top, rep := rank', top', Linked(rep, child, above);
    }

    /** One edge of the loop: the two roots become one. */
    method Unite(first: nat, second: nat)
      requires Valid()
      modifies this
      ensures Valid()
      ensures var both := Listed(Listed(old(rep), first), second);
        && first in both && second in both
        && rep == if both[first] == both[second] then both else Linked(both, both[second], both[first])
    {
      var firstRoot := Find(first);
      var secondRoot := Find(second);
      assert NodeOk(parent, rank, top, rep, first);
      if firstRoot != secondRoot {
        Link(secondRoot, firstRoot);
      }
    }

    /** The loop over the edges: afterwards two listed accounts have the same
        root exactly when edges connect them. */
    method UniteAll(edges: seq<Edge>)
      requires Valid() && rep == map[]
      modifies this
      ensures Valid() && NamesComponents(rep, EdgeSet(edges))
    {
      for i := 0 to |edges|
        invariant Valid() && NamesComponents(rep, EdgeSet(edges[..i]))
      {
        ghost var before := rep;
        ForestRepValid(parent, rank, top, rep);
        Unite(edges[i].a, edges[i].b);
        LinkNames(before, EdgeSet(edges[..i]), edges[i].a, edges[i].b, rep);
        ExtendEdges(edges, i);
      }
      assert edges[..|edges|] == edges;
    }

    /** Collect the listed accounts under their roots, in dictionary order.
        `find` only rewrites values here, so the dictionary being iterated
        never changes its keys. */
    method Components() returns (roots: seq<nat>, components: map<nat, seq<nat>>)
      requires Valid()
      modifies this
      ensures Valid() && rep == old(rep) && order == old(order)
      ensures Grouped(rep, order, roots, components)
    {
      roots, components := [], map[];
      for i := 0 to |order|
        invariant Valid() && rep == old(rep) && order == old(order)
        invariant Grouped(rep, order[..i], roots, components)
      {
        var account := order[i];
        var root := Find(account);
        AddToGroup(rep, order, i, roots, components);
        roots, components := RootsWith(roots, components, root), GroupsWith(components, root, account);
      }
      assert order[..|order|] == order;
    }
  }
}

/** Undirected graphs over account ids, given as finite sets of edges, and the
    reachability facts the identity review rests on. */
module Graph {

  datatype Edge = Edge(a: nat, b: nat)

  predicate EndpointOf(e: Edge, x: nat) {
    e.a == x || e.b == x
  }

  ghost predicate Touches(es: set<Edge>, x: nat) {
    exists e :: e in es && EndpointOf(e, x)
  }

  ghost predicate Adjacent(es: set<Edge>, x: nat, y: nat) {
    Edge(x, y) in es || Edge(y, x) in es
  }

  ghost predicate IsPath(es: set<Edge>, p: seq<nat>) {
    |p| > 0 && forall i | 0 <= i < |p| - 1 :: Adjacent(es, p[i], p[i + 1])
  }

  ghost predicate PathBetween(es: set<Edge>, p: seq<nat>, x: nat, y: nat) {
    IsPath(es, p) && p[0] == x && p[|p| - 1] == y
  }

  /** A path of edges joins x and y; every account is connected to itself. */
  ghost predicate Connected(es: set<Edge>, x: nat, y: nat) {
    exists p :: PathBetween(es, p, x, y)
  }

  ghost predicate Closed(es: set<Edge>, s: set<nat>) {
    forall e | e in es :: e.a in s <==> e.b in s
  }

  /** The edges with at least one end in s. */
  ghost function EdgesOn(es: set<Edge>, s: set<nat>): set<Edge> {
    set e | e in es && (e.a in s || e.b in s)
  }

  ghost predicate Reachable(es: set<Edge>, start: set<nat>, x: nat) {
    exists y :: y in start && Connected(es, y, x)
  }

  /** s is the least superset of start that no edge leaves. */
  ghost predicate IsClosure(es: set<Edge>, start: set<nat>, s: set<nat>) {
    && start <= s
    && Closed(es, s)
    && forall x {:trigger Reachable(es, start, x)} | x in s :: Reachable(es, start, x)
  }

  lemma Reflexive(es: set<Edge>, x: nat)
    ensures Connected(es, x, x)
  {
    assert PathBetween(es, [x], x, x);
  }

  lemma Step(es: set<Edge>, x: nat, y: nat)
    requires Adjacent(es, x, y)
    ensures Connected(es, x, y)
  {
    assert PathBetween(es, [x, y], x, y);
  }

  lemma Transitive(es: set<Edge>, x: nat, y: nat, z: nat)
    requires Connected(es, x, y) && Connected(es, y, z)
    ensures Connected(es, x, z)
  {
    var p :| PathBetween(es, p, x, y);
    var q :| PathBetween(es, q, y, z);
    var r := p + q[1..];
    forall i | 0 <= i < |r| - 1 ensures Adjacent(es, r[i], r[i + 1]) {
      if i < |p| - 1 {
        assert Adjacent(es, p[i], p[i + 1]);
      } else {
        assert Adjacent(es, q[i - |p| + 1], q[i - |p| + 2]);
      }
    }
    assert PathBetween(es, r, x, z);
  }

  lemma Tail(es: set<Edge>, p: seq<nat>, y: nat)
    requires |p| > 1 && PathBetween(es, p, p[0], y)
    ensures Adjacent(es, p[0], p[1]) && PathBetween(es, p[1..], p[1], y)
  {
    forall i | 0 <= i < |p| - 2 ensures Adjacent(es, p[1..][i], p[1..][i + 1]) {
      assert Adjacent(es, p[i + 1], p[i + 2]);
    }
  }

  lemma {:induction false} SymmetricPath(es: set<Edge>, p: seq<nat>, x: nat, y: nat)
    requires PathBetween(es, p, x, y)
    ensures Connected(es, y, x)
    decreases |p|
  {
    if |p| == 1 {
      Reflexive(es, x);
    } else {
      Tail(es, p, y);
      Step(es, p[1], p[0]);
      SymmetricPath(es, p[1..], p[1], y);
      Transitive(es, y, p[1], x);
    }
  }

  lemma Symmetric(es: set<Edge>, x: nat, y: nat)
    requires Connected(es, x, y)
    ensures Connected(es, y, x)
  {
    var p :| PathBetween(es, p, x, y);
    SymmetricPath(es, p, x, y);
  }

  lemma Monotone(es: set<Edge>, more: set<Edge>, x: nat, y: nat)
    requires es <= more && Connected(es, x, y)
    ensures Connected(more, x, y)
  {
    var p :| PathBetween(es, p, x, y);
    assert PathBetween(more, p, x, y) by {
      forall i | 0 <= i < |p| - 1 ensures Adjacent(more, p[i], p[i + 1]) {
        assert Adjacent(es, p[i], p[i + 1]);
      }
    }
  }

  /** Only an account at the end of some edge is connected to another one. */
  lemma ConnectedTouches(es: set<Edge>, x: nat, y: nat)
    requires Connected(es, x, y) && x != y
    ensures Touches(es, x) && Touches(es, y)
  {
    var p :| PathBetween(es, p, x, y);
    assert Adjacent(es, p[0], p[1]);
    var n := |p| - 2;
    assert Adjacent(es, p[n], p[n + 1]);
  }

  /** A path starting inside a closed set stays inside, and uses only edges
      that touch the set. */
  lemma {:induction false} StaysInside(es: set<Edge>, s: set<nat>, p: seq<nat>, x: nat, y: nat)
    requires Closed(es, s) && PathBetween(es, p, x, y) && x in s
    ensures y in s
    ensures Connected(EdgesOn(es, s), x, y)
    decreases |p|
  {
    var inner := EdgesOn(es, s);
    if |p| == 1 {
      Reflexive(inner, x);
    } else {
      Tail(es, p, y);
      assert p[1] in s && Adjacent(inner, p[0], p[1]);
      Step(inner, x, p[1]);
      StaysInside(es, s, p[1..], p[1], y);
      Transitive(inner, x, p[1], y);
    }
  }

  /** Inside a closed set, dropping the edges that do not touch it changes no
      connection. */
  lemma RestrictToClosed(es: set<Edge>, s: set<nat>, x: nat, y: nat)
    requires Closed(es, s) && x in s
    ensures Connected(es, x, y) <==> Connected(EdgesOn(es, s), x, y)
    ensures Connected(es, x, y) ==> y in s
  {
    if Connected(es, x, y) {
      var p :| PathBetween(es, p, x, y);
      StaysInside(es, s, p, x, y);
    }
    if Connected(EdgesOn(es, s), x, y) {
      Monotone(EdgesOn(es, s), es, x, y);
    }
  }

  lemma {:induction false} SplitAtEdge(es: set<Edge>, u: nat, v: nat, p: seq<nat>, x: nat, y: nat)
    requires PathBetween(es + {Edge(u, v)}, p, x, y)
    ensures Connected(es, x, y) || (Connected(es, x, u) && Connected(es, v, y))
            || (Connected(es, x, v) && Connected(es, u, y))
    decreases |p|
  {
    Reflexive(es, x);
    if |p| > 1 {
      var more := es + {Edge(u, v)};
      Tail(more, p, y);
      SplitAtEdge(es, u, v, p[1..], p[1], y);
      if Adjacent(es, x, p[1]) {
        Step(es, x, p[1]);
        if Connected(es, p[1], y) {
          Transitive(es, x, p[1], y);
        } else if Connected(es, p[1], u) && Connected(es, v, y) {
          Transitive(es, x, p[1], u);
        } else {
          Transitive(es, x, p[1], v);
        }
      } else {
        assert (x == u && p[1] == v) || (x == v && p[1] == u);
      }
    }
  }

  /** Adding one edge joins exactly the two components at its ends. */
  lemma AddEdge(es: set<Edge>, u: nat, v: nat, x: nat, y: nat)
    ensures Connected(es + {Edge(u, v)}, x, y) <==>
            (Connected(es, x, y) || (Connected(es, x, u) && Connected(es, v, y))
             || (Connected(es, x, v) && Connected(es, u, y)))
  {
    var more := es + {Edge(u, v)};
    if Connected(more, x, y) {
      var p :| PathBetween(more, p, x, y);
      SplitAtEdge(es, u, v, p, x, y);
    }
    Step(more, u, v);
    Step(more, v, u);
    if Connected(es, x, y) {
      Monotone(es, more, x, y);
    }
    if Connected(es, x, u) && Connected(es, v, y) {
      Monotone(es, more, x, u);
      Monotone(es, more, v, y);
      Transitive(more, x, u, v);
      Transitive(more, x, v, y);
    }
    if Connected(es, x, v) && Connected(es, u, y) {
      Monotone(es, more, x, v);
      Monotone(es, more, u, y);
      Transitive(more, x, v, u);
      Transitive(more, x, u, y);
    }
  }
}

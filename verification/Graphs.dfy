/** Finite directed graphs: paths, reachability, cycles, and the two search arguments the services
    use. A search may mark nodes in any order; what matters is which set it closes. */
module Graphs {

  type Graph<V(==)> = set<(V, V)>

  ghost predicate IsPath<V>(g: Graph<V>, p: seq<V>) {
    p != [] && forall i :: 0 <= i < |p| - 1 ==> (p[i], p[i + 1]) in g
  }

  ghost predicate PathFromTo<V>(g: Graph<V>, p: seq<V>, a: V, b: V) {
    IsPath(g, p) && p[0] == a && p[|p| - 1] == b
  }

  ghost predicate Reaches<V(!new)>(g: Graph<V>, a: V, b: V) {
    exists p :: PathFromTo(g, p, a, b)
  }

  ghost predicate Cyclic<V(!new)>(g: Graph<V>) {
    exists p :: IsPath(g, p) && |p| >= 2 && p[0] == p[|p| - 1]
  }

  ghost predicate ClosedUnder<V(!new)>(g: Graph<V>, s: set<V>) {
    forall x, y :: x in s && (x, y) in g ==> y in s
  }

  lemma {:induction false} PathStaysInside<V(!new)>(g: Graph<V>, s: set<V>, p: seq<V>)
    requires ClosedUnder(g, s) && IsPath(g, p) && p[0] in s
    ensures p[|p| - 1] in s
    decreases |p|
  {
    if |p| > 1 {
      assert (p[0], p[1]) in g;
      PathStaysInside(g, s, p[1..]);
    }
  }

  lemma ReachesItself<V(!new)>(g: Graph<V>, a: V)
    ensures Reaches(g, a, a)
  {
    assert PathFromTo(g, [a], a, a);
  }

  lemma ReachesNext<V(!new)>(g: Graph<V>, a: V, b: V, c: V)
    requires (a, b) in g && Reaches(g, b, c)
    ensures Reaches(g, a, c)
  {
    var p :| PathFromTo(g, p, b, c);
    assert PathFromTo(g, [a] + p, a, c);
  }

  /** A set found by search from a is the set of nodes reachable from a. */
  lemma SearchIsReachability<V(!new)>(g: Graph<V>, a: V, s: set<V>)
    requires a in s && ClosedUnder(g, s)
    requires forall x :: x in s ==> Reaches(g, a, x)
    ensures forall x :: x in s <==> Reaches(g, a, x)
  {
    forall x | Reaches(g, a, x) ensures x in s {
      var p :| PathFromTo(g, p, a, x);
      PathStaysInside(g, s, p);
    }
  }

  // ---- Adding an edge ----

  lemma {:induction false} PathAvoidsNewEdge<V(!new)>(g: Graph<V>, u: V, v: V, p: seq<V>)
    requires IsPath(g + {(u, v)}, p) && p[0] == v
    ensures IsPath(g, p) || Reaches(g, v, u)
    decreases |p|
  {
    if |p| > 1 {
      var q := p[..|p| - 1];
      PathAvoidsNewEdge(g, u, v, q);
      if IsPath(g, q) {
        assert (q[|q| - 1], p[|p| - 1]) in g + {(u, v)};
        if q[|q| - 1] == u {
          assert PathFromTo(g, q, v, u);
        }
      }
    }
  }

  /** An edge u -> v closes a cycle only if v already reaches u. */
  lemma AddEdgeKeepsAcyclic<V(!new)>(g: Graph<V>, u: V, v: V)
    requires !Cyclic(g) && !Reaches(g, v, u)
    ensures !Cyclic(g + {(u, v)})
  {
    var h := g + {(u, v)};
    if Cyclic(h) {
      var p :| IsPath(h, p) && |p| >= 2 && p[0] == p[|p| - 1];
      if i :| 0 <= i < |p| - 1 && (p[i], p[i + 1]) !in g {
        assert (p[i], p[i + 1]) in h;
        var around := p[i + 1..] + p[1..i + 1];
        assert PathFromTo(h, around, v, u);
        PathAvoidsNewEdge(g, u, v, around);
        assert PathFromTo(g, around, v, u);
      } else {
        assert IsPath(g, p);
      }
    }
  }

  // ---- Breadth-first levels ----

  /** depth maps every node found so far to its distance from root. */
  ghost predicate Distances<V(!new)>(g: Graph<V>, root: V, depth: map<V, nat>) {
    && root in depth && depth[root] == 0
    && forall x :: x in depth ==>
         && (exists p :: PathFromTo(g, p, root, x) && |p| == depth[x] + 1)
         && (forall p :: PathFromTo(g, p, root, x) ==> |p| >= depth[x] + 1)
  }

  /** Every node found at a depth below d has all its successors found. */
  ghost predicate ClosedBelow<V(!new)>(g: Graph<V>, depth: map<V, nat>, d: nat) {
    forall x, y :: x in depth && depth[x] < d && (x, y) in g ==> y in depth
  }

  lemma {:induction false} LevelsComplete<V(!new)>(g: Graph<V>, root: V, depth: map<V, nat>, d: nat, p: seq<V>)
    requires Distances(g, root, depth) && ClosedBelow(g, depth, d)
    requires IsPath(g, p) && p[0] == root && |p| <= d + 1
    ensures p[|p| - 1] in depth
    decreases |p|
  {
    if |p| > 1 {
      var q := p[..|p| - 1];
      LevelsComplete(g, root, depth, d, q);
      assert PathFromTo(g, q, root, q[|q| - 1]);
      assert (q[|q| - 1], p[|p| - 1]) in g;
    }
  }

  lemma StartLevels<V(!new)>(g: Graph<V>, root: V)
    ensures Distances(g, root, map[root := 0])
    ensures ClosedBelow(g, map[root := 0], 0)
  {
    assert PathFromTo(g, [root], root, root);
  }

  lemma AddToLevel<V(!new)>(g: Graph<V>, root: V, depth: map<V, nat>, x: V, y: V)
    requires Distances(g, root, depth) && x in depth && ClosedBelow(g, depth, depth[x])
    requires (x, y) in g && y !in depth
    ensures Distances(g, root, depth[y := depth[x] + 1])
  {
    var d := depth[x];
    var p :| PathFromTo(g, p, root, x) && |p| == d + 1;
    assert PathFromTo(g, p + [y], root, y);
    forall q | PathFromTo(g, q, root, y) ensures |q| >= d + 2 {
      if |q| <= d + 1 {
        LevelsComplete(g, root, depth, d, q);
      }
    }
  }

  lemma OpenLevelGrows<V(!new)>(g: Graph<V>, depth: map<V, nat>, d: nat, y: V, k: nat)
    requires ClosedBelow(g, depth, d) && k >= d && y !in depth
    ensures ClosedBelow(g, depth[y := k], d)
  {
  }

  /** When no level is left open, the nodes found are the nodes reachable. */
  lemma LevelsAreReachability<V(!new)>(g: Graph<V>, root: V, depth: map<V, nat>)
    requires Distances(g, root, depth) && ClosedUnder(g, depth.Keys)
    ensures forall x :: x in depth <==> Reaches(g, root, x)
  {
    SearchIsReachability(g, root, depth.Keys);
  }
}

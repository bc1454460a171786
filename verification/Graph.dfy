/** Directed graphs of numbered nodes, with the successors of a node in list order, and what
    can be reached in them. Build nodes, targets and include files are all such graphs. */
module Graph {
  type Node = nat
  type Graph = map<Node, seq<Node>>

  /** Every successor is a node of the graph. */
  ghost predicate Closed(g: Graph) {
    forall n, d :: n in g && d in g[n] ==> d in g
  }

  ghost predicate IsPath(g: Graph, p: seq<Node>) {
    p != [] && (forall i :: 0 <= i < |p| ==> p[i] in g) && forall i :: 0 < i < |p| ==> p[i] in g[p[i - 1]]
  }

  ghost predicate IsPathFrom(g: Graph, p: seq<Node>, a: Node, b: Node) {
    IsPath(g, p) && p[0] == a && p[|p| - 1] == b
  }

  ghost predicate Reaches(g: Graph, a: Node, b: Node) {
    exists p :: IsPathFrom(g, p, a, b)
  }

  /** Everything reachable from `a`, `a` included. */
  ghost function Reach(g: Graph, a: Node): set<Node> {
    set b | b in g && Reaches(g, a, b)
  }

  /** No path with an edge leads back to where it starts. */
  ghost predicate Acyclic(g: Graph) {
    forall p :: IsPath(g, p) && |p| > 1 ==> p[0] != p[|p| - 1]
  }

  lemma ReachSelf(g: Graph, a: Node)
    requires a in g
    ensures a in Reach(g, a)
  {
    assert IsPathFrom(g, [a], a, a);
  }

  lemma ReachTransitive(g: Graph, a: Node, b: Node, c: Node)
    requires b in Reach(g, a) && c in Reach(g, b)
    ensures c in Reach(g, a)
  {
    var p :| IsPathFrom(g, p, a, b);
    var q :| IsPathFrom(g, q, b, c);
    assert IsPathFrom(g, p + q[1..], a, c);
  }

  lemma ReachSuccessor(g: Graph, a: Node, d: Node)
    requires a in g && d in g[a] && d in g
    ensures d in Reach(g, a)
  {
    assert IsPathFrom(g, [a, d], a, d);
  }

  lemma ReachSubset(g: Graph, a: Node, b: Node)
    requires b in Reach(g, a)
    ensures Reach(g, b) <= Reach(g, a)
  {
    forall c | c in Reach(g, b) ensures c in Reach(g, a) {
      ReachTransitive(g, a, b, c);
    }
  }

  /** Whatever a node reaches it is itself, or a successor reaches it. */
  lemma ReachUnfold(g: Graph, a: Node, b: Node)
    requires b in Reach(g, a)
    ensures b == a || exists d :: d in g[a] && d in g && b in Reach(g, d)
    ensures a in g
  {
    var p :| IsPathFrom(g, p, a, b);
    if |p| > 1 {
      assert IsPathFrom(g, p[1..], p[1], b);
      assert p[1] in g[a];
    }
  }

  /** In an acyclic graph a successor never reaches back. */
  lemma AcyclicStep(g: Graph, a: Node, d: Node)
    requires Acyclic(g) && a in g && d in g[a] && d in g
    ensures a !in Reach(g, d)
    ensures Reach(g, d) < Reach(g, a)
  {
    if a in Reach(g, d) {
      var p :| IsPathFrom(g, p, d, a);
      assert IsPath(g, [a] + p);
      assert false;
    }
    ReachSuccessor(g, a, d);
    ReachSubset(g, a, d);
    ReachSelf(g, a);
  }

  /** A set with its successors contains all that its members reach. */
  lemma {:induction false} ClosedSetKeepsPaths(g: Graph, s: set<Node>, p: seq<Node>)
    requires forall n, d :: n in s && n in g && d in g[n] ==> d in s
    requires IsPath(g, p) && p[0] in s
    ensures p[|p| - 1] in s
  {
    if |p| > 1 {
      assert p[1] in g[p[0]];
      ClosedSetKeepsPaths(g, s, p[1..]);
    }
  }

  lemma ClosedSetContainsReach(g: Graph, s: set<Node>, a: Node)
    requires forall n, d :: n in s && n in g && d in g[n] ==> d in s
    requires a in s
    ensures Reach(g, a) <= s
  {
    forall b | b in Reach(g, a) ensures b in s {
      var p :| IsPathFrom(g, p, a, b);
      ClosedSetKeepsPaths(g, s, p);
    }
  }

  /** An order in which every node comes after its successors rules cycles out. */
  lemma {:induction false} RankedPathFalls(g: Graph, rank: map<Node, nat>, p: seq<Node>)
    requires IsPath(g, p)
    requires forall n :: n in g ==> n in rank
    requires forall n, d :: n in g && d in g[n] && d in g ==> rank[d] < rank[n]
    ensures |p| > 1 ==> rank[p[|p| - 1]] < rank[p[0]]
  {
    if |p| > 1 {
      assert p[1] in g[p[0]];
      RankedPathFalls(g, rank, p[1..]);
    }
  }

  lemma RankedIsAcyclic(g: Graph, rank: map<Node, nat>)
    requires forall n :: n in g ==> n in rank
    requires forall n, d :: n in g && d in g[n] && d in g ==> rank[d] < rank[n]
    ensures Acyclic(g)
  {
    forall p | IsPath(g, p) && |p| > 1 ensures p[0] != p[|p| - 1] {
      RankedPathFalls(g, rank, p);
    }
  }
}

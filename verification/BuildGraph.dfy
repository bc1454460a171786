/** build, `_validate_graph` and `Executor._closure`: cycle detection and the set of nodes a
    build needs. */
module BuildGraph {
  import opened Graph

  // ---------------------------------------------------------------- cycle detection

  datatype Mark = Active | Done

  ghost predicate Marked(g: Graph, state: map<Node, Mark>, rank: map<Node, nat>, stack: seq<Node>) {
    && state.Keys <= g.Keys
    && (forall n :: n in state && state[n] == Active <==> n in stack)
    && (forall n :: n in rank <==> n in state && state[n] == Done)
    && (forall n, d :: n in rank && d in g[n] ==> d in rank && rank[d] < rank[n])
  }

  class Validator {
    const g: Graph
    var state: map<Node, Mark>
    /** The order in which nodes were finished. */
    ghost var rank: map<Node, nat>

    constructor (g: Graph)
      ensures this.g == g && state == map[] && rank == map[]
    {
      this.g, state, rank := g, map[], map[];
    }

    /** The active nodes are those of the chain of calls, and every finished node was finished
        after all its dependencies. */
    ghost predicate Valid(stack: seq<Node>)
      reads this
    {
      Closed(g) && (stack != [] ==> IsPath(g, stack)) && Marked(g, state, rank, stack)
    }

    /** `visit`, below the chain of calls `stack`; a raised error is the result false. */
    method Visit(node: Node, ghost stack: seq<Node>) returns (ok: bool)
      requires Valid(stack) && node in g
      requires stack != [] ==> node in g[stack[|stack| - 1]]
      modifies this
      ensures ok ==> Valid(stack) && node in rank
      ensures ok ==> state.Keys >= old(state.Keys) && rank.Keys >= old(rank.Keys)
      ensures !ok ==> !Acyclic(g)
      decreases g.Keys - state.Keys
    {
      hide IsPath, Acyclic, Marked;
      MarkedMeans(g, state, rank, stack, node);
      if node in state && state[node] == Active {
        ghost var i :| 0 <= i < |stack| && stack[i] == node;
        ClosesCycle(g, stack, i, node);
        return false;
      }
      if node in state && state[node] == Done {
        return true;
      }
      Enter(node, stack);
      ghost var below := stack + [node];
      var deps := g[node];
      for k := 0 to |deps|
        invariant Valid(below) && state.Keys >= old(state.Keys) + {node} && rank.Keys >= old(rank.Keys)
        invariant forall l :: 0 <= l < k ==> deps[l] in rank
      {
        ok := Visit(deps[k], below);
        if !ok {
          return;
        }
      }
      Leave(node, stack);
      ok := true;
    }

    method Enter(node: Node, ghost stack: seq<Node>)
      requires Valid(stack) && node in g && node !in state
      requires stack != [] ==> node in g[stack[|stack| - 1]]
      modifies this`state
      ensures Valid(stack + [node]) && node !in stack
      ensures state.Keys == old(state.Keys) + {node}
    {
      hide IsPath, Closed, Marked;
      PathGrows(g, stack, node);
      MarkedEntered(g, state, rank, stack, node);
      state := state[node := Active];
    }

    method Leave(node: Node, ghost stack: seq<Node>)
      requires Valid(stack + [node]) && node !in stack && node in g
      requires forall d :: d in g[node] ==> d in rank
      modifies this
      ensures Valid(stack) && node in rank
      ensures state.Keys == old(state.Keys) && rank.Keys == old(rank.Keys) + {node}
    {
      hide IsPath, Closed, Marked;
      PathShrinks(g, stack, node);
      ghost var top := AboveAll(rank);
      MarkedLeft(g, state, rank, stack, node, top);
      state := state[node := Done];
      rank := rank[node := top];
    }

    /** `_validate_graph`: no error is raised exactly when the graph has no cycle. */
    method ValidateGraph(nodes: seq<Node>) returns (ok: bool)
      requires Closed(g) && state == map[] && rank == map[]
      requires forall n :: n in nodes <==> n in g
      modifies this
      ensures ok <==> Acyclic(g)
    {
      for k := 0 to |nodes|
        invariant Valid([])
        invariant forall l :: 0 <= l < k ==> nodes[l] in rank
      {
        ok := Visit(nodes[k], []);
        if !ok {
          return;
        }
      }
      RankedIsAcyclic(g, rank);
      ok := true;
    }
  }

  lemma MarkedMeans(g: Graph, state: map<Node, Mark>, rank: map<Node, nat>, stack: seq<Node>, node: Node)
    requires Marked(g, state, rank, stack)
    ensures node in state && state[node] == Active <==> node in stack
    ensures node in rank <==> node in state && state[node] == Done
    ensures state.Keys <= g.Keys
  {
  }

  lemma MarkedEntered(g: Graph, state: map<Node, Mark>, rank: map<Node, nat>, stack: seq<Node>, node: Node)
    requires Marked(g, state, rank, stack) && node in g && node !in state
    ensures Marked(g, state[node := Active], rank, stack + [node]) && node !in stack
  {
  }

  /** A finished node comes after all that it depends on. */
  lemma MarkedLeft(g: Graph, state: map<Node, Mark>, rank: map<Node, nat>, stack: seq<Node>, node: Node, top: nat)
    requires Marked(g, state, rank, stack + [node]) && node !in stack && node in g
    requires (forall d :: d in g[node] ==> d in rank) && forall n :: n in rank ==> rank[n] < top
    ensures Marked(g, state[node := Done], rank[node := top], stack) && node in state && node !in rank
  {
    assert node in stack + [node];
  }

  lemma PathGrows(g: Graph, stack: seq<Node>, node: Node)
    requires node in g && (stack != [] ==> IsPath(g, stack) && node in g[stack[|stack| - 1]])
    ensures IsPath(g, stack + [node])
  {
  }

  lemma PathShrinks(g: Graph, stack: seq<Node>, node: Node)
    requires IsPath(g, stack + [node])
    ensures stack != [] ==> IsPath(g, stack)
  {
    var all := stack + [node];
    assert forall i :: 0 <= i < |stack| ==> stack[i] == all[i];
  }

  lemma ClosesCycle(g: Graph, stack: seq<Node>, i: nat, node: Node)
    requires i < |stack| && stack[i] == node && IsPath(g, stack) && node in g[stack[|stack| - 1]]
    ensures !Acyclic(g)
  {
    assert IsPath(g, stack[i..] + [node]);
  }

  ghost function AboveAll(rank: map<Node, nat>): (top: nat)
    ensures forall n :: n in rank ==> rank[n] < top
  {
    if rank == map[] then 0
    else
      var n :| n in rank;
      var rest := map m | m in rank && m != n :: rank[m];
      assert rest.Keys == rank.Keys - {n};
      var t := AboveAll(rest);
      assert forall m :: m in rank && m != n ==> rank[m] == rest[m];
      if rank[n] < t then t else rank[n] + 1
  }

  // ---------------------------------------------------------------- the needed nodes

  ghost predicate ReachedFrom(g: Graph, roots: seq<Node>, n: Node) {
    exists r :: r in roots && n in Reach(g, r)
  }

  /** `_closure`: everything reachable from the roots. */
  method NeededNodes(g: Graph, roots: seq<Node>) returns (out: set<Node>)
    requires Closed(g) && forall r :: r in roots ==> r in g
    ensures forall n :: n in out <==> ReachedFrom(g, roots, n)
    ensures out <= g.Keys && forall n, d :: n in out && d in g[n] ==> d in out
  {
    hide ReachedFrom;
    out := {};
    var stack := roots;
    RootsReached(g, roots);
    while stack != []
      invariant out <= g.Keys && forall n :: n in stack ==> n in g
      invariant forall n :: n in out || n in stack ==> ReachedFrom(g, roots, n)
      invariant forall r :: r in roots ==> r in out || r in stack
      invariant forall n, d :: n in out && d in g[n] ==> d in out || d in stack
      decreases g.Keys - out, |stack|
    {
      var node := stack[|stack| - 1];
      ghost var was := stack;
      stack := stack[..|stack| - 1];
      assert forall n :: n in was ==> n in stack || n == node;
      if node !in out {
        SuccessorsReached(g, roots, node);
        out := out + {node};
        stack := stack + g[node];
      }
    }
    AllReachedAreIn(g, roots, out);
  }

  lemma RootsReached(g: Graph, roots: seq<Node>)
    requires forall r :: r in roots ==> r in g
    ensures forall r :: r in roots ==> ReachedFrom(g, roots, r)
  {
    forall r | r in roots ensures ReachedFrom(g, roots, r) {
      ReachSelf(g, r);
    }
  }

  lemma SuccessorsReached(g: Graph, roots: seq<Node>, node: Node)
    requires Closed(g) && node in g && ReachedFrom(g, roots, node)
    ensures forall d :: d in g[node] ==> ReachedFrom(g, roots, d)
  {
    hide Reach;
    var r :| r in roots && node in Reach(g, r);
    forall d | d in g[node] ensures ReachedFrom(g, roots, d) {
      ReachSuccessor(g, node, d);
      ReachTransitive(g, r, node, d);
    }
  }

  lemma AllReachedAreIn(g: Graph, roots: seq<Node>, out: set<Node>)
    requires forall r :: r in roots ==> r in out
    requires out <= g.Keys && forall n, d :: n in out && d in g[n] ==> d in out
    ensures forall n :: ReachedFrom(g, roots, n) ==> n in out
  {
    hide Reach;
    forall n | ReachedFrom(g, roots, n) ensures n in out {
      var r :| r in roots && n in Reach(g, r);
      ClosedSetContainsReach(g, out, r);
    }
  }
}

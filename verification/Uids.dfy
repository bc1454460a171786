/** build, `calculate_uids`: the content address of every node. */
module Uids {
  import opened Graph
  import opened Artifacts

  /** `node` lies strictly below `a`. */
  ghost predicate StrictlyAbove(g: Graph, a: Node, node: Node) {
    a in g && exists d :: d in g[a] && d in g && node in Reach(g, d)
  }

  /** Every entry is right, with all sources there, and so are the entries below it. */
  ghost predicate Table(p: Project, sources: Sources, uids: map<Node, Uid>)
    requires ValidProject(p)
  {
    && (forall n :: n in uids ==> n in p.g && uids[n] == UidOf(p, sources, n) && SourcesThere(p, sources, n))
    && (forall n, d :: n in uids && d in p.g[n] ==> d in uids)
  }

  lemma TableKnows(p: Project, sources: Sources, uids: map<Node, Uid>, n: Node)
    requires ValidProject(p) && Table(p, sources, uids) && n in uids
    ensures n in p.g && uids[n] == UidOf(p, sources, n) && SourcesThere(p, sources, n)
  {
  }

  lemma TableGrows(p: Project, sources: Sources, uids: map<Node, Uid>, n: Node, u: Uid)
    requires ValidProject(p) && Table(p, sources, uids) && n in p.g
    requires u == UidOf(p, sources, n) && SourcesThere(p, sources, n)
    requires forall d :: d in p.g[n] ==> d in uids
    ensures Table(p, sources, uids[n := u])
  {
    hide SourcesThere, Acyclic, Closed, UidOf;
  }

  class UidTable {
    const p: Project
    const sources: Sources
    var uids: map<Node, Uid>
    var active: set<Node>

    constructor (p: Project, sources: Sources)
      requires ValidProject(p)
      ensures this.p == p && this.sources == sources && Valid() && uids == map[] && active == {}
    {
      this.p, this.sources, uids, active := p, sources, map[], {};
    }

    ghost predicate Valid()
      reads this
    {
      ValidProject(p) && Table(p, sources, uids)
    }

    /** `calc`: a raised error is the result false. It is raised exactly when a declared source
        of the node or of anything below it is missing. */
    method Calc(node: Node) returns (ok: bool)
      requires Valid() && node in p.g
      requires forall a :: a in active ==> StrictlyAbove(p.g, a, node)
      modifies this
      ensures Valid() && uids.Keys >= old(uids.Keys)
      ensures ok <==> SourcesThere(p, sources, node)
      ensures ok ==> node in uids && active == old(active)
      decreases Reach(p.g, node)
    {
      hide Reach, Acyclic, StrictlyAbove, UidOf, UidsOf, SourcesThere, Hashed, Table;
      if node in uids {
        TableKnows(p, sources, uids, node);
        return true;
      }
      NotAboveItself(p.g, node);
      assert node !in active;
      active := active + {node};
      var deps := p.g[node];
      var depUids: seq<Uid> := [];
      UidsGrow(p, sources, node, 0);
      for k := 0 to |deps|
        invariant Valid() && uids.Keys >= old(uids.Keys) && active == old(active) + {node}
        invariant depUids == UidsOf(p, sources, node, k)
        invariant forall i :: 0 <= i < k ==> SourcesThere(p, sources, deps[i]) && deps[i] in uids
      {
        AboveDependency(p.g, active, node, deps[k]);
        AcyclicStep(p.g, node, deps[k]);
        ok := Calc(deps[k]);
        SourcesAtNode(p, sources, node);
        if !ok {
          return;
        }
        UidsGrow(p, sources, node, k);
        TableKnows(p, sources, uids, deps[k]);
        depUids := depUids + [uids[deps[k]]];
      }
      UidsGrow(p, sources, node, |deps|);
      SourcesAtNode(p, sources, node);
      var inputs;
      ok, inputs := HashInputs(sources, p.inputs[node]);
      if !ok {
        return;
      }
      UidIs(p, sources, node);
      TableGrows(p, sources, uids, node, Uid(p.recipes[node], depUids, inputs));
      uids := uids[node := Uid(p.recipes[node], depUids, inputs)];
      active := active - {node};
    }
  }

  /** `source_hash` of every declared source. */
  method HashInputs(sources: Sources, paths: seq<Path>) returns (ok: bool, inputs: seq<Input>)
    ensures ok <==> forall path :: path in paths ==> path in sources
    ensures ok ==> |inputs| == |paths|
    ensures ok ==> forall j :: 0 <= j < |paths| ==> inputs[j] == (paths[j], Md5(sources[paths[j]]))
    ensures ok ==> inputs == Hashed(sources, paths)
  {
    inputs := [];
    for i := 0 to |paths|
      invariant |inputs| == i && forall j :: 0 <= j < i ==> paths[j] in sources
      invariant forall j :: 0 <= j < i ==> inputs[j] == (paths[j], Md5(sources[paths[j]]))
    {
      if paths[i] !in sources {
        return false, inputs;
      }
      inputs := inputs + [(paths[i], Md5(sources[paths[i]]))];
    }
    ok := true;
  }

  lemma NotAboveItself(g: Graph, node: Node)
    requires Acyclic(g)
    ensures !StrictlyAbove(g, node, node)
  {
    hide Reach, Acyclic;
    if StrictlyAbove(g, node, node) {
      var d :| d in g[node] && d in g && node in Reach(g, d);
      AcyclicStep(g, node, d);
    }
  }

  lemma AboveDependency(g: Graph, active: set<Node>, node: Node, dep: Node)
    requires Closed(g) && node in g && dep in g[node]
    requires forall a :: a in active && a != node ==> StrictlyAbove(g, a, node)
    ensures forall a :: a in active ==> StrictlyAbove(g, a, dep)
  {
    hide Reach;
    ReachSelf(g, dep);
    ReachSuccessor(g, node, dep);
    forall a | a in active ensures StrictlyAbove(g, a, dep) {
      if a != node {
        var d :| d in g[a] && d in g && node in Reach(g, d);
        ReachTransitive(g, d, node, dep);
      }
    }
  }

  lemma UidsGrow(p: Project, sources: Sources, n: Node, k: nat)
    requires ValidProject(p) && n in p.g && k <= |p.g[n]|
    ensures UidsOf(p, sources, n, 0) == []
    ensures k < |p.g[n]| ==>
              UidsOf(p, sources, n, k + 1) == UidsOf(p, sources, n, k) + [UidOf(p, sources, p.g[n][k])]
  {
    hide Reach, Acyclic, UidOf;
  }

  lemma UidIs(p: Project, sources: Sources, n: Node)
    requires ValidProject(p) && n in p.g
    ensures UidOf(p, sources, n)
         == Uid(p.recipes[n], UidsOf(p, sources, n, |p.g[n]|), Hashed(sources, p.inputs[n]))
  {
    hide Reach, Acyclic, UidsOf;
  }

  /** The sources below a node are its own and those below its dependencies. */
  lemma SourcesAtNode(p: Project, sources: Sources, n: Node)
    requires ValidProject(p) && n in p.g
    ensures SourcesThere(p, sources, n)
       <==> HasSources(p, sources, n) && forall d :: d in p.g[n] ==> SourcesThere(p, sources, d)
  {
    hide Reach, Acyclic, HasSources;
    ReachSelf(p.g, n);
    if SourcesThere(p, sources, n) {
      forall d | d in p.g[n] ensures SourcesThere(p, sources, d) {
        ReachSuccessor(p.g, n, d);
        ReachSubset(p.g, n, d);
      }
    }
    if HasSources(p, sources, n) && forall d :: d in p.g[n] ==> SourcesThere(p, sources, d) {
      forall m | m in Reach(p.g, n) ensures HasSources(p, sources, m) {
        ReachUnfold(p.g, n, m);
      }
    }
  }

  /** All the uids are those of the sources as they are. */
  ghost predicate RightUids(p: Project, sources: Sources, uidOf: map<Node, Uid>) {
    ValidProject(p) && forall n :: n in uidOf ==> n in p.g && uidOf[n] == UidOf(p, sources, n)
  }

  /** The dependencies of a uid are the uids of the dependencies. */
  lemma DependenciesOfUid(p: Project, sources: Sources, n: Node, v: Uid) returns (d: Node)
    requires ValidProject(p) && n in p.g && v in UidOf(p, sources, n).deps
    ensures d in p.g[n] && v == UidOf(p, sources, d)
  {
    hide Reach, Acyclic, UidsOf;
    UidIs(p, sources, n);
    var us := UidsOf(p, sources, n, |p.g[n]|);
    if |p.g[n]| > 0 {
      UidsAt(p, sources, n, |p.g[n]|, 0);
    } else {
      UidsGrow(p, sources, n, 0);
    }
    var i :| 0 <= i < |us| && us[i] == v;
    UidsAt(p, sources, n, |p.g[n]|, i);
    d := p.g[n][i];
  }

  // ---------------------------------------------------------------- what an edit does to a uid

  /** Everything that the node and all below it declare is the same. */
  ghost predicate SameBelow(p: Project, s: Sources, t: Sources, n: Node)
    requires ValidProject(p)
  {
    forall m :: m in Reach(p.g, n) ==> SameAt(p, s, t, m)
  }

  ghost predicate SameAt(p: Project, s: Sources, t: Sources, m: Node)
    requires ValidProject(p)
  {
    m in p.g ==> forall path :: path in p.inputs[m] && path in s && path in t ==> s[path] == t[path]
  }

  lemma SameBelowIs(p: Project, s: Sources, t: Sources, n: Node)
    requires ValidProject(p) && n in p.g
    ensures SameBelow(p, s, t, n) <==> SameAt(p, s, t, n) && forall d :: d in p.g[n] ==> SameBelow(p, s, t, d)
  {
    hide Reach, Acyclic, SameAt;
    ReachSelf(p.g, n);
    if SameBelow(p, s, t, n) {
      forall d | d in p.g[n] ensures SameBelow(p, s, t, d) {
        ReachSuccessor(p.g, n, d);
        ReachSubset(p.g, n, d);
      }
    }
    if SameAt(p, s, t, n) && forall d :: d in p.g[n] ==> SameBelow(p, s, t, d) {
      forall m | m in Reach(p.g, n) ensures SameAt(p, s, t, m) {
        ReachUnfold(p.g, n, m);
      }
    }
  }

  /** With all sources there, before and after an edit, the uid of a node stays the same if and only
      if no source that it or anything below it declares has changed. */
  lemma {:induction false} UidStaysIff(p: Project, s: Sources, t: Sources, n: Node)
    requires ValidProject(p) && n in p.g && SourcesThere(p, s, n) && SourcesThere(p, t, n)
    ensures UidOf(p, s, n) == UidOf(p, t, n)
       <==> forall m, path :: m in Reach(p.g, n) && path in p.inputs[m] ==> s[path] == t[path]
  {
    hide Reach, Acyclic, UidOf, SameBelow, HasSources;
    UidIsSameIff(p, s, t, n);
    BelowMeans(p, s, t, n);
  }

  lemma BelowMeans(p: Project, s: Sources, t: Sources, n: Node)
    requires ValidProject(p) && n in p.g && SourcesThere(p, s, n) && SourcesThere(p, t, n)
    ensures forall m, path :: m in Reach(p.g, n) && m in p.g && path in p.inputs[m] ==> path in s && path in t
    ensures forall m :: m in Reach(p.g, n) ==> m in p.g
    ensures SameBelow(p, s, t, n)
       <==> forall m, path :: m in Reach(p.g, n) && path in p.inputs[m] ==> s[path] == t[path]
  {
    hide Acyclic, Closed;
    forall m | m in Reach(p.g, n) ensures HasSources(p, s, m) && HasSources(p, t, m) {
    }
  }

  lemma {:induction false} UidIsSameIff(p: Project, s: Sources, t: Sources, n: Node)
    requires ValidProject(p) && n in p.g && SourcesThere(p, s, n) && SourcesThere(p, t, n)
    ensures UidOf(p, s, n) == UidOf(p, t, n) <==> SameBelow(p, s, t, n)
    decreases Reach(p.g, n)
  {
    hide Reach, Acyclic, UidsOf, SameBelow, SameAt, Hashed, SourcesThere;
    UidIs(p, s, n);
    UidIs(p, t, n);
    SameBelowIs(p, s, t, n);
    SourcesAtNode(p, s, n);
    SourcesAtNode(p, t, n);
    HashesSameIff(p, s, t, n);
    forall k | 0 <= k < |p.g[n]|
      ensures UidOf(p, s, p.g[n][k]) == UidOf(p, t, p.g[n][k]) <==> SameBelow(p, s, t, p.g[n][k])
    {
      AcyclicStep(p.g, n, p.g[n][k]);
      UidIsSameIff(p, s, t, p.g[n][k]);
    }
    UidsSameIff(p, s, t, n, |p.g[n]|);
  }

  lemma HashesSameIff(p: Project, s: Sources, t: Sources, n: Node)
    requires ValidProject(p) && n in p.g && HasSources(p, s, n) && HasSources(p, t, n)
    ensures Hashed(s, p.inputs[n]) == Hashed(t, p.inputs[n]) <==> SameAt(p, s, t, n)
  {
    hide Reach, Acyclic;
    var paths := p.inputs[n];
    if Hashed(s, paths) == Hashed(t, paths) {
      forall path | path in paths ensures s[path] == t[path] {
        var i :| 0 <= i < |paths| && paths[i] == path;
        assert Hashed(s, paths)[i] == Hashed(t, paths)[i];
      }
    }
  }

  lemma {:induction false} UidsSameIff(p: Project, s: Sources, t: Sources, n: Node, k: nat)
    requires ValidProject(p) && n in p.g && k <= |p.g[n]|
    ensures UidsOf(p, s, n, k) == UidsOf(p, t, n, k)
       <==> forall i :: 0 <= i < k ==> UidOf(p, s, p.g[n][i]) == UidOf(p, t, p.g[n][i])
    decreases k
  {
    hide Reach, Acyclic, UidOf;
    if k > 0 {
      UidsSameIff(p, s, t, n, k - 1);
      UidsGrow(p, s, n, k - 1);
      UidsGrow(p, t, n, k - 1);
      SameLast(UidsOf(p, s, n, k - 1), UidsOf(p, t, n, k - 1), UidOf(p, s, p.g[n][k - 1]), UidOf(p, t, p.g[n][k - 1]));
    }
  }

  lemma SameLast(a: seq<Uid>, b: seq<Uid>, x: Uid, y: Uid)
    ensures a + [x] == b + [y] <==> a == b && x == y
  {
    if a + [x] == b + [y] {
      assert (a + [x])[..|a + [x]| - 1] == a && (b + [y])[..|b + [y]| - 1] == b;
      assert (a + [x])[|a|] == x && (b + [y])[|b|] == y;
    }
  }

  /** `calculate_uids`: every root's uid, or an error when a source is missing. */
  method CalculateUids(p: Project, sources: Sources, roots: seq<Node>) returns (ok: bool, uids: map<Node, Uid>)
    requires ValidProject(p) && forall r :: r in roots ==> r in p.g
    ensures ok <==> forall r :: r in roots ==> SourcesThere(p, sources, r)
    ensures ok ==> forall r :: r in roots ==> Reach(p.g, r) <= uids.Keys
    ensures forall n :: n in uids ==> n in p.g && uids[n] == UidOf(p, sources, n)
  {
    hide Acyclic, UidOf, SourcesThere, Reach;
    var table := new UidTable(p, sources);
    uids := map[];
    for k := 0 to |roots|
      invariant table.Valid() && table.active == {} && table.p == p && table.sources == sources
      invariant forall i :: 0 <= i < k ==> SourcesThere(p, sources, roots[i]) && roots[i] in table.uids
    {
      ok := table.Calc(roots[k]);
      if !ok {
        return;
      }
    }
    uids := table.uids;
    forall r | r in roots ensures Reach(p.g, r) <= uids.Keys {
      ClosedSetContainsReach(p.g, uids.Keys, r);
    }
    ok := true;
  }
}

/** build, `_link_libraries`: the libraries of a link line, in the order the linker needs. */
module Link {
  import opened Graph

  // ---------------------------------------------------------------- lists without repetition

  function Without(s: seq<Node>, drop: set<Node>): seq<Node> {
    if s == [] then []
    else Without(s[..|s| - 1], drop) + if s[|s| - 1] in drop then [] else [s[|s| - 1]]
  }

  /** The list with its first occurrence of `x` taken out. */
  function Remove(s: seq<Node>, x: Node): seq<Node> {
    if s == [] then [] else if s[0] == x then s[1..] else [s[0]] + Remove(s[1..], x)
  }

  predicate Distinct(s: seq<Node>) {
    forall i, j :: 0 <= i < j < |s| ==> s[i] != s[j]
  }

  lemma {:induction false} WithoutMembers(s: seq<Node>, drop: set<Node>)
    ensures forall x :: x in Without(s, drop) <==> x in s && x !in drop
  {
    if s != [] {
      WithoutMembers(s[..|s| - 1], drop);
    }
  }

  lemma {:induction false} WithoutDistinct(s: seq<Node>, drop: set<Node>)
    requires Distinct(s)
    ensures Distinct(Without(s, drop))
  {
    if s != [] {
      WithoutDistinct(s[..|s| - 1], drop);
      WithoutMembers(s[..|s| - 1], drop);
    }
  }

  lemma {:induction false} WithoutAppend(a: seq<Node>, b: seq<Node>, drop: set<Node>)
    ensures Without(a + b, drop) == Without(a, drop) + Without(b, drop)
  {
    if b == [] {
      assert a + b == a;
    } else {
      assert (a + b)[..|a + b| - 1] == a + b[..|b| - 1];
      WithoutAppend(a, b[..|b| - 1], drop);
    }
  }

  lemma {:induction false} WithoutTwice(s: seq<Node>, a: set<Node>, b: set<Node>)
    ensures Without(Without(s, a), b) == Without(s, a + b)
  {
    if s != [] {
      var p, x := s[..|s| - 1], s[|s| - 1];
      WithoutTwice(p, a, b);
      if x in a {
        assert Without(s, a) == Without(p, a);
      } else {
        assert Without(s, a) == Without(p, a) + [x];
        WithoutAppend(Without(p, a), [x], b);
        assert [x][..0] == [];
      }
    }
  }

  lemma {:induction false} WithoutNothing(s: seq<Node>, drop: set<Node>)
    requires forall x :: x in s ==> x !in drop
    ensures Without(s, drop) == s
  {
    if s != [] {
      WithoutNothing(s[..|s| - 1], drop);
    }
  }

  lemma WithoutOne(y: Node, drop: set<Node>)
    ensures Without([y], drop) == if y in drop then [] else [y]
  {
    assert [y][..0] == [];
  }

  lemma {:induction false} RemoveIsWithout(s: seq<Node>, x: Node)
    requires Distinct(s)
    ensures Remove(s, x) == Without(s, {x})
  {
    if s != [] {
      var h, t := [s[0]], s[1..];
      assert h + t == s;
      WithoutAppend(h, t, {x});
      WithoutOne(s[0], {x});
      if s[0] == x {
        WithoutNothing(t, {x});
      } else {
        RemoveIsWithout(t, x);
      }
    }
  }

  // ---------------------------------------------------------------- targets

  datatype Targets = Targets(deps: Graph, enabled: set<Node>, library: set<Node>)

  /** A disabled target is skipped together with what it leads to. */
  function Followed(ts: Targets): Graph {
    map n | n in ts.deps :: if n in ts.enabled then ts.deps[n] else []
  }

  /** The enabled libraries reachable from `t` through enabled targets. */
  ghost function Libraries(ts: Targets, t: Node): set<Node> {
    Reach(Followed(ts), t) * ts.enabled * ts.library
  }

  function Own(ts: Targets, t: Node): set<Node> {
    {t} * ts.enabled * ts.library
  }

  ghost predicate ValidTargets(ts: Targets) {
    Closed(ts.deps) && Acyclic(Followed(ts))
  }

  /** No library in the list is reachable from a library behind it. */
  ghost predicate Sorted(g: Graph, s: seq<Node>) {
    forall i, j :: 0 <= i < j < |s| ==> s[i] !in Reach(g, s[j])
  }

  lemma {:induction false} WithoutSorted(g: Graph, s: seq<Node>, drop: set<Node>)
    requires Sorted(g, s)
    ensures Sorted(g, Without(s, drop))
  {
    if s != [] {
      hide Reach;
      var p, x := s[..|s| - 1], s[|s| - 1];
      WithoutSorted(g, p, drop);
      WithoutMembers(p, drop);
      var kept := Without(p, drop);
      forall i | 0 <= i < |kept| ensures kept[i] !in Reach(g, x) {
        assert kept[i] in p;
      }
    }
  }

  /** Behind what is left of a sorted list, the sorted libraries of one more target. */
  lemma Merge(ts: Targets, before: seq<Node>, t: Node, suffix: seq<Node>)
    requires ValidTargets(ts) && t in ts.deps
    requires forall x :: x in before ==> x in ts.enabled && x in ts.library
    requires Distinct(before) && Sorted(Followed(ts), before)
    requires Distinct(suffix) && Sorted(Followed(ts), suffix)
    requires forall x :: x in suffix <==> x in Libraries(ts, t)
    ensures var out := Without(before, Libraries(ts, t)) + suffix;
            && Distinct(out) && Sorted(Followed(ts), out)
            && forall x :: x in out <==> x in before || x in Libraries(ts, t)
  {
    hide Reach;
    var g, kept := Followed(ts), Without(before, Libraries(ts, t));
    WithoutMembers(before, Libraries(ts, t));
    WithoutDistinct(before, Libraries(ts, t));
    WithoutSorted(g, before, Libraries(ts, t));
    forall i, j | 0 <= i < |kept| && 0 <= j < |suffix|
      ensures kept[i] !in Reach(g, suffix[j]) && kept[i] != suffix[j]
    {
      assert kept[i] in kept && suffix[j] in suffix;
      if kept[i] in Reach(g, suffix[j]) {
        ReachTransitive(g, t, suffix[j], kept[i]);
      }
    }
  }

  /** The libraries of a target are itself, if it is one, and those of its dependencies. */
  lemma LibrariesUnfold(ts: Targets, t: Node)
    requires ValidTargets(ts) && t in ts.deps && t in ts.enabled
    ensures forall x :: x in Libraries(ts, t) <==> x in Own(ts, t) || InSome(ts, ts.deps[t], x)
  {
    hide Reach;
    var g := Followed(ts);
    ReachSelf(g, t);
    forall x | x in Libraries(ts, t) && x != t
      ensures InSome(ts, ts.deps[t], x)
    {
      ReachUnfold(g, t, x);
      var d :| d in g[t] && d in g && x in Reach(g, d);
      assert x in Libraries(ts, d);
    }
    forall x | InSome(ts, ts.deps[t], x)
      ensures x in Libraries(ts, t)
    {
      var k :| 0 <= k < |ts.deps[t]| && x in Libraries(ts, ts.deps[t][k]);
      ReachSuccessor(g, t, ts.deps[t][k]);
      ReachTransitive(g, t, ts.deps[t][k], x);
    }
  }

  /** A way along enabled targets only. */
  ghost predicate EnabledWay(ts: Targets, p: seq<Node>, t: Node, x: Node) {
    IsPathFrom(ts.deps, p, t, x) && forall k :: 0 <= k < |p| ==> p[k] in ts.enabled
  }

  /** The libraries of a target are those that such a way leads to from it. */
  lemma LibrariesAre(ts: Targets, t: Node, x: Node)
    requires ValidTargets(ts) && t in ts.deps
    ensures x in Libraries(ts, t) <==> x in ts.library && exists p :: EnabledWay(ts, p, t, x)
  {
    var g := Followed(ts);
    if x in Libraries(ts, t) {
      var p :| IsPathFrom(g, p, t, x);
      forall k | 0 <= k < |p| ensures p[k] in ts.enabled {
        if k + 1 < |p| {
          assert p[k + 1] in g[p[k]];
        }
      }
      assert EnabledWay(ts, p, t, x);
    }
    if x in ts.library {
      if p :| EnabledWay(ts, p, t, x) {
        assert IsPathFrom(g, p, t, x);
        assert p[|p| - 1] == x;
      }
    }
  }

  lemma DisabledHasNone(ts: Targets, t: Node)
    requires t in ts.deps && t !in ts.enabled
    ensures Libraries(ts, t) == {}
  {
    forall x | x in Libraries(ts, t) ensures false {
      ReachUnfold(Followed(ts), t, x);
    }
  }

  // ---------------------------------------------------------------- the walk

  /** Taking one more target's libraries out of a list that already ends with `suffix`. */
  lemma TailAfterWalk(was: seq<Node>, done: set<Node>, suffix: seq<Node>, more: set<Node>, s: seq<Node>)
    ensures Without(Without(was, done) + suffix, more) + s == Without(was, done + more) + (Without(suffix, more) + s)
  {
    WithoutAppend(Without(was, done), suffix, more);
    WithoutTwice(was, done, more);
  }

  class LinkLine {
    const targets: Targets
    var out: seq<Node>

    constructor (targets: Targets)
      ensures this.targets == targets && out == []
    {
      this.targets, this.out := targets, [];
    }

    ghost predicate Valid()
      reads this
    {
      ValidTargets(targets) && Distinct(out) && forall x :: x in out ==> x in targets.enabled && x in targets.library
    }

    /** `walk`: what does not belong to the walked target stays in front, in order; behind it
        come the walked target's libraries, sorted. */
    method Walk(target: Node) returns (ghost suffix: seq<Node>)
      requires Valid() && target in targets.deps
      modifies this
      ensures Valid()
      ensures out == Without(old(out), Libraries(targets, target)) + suffix
      ensures Distinct(suffix) && Sorted(Followed(targets), suffix)
      ensures forall x :: x in suffix <==> x in Libraries(targets, target)
      decreases Reach(Followed(targets), target)
    {
      hide Reach, Sorted, Libraries, Distinct, Acyclic, Without, InSome;
      suffix := Append(target);
      if target !in targets.enabled {
        DisabledHasNone(targets, target);
        assert Own(targets, target) == {};
        return;
      }
      ghost var done := Own(targets, target);
      var deps := targets.deps[target];
      InSomeOfNone(targets, deps[..0]);
      for k := 0 to |deps|
        invariant Valid() && out == Without(old(out), done) + suffix
        invariant Distinct(suffix) && Sorted(Followed(targets), suffix)
        invariant forall x :: x in suffix <==> x in done
        invariant forall x :: x in suffix ==> x in targets.enabled && x in targets.library
        invariant forall x :: x in done <==> x in Own(targets, target) || InSome(targets, deps[..k], x)
      {
        AcyclicStep(Followed(targets), target, deps[k]);
        ghost var s := Walk(deps[k]);
        ghost var more := Libraries(targets, deps[k]);
        TailAfterWalk(old(out), done, suffix, more, s);
        Merge(targets, suffix, deps[k], s);
        InSomePush(targets, deps, k);
        suffix, done := Without(suffix, more) + s, done + more;
      }
      assert deps[..|deps|] == deps;
      LibrariesUnfold(targets, target);
      assert done == Libraries(targets, target);
    }

    /** The first lines of `walk`: an enabled library moves to the end of the list. */
    method Append(target: Node) returns (ghost suffix: seq<Node>)
      requires Valid() && target in targets.deps
      modifies this
      ensures Valid()
      ensures suffix == if target in Own(targets, target) then [target] else []
      ensures out == Without(old(out), Own(targets, target)) + suffix
      ensures Distinct(suffix) && Sorted(Followed(targets), suffix)
    {
      hide Without;
      suffix := [];
      if target in targets.enabled && target in targets.library {
        RemoveIsWithout(out, target);
        WithoutMembers(out, {target});
        WithoutDistinct(out, {target});
        if target in out {
          out := Remove(out, target);
        } else {
          WithoutNothing(out, {target});
        }
        out := out + [target];
        suffix := [target];
        assert Own(targets, target) == {target};
      } else {
        WithoutNothing(out, {});
        assert Own(targets, target) == {};
      }
    }

    /** `_link_libraries`. The result holds exactly the enabled libraries reachable from the
        given targets, each once, and each in front of every library it depends on, directly
        or not. */
    method LinkLibraries(roots: seq<Node>) returns (libs: seq<Node>)
      requires ValidTargets(targets) && forall k :: 0 <= k < |roots| ==> roots[k] in targets.deps
      modifies this
      ensures Distinct(libs)
      ensures forall x :: x in libs <==> InSome(targets, roots, x)
      ensures forall x, y :: x in libs && y in Libraries(targets, x) && y != x ==> Before(libs, x, y)
    {
      hide Reach, Libraries, Acyclic;
      out := [];
      for k := 0 to |roots|
        invariant Valid() && Sorted(Followed(targets), out)
        invariant forall x :: x in out <==> InSome(targets, roots[..k], x)
      {
        ghost var was := out;
        ghost var suffix := Walk(roots[k]);
        Merge(targets, was, roots[k], suffix);
        InSomePush(targets, roots, k);
      }
      assert roots[..|roots|] == roots;
      libs := out;
      forall x, y | x in libs && y in Libraries(targets, x) && y != x
        ensures Before(libs, x, y)
      {
        SortedMeansBefore(targets, roots, libs, x, y);
      }
    }
  }

  /** `x` is a library of one of the targets. */
  ghost predicate InSome(ts: Targets, roots: seq<Node>, x: Node) {
    exists k :: 0 <= k < |roots| && x in Libraries(ts, roots[k])
  }

  lemma InSomeOfNone(ts: Targets, roots: seq<Node>)
    requires roots == []
    ensures forall x :: !InSome(ts, roots, x)
  {
  }

  lemma InSomePush(ts: Targets, roots: seq<Node>, k: nat)
    requires k < |roots|
    ensures forall x :: InSome(ts, roots[..k + 1], x) <==> InSome(ts, roots[..k], x) || x in Libraries(ts, roots[k])
  {
    hide Libraries;
    forall x
      ensures InSome(ts, roots[..k + 1], x) <==> InSome(ts, roots[..k], x) || x in Libraries(ts, roots[k])
    {
      if InSome(ts, roots[..k], x) {
        var l :| 0 <= l < k && x in Libraries(ts, roots[..k][l]);
        assert x in Libraries(ts, roots[..k + 1][l]);
      }
      if x in Libraries(ts, roots[k]) {
        assert x in Libraries(ts, roots[..k + 1][k]);
      }
      if InSome(ts, roots[..k + 1], x) {
        var l :| 0 <= l < k + 1 && x in Libraries(ts, roots[..k + 1][l]);
        if l < k {
          assert x in Libraries(ts, roots[..k][l]);
        }
      }
    }
  }

  predicate Before(s: seq<Node>, x: Node, y: Node) {
    exists i, j :: 0 <= i < j < |s| && s[i] == x && s[j] == y
  }

  lemma SortedMeansBefore(ts: Targets, roots: seq<Node>, libs: seq<Node>, x: Node, y: Node)
    requires forall z :: z in libs <==> InSome(ts, roots, z)
    requires Sorted(Followed(ts), libs) && x in libs && y in Libraries(ts, x) && y != x
    ensures Before(libs, x, y)
  {
    hide Reach;
    var k :| 0 <= k < |roots| && x in Libraries(ts, roots[k]);
    ReachTransitive(Followed(ts), roots[k], x, y);
    assert InSome(ts, roots, y) && y in libs;
    var i :| 0 <= i < |libs| && libs[i] == x;
    var j :| 0 <= j < |libs| && libs[j] == y;
    assert libs[j] in Reach(Followed(ts), libs[i]);
  }
}

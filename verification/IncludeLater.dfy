/** build, `IncludeScanner._closure`: what a query finds when others have been answered before, and
    when that is all. */
module IncludeLater {
  import opened Graph
  import opened Includes

  /** Files with a cached closure are not gone into. */
  function Cut(t: Tree, known: map<Node, Closure>): Graph {
    map f | f in t.includes :: if f in known then [] else Followed(t.includes[f], t.store)
  }

  /** What one file adds: its cached closure, or itself and what it needs made. */
  function Part(t: Tree, known: map<Node, Closure>, h: Node): Closure {
    if h in known then known[h] else Closure({h}, if h in t.includes then Produced(t.includes[h]) else {})
  }

  /** The parts of all files that are come upon. */
  ghost function Found(t: Tree, known: map<Node, Closure>, path: Node): Closure {
    var upon := Reach(Cut(t, known), path);
    Closure(set h, f | h in upon && f in Part(t, known, h).files :: f,
            set h, p | h in upon && p in Part(t, known, h).producers :: p)
  }

  predicate Sub(c: Closure, d: Closure) {
    c.files <= d.files && c.producers <= d.producers
  }

  function Plus(c: Closure, d: Closure): Closure {
    Closure(c.files + d.files, c.producers + d.producers)
  }

  lemma PartIsFound(t: Tree, known: map<Node, Closure>, path: Node, h: Node)
    requires h in Reach(Cut(t, known), path)
    ensures Sub(Part(t, known, h), Found(t, known, path))
  {
    hide Reach, Part;
  }

  lemma FoundBelow(t: Tree, known: map<Node, Closure>, path: Node, d: Node)
    requires Closed(FileGraph(t)) && path in t.includes && path !in known && d in Followed(t.includes[path], t.store)
    ensures d in t.includes && Sub(Found(t, known, d), Found(t, known, path))
  {
    hide Reach, Part;
    var g := Cut(t, known);
    assert d in FileGraph(t)[path];
    assert d in g[path];
    ReachSuccessor(g, path, d);
    ReachSubset(g, path, d);
  }

  lemma FoundItself(t: Tree, known: map<Node, Closure>, path: Node)
    requires path in t.includes
    ensures Sub(Part(t, known, path), Found(t, known, path))
  {
    ReachSelf(Cut(t, known), path);
    PartIsFound(t, known, path, path);
  }

  // ---------------------------------------------------------------- along a walk

  /** What has been cached since adds nothing but what is found. */
  ghost predicate Grown(t: Tree, base: map<Node, Closure>, known: map<Node, Closure>) {
    && (forall h :: h in base ==> h in known && known[h] == base[h])
    && (forall h :: h in known && h !in base ==> h in t.includes && Sub(known[h], Found(t, base, h)))
  }

  /** A closure has the parts of all files cached since, and of all that these come upon. */
  ghost predicate Holds(t: Tree, base: map<Node, Closure>, known: map<Node, Closure>, later: map<Node, Closure>,
                        c: Closure) {
    forall h :: h in later && h !in known && h in t.includes ==>
      Sub(Part(t, base, h), c) && forall d :: d in Followed(t.includes[h], t.store) && d in base ==> Sub(base[d], c)
  }

  lemma HoldsMore(t: Tree, base: map<Node, Closure>, known: map<Node, Closure>, later: map<Node, Closure>,
                  c: Closure, d: Closure)
    requires Holds(t, base, known, later, c) && Sub(c, d)
    ensures Holds(t, base, known, later, d)
  {
    hide Part;
  }

  lemma HoldsBoth(t: Tree, base: map<Node, Closure>, a: map<Node, Closure>, b: map<Node, Closure>,
                  later: map<Node, Closure>, c: Closure)
    requires Holds(t, base, a, b, c) && Holds(t, base, b, later, c)
    ensures Holds(t, base, a, later, c)
  {
    hide Part;
  }

  /** The state of a walk: what was cached at first, what is now. */
  ghost predicate Walking(t: Tree, base: map<Node, Closure>, known: map<Node, Closure>, active: set<Node>) {
    Closed(FileGraph(t)) && Grown(t, base, known) && Explored(FileGraph(t), known.Keys, active)
  }

  /** What a walk from `path` comes to. */
  ghost predicate Walked(t: Tree, base: map<Node, Closure>, known: map<Node, Closure>, path: Node, active: set<Node>,
                         c: Closure, later: map<Node, Closure>) {
    && Walking(t, base, later, active) && known.Keys <= later.Keys && (path in later || path in active)
    && Sub(c, Found(t, base, path)) && Holds(t, base, known, later, c)
    && (path in base ==> Sub(base[path], c))
  }

  /** The walk from `path` has dealt with the first `k` directives. */
  ghost predicate Half(t: Tree, base: map<Node, Closure>, known: map<Node, Closure>, path: Node, active: set<Node>,
                       k: nat, c: Closure, later: map<Node, Closure>)
    requires path in t.includes && k <= |t.includes[path]|
  {
    var rs := t.includes[path][..k];
    && Walking(t, base, later, active + {path}) && known.Keys <= later.Keys
    && path !in base && path in c.files && Produced(rs) <= c.producers
    && Sub(c, Found(t, base, path)) && Holds(t, base, known, later, c)
    && forall d :: d in Followed(rs, t.store) ==>
         (d in later || d in active + {path}) && (d in base ==> Sub(base[d], c))
  }

  lemma HalfAtFirst(t: Tree, base: map<Node, Closure>, known: map<Node, Closure>, path: Node, active: set<Node>)
    requires Walking(t, base, known, active) && path in t.includes && path !in known
    ensures Half(t, base, known, path, active, 0, Closure({path}, {}), known)
  {
    hide Found, Closed, FileGraph;
    FoundItself(t, base, path);
    ExploredDeeper(FileGraph(t), known.Keys, active, path);
    NothingYet(t, t.includes[path]);
  }

  lemma HalfSkips(t: Tree, base: map<Node, Closure>, known: map<Node, Closure>, path: Node, active: set<Node>, k: nat,
                  c: Closure, later: map<Node, Closure>)
    requires path in t.includes && k < |t.includes[path]| && Half(t, base, known, path, active, k, c, later)
    requires var r := t.includes[path][k]; r.Missing? || (r.File? && r.path in t.store)
    ensures Half(t, base, known, path, active, k + 1, c, later)
  {
    hide Found, Closed, FileGraph, Walking, Holds;
    OneMore(t.includes[path], k, t.store);
  }

  lemma HalfProduces(t: Tree, base: map<Node, Closure>, known: map<Node, Closure>, path: Node, active: set<Node>,
                     k: nat, c: Closure, later: map<Node, Closure>)
    requires path in t.includes && k < |t.includes[path]| && Half(t, base, known, path, active, k, c, later)
    requires t.includes[path][k].Producer?
    ensures Half(t, base, known, path, active, k + 1, c.(producers := c.producers + {t.includes[path][k].node}), later)
  {
    hide Found, Closed, FileGraph, Walking, Holds;
    OneMore(t.includes[path], k, t.store);
    var d := c.(producers := c.producers + {t.includes[path][k].node});
    HoldsMore(t, base, known, later, c, d);
    FoundItself(t, base, path);
    ProducedAt(t.includes[path], k);
  }

  lemma {:induction false} ProducedAt(rs: seq<Resolution<Node>>, k: nat)
    requires k < |rs| && rs[k].Producer?
    ensures rs[k].node in Produced(rs)
  {
    if k < |rs| - 1 {
      ProducedAt(rs[..|rs| - 1], k);
    }
  }

  lemma HalfFollows(t: Tree, base: map<Node, Closure>, known: map<Node, Closure>, path: Node, active: set<Node>,
                    k: nat, c: Closure, later: map<Node, Closure>, child: Closure, last: map<Node, Closure>)
    requires path in t.includes && k < |t.includes[path]| && Half(t, base, known, path, active, k, c, later)
    requires var r := t.includes[path][k]; r.File? && r.path !in t.store
    requires Walked(t, base, later, t.includes[path][k].path, active + {path}, child, last)
    ensures Half(t, base, known, path, active, k + 1, Plus(c, child), last)
  {
    hide Found, FileGraph, Walking, Holds, Closed;
    var rs, p, d := t.includes[path], t.includes[path][k].path, Plus(c, child);
    OneMore(rs, k, t.store);
    FollowedMember(rs, k, t.store);
    WalkingIsClosed(t, base, later, active + {path});
    FoundBelow(t, base, path, p);
    HoldsMore(t, base, known, later, c, d);
    HoldsMore(t, base, later, last, child, d);
    HoldsBoth(t, base, known, later, last, d);
  }

  lemma WalkingIsClosed(t: Tree, base: map<Node, Closure>, known: map<Node, Closure>, active: set<Node>)
    requires Walking(t, base, known, active)
    ensures Closed(FileGraph(t))
  {
  }

  lemma HalfAtLast(t: Tree, base: map<Node, Closure>, known: map<Node, Closure>, path: Node, active: set<Node>,
                   c: Closure, later: map<Node, Closure>)
    requires path in t.includes && Half(t, base, known, path, active, |t.includes[path]|, c, later)
    ensures Walked(t, base, known, path, active, c, later[path := c])
  {
    hide Found, Closed, Followed, Produced;
    assert t.includes[path][..|t.includes[path]|] == t.includes[path];
    var last := later[path := c];
    forall f, d | f in last && f in FileGraph(t) && d in FileGraph(t)[f] ensures d in last || d in active {
      if f == path {
        assert d in Followed(t.includes[path], t.store);
      }
    }
  }

  lemma {:induction false} WalkFinds(t: Tree, base: map<Node, Closure>, known: map<Node, Closure>, path: Node,
                                     active: set<Node>)
    requires Walking(t, base, known, active) && path in t.includes
    ensures var r := Walk(t, known, path, active); Walked(t, base, known, path, active, r.0, r.1)
    decreases t.includes.Keys - active, 0
  {
    hide Found, Followed, Produced, Closed, Walk, WalkAll, Half, FileGraph;
    WalkIs(t, known, path, active);
    if path in known {
      FoundItself(t, base, path);
    } else if path in active {
      FoundItself(t, base, path);
    } else {
      var rs, c := t.includes[path], Closure({path}, {});
      HalfAtFirst(t, base, known, path, active);
      assert rs[0..] == rs;
      WalkAllFinds(t, base, known, path, active, 0, c, known);
      var r := WalkAll(t, known, active + {path}, rs, c);
      HalfAtLast(t, base, known, path, active, r.0, r.1);
    }
  }

  lemma {:induction false} WalkAllFinds(t: Tree, base: map<Node, Closure>, known: map<Node, Closure>, path: Node,
                                        active: set<Node>, k: nat, c: Closure, later: map<Node, Closure>)
    requires path in t.includes && path !in active && k <= |t.includes[path]|
    requires Half(t, base, known, path, active, k, c, later)
    ensures var r := WalkAll(t, later, active + {path}, t.includes[path][k..], c);
            Half(t, base, known, path, active, |t.includes[path]|, r.0, r.1)
    decreases t.includes.Keys - (active + {path}), |t.includes[path]| - k
  {
    hide Found, Followed, Produced, Closed, Walk, WalkAll, Half, FileGraph, Walked;
    var rs := t.includes[path];
    WalkAllIs(t, later, active + {path}, rs, k, c);
    if k < |rs| {
      match rs[k]
      case Producer(n) =>
        HalfProduces(t, base, known, path, active, k, c, later);
        WalkAllFinds(t, base, known, path, active, k + 1, c.(producers := c.producers + {n}), later);
      case Missing =>
        HalfSkips(t, base, known, path, active, k, c, later);
        WalkAllFinds(t, base, known, path, active, k + 1, c, later);
      case File(p) =>
        if p in t.store {
          HalfSkips(t, base, known, path, active, k, c, later);
          WalkAllFinds(t, base, known, path, active, k + 1, c, later);
        } else {
          HalfIsWalking(t, base, known, path, active, k, c, later);
          WalkFinds(t, base, later, p, active + {path});
          var r := Walk(t, later, p, active + {path});
          HalfFollows(t, base, known, path, active, k, c, later, r.0, r.1);
          WalkAllFinds(t, base, known, path, active, k + 1, Plus(c, r.0), r.1);
        }
    }
  }

  lemma HalfIsWalking(t: Tree, base: map<Node, Closure>, known: map<Node, Closure>, path: Node, active: set<Node>,
                      k: nat, c: Closure, later: map<Node, Closure>)
    requires path in t.includes && k < |t.includes[path]| && Half(t, base, known, path, active, k, c, later)
    requires t.includes[path][k].File? && t.includes[path][k].path !in t.store
    ensures Walking(t, base, later, active + {path}) && t.includes[path][k].path in t.includes
  {
    hide Found, Holds;
    var g, p := FileGraph(t), t.includes[path][k].path;
    FollowedMember(t.includes[path], k, t.store);
    WalkingIsClosed(t, base, later, active + {path});
    assert path in g && p in g[path];
    assert p in g;
  }

  // ---------------------------------------------------------------- a later query

  /** What a query finds, whatever is cached from complete ones before: the cached closures of all
      known files that are come upon without going through another known one, and all files up to
      there. */
  lemma LaterFinds(t: Tree, known: map<Node, Closure>, path: Node)
    requires Closed(FileGraph(t)) && path in t.includes && Explored(FileGraph(t), known.Keys, {})
    ensures Walk(t, known, path, {}).0 == Found(t, known, path)
  {
    hide Closed, Walk, Followed, Produced;
    WalkFinds(t, known, known, path, {});
    var r := Walk(t, known, path, {});
    FoundIsGathered(t, known, path, r.0, r.1);
  }

  lemma FoundIsGathered(t: Tree, known: map<Node, Closure>, path: Node, c: Closure, later: map<Node, Closure>)
    requires Walked(t, known, known, path, {}, c, later) && path in t.includes
    ensures Sub(Found(t, known, path), c)
  {
    hide Reach, Followed, Produced, Cut, Found, Holds, Part;
    var s := set h | h in t.includes && h in later && (h in known ==> Sub(known[h], c));
    var g := Cut(t, known);
    forall f, d | f in s && f in g && d in g[f] ensures d in s {
      GatheredBelow(t, known, c, later, f, d);
    }
    ClosedSetContainsReach(g, s, path);
    forall h | h in Reach(g, path) ensures Sub(Part(t, known, h), c) {
      GatheredPart(t, known, c, later, h);
    }
    FoundIsParts(t, known, path, c);
  }

  lemma GatheredBelow(t: Tree, known: map<Node, Closure>, c: Closure, later: map<Node, Closure>, f: Node, d: Node)
    requires Walking(t, known, later, {}) && Holds(t, known, known, later, c)
    requires f in t.includes && f in later && d in Cut(t, known)[f]
    ensures d in t.includes && d in later && (d in known ==> Sub(known[d], c))
  {
    hide Part, Followed, Grown;
    var g := FileGraph(t);
    assert f !in known && f in g && d in g[f];
    assert d in g;
    assert f in later.Keys ==> d in later.Keys;
  }

  lemma GatheredPart(t: Tree, known: map<Node, Closure>, c: Closure, later: map<Node, Closure>, h: Node)
    requires Holds(t, known, known, later, c) && h in t.includes && h in later
    requires h in known ==> Sub(known[h], c)
    ensures Sub(Part(t, known, h), c)
  {
  }

  lemma FoundIsParts(t: Tree, known: map<Node, Closure>, path: Node, c: Closure)
    requires forall h :: h in Reach(Cut(t, known), path) ==> Sub(Part(t, known, h), c)
    ensures Sub(Found(t, known, path), c)
  {
    hide Reach, Part, Cut;
  }

  lemma CutReaches(t: Tree, known: map<Node, Closure>, path: Node, h: Node)
    requires h in Reach(Cut(t, known), path)
    ensures h in Reach(FileGraph(t), path)
    ensures Sub(Closure(Reach(FileGraph(t), h), Producers(t, h)),
                Closure(Reach(FileGraph(t), path), Producers(t, path)))
  {
    hide Followed, Produced;
    var p :| IsPathFrom(Cut(t, known), p, path, h);
    assert IsPathFrom(FileGraph(t), p, path, h);
    hide Reach;
    ReachSubset(FileGraph(t), path, h);
  }

  lemma PartIsWithin(t: Tree, known: map<Node, Closure>, h: Node)
    requires (h in known ==> Within(t, h, known[h])) && h in t.includes
    ensures Sub(Part(t, known, h), Closure(Reach(FileGraph(t), h), Producers(t, h)))
  {
    hide Reach, Followed, Produced, Acyclic;
    ReachSelf(FileGraph(t), h);
  }

  lemma FoundIsWithin(t: Tree, known: map<Node, Closure>, path: Node)
    requires forall h :: h in known ==> h in t.includes && Within(t, h, known[h])
    ensures Sub(Found(t, known, path), Closure(Reach(FileGraph(t), path), Producers(t, path)))
  {
    hide Reach, Producers, Within, Part, FileGraph;
    forall h | h in Reach(Cut(t, known), path)
      ensures Sub(Part(t, known, h), Closure(Reach(FileGraph(t), path), Producers(t, path)))
    {
      CutReaches(t, known, path, h);
      ReachIsThere(t, known, path, h);
      PartIsWithin(t, known, h);
    }
  }

  lemma ReachIsThere(t: Tree, known: map<Node, Closure>, path: Node, h: Node)
    requires h in Reach(Cut(t, known), path)
    ensures h in t.includes
  {
  }

  /** A file that can be reached is come upon, or can be reached from a known one that is. */
  ghost predicate UponOrBehind(t: Tree, known: map<Node, Closure>, path: Node, x: Node) {
    || (x in Reach(Cut(t, known), path) && x !in known)
    || exists h :: h in known && h in Reach(Cut(t, known), path) && x in Reach(FileGraph(t), h)
  }

  lemma ReachedIsUpon(t: Tree, known: map<Node, Closure>, path: Node, x: Node)
    requires Closed(FileGraph(t)) && path in t.includes && x in Reach(FileGraph(t), path)
    ensures UponOrBehind(t, known, path, x)
  {
    hide Reach, Followed, UponOrBehind;
    var g := FileGraph(t);
    var s := set f | f in t.includes && UponOrBehind(t, known, path, f);
    forall f, d | f in s && f in g && d in g[f] ensures d in s {
      UponGoesOn(t, known, path, f, d);
    }
    UponStarts(t, known, path);
    ClosedSetContainsReach(g, s, path);
  }

  lemma UponStarts(t: Tree, known: map<Node, Closure>, path: Node)
    requires path in t.includes
    ensures UponOrBehind(t, known, path, path)
  {
    hide Reach, Followed;
    ReachSelf(Cut(t, known), path);
    ReachSelf(FileGraph(t), path);
  }

  lemma UponIs(t: Tree, known: map<Node, Closure>, path: Node, d: Node)
    requires d in Reach(Cut(t, known), path) && d in t.includes
    ensures UponOrBehind(t, known, path, d)
  {
    hide Reach, Followed;
    ReachSelf(FileGraph(t), d);
  }

  lemma UponGoesOn(t: Tree, known: map<Node, Closure>, path: Node, f: Node, d: Node)
    requires Closed(FileGraph(t)) && f in t.includes && d in FileGraph(t)[f] && UponOrBehind(t, known, path, f)
    ensures d in t.includes && UponOrBehind(t, known, path, d)
  {
    hide Reach, Followed;
    var g := FileGraph(t);
    assert f in g && d in g;
    if f in Reach(Cut(t, known), path) && f !in known {
      assert d in Cut(t, known)[f];
      ReachSuccessor(Cut(t, known), f, d);
      ReachTransitive(Cut(t, known), path, f, d);
      UponIs(t, known, path, d);
    } else {
      var h :| h in known && h in Reach(Cut(t, known), path) && f in Reach(g, h);
      ReachSuccessor(g, f, d);
      ReachTransitive(g, h, f, d);
    }
  }

  lemma AllIsFound(t: Tree, known: map<Node, Closure>, path: Node)
    requires Closed(FileGraph(t)) && path in t.includes
    requires forall h :: h in known && h in Reach(Cut(t, known), path) ==>
               Sub(Closure(Reach(FileGraph(t), h), Producers(t, h)), Found(t, known, path))
    ensures Sub(Closure(Reach(FileGraph(t), path), Producers(t, path)), Found(t, known, path))
  {
    hide Reach, Followed, Produced, Found, FileGraph;
    forall x | x in Reach(FileGraph(t), path)
      ensures x in Found(t, known, path).files
      ensures x in t.includes ==> Produced(t.includes[x]) <= Found(t, known, path).producers
    {
      ReachedIsUpon(t, known, path, x);
      if x in Reach(Cut(t, known), path) && x !in known {
        PartIsFound(t, known, path, x);
      } else {
        var h :| h in known && h in Reach(Cut(t, known), path) && x in Reach(FileGraph(t), h);
      }
    }
  }

  /** A query is exact if and only if whatever can be reached from the known files it comes upon is
      among what it finds, and so is what that needs made. */
  lemma LaterIsExactIff(t: Tree, known: map<Node, Closure>, path: Node)
    requires Closed(FileGraph(t)) && path in t.includes && Explored(FileGraph(t), known.Keys, {})
    requires forall h :: h in known ==> h in t.includes && Within(t, h, known[h])
    ensures Walk(t, known, path, {}).0 == Closure(Reach(FileGraph(t), path), Producers(t, path))
       <==> forall h :: h in known && h in Reach(Cut(t, known), path) ==>
              Sub(Closure(Reach(FileGraph(t), h), Producers(t, h)), Found(t, known, path))
  {
    hide Closed, Walk, Followed, Produced, Reach, Producers, Found, Within, Explored;
    LaterFinds(t, known, path);
    FoundIsWithin(t, known, path);
    if forall h :: h in known && h in Reach(Cut(t, known), path) ==>
         Sub(Closure(Reach(FileGraph(t), h), Producers(t, h)), Found(t, known, path)) {
      AllIsFound(t, known, path);
    }
    forall h | h in Reach(Cut(t, known), path)
      ensures Sub(Closure(Reach(FileGraph(t), h), Producers(t, h)),
                  Closure(Reach(FileGraph(t), path), Producers(t, path)))
    {
      CutReaches(t, known, path, h);
    }
  }
}

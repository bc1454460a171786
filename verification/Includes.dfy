/** build, `IncludeScanner`: include files resolved through search roots, and the memoised
    closure of the files and generated headers a source depends on. */
module Includes {
  import opened Graph
  import opened Options

  /** What an include directive resolves to: a file, a header made by another build node, or
      nothing that is known. */
  datatype Resolution<F> = Missing | File(path: F) | Producer(node: Node)

  // ---------------------------------------------------------------- the merged root table

  type Path = string
  type Index = map<string, Resolution<Path>>

  /** Searching the roots one after the other. */
  function FirstMatch(roots: seq<Path>, rootIncludes: map<Path, Index>, target: string): Resolution<Path>
    requires forall r :: r in roots ==> r in rootIncludes
  {
    if roots == [] then Missing
    else if target in rootIncludes[roots[0]] then rootIncludes[roots[0]][target]
    else FirstMatch(roots[1..], rootIncludes, target)
  }

  function Get(table: Index, target: string): Resolution<Path> {
    if target in table then table[target] else Missing
  }

  /** A table that answers every lookup the way the search does. */
  ghost predicate Merged(table: Index, roots: seq<Path>, rootIncludes: map<Path, Index>)
    requires forall r :: r in roots ==> r in rootIncludes
  {
    forall target :: Get(table, target) == FirstMatch(roots, rootIncludes, target)
  }

  lemma MergeRoot(table: Index, root: Path, rest: seq<Path>, rootIncludes: map<Path, Index>)
    requires root in rootIncludes && forall r :: r in rest ==> r in rootIncludes
    requires Merged(table, rest, rootIncludes)
    ensures Merged(table + rootIncludes[root], [root] + rest, rootIncludes)
  {
    var all := [root] + rest;
    assert all[1..] == rest;
    forall target
      ensures Get(table + rootIncludes[root], target) == FirstMatch(all, rootIncludes, target)
    {
      assert Get(table, target) == FirstMatch(rest, rootIncludes, target);
    }
  }

  /** `#include_next` searches only behind the first root that would have given the including
      file itself for this name. */
  function SearchRoots(roots: seq<Path>, rootIncludes: map<Path, Index>, includer: Path, target: string)
    : (r: seq<Path>)
    requires forall r :: r in roots ==> r in rootIncludes
    ensures forall root :: root in r ==> root in roots
  {
    match HomeRoot(roots, rootIncludes, includer, target, 0)
    case Some(i) => roots[i + 1..]
    case None => roots
  }

  function HomeRoot(roots: seq<Path>, rootIncludes: map<Path, Index>, includer: Path, target: string, i: nat)
    : (r: Option<nat>)
    requires i <= |roots| && forall r :: r in roots ==> r in rootIncludes
    ensures r.Some? ==> i <= r.value < |roots| && rootIncludes[roots[r.value]].Keys >= {target}
                        && rootIncludes[roots[r.value]][target] == File(includer)
                        && forall k :: i <= k < r.value ==> Get(rootIncludes[roots[k]], target) != File(includer)
    ensures r.None? ==> forall k :: i <= k < |roots| ==> Get(rootIncludes[roots[k]], target) != File(includer)
    decreases |roots| - i
  {
    if i == |roots| then None
    else if target in rootIncludes[roots[i]] && rootIncludes[roots[i]][target] == File(includer) then Some(i)
    else HomeRoot(roots, rootIncludes, includer, target, i + 1)
  }

  // ---------------------------------------------------------------- next to the including file

  /** What is known of the files: by the end of their path and the directory before it, by their
      whole path, and on disk; and how paths are normalised. */
  datatype Files = Files(byEnd: map<string, map<Path, Resolution<Path>>>, paths: map<Path, Resolution<Path>>,
                         onDisk: set<Path>, normal: Path -> Path)

  /** Everything before the last slash; the root directory for a file in it; the path itself when
      there is no slash. */
  function DirectoryOf(path: Path): Path {
    match LastSlash(path)
    case None => path
    case Some(i) => if i == 0 then "/" else path[..i]
  }

  function LastSlash(path: Path): (r: Option<nat>)
    ensures r.Some? ==> r.value < |path| && path[r.value] == '/' && '/' !in path[r.value + 1..]
    ensures r.None? ==> '/' !in path
  {
    if path == [] then None
    else if path[|path| - 1] == '/' then Some(|path| - 1)
    else
      var r := LastSlash(path[..|path| - 1]);
      assert path == path[..|path| - 1] + [path[|path| - 1]];
      assert r.Some? ==> path[r.value + 1..] == path[..|path| - 1][r.value + 1..] + [path[|path| - 1]];
      r
  }

  /** A quoted name, looked for in the directory of the including file. */
  function Nearby(files: Files, includer: Path, target: string): Option<Resolution<Path>> {
    var directory := DirectoryOf(includer);
    var candidate := files.normal(directory + "/" + target);
    if target in files.byEnd && directory in files.byEnd[target] then Some(files.byEnd[target][directory])
    else if candidate in files.paths then Some(files.paths[candidate])
    else if IsAbsolute(candidate) && candidate in files.onDisk then Some(File(candidate))
    else None
  }

  predicate IsAbsolute(path: Path) {
    path != [] && path[0] == '/'
  }

  /** One include directive as the scanner sees it. */
  datatype Query = Query(includer: Path, quoted: bool, includeNext: bool, target: string, roots: seq<Path>)

  /** What a directive means: a quoted name is looked for next to the including file first,
      everything else by searching the roots in order. */
  function Meaning(q: Query, files: Files, rootIncludes: map<Path, Index>): Resolution<Path>
    requires forall r :: r in q.roots ==> r in rootIncludes
  {
    if q.quoted && !q.includeNext && Nearby(files, q.includer, q.target).Some? then
      Nearby(files, q.includer, q.target).value
    else
      FirstMatch(if q.includeNext then SearchRoots(q.roots, rootIncludes, q.includer, q.target) else q.roots,
                 rootIncludes, q.target)
  }

  // ---------------------------------------------------------------- what that comes to

  predicate Gives(rootIncludes: map<Path, Index>, root: Path, target: string) {
    root in rootIncludes && target in rootIncludes[root]
  }

  /** The entry of the first root that has the name; nothing when no root has it. */
  ghost predicate OfFirstRoot(roots: seq<Path>, rootIncludes: map<Path, Index>, target: string, r: Resolution<Path>) {
    || (r == Missing && forall k :: 0 <= k < |roots| ==> !Gives(rootIncludes, roots[k], target))
    || (exists k :: 0 <= k < |roots| && Gives(rootIncludes, roots[k], target)
                    && r == rootIncludes[roots[k]][target]
                    && forall j :: 0 <= j < k ==> !Gives(rootIncludes, roots[j], target))
  }

  lemma {:induction false} FirstMatchIs(roots: seq<Path>, rootIncludes: map<Path, Index>, target: string)
    requires forall r :: r in roots ==> r in rootIncludes
    ensures OfFirstRoot(roots, rootIncludes, target, FirstMatch(roots, rootIncludes, target))
    decreases |roots|
  {
    if roots != [] && !Gives(rootIncludes, roots[0], target) {
      var rest, r := roots[1..], FirstMatch(roots[1..], rootIncludes, target);
      FirstMatchIs(rest, rootIncludes, target);
      if k :| 0 <= k < |rest| && Gives(rootIncludes, rest[k], target) && r == rootIncludes[rest[k]][target]
              && forall j :: 0 <= j < k ==> !Gives(rootIncludes, rest[j], target)
      {
        assert roots[k + 1] == rest[k];
        assert forall j :: 0 < j < k + 1 ==> roots[j] == rest[j - 1];
      } else {
        assert forall j :: 0 < j < |roots| ==> roots[j] == rest[j - 1];
      }
    }
  }

  /** A name in angle brackets is found through the roots alone, whatever lies next to the file. */
  lemma UnquotedIsOfFirstRoot(q: Query, files: Files, rootIncludes: map<Path, Index>)
    requires (forall r :: r in q.roots ==> r in rootIncludes) && !q.quoted && !q.includeNext
    ensures OfFirstRoot(q.roots, rootIncludes, q.target, Meaning(q, files, rootIncludes))
  {
    hide FirstMatch, OfFirstRoot;
    FirstMatchIs(q.roots, rootIncludes, q.target);
  }

  /** A quoted name, for a file in directory `dir`: an indexed end of path there, else the file that
      the joined path names, known or on disk, else the roots. */
  lemma QuotedIsNextToIt(q: Query, files: Files, rootIncludes: map<Path, Index>, dir: Path, name: string)
    requires (forall r :: r in q.roots ==> r in rootIncludes) && q.quoted && !q.includeNext
    requires q.includer == dir + "/" + name && '/' !in name
    ensures var r, at := Meaning(q, files, rootIncludes), if dir == "" then "/" else dir;
            var path := files.normal(at + "/" + q.target);
            if q.target in files.byEnd && at in files.byEnd[q.target] then r == files.byEnd[q.target][at]
            else if path in files.paths then r == files.paths[path]
            else if path != "" && path[0] == '/' && path in files.onDisk then r == File(path)
            else OfFirstRoot(q.roots, rootIncludes, q.target, r)
  {
    hide FirstMatch, OfFirstRoot, LastSlash;
    FirstMatchIs(q.roots, rootIncludes, q.target);
    LastSlashOf(q.includer, dir, name);
  }

  lemma LastSlashOf(path: Path, dir: Path, name: string)
    requires path == dir + "/" + name && '/' !in name
    ensures LastSlash(path) == Some(|dir|) && DirectoryOf(path) == if dir == "" then "/" else dir
  {
    hide LastSlash;
    assert path[|dir|] == '/' && '/' in path;
    assert forall k :: |dir| < k < |path| ==> path[k] == name[k - |dir| - 1];
    assert LastSlash(path).Some?;
    var last := LastSlash(path).value;
    if last < |dir| {
      SlashBehind(path, last, |dir|);
    }
    assert path[..|dir|] == dir;
  }

  lemma SlashBehind(path: Path, i: nat, n: nat)
    requires i < n < |path| && path[n] == '/'
    ensures '/' in path[i + 1..]
  {
    assert path[i + 1..][n - i - 1] == '/';
  }

  /** The including file is what this root gives for the name, and no root before does. */
  predicate IsHome(q: Query, rootIncludes: map<Path, Index>, k: nat) {
    k < |q.roots| && GivesIt(q, rootIncludes, k) && forall j :: 0 <= j < k ==> !GivesIt(q, rootIncludes, j)
  }

  predicate GivesIt(q: Query, rootIncludes: map<Path, Index>, k: nat)
    requires k < |q.roots|
  {
    Gives(rootIncludes, q.roots[k], q.target) && rootIncludes[q.roots[k]][q.target] == File(q.includer)
  }

  /** `#include_next` finds the name through the roots strictly behind the includer's home root, and
      through all of them when it has none. */
  lemma NextIsBehindHome(q: Query, files: Files, rootIncludes: map<Path, Index>)
    requires (forall r :: r in q.roots ==> r in rootIncludes) && q.includeNext
    ensures forall k: nat :: IsHome(q, rootIncludes, k) ==>
              OfFirstRoot(q.roots[k + 1..], rootIncludes, q.target, Meaning(q, files, rootIncludes))
    ensures (forall k :: 0 <= k < |q.roots| ==> !GivesIt(q, rootIncludes, k)) ==>
              OfFirstRoot(q.roots, rootIncludes, q.target, Meaning(q, files, rootIncludes))
  {
    hide FirstMatch, OfFirstRoot, HomeRoot;
    var home := HomeRoot(q.roots, rootIncludes, q.includer, q.target, 0);
    var roots := SearchRoots(q.roots, rootIncludes, q.includer, q.target);
    FirstMatchIs(roots, rootIncludes, q.target);
    assert home.Some? ==> GivesIt(q, rootIncludes, home.value);
    forall k: nat | IsHome(q, rootIncludes, k) ensures home == Some(k) {
    }
  }

  class Resolver {
    const files: Files
    const rootIncludes: map<Path, Index>
    var resolved: map<Query, Resolution<Path>>
    var rootResolutions: map<seq<Path>, Index>

    constructor (files: Files, rootIncludes: map<Path, Index>)
      ensures this.files == files && this.rootIncludes == rootIncludes && Valid()
    {
      this.files, this.rootIncludes := files, rootIncludes;
      resolved, rootResolutions := map[], map[];
    }

    /** Both caches hold what a fresh search would find. */
    ghost predicate Valid()
      reads this
    {
      && (forall q :: q in resolved ==> Known(q.roots) && resolved[q] == Meaning(q, files, rootIncludes))
      && (forall roots :: roots in rootResolutions ==>
            Known(roots) && Merged(rootResolutions[roots], roots, rootIncludes))
    }

    predicate Known(roots: seq<Path>) {
      forall r :: r in roots ==> r in rootIncludes
    }

    /** The table for a list of roots, merged from the last root to the first. */
    method Table(roots: seq<Path>) returns (table: Index)
      requires Valid() && Known(roots)
      modifies this`rootResolutions
      ensures Valid() && Merged(table, roots, rootIncludes)
    {
      if roots in rootResolutions {
        return rootResolutions[roots];
      }
      table := map[];
      assert roots[|roots|..] == [];
      var i: nat := |roots|;
      while i > 0
        invariant i <= |roots| && Merged(table, roots[i..], rootIncludes)
        invariant rootResolutions == old(rootResolutions)
      {
        i := i - 1;
        assert roots[i..] == [roots[i]] + roots[i + 1..];
        MergeRoot(table, roots[i], roots[i + 1..], rootIncludes);
        table := table + rootIncludes[roots[i]];
      }
      assert roots[0..] == roots;
      rootResolutions := rootResolutions[roots := table];
    }

    /** The first part of `_resolve`, for quoted names. */
    method LookNearby(includer: Path, target: string) returns (r: Option<Resolution<Path>>)
      ensures r == Nearby(files, includer, target)
    {
      var slash := LastSlash(includer);
      var directory := if slash.None? then includer else includer[..slash.value];
      if directory == "" && IsAbsolute(includer) {
        directory := "/";
      }
      assert directory == DirectoryOf(includer);
      if target in files.byEnd && directory in files.byEnd[target] {
        return Some(files.byEnd[target][directory]);
      }
      var candidate := files.normal(directory + "/" + target);
      if candidate in files.paths {
        return Some(files.paths[candidate]);
      }
      if IsAbsolute(candidate) && candidate in files.onDisk {
        return Some(File(candidate));
      }
      r := None;
    }

    /** `_resolve`: whatever the caches hold, the answer is the directive's meaning. */
    method Resolve(q: Query) returns (r: Resolution<Path>)
      requires Valid() && Known(q.roots)
      modifies this
      ensures Valid() && r == Meaning(q, files, rootIncludes)
    {
      hide Nearby, Merged;
      if q in resolved {
        return resolved[q];
      }
      if q.quoted && !q.includeNext {
        var near := LookNearby(q.includer, q.target);
        if near.Some? {
          resolved := resolved[q := near.value];
          return near.value;
        }
      }
      var searchRoots := q.roots;
      if q.includeNext {
        searchRoots := RootsBehind(q);
      }
      var table := Table(searchRoots);
      MergedAnswers(table, searchRoots, rootIncludes, q.target);
      r := Get(table, q.target);
      resolved := resolved[q := r];
    }

    /** The roots behind the one the including file comes from. */
    method RootsBehind(q: Query) returns (searchRoots: seq<Path>)
      requires Known(q.roots)
      ensures searchRoots == SearchRoots(q.roots, rootIncludes, q.includer, q.target)
    {
      for index := 0 to |q.roots|
        invariant HomeRoot(q.roots, rootIncludes, q.includer, q.target, 0)
               == HomeRoot(q.roots, rootIncludes, q.includer, q.target, index)
      {
        var direct := rootIncludes[q.roots[index]];
        if q.target in direct && direct[q.target] == File(q.includer) {
          return q.roots[index + 1..];
        }
      }
      searchRoots := q.roots;
    }
  }

  lemma MergedAnswers(table: Index, roots: seq<Path>, rootIncludes: map<Path, Index>, target: string)
    requires (forall r :: r in roots ==> r in rootIncludes) && Merged(table, roots, rootIncludes)
    ensures Get(table, target) == FirstMatch(roots, rootIncludes, target)
  {
  }

  // ---------------------------------------------------------------- the closure

  /** For one list of roots: the resolved includes of every file, in order, and the files below
      `/ix/store/`, which are not followed. */
  datatype Tree = Tree(includes: map<Node, seq<Resolution<Node>>>, store: set<Node>)

  function Followed(rs: seq<Resolution<Node>>, store: set<Node>): seq<Node> {
    if rs == [] then []
    else Followed(rs[..|rs| - 1], store) + match rs[|rs| - 1]
      case File(p) => if p in store then [] else [p]
      case _ => []
  }

  function Produced(rs: seq<Resolution<Node>>): set<Node> {
    if rs == [] then {}
    else Produced(rs[..|rs| - 1]) + match rs[|rs| - 1]
      case Producer(n) => {n}
      case _ => {}
  }

  function FileGraph(t: Tree): Graph {
    map f | f in t.includes :: Followed(t.includes[f], t.store)
  }

  ghost predicate ValidTree(t: Tree) {
    Closed(FileGraph(t)) && Acyclic(FileGraph(t))
  }

  /** The producers of generated headers that some file reachable from `f` includes. */
  ghost function Producers(t: Tree, f: Node): set<Node> {
    set p, h | h in Reach(FileGraph(t), f) && h in t.includes && p in Produced(t.includes[h]) :: p
  }

  /** The same over several starting files. */
  ghost function ReachAll(t: Tree, fs: seq<Node>): set<Node> {
    if fs == [] then {} else ReachAll(t, fs[..|fs| - 1]) + Reach(FileGraph(t), fs[|fs| - 1])
  }

  ghost function ProducersAll(t: Tree, fs: seq<Node>): set<Node> {
    if fs == [] then {} else ProducersAll(t, fs[..|fs| - 1]) + Producers(t, fs[|fs| - 1])
  }

  /** A file includes the files its directives resolve to, but for those below `/ix/store/`, and needs
      the producers they resolve to. */
  lemma {:induction false} DirectivesAre(rs: seq<Resolution<Node>>, store: set<Node>)
    ensures forall p :: p in Followed(rs, store) <==> File(p) in rs && p !in store
    ensures forall n :: n in Produced(rs) <==> Producer(n) in rs
    decreases |rs|
  {
    if rs != [] {
      DirectivesAre(rs[..|rs| - 1], store);
      assert rs == rs[..|rs| - 1] + [rs[|rs| - 1]];
    }
  }

  lemma {:induction false} ReachAllIs(t: Tree, fs: seq<Node>, x: Node)
    ensures x in ReachAll(t, fs) <==> exists d :: d in fs && x in Reach(FileGraph(t), d)
  {
    hide Reach;
    if fs != [] {
      ReachAllIs(t, fs[..|fs| - 1], x);
    }
  }

  lemma {:induction false} ProducersAllIs(t: Tree, fs: seq<Node>, x: Node)
    ensures x in ProducersAll(t, fs) <==> exists d :: d in fs && x in Producers(t, d)
  {
    hide Producers;
    if fs != [] {
      ProducersAllIs(t, fs[..|fs| - 1], x);
    }
  }

  /** A file's closure is the file, its own producers, and the closures of what it includes. */
  lemma ClosureUnfolds(t: Tree, f: Node)
    requires Closed(FileGraph(t)) && f in t.includes
    ensures var below := Followed(t.includes[f], t.store);
            && Reach(FileGraph(t), f) == {f} + ReachAll(t, below)
            && Producers(t, f) == Produced(t.includes[f]) + ProducersAll(t, below)
  {
    var g, below := FileGraph(t), Followed(t.includes[f], t.store);
    ReachSelf(g, f);
    forall x ensures x in Reach(g, f) <==> x == f || x in ReachAll(t, below) {
      OneFile(t, f, x);
    }
    forall p ensures p in Producers(t, f) <==> p in Produced(t.includes[f]) || p in ProducersAll(t, below) {
      ProducersAllIs(t, below, p);
      if p in Producers(t, f) {
        var h :| h in Reach(g, f) && h in t.includes && p in Produced(t.includes[h]);
        OneFile(t, f, h);
        ReachAllIs(t, below, h);
      }
      if p in ProducersAll(t, below) {
        var d :| d in below && p in Producers(t, d);
        var h :| h in Reach(g, d) && h in t.includes && p in Produced(t.includes[h]);
        ReachAllIs(t, below, h);
        OneFile(t, f, h);
      }
    }
  }

  lemma OneFile(t: Tree, f: Node, x: Node)
    requires Closed(FileGraph(t)) && f in t.includes
    ensures x in Reach(FileGraph(t), f) <==> x == f || x in ReachAll(t, Followed(t.includes[f], t.store))
  {
    hide Reach;
    var g, below := FileGraph(t), Followed(t.includes[f], t.store);
    ReachAllIs(t, below, x);
    ReachSelf(g, f);
    if x in Reach(g, f) {
      ReachUnfold(g, f, x);
    }
    if exists d :: d in below && x in Reach(g, d) {
      var d :| d in below && x in Reach(g, d);
      ReachSuccessor(g, f, d);
      ReachTransitive(g, f, d, x);
    }
  }

  datatype Closure = Closure(files: set<Node>, producers: set<Node>)

  // ---------------------------------------------------------------- what a walk has covered

  /** Every file with a cached closure includes only such files and files on the chain. */
  ghost predicate Explored(g: Graph, done: set<Node>, active: set<Node>) {
    forall f, d :: f in done && f in g && d in g[f] ==> d in done || d in active
  }

  /** What has been found contains all the files cached since, and what they need made. */
  ghost predicate Gathers(t: Tree, before: set<Node>, done: set<Node>, c: Closure) {
    && done - before <= c.files
    && forall h, p :: h in done && h !in before && h in t.includes && p in Produced(t.includes[h]) ==> p in c.producers
  }

  /** A closure goes no further than what can be reached; on an acyclic graph it is all of that. */
  ghost predicate Within(t: Tree, f: Node, c: Closure) {
    && f in c.files && c.files <= Reach(FileGraph(t), f) && c.producers <= Producers(t, f)
    && (Acyclic(FileGraph(t)) ==> c == Closure(Reach(FileGraph(t), f), Producers(t, f)))
  }

  /** The same for the part of a closure that the directives `rs` of `path` give. */
  ghost predicate WithinSoFar(t: Tree, path: Node, rs: seq<Resolution<Node>>, c: Closure) {
    var below := Followed(rs, t.store);
    var all := Closure({path} + ReachAll(t, below), Produced(rs) + ProducersAll(t, below));
    && c.files <= all.files && c.producers <= all.producers && (Acyclic(FileGraph(t)) ==> c == all)
  }

  // ---------------------------------------------------------------- the walk on values

  /** A query on any graph, from what is cached: what it finds, and what is cached then. A file that
      is on the chain above, or that has no directives to follow, counts only for itself. */
  ghost function Walk(t: Tree, known: map<Node, Closure>, path: Node, active: set<Node>)
    : (Closure, map<Node, Closure>)
    decreases t.includes.Keys - active, 0
  {
    if path in known then (known[path], known)
    else if path in active || path !in t.includes then (Closure({path}, {}), known)
    else
      var r := WalkAll(t, known, active + {path}, t.includes[path], Closure({path}, {}));
      (r.0, r.1[path := r.0])
  }

  /** The directives of one file in order, added to what has been found. */
  ghost function WalkAll(t: Tree, known: map<Node, Closure>, active: set<Node>, rs: seq<Resolution<Node>>, c: Closure)
    : (Closure, map<Node, Closure>)
    decreases t.includes.Keys - active, |rs|
  {
    if rs == [] then (c, known)
    else
      match rs[0]
      case Producer(n) => WalkAll(t, known, active, rs[1..], c.(producers := c.producers + {n}))
      case File(p) =>
        if p in t.store then WalkAll(t, known, active, rs[1..], c)
        else
          var r := Walk(t, known, p, active);
          WalkAll(t, r.1, active, rs[1..], Closure(c.files + r.0.files, c.producers + r.0.producers))
      case Missing => WalkAll(t, known, active, rs[1..], c)
  }

  ghost function CachedIn(closures: map<(Node, seq<Path>), Closure>, roots: seq<Path>): map<Node, Closure> {
    var files := set key | key in closures && key.1 == roots :: key.0;
    map f | f in files :: closures[(f, roots)]
  }

  lemma CachedHas(closures: map<(Node, seq<Path>), Closure>, roots: seq<Path>, path: Node)
    ensures path in CachedIn(closures, roots) <==> (path, roots) in closures
    ensures (path, roots) in closures ==> CachedIn(closures, roots)[path] == closures[(path, roots)]
  {
  }

  lemma CachedMore(closures: map<(Node, seq<Path>), Closure>, roots: seq<Path>, path: Node, c: Closure)
    ensures CachedIn(closures[(path, roots) := c], roots) == CachedIn(closures, roots)[path := c]
  {
    var more := closures[(path, roots) := c];
    assert (path, roots) in more;
    forall f ensures f in CachedIn(more, roots) <==> f in CachedIn(closures, roots) || f == path {
      assert f != path ==> ((f, roots) in more <==> (f, roots) in closures);
    }
  }

  lemma WalkIs(t: Tree, known: map<Node, Closure>, path: Node, active: set<Node>)
    ensures path in known ==> Walk(t, known, path, active) == (known[path], known)
    ensures path !in known && path in active ==> Walk(t, known, path, active) == (Closure({path}, {}), known)
    ensures path !in known && path !in active && path in t.includes ==>
              var r := WalkAll(t, known, active + {path}, t.includes[path], Closure({path}, {}));
              Walk(t, known, path, active) == (r.0, r.1[path := r.0])
  {
    hide WalkAll;
  }

  lemma WalkAllIs(t: Tree, known: map<Node, Closure>, active: set<Node>, rs: seq<Resolution<Node>>, k: nat, c: Closure)
    requires k <= |rs|
    ensures k == |rs| ==> WalkAll(t, known, active, rs[k..], c) == (c, known)
    ensures k < |rs| && rs[k].Producer? ==>
              WalkAll(t, known, active, rs[k..], c)
              == WalkAll(t, known, active, rs[k + 1..], c.(producers := c.producers + {rs[k].node}))
    ensures k < |rs| && (rs[k].Missing? || (rs[k].File? && rs[k].path in t.store)) ==>
              WalkAll(t, known, active, rs[k..], c) == WalkAll(t, known, active, rs[k + 1..], c)
    ensures k < |rs| && rs[k].File? && rs[k].path !in t.store ==>
              var r := Walk(t, known, rs[k].path, active);
              WalkAll(t, known, active, rs[k..], c)
              == WalkAll(t, r.1, active, rs[k + 1..], Closure(c.files + r.0.files, c.producers + r.0.producers))
  {
    hide Walk;
    if k < |rs| {
      assert rs[k..][0] == rs[k] && rs[k..][1..] == rs[k + 1..];
    }
  }

  class IncludeScanner {
    /** One resolved tree for every list of roots in use. */
    const trees: map<seq<Path>, Tree>
    var closures: map<(Node, seq<Path>), Closure>

    constructor (trees: map<seq<Path>, Tree>)
      ensures this.trees == trees && closures == map[]
    {
      this.trees, this.closures := trees, map[];
    }

    ghost predicate Valid()
      reads this
    {
      forall key :: key in closures ==> key.1 in trees && Within(trees[key.1], key.0, closures[key])
    }

    /** The files with a cached closure for these roots. */
    ghost function Done(roots: seq<Path>): set<Node>
      reads this
    {
      set key | key in closures && key.1 == roots :: key.0
    }

    /** The cached closures for these roots. */
    ghost function Cached(roots: seq<Path>): map<Node, Closure>
      reads this
    {
      CachedIn(closures, roots)
    }

    /** `_closure`. The files on the current include chain are `active`. On any graph the result
        and what is cached then are those of the walk on values; the result stays within what can be
        reached, and contains every file that has been cached meanwhile; on an acyclic graph it is
        exactly what can be reached. */
    method ClosureOf(path: Node, roots: seq<Path>, active: set<Node>) returns (c: Closure)
      requires Valid() && roots in trees && Closed(FileGraph(trees[roots]))
      requires path in trees[roots].includes && active <= trees[roots].includes.Keys
      requires Acyclic(FileGraph(trees[roots])) ==> active !! Reach(FileGraph(trees[roots]), path)
      requires Explored(FileGraph(trees[roots]), Done(roots), active) && Done(roots) !! active
      modifies this
      ensures (c, Cached(roots)) == Walk(trees[roots], old(Cached(roots)), path, active)
      ensures Valid() && Within(trees[roots], path, c) && path in c.files
      ensures old(Done(roots)) <= Done(roots) && Done(roots) !! active
      ensures path in Done(roots) || path in active
      ensures Explored(FileGraph(trees[roots]), Done(roots), active)
      ensures Gathers(trees[roots], old(Done(roots)), Done(roots), c)
      decreases trees[roots].includes.Keys - active
    {
      hide Reach, Producers, Acyclic, ReachAll, ProducersAll, Followed, Produced, Closed, Explored, Gathers, Within,
        WithinSoFar, FileGraph, Walk, WalkAll, CachedIn;
      ghost var t, g, before := trees[roots], FileGraph(trees[roots]), Done(roots);
      ghost var known := Cached(roots);
      CachedHas(closures, roots, path);
      WalkIs(t, known, path, active);
      var key := (path, roots);
      ItselfIsReached(t, path, active);
      GathersNothing(t, before);
      if key in closures {
        WithinHasItself(t, path, closures[key]);
        assert path in Done(roots);
        return closures[key];
      }
      if path in active {
        return Closure({path}, {});
      }
      c := Closure({path}, {});
      var rs := trees[roots].includes[path];
      assert path !in before && rs[0..] == rs;
      WithinAtFirst(t, path, rs, c);
      ExploredDeeper(g, before, active, path);
      for k := 0 to |rs|
        invariant Valid() && before <= Done(roots) && Done(roots) !! active + {path}
        invariant WithinSoFar(t, path, rs[..k], c) && path in c.files
        invariant Explored(g, Done(roots), active + {path}) && Gathers(t, before, Done(roots), c)
        invariant WalkAll(t, Cached(roots), active + {path}, rs[k..], c)
               == WalkAll(t, known, active + {path}, rs, Closure({path}, {}))
        invariant Produced(rs[..k]) <= c.producers
        invariant forall d :: d in Followed(rs[..k], t.store) ==> d in Done(roots) || d in active + {path}
      {
        OneMore(rs, k, t.store);
        WalkAllIs(t, Cached(roots), active + {path}, rs, k, c);
        match rs[k] {
          case Producer(n) =>
            ProducerMore(t, path, rs, k, c, before, Done(roots));
            c := c.(producers := c.producers + {n});
          case File(p) =>
            if p !in trees[roots].store {
              ghost var done := Done(roots);
              FollowedIsBelow(t, path, k, active);
              var child := ClosureOf(p, roots, active + {path});
              ChildMore(t, path, rs, k, c, child, before, done, Done(roots));
              c := Closure(c.files + child.files, c.producers + child.producers);
            } else {
              SameSoFar(t, path, rs, k, c);
            }
          case Missing =>
            SameSoFar(t, path, rs, k, c);
        }
      }
      assert rs[..|rs|] == rs;
      WalkAllIs(t, Cached(roots), active + {path}, rs, |rs|, c);
      WithinAtLast(t, path, c);
      ghost var done := Done(roots);
      CachedMore(closures, roots, path, c);
      closures := closures[key := c];
      assert Done(roots) == done + {path};
      PathIsDone(t, path, before, done, active, c);
    }

    /** The first query on a list of roots is exact on every graph, cyclic ones included. */
    method FirstClosure(path: Node, roots: seq<Path>) returns (c: Closure)
      requires Valid() && roots in trees && Closed(FileGraph(trees[roots])) && path in trees[roots].includes
      requires forall key :: key in closures ==> key.1 != roots
      modifies this
      ensures Valid() && c == Closure(Reach(FileGraph(trees[roots]), path), Producers(trees[roots], path))
    {
      hide Reach, Producers, Acyclic, Closed, FileGraph;
      assert Done(roots) == {};
      c := ClosureOf(path, roots, {});
      AllGathered(trees[roots], path, Done(roots), c);
    }

    /** `scan_node`: the source inputs found are exactly the files reachable from the inputs that
        are sources, and the producers of generated headers join the dependencies behind the ones
        there were, each once. `sources` are the paths in the source tree and absolute ones; nodes
        are numbered in the order of their outputs. */
    method ScanNode(inputs: seq<Node>, sources: set<Node>, roots: seq<Path>, deps0: seq<Node>)
      returns (files: set<Node>, deps: seq<Node>)
      requires Valid() && roots in trees && ValidTree(trees[roots])
      requires forall f :: f in inputs && f in sources ==> f in trees[roots].includes
      requires Explored(FileGraph(trees[roots]), Done(roots), {})
      modifies this
      ensures Valid() && Explored(FileGraph(trees[roots]), Done(roots), {})
      ensures files == ReachAll(trees[roots], Selected(inputs, sources))
      ensures forall d :: d in deps <==> d in deps0 || d in ProducersAll(trees[roots], Selected(inputs, sources))
      ensures if Selected(inputs, sources) == [] then deps == deps0 else Unrepeated(deps) && Uniq(deps0) <= deps
    {
      hide Reach, Producers, Acyclic, Explored, Gathers, ReachAll, ProducersAll, FileGraph, Unrepeated, Uniq;
      files, deps := {}, deps0;
      ghost var t := trees[roots];
      NothingSelected(t, inputs, sources);
      for k := 0 to |inputs|
        invariant Valid() && Explored(FileGraph(trees[roots]), Done(roots), {})
        invariant files == ReachAll(t, Selected(inputs[..k], sources))
        invariant forall d :: d in deps <==> d in deps0 || d in ProducersAll(t, Selected(inputs[..k], sources))
        invariant if Selected(inputs[..k], sources) == [] then deps == deps0
                  else Unrepeated(deps) && Uniq(deps0) <= deps
      {
        SelectedMore(t, inputs, k, sources);
        if inputs[k] in sources {
          assert inputs[k] in inputs;
          var c := ClosureOf(inputs[k], roots, {});
          files := files + c.files;
          var ordered := Ordered(c.producers);
          UniqMore(deps0, deps, ordered);
          deps := Uniq(deps + ordered);
        }
      }
      assert inputs[..|inputs|] == inputs;
    }
  }

  // ---------------------------------------------------------------- lists of dependencies

  /** The inputs that are sources. */
  function Selected(inputs: seq<Node>, sources: set<Node>): seq<Node> {
    if inputs == [] then []
    else
      var before, last := Selected(inputs[..|inputs| - 1], sources), inputs[|inputs| - 1];
      if last in sources then before + [last] else before
  }

  /** The first of each. */
  function Uniq(s: seq<Node>): (r: seq<Node>)
    ensures forall x :: x in r <==> x in s
  {
    if s == [] then []
    else
      var r := Uniq(s[..|s| - 1]);
      assert forall x :: x in s <==> x in s[..|s| - 1] || x == s[|s| - 1];
      if s[|s| - 1] in r then r else r + [s[|s| - 1]]
  }

  predicate Unrepeated(s: seq<Node>) {
    forall i, j :: 0 <= i < j < |s| ==> s[i] != s[j]
  }

  lemma {:induction false} UniqIsUnrepeated(s: seq<Node>)
    ensures Unrepeated(Uniq(s))
  {
    if s != [] {
      UniqIsUnrepeated(s[..|s| - 1]);
    }
  }

  lemma {:induction false} UniqOfUnrepeated(s: seq<Node>)
    requires Unrepeated(s)
    ensures Uniq(s) == s
  {
    if s != [] {
      UniqOfUnrepeated(s[..|s| - 1]);
      assert s == s[..|s| - 1] + [s[|s| - 1]];
    }
  }

  lemma {:induction false} UniqKeepsPrefix(a: seq<Node>, b: seq<Node>)
    ensures Uniq(a) <= Uniq(a + b)
    decreases |b|
  {
    if b == [] {
      assert a + b == a;
    } else {
      assert (a + b)[..|a + b| - 1] == a + b[..|b| - 1];
      UniqKeepsPrefix(a, b[..|b| - 1]);
    }
  }

  lemma UniqMore(deps0: seq<Node>, deps: seq<Node>, ordered: seq<Node>)
    requires deps == deps0 || (Unrepeated(deps) && Uniq(deps0) <= deps)
    ensures Unrepeated(Uniq(deps + ordered)) && Uniq(deps0) <= Uniq(deps + ordered)
  {
    UniqIsUnrepeated(deps + ordered);
    UniqKeepsPrefix(deps, ordered);
    if Unrepeated(deps) {
      UniqOfUnrepeated(deps);
    }
  }

  /** The nodes in the order of their outputs. */
  method Ordered(nodes: set<Node>) returns (s: seq<Node>)
    ensures forall x :: x in s <==> x in nodes
    ensures forall i, j :: 0 <= i < j < |s| ==> s[i] < s[j]
  {
    s := [];
    var todo := nodes;
    while todo != {}
      invariant todo <= nodes && forall x :: x in s <==> x in nodes && x !in todo
      invariant forall i, j :: 0 <= i < j < |s| ==> s[i] < s[j]
      invariant forall x, y :: x in s && y in todo ==> x < y
    {
      var least := Least(todo);
      assert forall i :: 0 <= i < |s| ==> s[i] in s;
      s := s + [least];
      todo := todo - {least};
    }
  }

  method Least(nodes: set<Node>) returns (least: Node)
    requires nodes != {}
    ensures least in nodes && forall x :: x in nodes ==> least <= x
  {
    least :| least in nodes;
    var todo := nodes - {least};
    while todo != {}
      invariant todo <= nodes && least in nodes && forall x :: x in nodes && x !in todo ==> least <= x
    {
      var x :| x in todo;
      if x < least {
        least := x;
      }
      todo := todo - {x};
    }
  }

  lemma NothingSelected(t: Tree, inputs: seq<Node>, sources: set<Node>)
    ensures Selected(inputs[..0], sources) == [] && ReachAll(t, []) == {} && ProducersAll(t, []) == {}
  {
  }

  lemma SelectedMore(t: Tree, inputs: seq<Node>, k: nat, sources: set<Node>)
    requires k < |inputs|
    ensures var s, s2 := Selected(inputs[..k], sources), Selected(inputs[..k + 1], sources);
            if inputs[k] in sources then
              && s2 == s + [inputs[k]] && ReachAll(t, s2) == ReachAll(t, s) + Reach(FileGraph(t), inputs[k])
              && ProducersAll(t, s2) == ProducersAll(t, s) + Producers(t, inputs[k])
            else s2 == s
  {
    hide Reach, Producers;
    assert inputs[..k + 1][..k] == inputs[..k];
    Push(t, Selected(inputs[..k], sources), inputs[k]);
  }

  // ---------------------------------------------------------------- one file of a walk

  lemma ItselfIsReached(t: Tree, path: Node, active: set<Node>)
    requires path in t.includes
    ensures path in Reach(FileGraph(t), path)
    ensures path in active && Acyclic(FileGraph(t)) ==> !(active !! Reach(FileGraph(t), path))
    ensures !Acyclic(FileGraph(t)) ==> Within(t, path, Closure({path}, {}))
  {
    ReachSelf(FileGraph(t), path);
  }

  lemma GathersNothing(t: Tree, done: set<Node>)
    ensures forall c: Closure :: Gathers(t, done, done, c)
  {
  }

  lemma WithinHasItself(t: Tree, path: Node, c: Closure)
    requires Within(t, path, c)
    ensures path in c.files
  {
  }

  lemma WithinAtFirst(t: Tree, path: Node, rs: seq<Resolution<Node>>, c: Closure)
    requires c == Closure({path}, {})
    ensures WithinSoFar(t, path, rs[..0], c) && Produced(rs[..0]) == {} && Followed(rs[..0], t.store) == []
  {
    NothingYet(t, rs);
  }

  lemma ExploredDeeper(g: Graph, done: set<Node>, active: set<Node>, path: Node)
    requires Explored(g, done, active)
    ensures Explored(g, done, active + {path})
  {
  }

  lemma FollowedIsBelow(t: Tree, path: Node, k: nat, active: set<Node>)
    requires Closed(FileGraph(t)) && path in t.includes && k < |t.includes[path]|
    requires t.includes[path][k].File? && t.includes[path][k].path !in t.store
    requires Acyclic(FileGraph(t)) ==> active !! Reach(FileGraph(t), path)
    ensures var p := t.includes[path][k].path;
            p in t.includes && (Acyclic(FileGraph(t)) ==> active + {path} !! Reach(FileGraph(t), p))
  {
    hide Reach, Acyclic, Followed;
    var g, p := FileGraph(t), t.includes[path][k].path;
    FollowedMember(t.includes[path], k, t.store);
    assert p in g[path] && p in g;
    if Acyclic(g) {
      AcyclicStep(g, path, p);
    }
  }

  lemma SameSoFar(t: Tree, path: Node, rs: seq<Resolution<Node>>, k: nat, c: Closure)
    requires k < |rs| && WithinSoFar(t, path, rs[..k], c) && !rs[k].Producer? && (rs[k].File? ==> rs[k].path in t.store)
    ensures WithinSoFar(t, path, rs[..k + 1], c)
  {
    hide Reach, Acyclic, FileGraph, Followed, Produced, ReachAll, ProducersAll;
    OneMore(rs, k, t.store);
    assert Followed(rs[..k], t.store) + [] == Followed(rs[..k], t.store);
  }

  lemma ProducerMore(t: Tree, path: Node, rs: seq<Resolution<Node>>, k: nat, c: Closure, before: set<Node>,
                     done: set<Node>)
    requires k < |rs| && WithinSoFar(t, path, rs[..k], c) && rs[k].Producer? && Gathers(t, before, done, c)
    ensures WithinSoFar(t, path, rs[..k + 1], c.(producers := c.producers + {rs[k].node}))
    ensures Gathers(t, before, done, c.(producers := c.producers + {rs[k].node}))
  {
    hide Reach, Acyclic, FileGraph, Followed, Produced, ReachAll, ProducersAll;
    OneMore(rs, k, t.store);
    assert Followed(rs[..k], t.store) + [] == Followed(rs[..k], t.store);
  }

  lemma ChildMore(t: Tree, path: Node, rs: seq<Resolution<Node>>, k: nat, c: Closure, child: Closure,
                  before: set<Node>, mid: set<Node>, done: set<Node>)
    requires k < |rs| && WithinSoFar(t, path, rs[..k], c) && rs[k].File? && rs[k].path !in t.store
    requires Within(t, rs[k].path, child)
    requires before <= mid <= done && Gathers(t, before, mid, c) && Gathers(t, mid, done, child)
    ensures WithinSoFar(t, path, rs[..k + 1], Closure(c.files + child.files, c.producers + child.producers))
    ensures Gathers(t, before, done, Closure(c.files + child.files, c.producers + child.producers))
  {
    hide Reach, Acyclic, FileGraph, Followed, Produced, ReachAll, ProducersAll, Producers;
    OneMore(rs, k, t.store);
    Push(t, Followed(rs[..k], t.store), rs[k].path);
  }

  lemma WithinAtLast(t: Tree, path: Node, c: Closure)
    requires Closed(FileGraph(t)) && path in t.includes && path in c.files
    requires WithinSoFar(t, path, t.includes[path], c)
    ensures Within(t, path, c)
  {
    hide Reach, Acyclic, FileGraph, Followed, Produced, ReachAll, ProducersAll, Producers;
    ClosureUnfolds(t, path);
  }

  lemma PathIsDone(t: Tree, path: Node, before: set<Node>, done: set<Node>, active: set<Node>, c: Closure)
    requires path in t.includes && path in c.files && Produced(t.includes[path]) <= c.producers
    requires Explored(FileGraph(t), done, active + {path}) && Gathers(t, before, done, c)
    requires forall d :: d in Followed(t.includes[path], t.store) ==> d in done || d in active + {path}
    ensures Explored(FileGraph(t), done + {path}, active) && Gathers(t, before, done + {path}, c)
  {
    hide Followed, Produced;
  }

  /** What is closed under including and has been gathered is all that can be reached. */
  lemma AllGathered(t: Tree, path: Node, done: set<Node>, c: Closure)
    requires path in done && Explored(FileGraph(t), done, {}) && Gathers(t, {}, done, c) && Within(t, path, c)
    ensures c == Closure(Reach(FileGraph(t), path), Producers(t, path))
  {
    hide Reach, Acyclic, FileGraph, Produced;
    ClosedSetContainsReach(FileGraph(t), done, path);
    forall p | p in Producers(t, path) ensures p in c.producers {
      var h :| h in Reach(FileGraph(t), path) && h in t.includes && p in Produced(t.includes[h]);
      assert h in done && h !in {};
    }
  }

  lemma NothingYet(t: Tree, rs: seq<Resolution<Node>>)
    ensures ReachAll(t, Followed(rs[..0], t.store)) == {} && Produced(rs[..0]) == {}
    ensures ProducersAll(t, Followed(rs[..0], t.store)) == {}
  {
  }

  lemma Push(t: Tree, below: seq<Node>, p: Node)
    ensures ReachAll(t, below + [p]) == ReachAll(t, below) + Reach(FileGraph(t), p)
    ensures ProducersAll(t, below + [p]) == ProducersAll(t, below) + Producers(t, p)
  {
    assert (below + [p])[..|below|] == below;
  }

  /** What one more directive adds. */
  lemma OneMore(rs: seq<Resolution<Node>>, k: nat, store: set<Node>)
    requires k < |rs|
    ensures Followed(rs[..k + 1], store)
         == Followed(rs[..k], store) + if rs[k].File? && rs[k].path !in store then [rs[k].path] else []
    ensures Produced(rs[..k + 1]) == Produced(rs[..k]) + if rs[k].Producer? then {rs[k].node} else {}
  {
    assert rs[..k + 1][..k] == rs[..k];
  }

  lemma {:induction false} FollowedMember(rs: seq<Resolution<Node>>, k: nat, store: set<Node>)
    requires k < |rs| && rs[k].File? && rs[k].path !in store
    ensures rs[k].path in Followed(rs, store)
  {
    if k < |rs| - 1 {
      FollowedMember(rs[..|rs| - 1], k, store);
    }
  }
}

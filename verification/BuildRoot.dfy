/** build, `Executor._restore` into the build root: what a build finds there stays, so the outputs
    of a node are its clean build exactly when nothing of before is left below them. */
module BuildRoot {
  import opened Graph
  import opened Artifacts
  import opened Options
  import opened Cache
  import opened Builds

  // ---------------------------------------------------------------- one tree put into another

  /** Below the outputs `a` holds something that `tree` neither has nor replaces. */
  ghost predicate LeftOver(outputs: seq<Path>, a: Tree, tree: Tree, path: Path) {
    path in a && OfOutputs(outputs, path) && path !in tree && !Covered(path, tree)
  }

  ghost predicate NothingLeftOver(outputs: seq<Path>, a: Tree, tree: Tree) {
    forall path :: !LeftOver(outputs, a, tree, path)
  }

  /** Below the outputs one reads in the root what one reads in the tree. */
  ghost predicate ReadsAs(cas: Cas, outputs: seq<Path>, root: Tree, tree: Tree) {
    Outputs(outputs, Read(cas, root)) == Read(cas, tree)
  }

  /** The outputs of a node are what was put there when nothing is left over. */
  lemma LaidIsExact(outputs: seq<Path>, a: Tree, tree: Tree)
    requires Outputs(outputs, tree) == tree && NothingLeftOver(outputs, a, tree)
    ensures Outputs(outputs, Lay(a, tree)) == tree
  {
    hide OfOutputs, Covered;
    var out := Lay(a, tree);
    forall path | path in tree ensures OfOutputs(outputs, path) {
      assert path in Outputs(outputs, tree);
    }
    forall path | path in Outputs(outputs, out) ensures path in tree {
      assert !LeftOver(outputs, a, tree, path);
    }
  }

  lemma LaidLeavesOver(outputs: seq<Path>, a: Tree, tree: Tree, path: Path)
    requires LeftOver(outputs, a, tree, path)
    ensures path in Outputs(outputs, Lay(a, tree)) && path !in tree
  {
    hide OfOutputs, Covered;
  }

  lemma LinkedIsThere(outputs: seq<Path>, a: Tree, tree: Tree)
    ensures Linked(tree).Keys == tree.Keys
    ensures Outputs(outputs, tree) == tree ==> Outputs(outputs, Linked(tree)) == Linked(tree)
    ensures Apart(outputs, tree) ==> Apart(outputs, Linked(tree))
    ensures forall path :: LeftOver(outputs, a, Linked(tree), path) <==> LeftOver(outputs, a, tree, path)
  {
    hide OfOutputs, ThawItem, SealEntry;
    forall path ensures Covered(path, Linked(tree)) <==> Covered(path, tree) {
      SameKeysSameCover(path, Linked(tree), tree);
    }
    if Outputs(outputs, tree) == tree {
      forall path | path in tree ensures OfOutputs(outputs, path) {
        assert path in Outputs(outputs, tree);
      }
    }
  }

  lemma ReadOutputs(cas: Cas, outputs: seq<Path>, tree: Tree)
    ensures Outputs(outputs, Read(cas, tree)) == Read(cas, Outputs(outputs, tree))
  {
    hide OfOutputs, ReadEntry;
  }

  /** Read through the links that were put there, the outputs are those of the tree exactly when
      nothing is left over and all blobs of the tree are in the store. */
  lemma LaidReadsIff(cas: Cas, outputs: seq<Path>, a: Tree, tree: Tree)
    requires Outputs(outputs, tree) == tree && HonestCas(cas)
    ensures ReadsAs(cas, outputs, Lay(a, Linked(tree)), tree)
       <==> NothingLeftOver(outputs, a, tree) && AllThere(cas, Seal(tree))
  {
    hide Outputs, Linked, Lay, HonestCas, AllThere, LeftOver, ReadEntry;
    LinkedIsThere(outputs, a, tree);
    ReadOutputs(cas, outputs, Lay(a, Linked(tree)));
    if path :| LeftOver(outputs, a, tree, path) {
      LaidLeavesOver(outputs, a, Linked(tree), path);
      assert path in Read(cas, Outputs(outputs, Lay(a, Linked(tree))));
      assert path !in Read(cas, tree);
    } else {
      LaidIsExact(outputs, a, Linked(tree));
      LinkedReadsIff(cas, tree);
    }
  }

  /** No path of the tree is at, below or above an output. */
  ghost predicate Apart(outputs: seq<Path>, tree: Tree) {
    forall o, p :: o in outputs && p in tree ==> !(o <= p) && !(p <= o)
  }

  lemma ApartKeeps(outputs: seq<Path>, a: Tree, tree: Tree)
    requires Apart(outputs, tree)
    ensures Outputs(outputs, Lay(a, tree)) == Outputs(outputs, a)
  {
    forall path | OfOutputs(outputs, path) ensures path !in tree && !Covered(path, tree) {
      var o :| o in outputs && Below(o, path);
      if p :| p in tree && Above(p, path) {
        PrefixesCompare(o, p, path);
      }
    }
  }

  lemma PrefixesCompare(o: Path, p: Path, path: Path)
    requires o <= path && p <= path
    ensures o <= p || p <= o
  {
  }

  lemma OutputsTwice(outputs: seq<Path>, tree: Tree)
    ensures Outputs(outputs, Outputs(outputs, tree)) == Outputs(outputs, tree)
  {
  }

  // ---------------------------------------------------------------- the requested nodes of a build

  ghost predicate OthersApart(cmd: Command, q: Request, sources: Sources, i: nat)
    requires ValidRequest(q) && i < |q.roots|
  {
    forall j :: 0 <= j < |q.roots| && j != i && CleanBuild(cmd, q.p, sources, q.roots[j]).Some? ==>
      Apart(q.p.recipes[q.roots[i]].outputs, CleanBuild(cmd, q.p, sources, q.roots[j]).value)
  }

  /** After a successful build, and with whatever the blob store holds when they are read, the
      outputs of a requested node read as its clean build if and only if the build root held
      nothing below them that the clean build neither has nor replaces, and all blobs of the clean
      build are in the store; no other requested node writing there. */
  lemma RootIsExactIff(cmd: Command, q: Request, sources: Sources, root: Tree, out: Tree, i: nat, cas: Cas)
    requires ValidRequest(q) && i < |q.roots| && OthersApart(cmd, q, sources, i) && HonestCas(cas)
    requires CleanRoots(cmd, q, sources, root, |q.roots|) == Some(out)
    ensures CleanBuild(cmd, q.p, sources, q.roots[i]).Some?
    ensures var outputs := q.p.recipes[q.roots[i]].outputs;
            var tree := CleanBuild(cmd, q.p, sources, q.roots[i]).value;
            ReadsAs(cas, outputs, out, tree) <==> NothingLeftOver(outputs, root, tree) && AllThere(cas, Seal(tree))
  {
    hide Ordered, Acyclic, Closed, Reach, CleanBuild, Lay, Blocked, Outputs, LeftOver, Read, AllThere, HonestCas,
      Linked, Apart;
    var outputs := q.p.recipes[q.roots[i]].outputs;
    RootsUpTo(cmd, q, sources, root, i + 1);
    RootsUpTo(cmd, q, sources, root, i);
    var tree := CleanBuild(cmd, q.p, sources, q.roots[i]).value;
    var before := CleanRoots(cmd, q, sources, root, i).value;
    BuiltIsOutputs(cmd, q, sources, q.roots[i]);
    OthersKeep(cmd, q, sources, root, outputs, 0, i);
    OthersKeep(cmd, q, sources, root, outputs, i + 1, |q.roots|);
    LaidReadsIff(cas, outputs, before, tree);
    ReadOutputs(cas, outputs, out);
    ReadOutputs(cas, outputs, Lay(before, Linked(tree)));
    forall path ensures LeftOver(outputs, before, tree, path) <==> LeftOver(outputs, root, tree, path) {
      SameLeftOver(outputs, before, root, tree, path);
    }
  }

  lemma SameLeftOver(outputs: seq<Path>, a: Tree, b: Tree, tree: Tree, path: Path)
    requires Outputs(outputs, a) == Outputs(outputs, b)
    ensures LeftOver(outputs, a, tree, path) <==> LeftOver(outputs, b, tree, path)
  {
    hide OfOutputs, Covered;
    assert path in Outputs(outputs, a) <==> path in Outputs(outputs, b);
  }

  lemma {:induction false} RootsUpTo(cmd: Command, q: Request, sources: Sources, root: Tree, k: nat)
    requires ValidRequest(q) && k <= |q.roots| && CleanRoots(cmd, q, sources, root, |q.roots|).Some?
    ensures CleanRoots(cmd, q, sources, root, k).Some?
  {
    if CleanRoots(cmd, q, sources, root, k) == None {
      NoneStays(cmd, q, sources, root, k);
    }
  }

  lemma BuiltIsOutputs(cmd: Command, q: Request, sources: Sources, n: Node)
    requires ValidRequest(q) && n in q.p.g && CleanBuild(cmd, q.p, sources, n).Some?
    ensures var tree := CleanBuild(cmd, q.p, sources, n).value; Outputs(q.p.recipes[n].outputs, tree) == tree
  {
    hide Reach, Acyclic, Ordered, CleanDeps, Outputs;
    var work := CleanDeps(cmd, q.p, sources, n, |q.p.g[n]|).value;
    var made := cmd(q.p.recipes[n], Declared(q.p, sources, n), work).value;
    OutputsTwice(q.p.recipes[n].outputs, made);
  }

  /** Requested nodes that write elsewhere leave these outputs as they are. */
  lemma {:induction false} OthersKeep(cmd: Command, q: Request, sources: Sources, root: Tree, outputs: seq<Path>,
                                      a: nat, b: nat)
    requires ValidRequest(q) && a <= b <= |q.roots| && CleanRoots(cmd, q, sources, root, |q.roots|).Some?
    requires forall j :: a <= j < b && CleanBuild(cmd, q.p, sources, q.roots[j]).Some? ==>
               Apart(outputs, CleanBuild(cmd, q.p, sources, q.roots[j]).value)
    ensures CleanRoots(cmd, q, sources, root, a).Some? && CleanRoots(cmd, q, sources, root, b).Some?
    ensures Outputs(outputs, CleanRoots(cmd, q, sources, root, b).value)
         == Outputs(outputs, CleanRoots(cmd, q, sources, root, a).value)
    decreases b
  {
    hide Ordered, Acyclic, Closed, Reach, CleanBuild, Lay, Blocked, Outputs, Apart, Linked;
    RootsUpTo(cmd, q, sources, root, a);
    RootsUpTo(cmd, q, sources, root, b);
    if a < b {
      OthersKeep(cmd, q, sources, root, outputs, a, b - 1);
      var below, tree := CleanRoots(cmd, q, sources, root, b - 1).value,
                         CleanBuild(cmd, q.p, sources, q.roots[b - 1]).value;
      LinkedIsThere(outputs, below, tree);
      ApartKeeps(outputs, below, Linked(tree));
    }
  }

  // ---------------------------------------------------------------- what becomes of an output later

  /** The event leaves these outputs in the build root alone. */
  ghost predicate WritesElsewhere(cmd: Command, events: seq<Event>, sources: Sources, results: seq<bool>,
                                  outputs: seq<Path>, x: nat)
    requires x < |events| == |results| && ValidEvent(events[x])
  {
    match events[x]
    case Build(q) =>
      && results[x]
      && forall j :: 0 <= j < |q.roots| ==> RootElsewhere(cmd, q, SourcesAfter(events, sources, x), outputs, j)
    case _ => true
  }

  ghost predicate RootElsewhere(cmd: Command, q: Request, sources: Sources, outputs: seq<Path>, j: nat)
    requires ValidRequest(q) && j < |q.roots|
  {
    CleanBuild(cmd, q.p, sources, q.roots[j]).Some? ==>
      Apart(outputs, CleanBuild(cmd, q.p, sources, q.roots[j]).value)
  }

  lemma {:induction false} OutputsStay(cmd: Command, events: seq<Event>, sources: Sources, results: seq<bool>,
                                       roots: seq<Tree>, stores: seq<Cas>, outputs: seq<Path>, k: nat, j: nat)
    requires History(cmd, events, sources, results, roots, stores) && k <= j <= |events|
    requires forall x :: k <= x < j ==> WritesElsewhere(cmd, events, sources, results, outputs, x)
    ensures Outputs(outputs, roots[j]) == Outputs(outputs, roots[k])
    decreases j - k
  {
    hide ValidRequest, CleanRoots, CleanBuild, HonestCas, Delivered, Outputs, RootElsewhere;
    if k < j {
      OutputsStay(cmd, events, sources, results, roots, stores, outputs, k, j - 1);
      var x := j - 1;
      assert Faithful(cmd, events, sources, x, results[x], roots[x], roots[x + 1], stores[x], stores[x + 1]);
      assert WritesElsewhere(cmd, events, sources, results, outputs, x);
      if events[x].Build? {
        BuildElsewhere(cmd, events[x].request, SourcesAfter(events, sources, x), roots[x], roots[j], outputs);
      }
    }
  }

  lemma BuildElsewhere(cmd: Command, q: Request, sources: Sources, root: Tree, out: Tree, outputs: seq<Path>)
    requires ValidRequest(q) && CleanRoots(cmd, q, sources, root, |q.roots|) == Some(out)
    requires forall j :: 0 <= j < |q.roots| ==> RootElsewhere(cmd, q, sources, outputs, j)
    ensures Outputs(outputs, out) == Outputs(outputs, root)
  {
    hide Ordered, Acyclic, Closed, Reach, CleanBuild, Outputs, Apart, Overlay, Linked;
    forall j | 0 <= j < |q.roots| && CleanBuild(cmd, q.p, sources, q.roots[j]).Some?
      ensures Apart(outputs, CleanBuild(cmd, q.p, sources, q.roots[j]).value)
    {
      assert RootElsewhere(cmd, q, sources, outputs, j);
    }
    OthersKeep(cmd, q, sources, root, outputs, 0, |q.roots|);
  }

  /** Whatever happens after a build that does not write there: the outputs of a node it was asked
      for read as its clean build, at any later moment, if and only if nothing was left over below
      them, and all blobs of the clean build are in the store at that moment. */
  lemma LaterReadsIff(cmd: Command, events: seq<Event>, sources: Sources, results: seq<bool>, roots: seq<Tree>,
                      stores: seq<Cas>, k: nat, j: nat, i: nat)
    requires History(cmd, events, sources, results, roots, stores) && k < j <= |events|
    requires events[k].Build? && results[k] && i < |events[k].request.roots|
    requires OthersApart(cmd, events[k].request, SourcesAfter(events, sources, k), i)
    requires var q := events[k].request;
             forall x :: k < x < j ==>
               WritesElsewhere(cmd, events, sources, results, q.p.recipes[q.roots[i]].outputs, x)
    ensures var q := events[k].request;
            CleanBuild(cmd, q.p, SourcesAfter(events, sources, k), q.roots[i]).Some?
    ensures var q := events[k].request;
            var outputs := q.p.recipes[q.roots[i]].outputs;
            var tree := CleanBuild(cmd, q.p, SourcesAfter(events, sources, k), q.roots[i]).value;
            (ReadsAs(stores[j], outputs, roots[j], tree)
             <==> NothingLeftOver(outputs, roots[k], tree) && AllThere(stores[j], Seal(tree)))
  {
    hide ValidRequest, CleanRoots, CleanBuild, HonestCas, Delivered, Outputs, OthersApart, WritesElsewhere, AllThere,
      LeftOver, Read;
    var q, now := events[k].request, SourcesAfter(events, sources, k);
    RootInGraph(q, i);
    var outputs := q.p.recipes[q.roots[i]].outputs;
    StoreIsHonest(cmd, events, sources, results, roots, stores, j);
    assert Faithful(cmd, events, sources, k, results[k], roots[k], roots[k + 1], stores[k], stores[k + 1]);
    RootIsExactIff(cmd, q, now, roots[k], roots[k + 1], i, stores[j]);
    OutputsStay(cmd, events, sources, results, roots, stores, outputs, k + 1, j);
    ReadOutputs(stores[j], outputs, roots[j]);
    ReadOutputs(stores[j], outputs, roots[k + 1]);
  }

  lemma RootInGraph(q: Request, i: nat)
    requires ValidRequest(q) && i < |q.roots|
    ensures ValidProject(q.p) && q.roots[i] in q.p.g && q.roots[i] in q.p.recipes
  {
    hide Ordered, Acyclic, Closed, Reach;
  }

  lemma StoreIsHonest(cmd: Command, events: seq<Event>, sources: Sources, results: seq<bool>, roots: seq<Tree>,
                      stores: seq<Cas>, j: nat)
    requires History(cmd, events, sources, results, roots, stores) && 0 < j <= |events|
    ensures HonestCas(stores[j])
  {
    hide ValidRequest, CleanRoots, HonestCas, Delivered;
    assert Faithful(cmd, events, sources, j - 1, results[j - 1], roots[j - 1], roots[j], stores[j - 1], stores[j]);
  }

  /** Some loss in between takes the blob. */
  ghost predicate LostBetween(events: seq<Event>, k: nat, j: nat, d: Digest)
    requires k <= j <= |events|
  {
    exists x :: k <= x < j && events[x].Lose? && d in events[x].blobs
  }

  lemma {:induction false} StoreSince(cmd: Command, events: seq<Event>, sources: Sources, results: seq<bool>,
                                      roots: seq<Tree>, stores: seq<Cas>, k: nat, j: nat)
    requires History(cmd, events, sources, results, roots, stores) && k <= j <= |events|
    requires forall x :: k <= x < j ==> !events[x].Build?
    ensures forall d :: d in stores[j] <==> d in stores[k] && !LostBetween(events, k, j, d)
    decreases j - k
  {
    hide ValidRequest, CleanRoots, HonestCas, Delivered, LostBetween;
    if k < j {
      StoreSince(cmd, events, sources, results, roots, stores, k, j - 1);
      var x := j - 1;
      assert Faithful(cmd, events, sources, x, results[x], roots[x], roots[x + 1], stores[x], stores[x + 1]);
      forall d ensures LostBetween(events, k, j, d) <==>
                         LostBetween(events, k, x, d) || (events[x].Lose? && d in events[x].blobs)
      {
        LostUpTo(events, k, x, d);
      }
    } else {
      forall d ensures !LostBetween(events, k, j, d) {
        LostNowhere(events, k, d);
      }
    }
  }

  lemma LostUpTo(events: seq<Event>, k: nat, x: nat, d: Digest)
    requires k <= x < |events|
    ensures LostBetween(events, k, x + 1, d) <==>
              LostBetween(events, k, x, d) || (events[x].Lose? && d in events[x].blobs)
  {
    if LostBetween(events, k, x, d) {
      var y :| k <= y < x && events[y].Lose? && d in events[y].blobs;
    }
  }

  lemma LostNowhere(events: seq<Event>, k: nat, d: Digest)
    requires k <= |events|
    ensures !LostBetween(events, k, k, d)
  {
  }

  /** Until the next build the outputs of a node that was asked for read as its clean build as long
      as, and only as long as, none of its blobs is lost, nothing being left over below them. */
  lemma ReadsUntilLost(cmd: Command, events: seq<Event>, sources: Sources, results: seq<bool>, roots: seq<Tree>,
                       stores: seq<Cas>, k: nat, j: nat, i: nat)
    requires History(cmd, events, sources, results, roots, stores) && k < j <= |events|
    requires events[k].Build? && results[k] && i < |events[k].request.roots|
    requires OthersApart(cmd, events[k].request, SourcesAfter(events, sources, k), i)
    requires forall x :: k < x < j ==> !events[x].Build?
    ensures var q := events[k].request;
            CleanBuild(cmd, q.p, SourcesAfter(events, sources, k), q.roots[i]).Some?
    ensures var q := events[k].request;
            var outputs := q.p.recipes[q.roots[i]].outputs;
            var tree := CleanBuild(cmd, q.p, SourcesAfter(events, sources, k), q.roots[i]).value;
            (ReadsAs(stores[j], outputs, roots[j], tree)
             <==> NothingLeftOver(outputs, roots[k], tree)
                  && forall path :: path in tree && tree[path].File? ==>
                       !LostBetween(events, k + 1, j, Sha(tree[path].mode, tree[path].data)))
  {
    hide ValidRequest, CleanRoots, CleanBuild, HonestCas, Delivered, Outputs, OthersApart, AllThere, LeftOver, Read,
      LostBetween, Seal;
    var q, now := events[k].request, SourcesAfter(events, sources, k);
    RootInGraph(q, i);
    LaterReadsIff(cmd, events, sources, results, roots, stores, k, j, i);
    StoreSince(cmd, events, sources, results, roots, stores, k + 1, j);
    assert Faithful(cmd, events, sources, k, results[k], roots[k], roots[k + 1], stores[k], stores[k + 1]);
    var tree := CleanBuild(cmd, q.p, now, q.roots[i]).value;
    RootDelivered(cmd, q, now, stores[k + 1], i);
    ThereMeans(stores[k + 1], tree);
    ThereMeans(stores[j], tree);
  }

  lemma RootDelivered(cmd: Command, q: Request, sources: Sources, cas: Cas, i: nat)
    requires ValidRequest(q) && i < |q.roots| && Delivered(cmd, q, sources, cas)
    ensures q.roots[i] in q.p.g && CleanBuild(cmd, q.p, sources, q.roots[i]).Some?
    ensures AllThere(cas, Seal(CleanBuild(cmd, q.p, sources, q.roots[i]).value))
  {
    hide Ordered, Acyclic, Closed, Reach, CleanBuild, AllThere, Seal;
    assert Builds.Builds(cmd, q, sources, q.roots[i]);
  }

  lemma ThereMeans(cas: Cas, tree: Tree)
    ensures AllThere(cas, Seal(tree))
       <==> forall path :: path in tree && tree[path].File? ==> Sha(tree[path].mode, tree[path].data) in cas
  {
    if AllThere(cas, Seal(tree)) {
      forall path | path in tree && tree[path].File? ensures Sha(tree[path].mode, tree[path].data) in cas {
        assert ItemThere(cas, Seal(tree)[path]);
      }
    } else {
      var path :| path in Seal(tree) && !ItemThere(cas, Seal(tree)[path]);
    }
  }

  // ---------------------------------------------------------------- what stays behind

  /** Writes two files below its output directory for one content of its source, else only one. */
  function Lister(recipe: Recipe, given: Sources, work: Tree): Option<Tree> {
    Some(if given == map[["src"] := [1]] then TwoFiles() else OneFile())
  }

  function TwoFiles(): Tree {
    map[["o", "a"] := File(420, [1]), ["o", "b"] := File(420, [1])]
  }

  function OneFile(): Tree {
    map[["o", "a"] := File(420, [1])]
  }

  function OneNode(): Request {
    var recipe := Recipe([["src"]], [["o"]], [], "", map[]);
    Request(Project(map[0 := []], map[0 := recipe], map[0 := [["src"]]]), [0], [0], {}, true, map[])
  }

  lemma OneNodeIsValid()
    ensures ValidRequest(OneNode())
  {
    var g: Graph := map[0 := []];
    RankedIsAcyclic(g, map[0 := 0]);
    ReachSelf(g, 0);
    assert OneNode().order[0] == 0;
  }

  lemma ListerBuilds(content: Content)
    requires ValidRequest(OneNode())
    ensures CleanBuild(Lister, OneNode().p, map[["src"] := content], 0)
         == Some(if content == [1] then TwoFiles() else OneFile())
  {
    hide Acyclic, Ordered;
    var p, sources := OneNode().p, map[["src"] := content];
    assert Declared(p, sources, 0) == sources;
    var tree := if content == [1] then TwoFiles() else OneFile();
    assert sources[["src"]] == content;
    assert CleanDeps(Lister, p, sources, 0, 0) == Some(map[]);
    ListerProduces(p.recipes[0], sources, tree);
  }

  lemma ListerProduces(recipe: Recipe, given: Sources, tree: Tree)
    requires recipe.outputs == [["o"]] && tree == if given == map[["src"] := [1]] then TwoFiles() else OneFile()
    ensures Produce(Lister, recipe, given, map[]) == Some(tree)
  {
    assert Below(["o"], ["o", "a"]) && Below(["o"], ["o", "b"]);
    assert ["o", "a"] in tree && Produced(["o"], tree);
    assert ["o"] in recipe.outputs && OfOutputs(recipe.outputs, ["o", "a"]) && OfOutputs(recipe.outputs, ["o", "b"]);
    assert Outputs(recipe.outputs, tree) == tree;
  }

  /** A build after an edit that makes one file fewer leaves the old file in the build root, and so
      the output does not read as the clean build there. */
  lemma OldFileStays(cas: Cas)
    ensures ValidRequest(OneNode())
    ensures CleanRoots(Lister, OneNode(), map[["src"] := [1]], map[], 1) == Some(Linked(TwoFiles()))
    ensures CleanRoots(Lister, OneNode(), map[["src"] := [2]], Linked(TwoFiles()), 1) == Some(Linked(TwoFiles()))
    ensures CleanBuild(Lister, OneNode().p, map[["src"] := [2]], 0) == Some(OneFile())
    ensures !ReadsAs(cas, [["o"]], Linked(TwoFiles()), OneFile())
  {
    hide Acyclic, Ordered, CleanBuild, ReadEntry;
    OneNodeIsValid();
    ListerBuilds([1]);
    ListerBuilds([2]);
    LinksOfFiles();
    PutsInto(map[], Linked(TwoFiles()), Linked(TwoFiles()));
    PutsInto(Linked(TwoFiles()), Linked(OneFile()), Linked(TwoFiles()));
    RootsOfOne(map[["src"] := [1]], map[]);
    RootsOfOne(map[["src"] := [2]], Linked(TwoFiles()));
    assert Below(["o"], ["o", "b"]) && OfOutputs([["o"]], ["o", "b"]) by {
      assert ["o"] in [["o"]];
    }
    assert ["o", "b"] in Outputs([["o"]], Read(cas, Linked(TwoFiles())));
  }

  lemma LinksOfFiles()
    ensures Linked(TwoFiles()) == map[["o", "a"] := Blob1(), ["o", "b"] := Blob1()]
    ensures Linked(OneFile()) == map[["o", "a"] := Blob1()]
  {
    assert Linked(TwoFiles())[["o", "a"]] == Blob1() && Linked(TwoFiles())[["o", "b"]] == Blob1();
    assert Linked(OneFile())[["o", "a"]] == Blob1();
  }

  function Blob1(): Entry {
    Link(Blob(Sha(420, [1])))
  }

  lemma RootsOfOne(sources: Sources, root: Tree)
    requires ValidRequest(OneNode()) && CleanBuild(Lister, OneNode().p, sources, 0).Some?
    ensures CleanRoots(Lister, OneNode(), sources, root, 1)
         == Overlay(root, Linked(CleanBuild(Lister, OneNode().p, sources, 0).value))
  {
    hide Acyclic, Ordered, CleanBuild, Overlay, Linked;
    assert CleanRoots(Lister, OneNode(), sources, root, 0) == Some(root);
  }

  lemma PutsInto(a: Tree, tree: Tree, out: Tree)
    requires out.Keys == TwoFiles().Keys && forall p :: p in tree ==> p in out && out[p] == tree[p]
    requires (a == map[] && tree == out) || a == out
    ensures Overlay(a, tree) == Some(out)
  {
    forall p, q | p in out && q in out ensures !Above(p, q) {
      assert |p| == |q| == 2;
    }
    assert !Blocked(a, tree);
    assert forall q :: q in a ==> !Covered(q, tree);
    assert Lay(a, tree) == out;
  }
}

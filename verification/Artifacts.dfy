/** build, nodes and their outputs as values: source trees, manifests, uids, and what a build
    from nothing makes of a node. */
module Artifacts {
  import opened Graph
  import opened Options

  /** A symbolic path, component by component. */
  type Path = seq<string>
  type Content = seq<int>

  /** SHA-256 of the mode and the bytes, and MD5 of the bytes, without collisions. */
  datatype Digest = Sha(mode: nat, data: Content)
  datatype InputHash = Md5(data: Content)

  /** What a symbolic link points at: anything, or a place in the blob store. */
  datatype Target = Elsewhere(text: string) | Blob(digest: Digest)

  datatype Entry = File(mode: nat, data: Content) | Link(target: Target)
  type Tree = map<Path, Entry>

  datatype Item = CasItem(digest: Digest, mode: nat) | LinkItem(target: Target)
  type Manifest = map<Path, Item>

  /** `Node.canonical` */
  datatype Recipe = Recipe(inputs: seq<Path>, outputs: seq<Path>, cmd: seq<seq<string>>, cwd: string,
                           env: map<string, string>)

  type Input = (Path, InputHash)

  /** MD5 of the canonical node, the uids of its dependencies and its hashed inputs. */
  datatype Uid = Uid(recipe: Recipe, deps: seq<Uid>, inputs: seq<Input>)

  type Sources = map<Path, Content>

  /** What running a recipe's commands does, as a function of what it may read: the declared
      sources and the work tree with the outputs of the direct dependencies. Failure is None. */
  type Command = (Recipe, Sources, Tree) -> Option<Tree>

  /** What the commands write into the files they were given, without replacing them: a file of
      the work tree is a hard link to its blob. */
  type Rewrites = (Recipe, Sources, Tree) -> Tree

  // ---------------------------------------------------------------- trees laid over each other

  predicate Above(p: Path, q: Path) {
    p < q
  }

  /** No path leads through a file. */
  predicate FileTree<V>(t: map<Path, V>) {
    forall p, q :: p in t && q in t ==> !Above(p, q)
  }

  /** A file of `a` is where `b` needs a directory. */
  predicate Blocked<V, W>(a: map<Path, V>, b: map<Path, W>) {
    exists p, q :: p in a && q in b && Above(p, q)
  }

  /** A directory of `a` is where `b` puts a file or link. */
  predicate Covered<W>(q: Path, b: map<Path, W>) {
    exists p :: p in b && Above(p, q)
  }

  /** `b` is put into `a`: its entries replace what is at their paths, directories included. */
  function Lay<V(==)>(a: map<Path, V>, b: map<Path, V>): map<Path, V> {
    (map q | q in a && !Covered(q, b) :: a[q]) + b
  }

  function Overlay<V(==)>(a: map<Path, V>, b: map<Path, V>): Option<map<Path, V>> {
    if Blocked(a, b) then None else Some(Lay(a, b))
  }

  lemma LaidOnNothing<V>(t: map<Path, V>)
    ensures Overlay(map[], t) == Some(t)
  {
    var none: map<Path, V> := map[];
    assert Lay(none, t) == t;
  }

  /** In terms of paths: what is laid down stands, and of the rest what is not below it; and where
      nothing of the rest was above it, no path leads through a file afterwards. */
  lemma LayIs<V>(a: map<Path, V>, b: map<Path, V>)
    ensures forall q :: q in Lay(a, b) <==> q in b || (q in a && forall p :: p in b ==> !(p < q))
    ensures forall q :: q in Lay(a, b) ==> Lay(a, b)[q] == if q in b then b[q] else a[q]
    ensures Overlay(a, b).None? <==> exists p, q :: p in a && q in b && p < q
    ensures FileTree(a) && FileTree(b) && Overlay(a, b).Some? ==>
              forall p, q :: p in Lay(a, b) && q in Lay(a, b) ==> !(p < q)
  {
    forall q ensures Covered(q, b) <==> exists p :: p in b && p < q {
      if Covered(q, b) {
        var p :| p in b && Above(p, q);
        assert p < q;
      }
      if p :| p in b && p < q {
        assert Above(p, q);
      }
    }
    if Blocked(a, b) {
      var p, q :| p in a && q in b && Above(p, q);
      assert p < q;
    }
    if p, q :| p in a && q in b && p < q {
      assert Above(p, q);
    }
    forall p, q | FileTree(a) && FileTree(b) && !Blocked(a, b) && p in Lay(a, b) && q in Lay(a, b) ensures !(p < q) {
      assert p < q <==> Above(p, q);
    }
  }

  // ---------------------------------------------------------------- outputs

  /** An output is a file or link at that path, or everything below it. */
  predicate Below(output: Path, path: Path) {
    output <= path
  }

  predicate OfOutputs(outputs: seq<Path>, path: Path) {
    exists o :: o in outputs && Below(o, path)
  }

  predicate Produced(output: Path, tree: Tree) {
    exists path :: path in tree && Below(output, path)
  }

  function Outputs(outputs: seq<Path>, tree: Tree): Tree {
    map path | path in tree && OfOutputs(outputs, path) :: tree[path]
  }

  /** In terms of paths: a declared output is there when some path is at it or below it, and all such
      paths, at any depth, belong to the outputs. */
  lemma OutputsAre(outputs: seq<Path>, tree: Tree)
    ensures forall o :: Produced(o, tree) <==> exists path :: path in tree && o <= path
    ensures forall path :: path in Seal(Outputs(outputs, tree)) <==>
              path in tree && exists o :: o in outputs && o <= path
    ensures forall path :: path in Outputs(outputs, tree) ==> Outputs(outputs, tree)[path] == tree[path]
  {
    forall path ensures OfOutputs(outputs, path) <==> exists o :: o in outputs && o <= path {
      if OfOutputs(outputs, path) {
        var o :| o in outputs && Below(o, path);
        assert o <= path;
      }
      if o :| o in outputs && o <= path {
        assert Below(o, path);
      }
    }
    forall o ensures Produced(o, tree) <==> exists path :: path in tree && o <= path {
      if Produced(o, tree) {
        var path :| path in tree && Below(o, path);
        assert o <= path;
      }
      if path :| path in tree && o <= path {
        assert Below(o, path);
      }
    }
  }

  /** The commands are run in the work tree; every declared output must then be there. */
  function Produce(cmd: Command, recipe: Recipe, given: Sources, work: Tree): Option<Tree> {
    match cmd(recipe, given, work)
    case None => None
    case Some(tree) =>
      if forall o :: o in recipe.outputs ==> Produced(o, tree) then Some(Outputs(recipe.outputs, tree)) else None
  }

  // ---------------------------------------------------------------- what a uid means

  /** The contents that the hashes are of. */
  function Contents(inputs: seq<Input>): Sources {
    if inputs == [] then map[]
    else
      var last := inputs[|inputs| - 1];
      Contents(inputs[..|inputs| - 1])[last.0 := last.1.data]
  }

  /** The outputs of any node with this uid, built from nothing. */
  function Meaning(cmd: Command, u: Uid): Option<Tree>
    decreases u
  {
    match MeaningOfAll(cmd, u.deps)
    case None => None
    case Some(work) => Produce(cmd, u.recipe, Contents(u.inputs), work)
  }

  /** The outputs of the dependencies laid over each other in their order. */
  function MeaningOfAll(cmd: Command, us: seq<Uid>): Option<Tree>
    decreases us
  {
    if us == [] then Some(map[])
    else
      match MeaningOfAll(cmd, us[..|us| - 1])
      case None => None
      case Some(below) =>
        match Meaning(cmd, us[|us| - 1])
        case None => None
        case Some(top) => Overlay(below, top)
  }

  /** Commands leave file trees, and files of the work tree with the same content are one file. */
  ghost predicate Physical(cmd: Command, rewrites: Rewrites) {
    && (forall recipe, given: Sources, work: Tree ::
          cmd(recipe, given, work).Some? ==> FileTree(cmd(recipe, given, work).value))
    && (forall recipe, given: Sources, work: Tree :: OneFile(work, rewrites(recipe, given, work)))
  }

  ghost predicate OneFile(work: Tree, written: Tree) {
    forall p, q :: WritesInto(work, written, p) && WritesInto(work, written, q) && work[p] == work[q]
               ==> written[p] == written[q]
  }

  predicate WritesInto(work: Tree, written: Tree, p: Path) {
    p in written && p in work && work[p].File?
  }

  /** What is written into the files given leaves them as they were. */
  ghost predicate Spares(work: Tree, written: Tree) {
    forall p :: WritesInto(work, written, p) ==> written[p] == work[p]
  }

  // ---------------------------------------------------------------- projects

  datatype Project = Project(g: Graph, recipes: map<Node, Recipe>, inputs: map<Node, seq<Path>>)

  ghost predicate ValidProject(p: Project) {
    Closed(p.g) && Acyclic(p.g) && p.recipes.Keys == p.g.Keys && p.inputs.Keys == p.g.Keys
  }

  /** All declared sources of everything below the node exist. */
  ghost predicate SourcesThere(p: Project, sources: Sources, n: Node)
    requires ValidProject(p)
  {
    forall m :: m in Reach(p.g, n) ==> HasSources(p, sources, m)
  }

  ghost predicate HasSources(p: Project, sources: Sources, n: Node)
    requires ValidProject(p)
  {
    n in p.g ==> forall path :: path in p.inputs[n] ==> path in sources
  }

  function Hashed(sources: Sources, paths: seq<Path>): seq<Input> {
    seq(|paths|, i requires 0 <= i < |paths| =>
      (paths[i], Md5(if paths[i] in sources then sources[paths[i]] else [])))
  }

  /** The declared sources of a node, as its commands read them; a missing one fails before. */
  function Declared(p: Project, sources: Sources, n: Node): Sources
    requires n in p.inputs
  {
    map path | path in p.inputs[n] :: if path in sources then sources[path] else []
  }

  lemma {:induction false} ContentsOfHashed(sources: Sources, paths: seq<Path>)
    ensures Contents(Hashed(sources, paths))
         == map path | path in paths :: if path in sources then sources[path] else []
    decreases |paths|
  {
    if paths != [] {
      var n := |paths| - 1;
      ContentsOfHashed(sources, paths[..n]);
      assert Hashed(sources, paths)[..n] == Hashed(sources, paths[..n]);
      LastDeclared(sources, paths, n);
    } else {
      assert Hashed(sources, paths) == [];
    }
  }

  lemma LastDeclared(sources: Sources, paths: seq<Path>, n: nat)
    requires |paths| == n + 1
    ensures (map path | path in paths :: if path in sources then sources[path] else [])
         == (map path | path in paths[..n] :: if path in sources then sources[path] else [])
            [paths[n] := if paths[n] in sources then sources[paths[n]] else []]
  {
    assert paths == paths[..n] + [paths[n]];
  }

  ghost function UidOf(p: Project, sources: Sources, n: Node): Uid
    requires ValidProject(p) && n in p.g
    decreases Reach(p.g, n), 1, 0
  {
    Uid(p.recipes[n], UidsOf(p, sources, n, |p.g[n]|), Hashed(sources, p.inputs[n]))
  }

  /** The uids of the first `k` dependencies. */
  ghost function UidsOf(p: Project, sources: Sources, n: Node, k: nat): seq<Uid>
    requires ValidProject(p) && n in p.g && k <= |p.g[n]|
    decreases Reach(p.g, n), 0, k
  {
    if k == 0 then []
    else
      AcyclicStep(p.g, n, p.g[n][k - 1]);
      UidsOf(p, sources, n, k - 1) + [UidOf(p, sources, p.g[n][k - 1])]
  }

  /** Building a node from nothing: first its dependencies, from nothing too. */
  ghost function CleanBuild(cmd: Command, p: Project, sources: Sources, n: Node): Option<Tree>
    requires ValidProject(p) && n in p.g
    decreases Reach(p.g, n), 1, 0
  {
    match CleanDeps(cmd, p, sources, n, |p.g[n]|)
    case None => None
    case Some(work) => Produce(cmd, p.recipes[n], Declared(p, sources, n), work)
  }

  ghost function CleanDeps(cmd: Command, p: Project, sources: Sources, n: Node, k: nat): Option<Tree>
    requires ValidProject(p) && n in p.g && k <= |p.g[n]|
    decreases Reach(p.g, n), 0, k
  {
    if k == 0 then Some(map[])
    else
      match CleanDeps(cmd, p, sources, n, k - 1)
      case None => None
      case Some(below) =>
        AcyclicStep(p.g, n, p.g[n][k - 1]);
        match CleanBuild(cmd, p, sources, p.g[n][k - 1])
        case None => None
        case Some(top) => Overlay(below, top)
  }

  /** A uid determines the clean build: nodes with equal uids, in any two projects and source
      trees, have equal outputs. */
  lemma {:induction false} MeaningIsClean(cmd: Command, p: Project, sources: Sources, n: Node)
    requires ValidProject(p) && n in p.g
    ensures Meaning(cmd, UidOf(p, sources, n)) == CleanBuild(cmd, p, sources, n)
    decreases Reach(p.g, n), 1, 0
  {
    hide Reach, Acyclic, Contents, Hashed;
    MeaningsAreClean(cmd, p, sources, n, |p.g[n]|);
    ContentsOfHashed(sources, p.inputs[n]);
  }

  lemma {:induction false} MeaningsAreClean(cmd: Command, p: Project, sources: Sources, n: Node, k: nat)
    requires ValidProject(p) && n in p.g && k <= |p.g[n]|
    ensures MeaningOfAll(cmd, UidsOf(p, sources, n, k)) == CleanDeps(cmd, p, sources, n, k)
    decreases Reach(p.g, n), 0, k
  {
    hide Reach, Acyclic, Produce, Overlay;
    if k > 0 {
      AcyclicStep(p.g, n, p.g[n][k - 1]);
      MeaningsAreClean(cmd, p, sources, n, k - 1);
      MeaningIsClean(cmd, p, sources, p.g[n][k - 1]);
      var us := UidsOf(p, sources, n, k);
      assert us[..|us| - 1] == UidsOf(p, sources, n, k - 1);
    }
  }

  lemma {:induction false} UidsAt(p: Project, sources: Sources, n: Node, k: nat, i: nat)
    requires ValidProject(p) && n in p.g && i < k <= |p.g[n]|
    ensures |UidsOf(p, sources, n, k)| == k
    ensures UidsOf(p, sources, n, k)[i] == UidOf(p, sources, p.g[n][i])
    decreases k
  {
    hide Reach, Acyclic;
    if i < k - 1 {
      UidsAt(p, sources, n, k - 1, i);
    } else if k > 1 {
      UidsAt(p, sources, n, k - 1, 0);
    }
  }

  // ---------------------------------------------------------------- manifests and blobs

  type Cas = map<Digest, Entry>

  /** The manifest of a tree. */
  function Seal(tree: Tree): Manifest {
    map path | path in tree :: SealEntry(tree[path])
  }

  function SealEntry(e: Entry): Item {
    match e
    case File(mode, data) => CasItem(Sha(mode, data), mode)
    case Link(target) => LinkItem(target)
  }

  /** What restoring a manifest puts into a tree: a link into the blob store where a blob is
      missing. */
  function Thaw(cas: Cas, m: Manifest): Tree {
    map path | path in m :: ThawItem(cas, m[path])
  }

  function ThawItem(cas: Cas, i: Item): Entry {
    match i
    case LinkItem(target) => Link(target)
    case CasItem(digest, _) => if digest in cas then cas[digest] else Link(Blob(digest))
  }

  /** Every blob is under the digest of its mode and bytes. */
  ghost predicate HonestCas(cas: Cas) {
    forall d :: d in cas ==> cas[d] == File(d.mode, d.data)
  }

  predicate ItemThere(cas: Cas, i: Item) {
    i.CasItem? ==> i.digest in cas
  }

  ghost predicate AllThere(cas: Cas, m: Manifest) {
    forall path :: path in m ==> ItemThere(cas, m[path])
  }

  /** Storing and restoring is the identity, with every blob present. */
  lemma ThawOfSeal(cas: Cas, tree: Tree)
    requires HonestCas(cas) && AllThere(cas, Seal(tree))
    ensures Thaw(cas, Seal(tree)) == tree
  {
    forall path | path in tree ensures ThawItem(cas, Seal(tree)[path]) == tree[path] {
      assert ItemThere(cas, Seal(tree)[path]);
    }
  }

  /** A missing blob is not noticed when a manifest is restored: what comes out is the sealed tree
      exactly when every blob is present. */
  lemma ThawIsRightIff(cas: Cas, tree: Tree)
    requires HonestCas(cas)
    ensures Thaw(cas, Seal(tree)) == tree <==> AllThere(cas, Seal(tree))
  {
    if Thaw(cas, Seal(tree)) == tree {
      forall path | path in Seal(tree) ensures ItemThere(cas, Seal(tree)[path]) {
        assert ThawItem(cas, SealEntry(tree[path])) == Thaw(cas, Seal(tree))[path];
      }
    } else if AllThere(cas, Seal(tree)) {
      ThawOfSeal(cas, tree);
    }
  }

  // ---------------------------------------------------------------- links into the blob store

  /** The tree as the build root gets it: every file a link to its blob. */
  function Linked(tree: Tree): Tree {
    Thaw(map[], Seal(tree))
  }

  /** What is read at each path. */
  function Read(cas: Cas, tree: Tree): Tree {
    map path | path in tree :: ReadEntry(cas, tree[path])
  }

  function ReadEntry(cas: Cas, e: Entry): Entry {
    match e
    case File(_, _) => e
    case Link(Elsewhere(_)) => e
    case Link(Blob(digest)) => if digest in cas then cas[digest] else e
  }

  /** Through the links one reads what the tree itself reads as exactly when all its blobs are
      there. */
  lemma LinkedReadsIff(cas: Cas, tree: Tree)
    requires HonestCas(cas)
    ensures Read(cas, Linked(tree)) == Read(cas, tree) <==> AllThere(cas, Seal(tree))
  {
    var linked := Linked(tree);
    assert forall path :: path in tree ==> linked[path] == ThawItem(map[], SealEntry(tree[path]));
    if Read(cas, linked) == Read(cas, tree) {
      forall path | path in Seal(tree) ensures ItemThere(cas, Seal(tree)[path]) {
        assert ReadEntry(cas, linked[path]) == Read(cas, linked)[path];
        assert ReadEntry(cas, tree[path]) == Read(cas, tree)[path];
      }
    }
    if AllThere(cas, Seal(tree)) {
      forall path | path in tree ensures ReadEntry(cas, linked[path]) == ReadEntry(cas, tree[path]) {
        assert ItemThere(cas, Seal(tree)[path]);
      }
    }
  }
}

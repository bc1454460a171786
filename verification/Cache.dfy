/** build, `Executor._cached`, `_store`, `_restore` and `_execute`: the content-addressed cache. */
module Cache {
  import opened Artifacts
  import opened Options

  /** What a build from nothing of any node with that uid makes. */
  ghost predicate SoundManifest(cmd: Command, u: Uid, m: Manifest) {
    Meaning(cmd, u).Some? && m == Seal(Meaning(cmd, u).value)
  }

  ghost predicate SoundAll(cmd: Command, uids: map<Uid, Manifest>) {
    forall v :: v in uids ==> SoundManifest(cmd, v, uids[v])
  }

  /** The manifests of the dependencies over each other, in their order; an unknown uid or a file
      where a directory is needed is an error. */
  ghost function FilesOf(uids: map<Uid, Manifest>, us: seq<Uid>): Option<Manifest>
    decreases |us|
  {
    if us == [] then Some(map[])
    else
      match FilesOf(uids, us[..|us| - 1])
      case None => None
      case Some(below) =>
        if us[|us| - 1] in uids then Overlay(below, uids[us[|us| - 1]]) else None
  }

  /** Blobs are added, each under the digest of what it holds. */
  ghost predicate Grown(cas0: Cas, cas: Cas) {
    && (forall d :: d in cas0 ==> d in cas && cas[d] == cas0[d])
    && (forall d :: d in cas && d !in cas0 ==> cas[d] == File(d.mode, d.data))
  }

  /** The path is a hard link to the blob, and the command writes into it. */
  predicate Hits(files: Manifest, written: Tree, p: Path, d: Digest) {
    p in written && p in files && files[p].CasItem? && files[p].digest == d
  }

  /** What is written into the files of the work tree is written into their blobs. */
  ghost predicate WrittenThrough(cas0: Cas, cas: Cas, files: Manifest, written: Tree) {
    && cas.Keys == cas0.Keys
    && (forall d :: d in cas0 ==> BlobAfter(cas0, files, written, d, cas[d]))
  }

  ghost predicate BlobAfter(cas0: Cas, files: Manifest, written: Tree, d: Digest, e: Entry)
    requires d in cas0
  {
    || (e == cas0[d] && forall p :: !Hits(files, written, p, d))
    || (exists p :: Hits(files, written, p, d) && e == written[p])
  }

  /** Nothing that was intact is lost. */
  ghost predicate Keeps(cas0: Cas, uids0: map<Uid, Manifest>, cas: Cas, uids: map<Uid, Manifest>) {
    forall v :: v in uids0 && AllThere(cas0, uids0[v]) ==> v in uids && uids[v] == uids0[v] && AllThere(cas, uids[v])
  }

  /** Manifests only disappear. */
  ghost predicate Fewer(uids0: map<Uid, Manifest>, uids: map<Uid, Manifest>) {
    forall v :: v in uids ==> v in uids0 && uids[v] == uids0[v]
  }

  /** What a run of the commands of `u` in the restored files does to the cache. */
  ghost predicate Ran(cmd: Command, rewrites: Rewrites, u: Uid, flaky: bool, files: Manifest, cas0: Cas,
                      uids0: map<Uid, Manifest>, cas: Cas, uids: map<Uid, Manifest>, ok: bool) {
    var work := Thaw(cas0, files);
    var made := Produce(cmd, u.recipe, Contents(u.inputs), work);
    && (exists mid :: WrittenThrough(cas0, mid, files, rewrites(u.recipe, Contents(u.inputs), work)) && Grown(mid, cas))
    && ok == (!flaky && made.Some?)
    && uids == (if ok then (uids0 - {u})[u := Seal(made.value)] else uids0 - {u})
    && (ok ==> AllThere(cas, Seal(made.value)))
  }

  /** The commands of `u` leave the files of its dependencies as they are. */
  ghost predicate CarefulWith(cmd: Command, rewrites: Rewrites, u: Uid) {
    match MeaningOfAll(cmd, u.deps)
    case None => true
    case Some(work) => Spares(work, rewrites(u.recipe, Contents(u.inputs), work))
  }

  /** The items whose turn has come. */
  function Without(m: Manifest, todo: set<Path>): Manifest {
    map path | path in m && path !in todo :: m[path]
  }

  class Cache {
    const cmd: Command
    const rewrites: Rewrites
    var cas: Cas
    var uids: map<Uid, Manifest>

    constructor (cmd: Command, rewrites: Rewrites)
      requires Physical(cmd, rewrites)
      ensures this.cmd == cmd && this.rewrites == rewrites && cas == map[] && uids == map[] && Sound()
    {
      this.cmd, this.rewrites, cas, uids := cmd, rewrites, map[], map[];
    }

    /** Commands behave as on a file system, and manifests are of file trees. */
    ghost predicate Valid()
      reads this
    {
      Physical(cmd, rewrites) && forall u :: u in uids ==> FileTree(uids[u])
    }

    /** Every blob is what its digest says, and every manifest is what a build from nothing of a
        node with that uid makes. */
    ghost predicate Sound()
      reads this
    {
      Valid() && HonestCas(cas) && SoundAll(cmd, uids)
    }

    /** The manifest is there with all its blobs. */
    ghost predicate Intact(u: Uid)
      reads this
    {
      u in uids && AllThere(cas, uids[u])
    }

    ghost predicate AllIntact(us: seq<Uid>)
      reads this
    {
      forall v :: v in us ==> Intact(v)
    }

    /** What a miss comes to, from the cache as it was. */
    ghost predicate Missed(cas0: Cas, uids0: map<Uid, Manifest>, u: Uid, flaky: bool, ok: bool, ran: bool)
      reads this
    {
      match FilesOf(uids0 - {u}, u.deps)
      case None => !ok && !ran && cas == cas0 && Fewer(uids0 - {u}, uids)
      case Some(files) => ran && Ran(cmd, rewrites, u, flaky, files, cas0, uids0, cas, uids, ok)
    }

    /** What is there of the dependencies is there with all its blobs. */
    ghost predicate Whole(us: seq<Uid>)
      reads this
    {
      forall v :: v in us && v in uids ==> AllThere(cas, uids[v])
    }

    /** `_cached`: a manifest with a missing blob is dropped. */
    method Cached(u: Uid) returns (hit: bool)
      modifies this`uids
      ensures hit <==> old(Intact(u))
      ensures uids == if hit then old(uids) else old(uids) - {u}
    {
      if u !in uids {
        return false;
      }
      var m := uids[u];
      var todo := m.Keys;
      while todo != {}
        invariant todo <= m.Keys && uids == old(uids)
        invariant forall path :: path in m && path !in todo ==> ItemThere(cas, m[path])
      {
        var path :| path in todo;
        if !ItemThere(cas, m[path]) {
          uids := uids - {u};
          return false;
        }
        todo := todo - {path};
      }
      hit := true;
    }

    /** `_restore`: an unknown uid, or a file where a directory is needed, is an error and drops the
        manifest; a missing blob is not noticed. With `symlink` every file becomes a link to its
        blob, otherwise only one whose blob is missing. */
    method Restore(u: Uid, where: Tree, symlink: bool) returns (ok: bool, out: Tree)
      requires u in uids ==> FileTree(uids[u])
      modifies this`uids
      ensures ok <==> u in old(uids) && !Blocked(where, old(uids)[u])
      ensures ok ==> uids == old(uids) && out == Lay(where, Thaw(if symlink then map[] else cas, uids[u]))
      ensures !ok ==> uids == old(uids) - {u}
    {
      hide Lay, Thaw, Blocked;
      out := where;
      if u !in uids {
        uids := uids - {u};
        return false, out;
      }
      var m := uids[u];
      var todo := m.Keys;
      ghost var given: Cas := if symlink then map[] else cas;
      NothingLaid(given, where, m);
      while todo != {}
        invariant todo <= m.Keys && uids == old(uids)
        invariant out == Lay(where, Thaw(given, Without(m, todo))) && !Blocked(where, Without(m, todo))
      {
        var path :| path in todo;
        LayOne(given, where, m, todo, path, out);
        if exists q :: q in out && Above(q, path) {
          uids := uids - {u};
          return false, out;
        }
        var entry := match m[path]
          case LinkItem(target) => Link(target)
          case CasItem(digest, _) => if !symlink && digest in cas then cas[digest] else Link(Blob(digest));
        out := (map q | q in out && !Above(path, q) :: out[q])[path := entry];
        todo := todo - {path};
      }
      assert Without(m, todo) == m;
      ok := true;
    }

    /** `_store_path` for one file or link below an output. */
    method StorePath(path: Path, tree: Tree, m0: Manifest) returns (m: Manifest)
      requires path in tree
      modifies this`cas
      ensures Grown(old(cas), cas)
      ensures m == m0[path := SealEntry(tree[path])] && ItemThere(cas, m[path])
    {
      match tree[path] {
        case Link(target) =>
          m := m0[path := LinkItem(target)];
        case File(mode, data) =>
          var digest := Sha(mode, data);
          if digest !in cas {
            cas := cas[digest := tree[path]];
          }
          m := m0[path := CasItem(digest, mode)];
      }
    }

    /** `_store`: the files below every output go to the blob store, then the manifest is
        written; an output that was not produced is an error and nothing is recorded. */
    method Store(u: Uid, tree: Tree) returns (ok: bool)
      modifies this
      ensures Grown(old(cas), cas)
      ensures ok <==> forall o :: o in u.recipe.outputs ==> Produced(o, tree)
      ensures ok <==> forall o :: o in u.recipe.outputs ==> exists path :: path in tree && o <= path
      ensures ok ==> u in uids && forall path :: path in uids[u] <==>
                path in tree && exists o :: o in u.recipe.outputs && o <= path
      ensures ok ==> uids == old(uids)[u := Seal(Outputs(u.recipe.outputs, tree))] && Intact(u)
      ensures !ok ==> uids == old(uids)
    {
      hide AllThere, Grown, Outputs, Seal, Produced;
      var m: Manifest := map[];
      OutputsAre(u.recipe.outputs, tree);
      var outputs := u.recipe.outputs;
      NoOutputs(cas, tree);
      NotGrown(cas);
      assert outputs[..0] == [];
      for k := 0 to |outputs|
        invariant Grown(old(cas), cas) && uids == old(uids)
        invariant m == Seal(Outputs(outputs[..k], tree)) && AllThere(cas, m)
        invariant forall i :: 0 <= i < k ==> Produced(outputs[i], tree)
      {
        var below := set path | path in tree && Below(outputs[k], path);
        assert Produced(outputs[k], tree) <==> below != {} by {
          ProducedIsBelow(outputs[k], tree, below);
        }
        if below == {} {
          return false;
        }
        ghost var cas0 := cas;
        m := StoreBelow(below, tree, m);
        GrownTwice(old(cas), cas0, cas);
        OutputsGrow(outputs, k, tree, below);
      }
      assert outputs[..|outputs|] == outputs;
      uids := uids[u := m];
      ok := true;
    }

    method StoreBelow(below: set<Path>, tree: Tree, m0: Manifest) returns (m: Manifest)
      requires below <= tree.Keys && AllThere(cas, m0)
      modifies this`cas
      ensures Grown(old(cas), cas)
      ensures m == m0 + Seal(map path | path in below :: tree[path]) && AllThere(cas, m)
    {
      hide AllThere, Grown;
      m := m0;
      var todo := below;
      NotGrown(cas);
      while todo != {}
        invariant todo <= below && Grown(old(cas), cas)
        invariant Merged(m0, tree, below - todo, m)
        invariant AllThere(cas, m)
      {
        var path :| path in todo;
        ghost var cas0, m1 := cas, m;
        m := StorePath(path, tree, m);
        GrownTwice(old(cas), cas0, cas);
        AllThereGrows(cas0, cas, m1, m, path);
        todo := todo - {path};
      }
      assert below - todo == below;
      MergedIs(m0, tree, below, m);
    }

    /** What a command does to the files of its work tree that are hard links to blobs. */
    method WriteThrough(files: Manifest, written: Tree)
      modifies this`cas
      ensures WrittenThrough(old(cas), cas, files, written)
    {
      var todo := written.Keys;
      while todo != {}
        invariant todo <= written.Keys
        invariant WrittenThrough(old(cas), cas, files, (map p | p in written && p !in todo :: written[p]))
      {
        var path :| path in todo;
        ghost var before := cas;
        if path in files && files[path].CasItem? && files[path].digest in cas {
          cas := cas[files[path].digest := written[path]];
        }
        OneWritten(old(cas), before, cas, files, written, todo, path);
        todo := todo - {path};
      }
      assert (map p | p in written && p !in todo :: written[p]) == written;
    }

    /** The outputs of the dependencies, restored in order into an empty work tree. */
    method RestoreAll(us: seq<Uid>) returns (ok: bool, work: Tree, files: Manifest)
      requires Valid()
      modifies this`uids
      ensures Valid() && Fewer(old(uids), uids)
      ensures ok <==> FilesOf(old(uids), us).Some?
      ensures ok ==> uids == old(uids) && Some(files) == FilesOf(uids, us) && work == Thaw(cas, files)
    {
      hide Lay, Thaw, Blocked;
      work, files := map[], map[];
      NothingThawed(cas);
      for k := 0 to |us|
        invariant uids == old(uids) && FilesOf(uids, us[..k]) == Some(files) && work == Thaw(cas, files)
      {
        assert us[..k + 1][..k] == us[..k];
        if FilesOf(uids, us[..k + 1]).None? {
          FilesStop(uids, us, k + 1);
        }
        ThawOfLaid(cas, files, if us[k] in uids then uids[us[k]] else map[]);
        ok, work := Restore(us[k], work, false);
        if !ok {
          return;
        }
        files := Lay(files, uids[us[k]]);
      }
      assert us[..|us|] == us;
      ok := true;
    }

    // -------------------------------------------------------------- one node

    /** `_execute` of a node, which its uid describes: its commands, its hashed sources and the
        uids of its dependencies. With the manifest and all blobs in the cache no command is run.
        Otherwise the dependencies are restored in order, the commands run in that tree, and the
        outputs stored. In a sound cache a stored manifest is what a build from nothing makes, and
        the cache stays sound exactly when the commands leave the files they were given alone. */
    method Execute(u: Uid, flaky: bool) returns (ok: bool, ran: bool)
      requires Valid()
      modifies this
      ensures Valid() && cas.Keys >= old(cas.Keys)
      ensures forall v :: v != u && v in uids ==> v in old(uids) && uids[v] == old(uids)[v]
      ensures old(Intact(u)) ==> ok && !ran && cas == old(cas) && uids == old(uids)
      ensures !old(Intact(u)) ==> Missed(old(cas), old(uids), u, flaky, ok, ran)
      ensures old(Sound() && Whole(u.deps)) ==> (Sound() <==> !ran || CarefulWith(cmd, rewrites, u))
      ensures old(Sound() && Whole(u.deps)) && ok ==> Meaning(cmd, u).Some?
      ensures old(Sound() && AllIntact(u.deps)) && !flaky && Meaning(cmd, u).Some? ==> ok
      ensures ok ==> Intact(u) && Keeps(old(cas), old(uids), cas, uids)
      ensures !ok ==> u !in uids
    {
      hide Lay, Thaw, Blocked, AllThere, HonestCas, FilesOf, SoundManifest, Seal, Meaning, MeaningOfAll, Produce, Keeps,
        Physical, WrittenThrough, Grown, Spares;
      ghost var cas0, uids0 := cas, uids;
      SoundIsBuilt(cmd, u, uids);
      KeepsAll(cas, uids);
      var hit := Cached(u);
      if hit {
        return true, false;
      }
      var known, work, files := RestoreAll(u.deps);
      if !known {
        UnknownFails(cmd, cas0, uids0, u);
        return false, false;
      }
      ran := true;
      WriteThrough(files, rewrites(u.recipe, Contents(u.inputs), work));
      ghost var mid := cas;
      var result := cmd(u.recipe, Contents(u.inputs), work);
      if flaky || result.None? {
        NotGrown(cas);
        ok := false;
      } else {
        ok := Store(u, result.value);
      }
      ProduceMeans(cmd, u.recipe, Contents(u.inputs), work);
      assert Ran(cmd, rewrites, u, flaky, files, cas0, uids0, cas, uids, ok);
      RanKeeps(cmd, rewrites, u, flaky, files, cas0, uids0, cas, uids, ok);
      if old(Sound() && Whole(u.deps)) {
        RanSoundly(cmd, rewrites, u, flaky, files, cas0, uids0, cas, uids, ok);
      }
    }
  }

  /** `m0` with the entries of the paths in `done`. */
  ghost predicate Merged(m0: Manifest, tree: Tree, done: set<Path>, m: Manifest)
    requires done <= tree.Keys
  {
    && m.Keys == m0.Keys + done
    && (forall path :: path in m ==> m[path] == if path in done then SealEntry(tree[path]) else m0[path])
  }

  lemma MergedIs(m0: Manifest, tree: Tree, done: set<Path>, m: Manifest)
    requires done <= tree.Keys && Merged(m0, tree, done, m)
    ensures m == m0 + Seal(map path | path in done :: tree[path])
  {
  }

  lemma AllThereGrows(cas0: Cas, cas: Cas, m0: Manifest, m: Manifest, path: Path)
    requires AllThere(cas0, m0) && cas.Keys >= cas0.Keys
    requires path in m && m == m0[path := m[path]] && ItemThere(cas, m[path])
    ensures AllThere(cas, m)
  {
    forall q | q in m ensures ItemThere(cas, m[q]) {
      if q != path {
        assert ItemThere(cas0, m0[q]);
      }
    }
  }

  lemma NoOutputs(cas: Cas, tree: Tree)
    ensures Seal(Outputs([], tree)) == map[] && AllThere(cas, map[])
  {
  }

  lemma ProducedIsBelow(output: Path, tree: Tree, below: set<Path>)
    requires below == set path | path in tree && Below(output, path)
    ensures Produced(output, tree) <==> below != {}
  {
    if Produced(output, tree) {
      var path :| path in tree && Below(output, path);
      assert path in below;
    }
    if below != {} {
      var path :| path in below;
      assert path in tree && Below(output, path);
    }
  }

  lemma OutputsGrow(outputs: seq<Path>, k: nat, tree: Tree, below: set<Path>)
    requires k < |outputs| && below == set path | path in tree && Below(outputs[k], path)
    ensures Seal(Outputs(outputs[..k + 1], tree))
         == Seal(Outputs(outputs[..k], tree)) + Seal(map path | path in below :: tree[path])
  {
    forall path | path in tree
      ensures OfOutputs(outputs[..k + 1], path) <==> OfOutputs(outputs[..k], path) || path in below
    {
      assert outputs[..k + 1] == outputs[..k] + [outputs[k]];
      if OfOutputs(outputs[..k + 1], path) {
        var o :| o in outputs[..k + 1] && Below(o, path);
        assert o in outputs[..k] || o == outputs[k];
      }
      if path in below {
        assert outputs[k] in outputs[..k + 1];
      }
    }
  }

  // ---------------------------------------------------------------- restoring

  lemma NothingLaid(cas: Cas, where: Tree, m: Manifest)
    ensures Lay(where, Thaw(cas, Without(m, m.Keys))) == where && !Blocked(where, Without(m, m.Keys))
  {
    assert Without(m, m.Keys) == map[];
  }

  lemma LayOne(cas: Cas, where: Tree, m: Manifest, todo: set<Path>, path: Path, out: Tree)
    requires FileTree(m) && todo <= m.Keys && path in todo
    requires out == Lay(where, Thaw(cas, Without(m, todo))) && !Blocked(where, Without(m, todo))
    ensures (exists q :: q in out && Above(q, path)) ==> Blocked(where, m)
    ensures (forall q :: q in out ==> !Above(q, path)) ==>
              && !Blocked(where, Without(m, todo - {path}))
              && Lay(where, Thaw(cas, Without(m, todo - {path})))
                 == (map q | q in out && !Above(path, q) :: out[q])[path := ThawItem(cas, m[path])]
  {
    hide Lay, Thaw, Covered, Blocked;
    if q :| q in out && Above(q, path) {
      LaidIsBelow(cas, where, m, todo, path, q);
    }
    if forall q :: q in out ==> !Above(q, path) {
      NotBlockedByOne(cas, where, m, todo, path);
      LayOneMore(cas, where, m, todo, path);
    }
  }

  lemma LaidIsBelow(cas: Cas, where: Tree, m: Manifest, todo: set<Path>, path: Path, q: Path)
    requires FileTree(m) && todo <= m.Keys && path in todo
    requires q in Lay(where, Thaw(cas, Without(m, todo))) && Above(q, path)
    ensures Blocked(where, m)
  {
    hide ThawItem;
    assert q in where;
  }

  lemma NotBlockedByOne(cas: Cas, where: Tree, m: Manifest, todo: set<Path>, path: Path)
    requires FileTree(m) && todo <= m.Keys && path in todo && !Blocked(where, Without(m, todo))
    requires forall q :: q in Lay(where, Thaw(cas, Without(m, todo))) ==> !Above(q, path)
    ensures !Blocked(where, Without(m, todo - {path}))
  {
    hide ThawItem;
    var part := Without(m, todo);
    forall q | q in where ensures !Above(q, path) {
      if Above(q, path) && Covered(q, Thaw(cas, part)) {
        var p :| p in Thaw(cas, part) && Above(p, q);
        assert p in m;
        AboveIsTransitive(p, q, path);
      }
    }
    forall p, q | p in where && q in Without(m, todo - {path}) ensures !Above(p, q) {
      if q != path {
        assert q in part;
      }
    }
  }

  lemma LayOneMore(cas: Cas, where: Tree, m: Manifest, todo: set<Path>, path: Path)
    requires FileTree(m) && todo <= m.Keys && path in todo
    ensures Lay(where, Thaw(cas, Without(m, todo - {path})))
         == var out := Lay(where, Thaw(cas, Without(m, todo)));
            (map q | q in out && !Above(path, q) :: out[q])[path := ThawItem(cas, m[path])]
  {
    hide ThawItem, Lay;
    var part := Without(m, todo);
    assert Without(m, todo - {path}) == part[path := m[path]];
    assert Thaw(cas, part[path := m[path]]) == Thaw(cas, part)[path := ThawItem(cas, m[path])];
    forall q | q in Thaw(cas, part) ensures !Above(path, q) {
      assert q in m;
    }
    LayOneEntry(where, Thaw(cas, part), path, ThawItem(cas, m[path]));
  }

  lemma LayOneEntry(a: Tree, b: Tree, path: Path, e: Entry)
    requires path !in b && forall q :: q in b ==> !Above(path, q)
    ensures Lay(a, b[path := e]) == (map q | q in Lay(a, b) && !Above(path, q) :: Lay(a, b)[q])[path := e]
  {
    forall q ensures Covered(q, b[path := e]) <==> Covered(q, b) || Above(path, q) {
      CoveredByMore(b, path, e, q);
    }
  }

  lemma AboveIsTransitive(p: Path, q: Path, r: Path)
    requires Above(p, q) && Above(q, r)
    ensures Above(p, r)
  {
  }

  lemma CoveredByMore(b: Tree, path: Path, e: Entry, q: Path)
    ensures Covered(q, b[path := e]) <==> Covered(q, b) || Above(path, q)
  {
    var more := b[path := e];
    if Covered(q, b) {
      var p :| p in b && Above(p, q);
      assert p in more;
    }
    if Above(path, q) {
      assert path in more;
    }
  }

  /** Restoring does not look at what is restored, only at where. */
  lemma ThawOfLaid(cas: Cas, a: Manifest, b: Manifest)
    ensures Blocked(Thaw(cas, a), b) <==> Blocked(a, b)
    ensures Blocked(Thaw(cas, a), Thaw(cas, b)) <==> Blocked(a, b)
    ensures Lay(Thaw(cas, a), Thaw(cas, b)) == Thaw(cas, Lay(a, b))
  {
    hide ThawItem;
    assert Thaw(cas, a).Keys == a.Keys && Thaw(cas, b).Keys == b.Keys;
    SameKeysSameBlocks(Thaw(cas, a), a, Thaw(cas, b), b);
    SameKeysSameBlocks(Thaw(cas, a), a, b, b);
    forall q ensures Covered(q, Thaw(cas, b)) <==> Covered(q, b) {
      SameKeysSameCover(q, Thaw(cas, b), b);
    }
  }

  lemma SameKeysSameCover<V, W>(q: Path, b: map<Path, V>, b2: map<Path, W>)
    requires b.Keys == b2.Keys
    ensures Covered(q, b) <==> Covered(q, b2)
  {
    if Covered(q, b) {
      var p :| p in b && Above(p, q);
      assert p in b2;
    }
    if Covered(q, b2) {
      var p :| p in b2 && Above(p, q);
      assert p in b;
    }
  }

  lemma SameKeysSameBlocks<V, W, X, Y>(a: map<Path, V>, a2: map<Path, W>, b: map<Path, X>, b2: map<Path, Y>)
    requires a.Keys == a2.Keys && b.Keys == b2.Keys
    ensures Blocked(a, b) <==> Blocked(a2, b2)
  {
    if Blocked(a, b) {
      var p, q :| p in a && q in b && Above(p, q);
      assert p in a2 && q in b2;
    }
    if Blocked(a2, b2) {
      var p, q :| p in a2 && q in b2 && Above(p, q);
      assert p in a && q in b;
    }
  }

  lemma NothingThawed(cas: Cas)
    ensures Thaw(cas, map[]) == map[]
  {
  }

  /** An error in the first dependencies is one in all. */
  lemma {:induction false} FilesStop(uids: map<Uid, Manifest>, us: seq<Uid>, k: nat)
    requires k <= |us| && FilesOf(uids, us[..k]).None?
    ensures FilesOf(uids, us).None?
    decreases |us| - k
  {
    if k == |us| {
      assert us[..k] == us;
    } else {
      assert us[..k + 1][..k] == us[..k];
      FilesStop(uids, us, k + 1);
    }
  }

  // ---------------------------------------------------------------- blobs

  lemma NotGrown(cas: Cas)
    ensures Grown(cas, cas)
  {
  }

  lemma GrownTwice(a: Cas, b: Cas, c: Cas)
    requires Grown(a, b) && Grown(b, c)
    ensures Grown(a, c) && a.Keys <= b.Keys <= c.Keys
  {
  }

  lemma GrownIsAsHonest(a: Cas, b: Cas)
    requires Grown(a, b)
    ensures HonestCas(a) <==> HonestCas(b)
  {
    if HonestCas(b) {
      forall d | d in a ensures a[d] == File(d.mode, d.data) {
        assert d in b;
      }
    }
  }

  lemma OneWritten(cas0: Cas, before: Cas, after: Cas, files: Manifest, written: Tree, todo: set<Path>, path: Path)
    requires todo <= written.Keys && path in todo
    requires WrittenThrough(cas0, before, files, (map p | p in written && p !in todo :: written[p]))
    requires after == if path in files && files[path].CasItem? && files[path].digest in before
                      then before[files[path].digest := written[path]] else before
    ensures WrittenThrough(cas0, after, files, (map p | p in written && p !in todo - {path} :: written[p]))
  {
    var some := map p | p in written && p !in todo :: written[p];
    var more := map p | p in written && p !in todo - {path} :: written[p];
    forall d | d in cas0 ensures BlobAfter(cas0, files, more, d, after[d]) {
      assert BlobAfter(cas0, files, some, d, before[d]);
      if path in files && files[path].CasItem? && files[path].digest == d {
        assert Hits(files, more, path, d);
      } else if p :| Hits(files, some, p, d) && before[d] == some[p] {
        assert Hits(files, more, p, d);
      } else {
        forall p ensures !Hits(files, more, p, d) {
          assert !Hits(files, some, p, d);
        }
      }
    }
  }

  /** Blobs stay what their digests say exactly when what is written is what was there. */
  lemma HonestIffSpared(cas0: Cas, mid: Cas, files: Manifest, written: Tree)
    requires HonestCas(cas0) && AllThere(cas0, files) && WrittenThrough(cas0, mid, files, written)
    requires OneFile(Thaw(cas0, files), written)
    ensures HonestCas(mid) <==> Spares(Thaw(cas0, files), written)
  {
    var work := Thaw(cas0, files);
    forall p, d | Hits(files, written, p, d)
      ensures d in cas0 && WritesInto(work, written, p) && work[p] == File(d.mode, d.data)
    {
      assert ItemThere(cas0, files[p]);
    }
    if HonestCas(mid) {
      forall p | WritesInto(work, written, p) ensures written[p] == work[p] {
        var d := files[p].digest;
        assert Hits(files, written, p, d) && BlobAfter(cas0, files, written, d, mid[d]);
        var q :| Hits(files, written, q, d) && mid[d] == written[q];
        assert WritesInto(work, written, q) && work[q] == work[p];
      }
    }
    if Spares(work, written) {
      forall d | d in mid ensures mid[d] == File(d.mode, d.data) {
        assert BlobAfter(cas0, files, written, d, mid[d]);
      }
    }
  }

  // ---------------------------------------------------------------- what a run makes

  lemma SoundIsBuilt(cmd: Command, u: Uid, uids: map<Uid, Manifest>)
    ensures u in uids && SoundManifest(cmd, u, uids[u]) ==> Meaning(cmd, u).Some?
  {
  }

  lemma KeepsAll(cas: Cas, uids: map<Uid, Manifest>)
    ensures Keeps(cas, uids, cas, uids)
  {
  }

  lemma ThereOfMore(cas: Cas, cas2: Cas, m: Manifest)
    requires AllThere(cas, m) && cas.Keys <= cas2.Keys
    ensures AllThere(cas2, m)
  {
    forall path | path in m ensures ItemThere(cas2, m[path]) {
      assert ItemThere(cas, m[path]);
    }
  }

  lemma MeaningOfIntact(cmd: Command, cas: Cas, v: Uid, m: Manifest)
    requires HonestCas(cas) && AllThere(cas, m) && SoundManifest(cmd, v, m)
    ensures Meaning(cmd, v) == Some(Thaw(cas, m))
  {
    hide Meaning;
    ThawOfSeal(cas, Meaning(cmd, v).value);
  }

  lemma MeaningOfMore(cmd: Command, us: seq<Uid>)
    requires us != []
    ensures MeaningOfAll(cmd, us)
         == (match MeaningOfAll(cmd, us[..|us| - 1])
             case None => None
             case Some(below) =>
               match Meaning(cmd, us[|us| - 1])
               case None => None
               case Some(top) => Overlay(below, top))
  {
    hide Meaning, Overlay;
  }

  /** With honest blobs and sound manifests, all there, the restored files are what the uids of the
      dependencies mean. */
  lemma {:induction false} FilesMean(cmd: Command, cas: Cas, uids: map<Uid, Manifest>, us: seq<Uid>)
    requires HonestCas(cas)
    requires forall v :: v in us && v in uids ==> SoundManifest(cmd, v, uids[v]) && AllThere(cas, uids[v])
    ensures FilesOf(uids, us).Some? ==>
              && MeaningOfAll(cmd, us) == Some(Thaw(cas, FilesOf(uids, us).value))
              && AllThere(cas, FilesOf(uids, us).value)
    ensures MeaningOfAll(cmd, us).Some? && (forall v :: v in us ==> v in uids) ==> FilesOf(uids, us).Some?
    decreases |us|
  {
    hide Meaning, AllThere, HonestCas, SoundManifest, Thaw, Lay, Blocked, MeaningOfAll;
    if us == [] {
      NoFiles(cmd, cas);
    } else {
      var us0, u := us[..|us| - 1], us[|us| - 1];
      FilesMean(cmd, cas, uids, us0);
      MeaningOfMore(cmd, us);
      if FilesOf(uids, us0).Some? && u in uids {
        MeaningOfIntact(cmd, cas, u, uids[u]);
        ThawOfLaid(cas, FilesOf(uids, us0).value, uids[u]);
        ThereOfLaid(cas, FilesOf(uids, us0).value, uids[u]);
      }
    }
  }

  lemma NoFiles(cmd: Command, cas: Cas)
    ensures MeaningOfAll(cmd, []) == Some(map[]) && Thaw(cas, map[]) == map[] && AllThere(cas, map[])
  {
  }

  lemma ThereOfLaid(cas: Cas, a: Manifest, b: Manifest)
    requires AllThere(cas, a) && AllThere(cas, b)
    ensures AllThere(cas, Lay(a, b))
  {
    forall path | path in Lay(a, b) ensures ItemThere(cas, Lay(a, b)[path]) {
      if path in b {
        assert ItemThere(cas, b[path]);
      } else {
        assert ItemThere(cas, a[path]);
      }
    }
  }

  lemma ProduceMeans(cmd: Command, recipe: Recipe, given: Sources, work: Tree)
    ensures var made := cmd(recipe, given, work);
            Produce(cmd, recipe, given, work)
            == if made.Some? && forall o :: o in recipe.outputs ==> Produced(o, made.value)
               then Some(Outputs(recipe.outputs, made.value)) else None
  {
  }

  lemma SealedIsFileTree(cmd: Command, rewrites: Rewrites, recipe: Recipe, given: Sources, work: Tree)
    requires Physical(cmd, rewrites) && Produce(cmd, recipe, given, work).Some?
    ensures FileTree(Seal(Produce(cmd, recipe, given, work).value))
  {
  }

  /** A run takes nothing from the blobs and no manifest but its own. */
  lemma RanKeeps(cmd: Command, rewrites: Rewrites, u: Uid, flaky: bool, files: Manifest, cas0: Cas,
                 uids0: map<Uid, Manifest>, cas: Cas, uids: map<Uid, Manifest>, ok: bool)
    requires Ran(cmd, rewrites, u, flaky, files, cas0, uids0, cas, uids, ok) && Physical(cmd, rewrites)
    requires !(u in uids0 && AllThere(cas0, uids0[u])) && forall v :: v in uids0 ==> FileTree(uids0[v])
    ensures cas0.Keys <= cas.Keys && Keeps(cas0, uids0, cas, uids) && forall v :: v in uids ==> FileTree(uids[v])
  {
    hide AllThere, Seal, Produce, Thaw, Physical, FileTree;
    var work := Thaw(cas0, files);
    if ok {
      SealedIsFileTree(cmd, rewrites, u.recipe, Contents(u.inputs), work);
    }
    forall v | v in uids0 && AllThere(cas0, uids0[v])
      ensures v in uids && uids[v] == uids0[v] && AllThere(cas, uids[v])
    {
      ThereOfMore(cas0, cas, uids0[v]);
    }
  }

  /** In a sound cache with all that is there of the dependencies whole, a run stores what a build
      from nothing makes, and keeps the blobs honest exactly when the commands spare their files. */
  lemma RanSoundly(cmd: Command, rewrites: Rewrites, u: Uid, flaky: bool, files: Manifest, cas0: Cas,
                   uids0: map<Uid, Manifest>, cas: Cas, uids: map<Uid, Manifest>, ok: bool)
    requires Ran(cmd, rewrites, u, flaky, files, cas0, uids0, cas, uids, ok) && Physical(cmd, rewrites)
    requires HonestCas(cas0) && SoundAll(cmd, uids0)
    requires FilesOf(uids0 - {u}, u.deps) == Some(files)
    requires forall v :: v in u.deps && v in uids0 ==> AllThere(cas0, uids0[v])
    ensures MeaningOfAll(cmd, u.deps) == Some(Thaw(cas0, files))
    ensures HonestCas(cas) <==> Spares(Thaw(cas0, files), rewrites(u.recipe, Contents(u.inputs), Thaw(cas0, files)))
    ensures SoundAll(cmd, uids)
    ensures ok <==> !flaky && Meaning(cmd, u).Some?
  {
    hide AllThere, Seal, Produce, Thaw, HonestCas, MeaningOfAll, Grown, WrittenThrough, FilesOf, Spares;
    var work := Thaw(cas0, files);
    var written := rewrites(u.recipe, Contents(u.inputs), work);
    FilesMean(cmd, cas0, uids0 - {u}, u.deps);
    var mid :| WrittenThrough(cas0, mid, files, written) && Grown(mid, cas);
    HonestIffSpared(cas0, mid, files, written);
    GrownIsAsHonest(mid, cas);
  }

  /** With all dependencies intact, only one that cannot be laid over the others stops the run,
      and then no build from nothing comes about either. */
  lemma UnknownFails(cmd: Command, cas: Cas, uids: map<Uid, Manifest>, u: Uid)
    requires FilesOf(uids - {u}, u.deps).None? && !(u in uids && AllThere(cas, uids[u]))
    ensures HonestCas(cas) && SoundAll(cmd, uids) && (forall v :: v in u.deps ==> v in uids && AllThere(cas, uids[v]))
        ==> Meaning(cmd, u).None?
  {
    hide AllThere, HonestCas, SoundManifest, FilesOf, MeaningOfAll;
    if HonestCas(cas) && SoundAll(cmd, uids) && forall v :: v in u.deps ==> v in uids && AllThere(cas, uids[v]) {
      FilesMean(cmd, cas, uids - {u}, u.deps);
    }
  }
}

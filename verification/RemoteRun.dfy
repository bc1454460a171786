/** build, `Executor._execute_remote` with `ExecService._job`: a node run on a remote host leaves
    the cache as one run here does. */
module RemoteRun {
  import opened Artifacts
  import opened Options
  import opened Cache

  datatype Outcome = Done | Failed | Requeued

  /** The job's files: one dictionary, filled from the manifests of the dependencies in order. */
  function JobFiles(uids: map<Uid, Manifest>, us: seq<Uid>): Manifest
    decreases |us|
  {
    if us == [] then map[]
    else
      var u := us[|us| - 1];
      JobFiles(uids, us[..|us| - 1]) + if u in uids then uids[u] else map[]
  }

  /** Where no dependency's file is in the way of another's, the dictionary is what restoring one
      after the other gives. */
  lemma {:induction false} JobFilesAreLaid(uids: map<Uid, Manifest>, us: seq<Uid>)
    requires FileTree(JobFiles(uids, us)) && forall u :: u in us ==> u in uids
    ensures FilesOf(uids, us) == Some(JobFiles(uids, us))
    decreases |us|
  {
    if us != [] {
      var us0, u := us[..|us| - 1], us[|us| - 1];
      var below := JobFiles(uids, us0);
      assert forall p :: p in below ==> p in JobFiles(uids, us);
      assert forall p :: p in uids[u] ==> p in JobFiles(uids, us);
      JobFilesAreLaid(uids, us0);
      assert forall q :: q in below ==> !Covered(q, uids[u]);
      assert !Blocked(below, uids[u]) && Lay(below, uids[u]) == below + uids[u];
    }
  }

  /** With all its blobs on the host, the remote job finds in its work tree what a local run finds:
      the clean builds of the dependencies. */
  lemma RemoteWorkIsLocalWork(cmd: Command, uids: map<Uid, Manifest>, host: Cas, us: seq<Uid>)
    requires HonestCas(host) && FileTree(JobFiles(uids, us))
    requires forall u :: u in us ==> u in uids && SoundManifest(cmd, u, uids[u]) && AllThere(host, uids[u])
    ensures MeaningOfAll(cmd, us) == Some(Thaw(host, JobFiles(uids, us)))
  {
    hide SoundManifest, AllThere, HonestCas, Thaw, MeaningOfAll, FileTree;
    JobFilesAreLaid(uids, us);
    FilesMean(cmd, host, uids, us);
  }

  // ---------------------------------------------------------------- the host's work tree

  /** `ExecService._job` puts the files into an empty work tree in the order of the keys of the
      frame, which `_dist_write` sorts: a path comes before those below it. Where a file is already
      above, no directory can be made and the job fails. */
  method Place(host: Cas, files: Manifest) returns (work: Option<Tree>)
    ensures work == if FileTree(files) then Some(Thaw(host, files)) else None
  {
    hide Thaw, Above, FileTree;
    var tree: Tree := map[];
    var todo := files.Keys;
    NothingPlaced(host, files);
    FileTreeMeans(files);
    while todo != {}
      invariant todo <= files.Keys && tree == Thaw(host, Without(files, todo))
      invariant forall p, q :: p in files && q in files && q !in todo ==> !Above(p, q)
    {
      FirstOf(todo);
      var path :| path in todo && forall p :: p in todo ==> !Above(p, path);
      OnePlaced(host, files, todo, path);
      if exists p :: p in tree && Above(p, path) {
        return None;
      }
      var entry := match files[path]
        case LinkItem(target) => Link(target)
        case CasItem(digest, _) => if digest in host then host[digest] else Link(Blob(digest));
      tree := tree[path := entry];
      todo := todo - {path};
    }
    assert Without(files, todo) == files;
    work := Some(tree);
  }

  lemma FileTreeMeans(files: Manifest)
    ensures FileTree(files) <==> forall p, q :: p in files && q in files ==> !Above(p, q)
  {
  }

  lemma NothingPlaced(host: Cas, files: Manifest)
    ensures Thaw(host, Without(files, files.Keys)) == map[]
  {
    assert Without(files, files.Keys) == map[];
  }

  /** Everything above the path is in the tree by then. */
  lemma OnePlaced(host: Cas, files: Manifest, todo: set<Path>, path: Path)
    requires todo <= files.Keys && path in todo && forall p :: p in todo ==> !Above(p, path)
    ensures var tree := Thaw(host, Without(files, todo));
            && Thaw(host, Without(files, todo - {path})) == tree[path := ThawItem(host, files[path])]
            && (forall p :: p in files && Above(p, path) ==> p in tree) && (forall p :: p in tree ==> p in files)
  {
    hide ThawItem, Above;
    assert Without(files, todo - {path}) == Without(files, todo)[path := files[path]];
  }

  lemma {:induction false} FirstOf(todo: set<Path>)
    requires todo != {}
    ensures exists path :: path in todo && forall p :: p in todo ==> !Above(p, path)
    decreases todo
  {
    var path :| path in todo;
    var above := set p | p in todo && Above(p, path);
    if above == {} {
      forall p | p in todo ensures !Above(p, path) {
        assert p !in above;
      }
    } else {
      assert path !in above;
      FirstOf(above);
      var first :| first in above && forall p :: p in above ==> !Above(p, first);
      forall p | p in todo ensures !Above(p, first) {
        if Above(p, first) {
          AboveIsTransitive(p, first, path);
        }
      }
    }
  }

  /** The manifests of all dependencies can be read. */
  ghost predicate Known(uids: map<Uid, Manifest>, us: seq<Uid>) {
    forall v :: v in us ==> v in uids
  }

  /** A file of an earlier dependency is above a path of a later one. */
  ghost predicate EarlierAbove(uids: map<Uid, Manifest>, us: seq<Uid>) {
    exists i: nat, k: nat, p, q :: Over(uids, us, i, k, p, q)
  }

  ghost predicate Over(uids: map<Uid, Manifest>, us: seq<Uid>, i: nat, k: nat, p: Path, q: Path) {
    i < k < |us| && us[i] in uids && us[k] in uids && p in uids[us[i]] && q in uids[us[k]] && Above(p, q)
  }

  /** A file that has been laid down is there, or one above it is. */
  lemma {:induction false} LaidStays(uids: map<Uid, Manifest>, us: seq<Uid>, i: nat, p: Path) returns (p2: Path)
    requires FilesOf(uids, us).Some? && i < |us| && us[i] in uids && p in uids[us[i]]
    ensures p2 in FilesOf(uids, us).value && p2 <= p
    decreases |us|
  {
    var us0, u := us[..|us| - 1], us[|us| - 1];
    if i == |us| - 1 {
      p2 := p;
    } else {
      p2 := LaidStays(uids, us0, i, p);
      if p2 !in uids[u] && Covered(p2, uids[u]) {
        var x :| x in uids[u] && Above(x, p2);
        p2 := x;
      }
    }
  }

  lemma {:induction false} LaidComesFrom(uids: map<Uid, Manifest>, us: seq<Uid>, p: Path) returns (i: nat)
    requires FilesOf(uids, us).Some? && p in FilesOf(uids, us).value
    ensures i < |us| && us[i] in uids && p in uids[us[i]]
    decreases |us|
  {
    var us0, u := us[..|us| - 1], us[|us| - 1];
    if p in uids[u] {
      i := |us| - 1;
    } else {
      i := LaidComesFrom(uids, us0, p);
    }
  }

  /** A local run fails to lay the dependencies over each other exactly when a file of one is above a
      path of a later one. */
  lemma {:induction false} LocalFailsIff(uids: map<Uid, Manifest>, us: seq<Uid>)
    requires Known(uids, us)
    ensures FilesOf(uids, us).None? <==> EarlierAbove(uids, us)
    decreases |us|
  {
    hide Lay, Above, Blocked;
    if us != [] {
      var us0, u := us[..|us| - 1], us[|us| - 1];
      LocalFailsIff(uids, us0);
      if EarlierAbove(uids, us0) {
        var i: nat, k: nat, p, q :| Over(uids, us0, i, k, p, q);
        assert Over(uids, us, i, k, p, q);
      } else {
        if Blocked(FilesOf(uids, us0).value, uids[u]) {
          BlockedIsOver(uids, us);
        }
        if EarlierAbove(uids, us) {
          OverBlocks(uids, us);
        }
      }
    } else {
      assert !EarlierAbove(uids, us);
    }
  }

  lemma BlockedIsOver(uids: map<Uid, Manifest>, us: seq<Uid>)
    requires us != [] && Known(uids, us) && FilesOf(uids, us[..|us| - 1]).Some?
    requires Blocked(FilesOf(uids, us[..|us| - 1]).value, uids[us[|us| - 1]])
    ensures EarlierAbove(uids, us)
  {
    hide FilesOf, Above;
    var us0, u := us[..|us| - 1], us[|us| - 1];
    var p, q :| p in FilesOf(uids, us0).value && q in uids[u] && Above(p, q);
    var i := LaidComesFrom(uids, us0, p);
    assert Over(uids, us, i, |us| - 1, p, q);
  }

  lemma OverBlocks(uids: map<Uid, Manifest>, us: seq<Uid>)
    requires us != [] && Known(uids, us) && FilesOf(uids, us[..|us| - 1]).Some?
    requires EarlierAbove(uids, us)
    ensures Blocked(FilesOf(uids, us[..|us| - 1]).value, uids[us[|us| - 1]]) || EarlierAbove(uids, us[..|us| - 1])
  {
    hide FilesOf;
    var us0, u := us[..|us| - 1], us[|us| - 1];
    var i: nat, k: nat, p, q :| Over(uids, us, i, k, p, q);
    if k < |us| - 1 {
      assert Over(uids, us0, i, k, p, q);
    } else {
      var p2 := LaidStays(uids, us0, i, p);
      assert Above(p2, q);
    }
  }

  /** What the host works on is what a local run does exactly when no dependency's file is in another's
      way, or a file of one is above a path of a later one, and then neither can be done. */
  lemma WorkTreesAgreeIff(cmd: Command, uids: map<Uid, Manifest>, host: Cas, us: seq<Uid>)
    requires HonestCas(host)
    requires forall u :: u in us ==> u in uids && SoundManifest(cmd, u, uids[u]) && AllThere(host, uids[u])
    ensures MeaningOfAll(cmd, us)
              == (if FileTree(JobFiles(uids, us)) then Some(Thaw(host, JobFiles(uids, us))) else None)
       <==> FileTree(JobFiles(uids, us)) || EarlierAbove(uids, us)
  {
    hide SoundManifest, AllThere, HonestCas, Thaw, MeaningOfAll, FileTree, EarlierAbove;
    LocalFailsIff(uids, us);
    FilesMean(cmd, host, uids, us);
    if FileTree(JobFiles(uids, us)) {
      RemoteWorkIsLocalWork(cmd, uids, host, us);
    }
  }

  /** Blobs that arrive are stored unless they are there already. */
  method Receive(cache: Cache, received: Cas)
    requires cache.Valid() && HonestCas(received)
    modifies cache`cas
    ensures cache.Valid() && cache.cas.Keys == old(cache.cas.Keys) + received.Keys
    ensures old(cache.Sound()) ==> cache.Sound()
  {
    hide SoundAll, Physical;
    cache.cas := received + cache.cas;
  }

  method AllItemsThere(cache: Cache, m: Manifest) returns (all: bool)
    ensures all <==> AllThere(cache.cas, m)
  {
    var todo := m.Keys;
    while todo != {}
      invariant todo <= m.Keys
      invariant forall path :: path in m && path !in todo ==> ItemThere(cache.cas, m[path])
    {
      var path :| path in todo;
      if !ItemThere(cache.cas, m[path]) {
        return false;
      }
      todo := todo - {path};
    }
    all := true;
  }

  /** The cache is sound, and the host has what is there of the dependencies. */
  ghost predicate Fit(cache: Cache, u: Uid, host: Cas)
    reads cache
  {
    && cache.Sound() && cache.Whole(u.deps) && HonestCas(host)
    && forall v :: v in u.deps && v in cache.uids ==> AllThere(host, cache.uids[v])
  }

  /** `_execute_remote`. `host` is the host's cache when the job is started, which the service does
      only with all blobs there; `received` is what came back before the answer. A lost host leaves
      everything as it was. */
  method ExecuteRemote(cache: Cache, u: Uid, host: Cas, received: Cas, lost: bool)
    returns (outcome: Outcome, ran: bool)
    requires cache.Valid() && HonestCas(received)
    modifies cache
    ensures cache.Valid() && Keeps(old(cache.cas), old(cache.uids), cache.cas, cache.uids)
    ensures cache.cas.Keys >= old(cache.cas.Keys)
    ensures forall v :: v != u && v in cache.uids ==> v in old(cache.uids) && cache.uids[v] == old(cache.uids)[v]
    ensures if outcome.Done? then cache.Intact(u) else u !in cache.uids
    ensures old(Fit(cache, u, host)) ==> cache.Sound() && (outcome.Done? ==> Meaning(cache.cmd, u).Some?)
    ensures old(cache.Intact(u)) ==>
              outcome.Done? && !ran && cache.cas == old(cache.cas) && cache.uids == old(cache.uids)
    ensures !old(cache.Intact(u)) ==> (outcome.Requeued? <==> lost && Known(old(cache.uids) - {u}, u.deps))
    ensures outcome.Requeued? ==> cache.cas == old(cache.cas) && cache.uids == old(cache.uids) - {u}
    ensures old(Fit(cache, u, host) && !cache.Intact(u)) ==>
              (outcome.Done? <==> !lost && Known(old(cache.uids) - {u}, u.deps)
                                  && FileTree(JobFiles(old(cache.uids) - {u}, u.deps))
                                  && BuiltAndReceived(Meaning(cache.cmd, u), received + old(cache.cas)))
  {
    hide AllThere, HonestCas, SoundAll, SoundManifest, Seal, Thaw, Meaning, MeaningOfAll, Physical, FileTree, Produce,
      Keeps, JobFiles;
    ghost var cas0, uids0, fit := cache.cas, cache.uids, Fit(cache, u, host);
    SoundIsBuilt(cache.cmd, u, cache.uids);
    SoundEntries(cache.cmd, cache.uids);
    KeepsAll(cache.cas, cache.uids);
    ran := false;
    var hit := cache.Cached(u);
    if hit {
      return Done, false;
    }
    StoredKeeps(cas0, uids0, cas0, u, map[]);
    FewerStaySound(cache.cmd, uids0, u);
    SoundEntries(cache.cmd, cache.uids);
    if !(forall v :: v in u.deps ==> v in cache.uids) {
      return Failed, false;
    }
    var files := JobFiles(cache.uids, u.deps);
    if lost {
      return Requeued, false;
    }
    var work := Place(host, files);
    if work.None? {
      return Failed, false;
    }
    if fit {
      RemoteWorkIsLocalWork(cache.cmd, cache.uids, host, u.deps);
    }
    MeaningUnfolds(cache.cmd, u);
    var result := Produce(cache.cmd, u.recipe, Contents(u.inputs), work.value);
    ran := true;
    if result.None? {
      return Failed, ran;
    }
    var manifest := Seal(result.value);
    SealedIsFileTree(cache.cmd, cache.rewrites, u.recipe, Contents(u.inputs), work.value);
    Receive(cache, received);
    StoredKeeps(cas0, uids0, cache.cas, u, manifest);
    SameThere(received + cas0, cache.cas, manifest);
    var all := AllItemsThere(cache, manifest);
    if !all {
      return Failed, ran;
    }
    OneMoreSound(cache.cmd, cache.uids, u, result.value);
    cache.uids := cache.uids[u := manifest];
    outcome := Done;
  }

  ghost predicate BuiltAndReceived(built: Option<Tree>, received: Cas) {
    built.Some? && AllThere(received, Seal(built.value))
  }

  lemma SoundEntries(cmd: Command, uids: map<Uid, Manifest>)
    ensures SoundAll(cmd, uids) ==> forall v :: v in uids ==> SoundManifest(cmd, v, uids[v])
  {
  }

  lemma FewerStaySound(cmd: Command, uids: map<Uid, Manifest>, u: Uid)
    ensures SoundAll(cmd, uids) ==> SoundAll(cmd, uids - {u})
  {
  }

  lemma OneMoreSound(cmd: Command, uids: map<Uid, Manifest>, u: Uid, tree: Tree)
    ensures SoundAll(cmd, uids) && Meaning(cmd, u) == Some(tree) ==> SoundAll(cmd, uids[u := Seal(tree)])
  {
    hide Meaning, Seal;
  }

  lemma MeaningUnfolds(cmd: Command, u: Uid)
    ensures MeaningOfAll(cmd, u.deps).Some? ==>
              Meaning(cmd, u) == Produce(cmd, u.recipe, Contents(u.inputs), MeaningOfAll(cmd, u.deps).value)
  {
    hide MeaningOfAll, Produce;
  }

  lemma StoredKeeps(cas0: Cas, uids0: map<Uid, Manifest>, cas: Cas, u: Uid, m: Manifest)
    requires !(u in uids0 && AllThere(cas0, uids0[u])) && cas0.Keys <= cas.Keys
    ensures Keeps(cas0, uids0, cas, uids0 - {u}) && Keeps(cas0, uids0, cas, (uids0 - {u})[u := m])
  {
    hide AllThere;
    forall v | v in uids0 && AllThere(cas0, uids0[v]) ensures AllThere(cas, uids0[v]) {
      ThereOfMore(cas0, cas, uids0[v]);
    }
  }

  lemma SameThere(cas: Cas, cas2: Cas, m: Manifest)
    requires cas.Keys == cas2.Keys
    ensures AllThere(cas, m) <==> AllThere(cas2, m)
  {
    hide AllThere;
    if AllThere(cas, m) {
      ThereOfMore(cas, cas2, m);
    }
    if AllThere(cas2, m) {
      ThereOfMore(cas2, cas, m);
    }
  }

  // ---------------------------------------------------------------- where the host refuses

  /** One dependency makes a directory where a later one makes a file. */
  function Deep(): Tree {
    map[["o", "x", "a"] := File(420, [1])]
  }

  function Flat(): Tree {
    map[["o", "x"] := File(420, [2])]
  }

  /** A local run replaces the directory by the file; the host has the file first and cannot make
      the directory. */
  lemma HostRefusesWhatLocalTakes(v: Uid, w: Uid, uids: map<Uid, Manifest>)
    requires v != w && v in uids && w in uids && uids[v] == Seal(Deep()) && uids[w] == Seal(Flat())
    ensures FilesOf(uids, [v, w]) == Some(Seal(Flat()))
    ensures !FileTree(JobFiles(uids, [v, w]))
  {
    hide FileTree, Overlay, Deep, Flat, Seal, FilesOf, JobFiles;
    LaidOnNothing(Seal(Deep()));
    FilesOfTwo(uids, v, w);
    FlatOverDeep();
  }

  lemma FilesOfTwo(uids: map<Uid, Manifest>, v: Uid, w: Uid)
    requires v in uids && w in uids && Overlay(map[], uids[v]) == Some(uids[v])
    ensures FilesOf(uids, [v, w]) == Overlay(uids[v], uids[w])
    ensures JobFiles(uids, [v, w]) == uids[v] + uids[w]
  {
    hide Overlay;
    assert [v, w][..1] == [v] && [v][..0] == [];
    assert FilesOf(uids, [v]) == Some(uids[v]);
    assert JobFiles(uids, [v]) == JobFiles(uids, []) + uids[v];
    assert JobFiles(uids, [v]) == uids[v];
    assert JobFiles(uids, [v, w]) == JobFiles(uids, [v]) + uids[w];
  }

  lemma FlatOverDeep()
    ensures Overlay(Seal(Deep()), Seal(Flat())) == Some(Seal(Flat()))
    ensures !FileTree(Seal(Deep()) + Seal(Flat()))
  {
    var deep, flat := Seal(Deep()), Seal(Flat());
    var x, a := ["o", "x"], ["o", "x", "a"];
    assert deep.Keys == {a} && flat.Keys == {x} && Above(x, a) && !Above(a, x);
    assert Covered(a, flat) && !Blocked(deep, flat);
    assert Lay(deep, flat) == flat;
    assert x in deep + flat && a in deep + flat;
  }
}

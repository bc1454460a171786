/** build, blobs that are lost or written into while a build runs: when a loss is harmless, a build
    it spoils, and a build that spoils a blob. */
module Losses {
  import opened Artifacts
  import opened Options
  import opened Cache

  /** `blobs` vanish after a dependency was found in the cache and before it is restored for a
      dependant: the dependant then works on this. */
  function WorkAfterLoss(cas: Cas, blobs: set<Digest>, m: Manifest): Tree {
    Thaw(cas - blobs, m)
  }

  /** Losing blobs within a build is harmless exactly when none of the manifest's is lost. */
  lemma LossWithinBuildIff(cas: Cas, blobs: set<Digest>, tree: Tree)
    requires HonestCas(cas) && AllThere(cas, Seal(tree))
    ensures WorkAfterLoss(cas, blobs, Seal(tree)) == tree
       <==> forall path :: path in tree && tree[path].File? ==> Sha(tree[path].mode, tree[path].data) !in blobs
  {
    ThawIsRightIff(cas - blobs, tree);
    if AllThere(cas - blobs, Seal(tree)) {
      forall path | path in tree && tree[path].File? ensures Sha(tree[path].mode, tree[path].data) !in blobs {
        assert ItemThere(cas - blobs, Seal(tree)[path]);
      }
    } else {
      var path :| path in Seal(tree) && !ItemThere(cas - blobs, Seal(tree)[path]);
      assert ItemThere(cas, Seal(tree)[path]);
    }
  }

  // ---------------------------------------------------------------- a build that is spoilt

  /** Makes a file for a recipe without dependencies in mind; for any other writes 1 when that file
      can be read in the work tree and 0 otherwise. */
  function Lenient(recipe: Recipe, given: Sources, work: Tree): Option<Tree> {
    Some(if recipe.outputs == [["in"]] then Given() else Found(["in"] in work && work[["in"]].File?))
  }

  function Given(): Tree {
    map[["in"] := File(420, [7])]
  }

  function Found(readable: bool): Tree {
    map[["out"] := File(420, if readable then [1] else [0])]
  }

  function Untouched(recipe: Recipe, given: Sources, work: Tree): Tree {
    map[]
  }

  function Making(output: Path): Recipe {
    Recipe([], [output], [], "", map[])
  }

  function Source(): Uid {
    Uid(Making(["in"]), [], [])
  }

  function Reader(): Uid {
    Uid(Making(["out"]), [Source()], [])
  }

  lemma LenientIsPhysical()
    ensures Physical(Lenient, Untouched)
  {
    assert !Above(["in"], ["in"]) && !Above(["out"], ["out"]);
  }

  lemma LenientProduces(output: Path, work: Tree, tree: Tree)
    requires (output == ["in"] && tree == Given())
          || (output == ["out"] && tree == Found(["in"] in work && work[["in"]].File?))
    ensures Produce(Lenient, Making(output), map[], work) == Some(tree)
  {
    assert output in tree && Below(output, output) && Produced(output, tree);
    assert output in Making(output).outputs && OfOutputs(Making(output).outputs, output);
    assert Outputs(Making(output).outputs, tree) == tree;
    assert Making(output).outputs == [["in"]] <==> output == ["in"];
  }

  lemma SourceMeans()
    ensures Meaning(Lenient, Source()) == Some(Given())
  {
    LenientProduces(["in"], map[], Given());
  }

  lemma ReaderMeans()
    ensures Meaning(Lenient, Reader()) == Some(Found(true))
  {
    hide Meaning, Produce;
    SourceMeans();
    var us := [Source()];
    assert us[..0] == [] && us[|us| - 1] == Source();
    assert MeaningOfAll(Lenient, []) == Some(map[]);
    LaidOnNothing(Given());
    assert MeaningOfAll(Lenient, us) == Some(Given());
    LenientProduces(["out"], Given(), Found(true));
    ReaderUnfolds();
  }

  lemma ReaderUnfolds()
    ensures MeaningOfAll(Lenient, Reader().deps) == Some(Given()) ==>
              Meaning(Lenient, Reader()) == Produce(Lenient, Making(["out"]), map[], Given())
  {
    hide MeaningOfAll, Produce;
  }

  lemma FilesOfReader(uids: map<Uid, Manifest>)
    requires Source() in uids && uids[Source()] == Seal(Given())
    ensures FilesOf(uids - {Reader()}, Reader().deps) == Some(Seal(Given()))
  {
    var us := [Source()];
    assert us[..0] == [] && us[|us| - 1] == Source() && Source() != Reader();
    assert FilesOf(uids - {Reader()}, []) == Some(map[]);
    LaidOnNothing(Seal(Given()));
  }

  lemma RanMakes(u: Uid, files: Manifest, uids0: map<Uid, Manifest>, cas: Cas, uids: map<Uid, Manifest>, ok: bool,
                 tree: Tree)
    requires Ran(Lenient, Untouched, u, false, files, map[], uids0, cas, uids, ok)
    requires Produce(Lenient, u.recipe, Contents(u.inputs), Thaw(map[], files)) == Some(tree)
    ensures ok && uids == (uids0 - {u})[u := Seal(tree)] && HonestCas(cas)
  {
    hide Produce, Thaw, Seal;
  }

  lemma ReaderSeesNoFile()
    ensures Produce(Lenient, Making(["out"]), map[], Thaw(map[], Seal(Given()))) == Some(Found(false))
  {
    hide Produce;
    var work := Thaw(map[], Seal(Given()));
    assert ["in"] in work && work[["in"]] == Link(Blob(Sha(420, [7])));
    LenientProduces(["out"], work, Found(false));
  }

  /** A node is built; its blob is lost before its dependant, started in the same build, restores
      it; the dependant puts up with the broken link. Its manifest stays in the cache and is not
      what a build from nothing makes. */
  method LossSpoilsBuild() returns (cache: Cache)
    ensures cache.Valid() && HonestCas(cache.cas) && cache.Intact(Reader())
    ensures !SoundManifest(cache.cmd, Reader(), cache.uids[Reader()])
  {
    hide Physical, Meaning, Produce, FilesOf, Thaw, Seal, Ran, SoundManifest, AllThere, HonestCas;
    LenientIsPhysical();
    cache := new Cache(Lenient, Untouched);
    var ok, ran := cache.Execute(Source(), false);
    SourceFirst();
    RanMakes(Source(), map[], map[], cache.cas, cache.uids, ok, Given());
    cache.cas := map[];
    ghost var uids0 := cache.uids;
    FilesOfReader(cache.uids);
    ok, ran := cache.Execute(Reader(), false);
    ReaderSeesNoFile();
    RanMakes(Reader(), Seal(Given()), uids0, cache.cas, cache.uids, ok, Found(false));
    WrongIsUnsound();
  }

  lemma SourceFirst()
    ensures FilesOf(map[] - {Source()}, Source().deps) == Some(map[])
    ensures Produce(Lenient, Source().recipe, Contents(Source().inputs), Thaw(map[], map[])) == Some(Given())
  {
    hide Produce;
    assert Thaw(map[], map[]) == map[];
    LenientProduces(["in"], map[], Given());
  }

  lemma WrongIsUnsound()
    ensures !SoundManifest(Lenient, Reader(), Seal(Found(false)))
  {
    hide Meaning;
    ReaderMeans();
    assert Seal(Found(true))[["out"]] == CasItem(Sha(420, [1]), 420);
    assert Seal(Found(false))[["out"]] == CasItem(Sha(420, [0]), 420);
  }

  // ---------------------------------------------------------------- a blob that is spoilt

  /** The reader also writes into the file it is given. */
  function Overwriting(recipe: Recipe, given: Sources, work: Tree): Tree {
    if recipe.outputs == [["out"]] && ["in"] in work then Overwritten() else map[]
  }

  function Overwritten(): Tree {
    map[["in"] := File(420, [8])]
  }

  lemma OverwritingIsPhysical()
    ensures Physical(Lenient, Overwriting)
  {
    assert !Above(["in"], ["in"]) && !Above(["out"], ["out"]);
  }

  /** The first node's run, in the empty cache. */
  lemma SourceRan(cas: Cas, uids: map<Uid, Manifest>, ok: bool)
    requires Ran(Lenient, Overwriting, Source(), false, map[], map[], map[], cas, uids, ok)
    ensures uids == map[Source() := Seal(Given())] && Sha(420, [7]) in cas && HonestCas(cas)
  {
    hide Produce, Meaning;
    SourceFirst();
    assert uids == (map[] - {Source()})[Source() := Seal(Given())];
    assert ["in"] in Seal(Given()) && ItemThere(cas, Seal(Given())[["in"]]);
  }

  /** The second's. */
  lemma ReaderRan(cas0: Cas, uids0: map<Uid, Manifest>, cas: Cas, uids: map<Uid, Manifest>, ok: bool)
    requires uids0 == map[Source() := Seal(Given())] && Sha(420, [7]) in cas0 && HonestCas(cas0)
    requires Ran(Lenient, Overwriting, Reader(), false, Seal(Given()), cas0, uids0, cas, uids, ok)
    ensures Sha(420, [7]) in cas && cas[Sha(420, [7])] == File(420, [8])
    ensures Source() in uids && uids[Source()] == Seal(Given())
  {
    hide Produce, Meaning, HonestCas, Seal;
    var work := Thaw(cas0, Seal(Given()));
    GivenIsThere(cas0);
    var written := Overwriting(Reader().recipe, Contents(Reader().inputs), work);
    assert written == Overwritten() && Source() != Reader();
    var mid :| WrittenThrough(cas0, mid, Seal(Given()), written) && Grown(mid, cas);
    assert BlobAfter(cas0, Seal(Given()), written, Sha(420, [7]), mid[Sha(420, [7])]);
    assert Hits(Seal(Given()), written, ["in"], Sha(420, [7]));
  }

  lemma GivenIsThere(cas: Cas)
    requires Sha(420, [7]) in cas && HonestCas(cas)
    ensures Seal(Given()) == map[["in"] := CasItem(Sha(420, [7]), 420)]
    ensures Thaw(cas, Seal(Given())) == Given()
  {
    assert Seal(Given())[["in"]] == CasItem(Sha(420, [7]), 420);
  }

  /** A node is built, and then one whose command writes into the file it was given: the manifest of
      the first is intact and as it was, but what it restores is not its clean build. */
  method WriteSpoilsBlob() returns (cache: Cache)
    ensures cache.Valid() && !HonestCas(cache.cas) && cache.Intact(Source())
    ensures SoundManifest(cache.cmd, Source(), cache.uids[Source()])
    ensures Meaning(cache.cmd, Source()) != Some(Thaw(cache.cas, cache.uids[Source()]))
  {
    hide Physical, Meaning, Produce, FilesOf, Thaw, Seal, Ran, AllThere, HonestCas;
    OverwritingIsPhysical();
    cache := new Cache(Lenient, Overwriting);
    var ok, ran := cache.Execute(Source(), false);
    SourceFirst();
    SourceRan(cache.cas, cache.uids, ok);
    ghost var cas0, uids0 := cache.cas, cache.uids;
    FilesOfReader(cache.uids);
    ReaderIsNew(cas0, uids0);
    ok, ran := cache.Execute(Reader(), false);
    ReaderRan(cas0, uids0, cache.cas, cache.uids, ok);
    SourceMeans();
    SpoiltBlob(cache.cas);
  }

  lemma ReaderIsNew(cas: Cas, uids: map<Uid, Manifest>)
    requires uids == map[Source() := Seal(Given())]
    ensures Reader() !in uids
  {
    assert Reader() != Source();
  }

  lemma SpoiltBlob(cas: Cas)
    requires Sha(420, [7]) in cas && cas[Sha(420, [7])] == File(420, [8])
    ensures !HonestCas(cas) && AllThere(cas, Seal(Given())) && Thaw(cas, Seal(Given())) != Given()
  {
    assert Seal(Given())[["in"]] == CasItem(Sha(420, [7]), 420);
    assert Thaw(cas, Seal(Given()))[["in"]] == File(420, [8]);
  }
}

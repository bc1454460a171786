/** build, whole builds over the cache and one build root: any number of them, with edits of the
    sources, failing commands and lost cache contents in between. */
module Builds {
  import opened Graph
  import opened Artifacts
  import opened Options
  import opened Cache
  import opened Uids
  import opened RemoteRun

  /** One build as asked for: the nodes in the order they ended, the requested ones, the nodes whose
      commands fail here for a reason of their own, and what remote hosts make of the attempts at a
      node before it is run here. */
  datatype Request = Request(p: Project, order: seq<Node>, roots: seq<Node>, flaky: set<Node>, keepGoing: bool,
                             remote: map<Node, seq<Try>>)

  /** The host is lost, or these blobs have come back with its answer. */
  datatype Try = Try(lost: bool, received: set<Digest>)

  ghost predicate ValidRequest(q: Request) {
    && ValidProject(q.p)
    && (forall r :: r in q.roots ==> r in q.order && r in q.p.g)
    && (forall i :: 0 <= i < |q.order| ==> Ordered(q, i))
  }

  /** A node is needed, and its dependencies were started before it. */
  ghost predicate Ordered(q: Request, i: nat)
    requires i < |q.order|
  {
    && q.order[i] in q.p.g && (forall d :: d in q.p.g[q.order[i]] ==> d in q.order[..i])
    && exists r :: r in q.roots && q.order[i] in Reach(q.p.g, r)
  }

  ghost predicate AllSources(q: Request, sources: Sources)
    requires ValidRequest(q)
  {
    forall r :: r in q.roots ==> SourcesThere(q.p, sources, r)
  }

  ghost predicate Builds(cmd: Command, q: Request, sources: Sources, n: Node)
    requires ValidRequest(q)
  {
    n in q.p.g && CleanBuild(cmd, q.p, sources, n).Some?
  }

  ghost predicate AllBuild(cmd: Command, q: Request, sources: Sources)
    requires ValidRequest(q)
  {
    forall n :: n in q.order ==> Builds(cmd, q, sources, n)
  }

  ghost predicate NothingFails(cmd: Command, q: Request, sources: Sources)
    requires ValidRequest(q)
  {
    AllBuild(cmd, q, sources) && q.flaky == {} && RemotesDeliver(cmd, q, sources)
  }

  /** The build root with links to the clean builds of the first `k` requested nodes put into it. */
  ghost function CleanRoots(cmd: Command, q: Request, sources: Sources, root: Tree, k: nat): Option<Tree>
    requires ValidRequest(q) && k <= |q.roots|
    decreases k
  {
    if k == 0 then Some(root)
    else
      match CleanRoots(cmd, q, sources, root, k - 1)
      case None => None
      case Some(below) =>
        match CleanBuild(cmd, q.p, sources, q.roots[k - 1])
        case None => None
        case Some(tree) => Overlay(below, Linked(tree))
  }

  /** The blobs of the requested nodes are in the cache. */
  ghost predicate Delivered(cmd: Command, q: Request, sources: Sources, cas: Cas)
    requires ValidRequest(q)
  {
    forall r :: r in q.roots ==>
      Builds(cmd, q, sources, r) && AllThere(cas, Seal(CleanBuild(cmd, q.p, sources, r).value))
  }

  /** Nothing keeps the hosts from answering: what they made has come back, and they could put the
      dependencies next to each other. */
  ghost predicate RemotesDeliver(cmd: Command, q: Request, sources: Sources)
    requires ValidRequest(q)
  {
    forall n :: n in q.order && n in q.p.g ==> RemoteDelivers(cmd, q, sources, n)
  }

  ghost predicate RemoteDelivers(cmd: Command, q: Request, sources: Sources, n: Node)
    requires ValidRequest(q) && n in q.p.g
  {
    && (TriesOf(q, n) != [] ==> DepsApart(cmd, q, sources, n))
    && (forall t :: t in TriesOf(q, n) && !t.lost ==>
          BuiltAndReceived(CleanBuild(cmd, q.p, sources, n), BlobsOf(t.received)))
  }

  /** No file of a dependency is above one of another. */
  ghost predicate DepsApart(cmd: Command, q: Request, sources: Sources, n: Node)
    requires ValidRequest(q) && n in q.p.g
  {
    forall d, e, x, y :: IsDepPath(cmd, q, sources, n, d, x) && IsDepPath(cmd, q, sources, n, e, y) ==> !Above(x, y)
  }

  ghost predicate IsDepPath(cmd: Command, q: Request, sources: Sources, n: Node, d: Node, x: Path)
    requires ValidRequest(q) && n in q.p.g
  {
    d in q.p.g[n] && Builds(cmd, q, sources, d) && x in CleanBuild(cmd, q.p, sources, d).value
  }

  function TriesOf(q: Request, n: Node): seq<Try> {
    if n in q.remote then q.remote[n] else []
  }

  /** What a blob store holds under these digests. */
  function BlobsOf(digests: set<Digest>): (cas: Cas)
    ensures HonestCas(cas) && cas.Keys == digests
  {
    map d | d in digests :: File(d.mode, d.data)
  }

  /** Every node of the build is in the cache, with all its blobs. */
  ghost predicate Warm(q: Request, sources: Sources, cas: Cas, uids: map<Uid, Manifest>)
    requires ValidRequest(q)
  {
    forall n :: n in q.order && n in q.p.g ==> IntactIn(cas, uids, UidOf(q.p, sources, n))
  }

  ghost predicate IntactIn(cas: Cas, uids: map<Uid, Manifest>, u: Uid) {
    u in uids && AllThere(cas, uids[u])
  }

  /** The commands of the node leave the files they are given as they are. */
  ghost predicate Careful(cache: Cache, q: Request, sources: Sources, n: Node)
    requires ValidRequest(q) && n in q.p.g
  {
    CarefulWith(cache.cmd, cache.rewrites, UidOf(q.p, sources, n))
  }

  /** So do the commands of all these nodes. */
  ghost predicate AllCareful(cache: Cache, q: Request, sources: Sources, nodes: set<Node>)
    requires ValidRequest(q)
  {
    forall n :: n in nodes && n in q.p.g ==> Careful(cache, q, sources, n)
  }

  // ---------------------------------------------------------------- what is tried

  type Tried = seq<(Node, bool)>

  ghost predicate WasTried(tried: Tried, n: Node) {
    (n, true) in tried || (n, false) in tried
  }

  /** Of the first `k` nodes in order, with or without `tried` being all of them: each was tried when
      its dependencies had succeeded, and those left out have one that did not; without keep-going
      only the last can have failed. */
  ghost predicate Tries(q: Request, k: nat, tried: Tried)
    requires k <= |q.order|
  {
    && (forall i :: 0 <= i < |tried| ==>
          tried[i].0 in q.order[..k] && tried[i].0 in q.p.g
          && forall d :: d in q.p.g[tried[i].0] ==> (d, true) in tried[..i])
    && (!q.keepGoing ==> forall i :: 0 <= i < |tried| - 1 ==> tried[i].1)
  }

  /** None of the first `k` nodes has been passed over that could be tried. */
  ghost predicate TriesAll(q: Request, k: nat, tried: Tried)
    requires k <= |q.order|
  {
    forall j :: 0 <= j < k && q.order[j] in q.p.g ==>
      WasTried(tried, q.order[j]) || exists d :: d in q.p.g[q.order[j]] && (d, true) !in tried
  }

  ghost predicate NoRepeats(order: seq<Node>) {
    forall i, j :: 0 <= i < j < |order| ==> order[i] != order[j]
  }

  lemma TriesOne(q: Request, k: nat, tried: Tried, ok: bool)
    requires ValidRequest(q) && k < |q.order| && Tries(q, k, tried) && q.order[k] in q.p.g
    requires forall d :: d in q.p.g[q.order[k]] ==> (d, true) in tried
    requires q.keepGoing || forall i :: 0 <= i < |tried| ==> tried[i].1
    ensures Tries(q, k + 1, tried + [(q.order[k], ok)])
    ensures NoRepeats(q.order) && TriesAll(q, k, tried) ==> TriesAll(q, k + 1, tried + [(q.order[k], ok)])
  {
    hide Acyclic, Closed, Reach, Ordered;
    var n, more := q.order[k], tried + [(q.order[k], ok)];
    assert forall i :: 0 <= i <= |tried| ==> more[..i] == tried[..i];
    assert tried[..|tried|] == tried && q.order[..k + 1] == q.order[..k] + [n];
    if NoRepeats(q.order) && TriesAll(q, k, tried) {
      forall j | 0 <= j < k + 1 && q.order[j] in q.p.g
        ensures WasTried(more, q.order[j]) || exists d :: d in q.p.g[q.order[j]] && (d, true) !in more
      {
        if j < k && !WasTried(tried, q.order[j]) {
          var d :| d in q.p.g[q.order[j]] && (d, true) !in tried;
          DependencyEarlier(q, j, k, d);
        }
      }
    }
  }

  /** What the loop knows of it: `done` are the nodes that have succeeded, and without keep-going all
      have. */
  ghost predicate Traced(q: Request, k: nat, tried: Tried, done: set<Node>)
    requires k <= |q.order|
  {
    && Tries(q, k, tried) && (NoRepeats(q.order) ==> TriesAll(q, k, tried))
    && (forall d :: d in done <==> (d, true) in tried)
    && (q.keepGoing || forall i :: 0 <= i < |tried| ==> tried[i].1)
  }

  lemma TracedNone(q: Request)
    ensures Traced(q, 0, [], {})
  {
  }

  /** A node is tried; the loop goes on unless it failed and keep-going is off. */
  lemma TracedOne(q: Request, k: nat, tried: Tried, done: set<Node>, ok: bool)
    requires ValidRequest(q) && k < |q.order| && Traced(q, k, tried, done) && q.order[k] in q.p.g
    requires forall d :: d in q.p.g[q.order[k]] ==> d in done
    ensures var n, more := q.order[k], tried + [(q.order[k], ok)];
            && (ok || q.keepGoing ==> Traced(q, k + 1, more, if ok then done + {n} else done))
            && Tries(q, |q.order|, more)
    ensures !ok && !q.keepGoing ==> !(forall x :: x in tried + [(q.order[k], ok)] ==> x.1)
  {
    hide Tries, TriesAll, NoRepeats, ValidRequest;
    TriesOne(q, k, tried, ok);
    TriesEnd(q, k + 1, tried + [(q.order[k], ok)]);
    assert (q.order[k], ok) in tried + [(q.order[k], ok)];
  }

  lemma TracedNot(q: Request, k: nat, tried: Tried, done: set<Node>)
    requires ValidRequest(q) && k < |q.order| && Traced(q, k, tried, done) && q.order[k] in q.p.g
    requires !(forall d :: d in q.p.g[q.order[k]] ==> d in done)
    ensures Traced(q, k + 1, tried, done)
  {
    hide Tries, TriesAll, NoRepeats, ValidRequest;
    TriesNot(q, k, tried);
  }

  lemma TracedAll(q: Request, tried: Tried, done: set<Node>)
    requires Traced(q, |q.order|, tried, done)
    ensures Tries(q, |q.order|, tried) && (NoRepeats(q.order) ==> TriesAll(q, |q.order|, tried))
  {
  }

  lemma TriesEnd(q: Request, k: nat, tried: Tried)
    requires k <= |q.order| && Tries(q, k, tried)
    ensures Tries(q, |q.order|, tried)
  {
    assert forall n :: n in q.order[..k] ==> n in q.order;
    assert q.order[..|q.order|] == q.order;
  }

  lemma DependencyEarlier(q: Request, j: nat, k: nat, d: Node)
    requires ValidRequest(q) && NoRepeats(q.order) && j < k < |q.order|
    requires q.order[j] in q.p.g && d in q.p.g[q.order[j]]
    ensures d != q.order[k]
  {
    hide Acyclic, Closed, Reach;
    assert Ordered(q, j);
  }

  lemma TriesNot(q: Request, k: nat, tried: Tried)
    requires ValidRequest(q) && k < |q.order| && Tries(q, k, tried) && q.order[k] in q.p.g
    requires exists d :: d in q.p.g[q.order[k]] && (d, true) !in tried
    ensures Tries(q, k + 1, tried) && (TriesAll(q, k, tried) ==> TriesAll(q, k + 1, tried))
  {
    hide Acyclic, Closed, Reach, Ordered;
    assert q.order[..k + 1] == q.order[..k] + [q.order[k]];
  }

  // ---------------------------------------------------------------- one build

  /** A whole build: uids, a first look at the cache, the nodes whose dependencies have succeeded in
      their order, and the requested nodes restored into the build root. `ran` are the nodes whose
      commands were run on this machine, and `sound` says that the cache was sound all the time: it
      was if and only if the commands of these nodes left the files they were given alone. */
  method Run(cache: Cache, q: Request, sources: Sources, root: Tree)
    returns (ok: bool, out: Tree, commands: nat, ghost ran: set<Node>, ghost sound: bool, ghost tried: Tried)
    requires cache.Sound() && ValidRequest(q)
    modifies cache
    ensures cache.Valid() && cache.cas.Keys >= old(cache.cas.Keys)
    ensures forall n :: n in ran ==> n in q.order
    ensures Tries(q, |q.order|, tried)
    ensures AllSources(q, sources) && NoRepeats(q.order) && (q.keepGoing || forall x :: x in tried ==> x.1) ==>
              TriesAll(q, |q.order|, tried)
    ensures sound <==> AllCareful(cache, q, sources, ran)
    ensures sound ==> cache.Sound()
    ensures sound && ok ==> CleanRoots(cache.cmd, q, sources, root, |q.roots|) == Some(out)
    ensures sound && ok ==> AllSources(q, sources) && AllBuild(cache.cmd, q, sources)
    ensures sound && AllSources(q, sources) && CleanRoots(cache.cmd, q, sources, root, |q.roots|).Some?
            && (NothingFails(cache.cmd, q, sources) || old(Warm(q, sources, cache.cas, cache.uids)))
        ==> ok
    ensures sound && ok ==> Delivered(cache.cmd, q, sources, cache.cas)
    ensures sound && ok ==> Warm(q, sources, cache.cas, cache.uids)
    ensures old(Warm(q, sources, cache.cas, cache.uids)) ==>
              sound && ran == {} && commands == 0 && cache.cas == old(cache.cas)
    ensures old(Warm(q, sources, cache.cas, cache.uids)) && ok ==> cache.uids == old(cache.uids)
  {
    hide AllThere, HonestCas, SoundAll, CleanBuild, UidOf, Acyclic, Closed, Reach, SourcesThere, Ordered, Builds,
      Careful, Physical, NothingFails, RemotesDeliver, Delivered, TriesAll;
    commands, out, ran, sound, tried := 0, root, {}, true, [];
    var uidOf;
    ok, uidOf := CalculateUids(q.p, sources, q.roots);
    if !ok {
      return;
    }
    AllHaveUids(q, uidOf);
    LookFirst(cache, q, sources, uidOf);
    ok, commands, ran, sound, tried := ExecuteAll(cache, q, sources, uidOf);
    if ok {
      if sound {
        RootsDelivered(cache, q, sources, uidOf);
      }
      ok, out := RestoreRoots(cache, q, sources, uidOf, root, sound);
    }
  }

  lemma AllHaveUids(q: Request, uidOf: map<Node, Uid>)
    requires ValidRequest(q) && forall r :: r in q.roots ==> Reach(q.p.g, r) <= uidOf.Keys
    ensures forall n :: n in q.order ==> n in q.p.g && n in uidOf
  {
    hide Reach, Acyclic, Closed;
    forall n | n in q.order ensures n in q.p.g && n in uidOf {
      var i :| 0 <= i < |q.order| && q.order[i] == n;
      assert Ordered(q, i);
      var r :| r in q.roots && n in Reach(q.p.g, r);
    }
  }

  lemma RootsDelivered(cache: Cache, q: Request, sources: Sources, uidOf: map<Node, Uid>)
    requires cache.Sound() && ValidRequest(q) && RightUids(q.p, sources, uidOf)
    requires forall r :: r in q.roots ==> r in uidOf && cache.Intact(uidOf[r])
    ensures Delivered(cache.cmd, q, sources, cache.cas)
  {
    hide AllThere, HonestCas, SoundAll, CleanBuild, UidOf, Acyclic, Closed, Reach, Ordered, Physical, Seal;
    forall r | r in q.roots
      ensures Builds(cache.cmd, q, sources, r)
           && AllThere(cache.cas, Seal(CleanBuild(cache.cmd, q.p, sources, r).value))
    {
      IntactBuilds(cache, q, sources, r, uidOf);
    }
  }

  /** The first look at every node's manifest; broken ones are dropped. */
  method LookFirst(cache: Cache, q: Request, sources: Sources, uidOf: map<Node, Uid>)
    requires cache.Sound() && ValidRequest(q) && RightUids(q.p, sources, uidOf)
    requires forall n :: n in q.order ==> n in q.p.g && n in uidOf
    modifies cache
    ensures cache.Sound() && cache.cas == old(cache.cas)
    ensures forall n :: n in q.order ==> (uidOf[n] in cache.uids <==> old(cache.Intact(uidOf[n])))
    ensures forall v :: v in cache.uids ==> v in old(cache.uids) && cache.uids[v] == old(cache.uids)[v]
    ensures old(Warm(q, sources, cache.cas, cache.uids)) ==> cache.uids == old(cache.uids)
  {
    hide AllThere, HonestCas, SoundManifest, UidOf, Acyclic, Closed, Reach, Ordered, Physical;
    for k := 0 to |q.order|
      invariant cache.Sound() && cache.cas == old(cache.cas)
      invariant forall v :: v in cache.uids ==> v in old(cache.uids) && cache.uids[v] == old(cache.uids)[v]
      invariant forall v :: old(cache.Intact(v)) ==> v in cache.uids
      invariant forall i :: 0 <= i < k ==> (uidOf[q.order[i]] in cache.uids <==> old(cache.Intact(uidOf[q.order[i]])))
      invariant old(Warm(q, sources, cache.cas, cache.uids)) ==> cache.uids == old(cache.uids)
    {
      var n := q.order[k];
      assert n in q.order;
      assert old(Warm(q, sources, cache.cas, cache.uids)) ==> old(IntactIn(cache.cas, cache.uids, uidOf[n]));
      var hit := cache.Cached(uidOf[n]);
    }
  }

  /** What is known of the nodes that have succeeded. */
  ghost predicate DoneWell(cmd: Command, q: Request, sources: Sources, uidOf: map<Node, Uid>, done: set<Node>,
                           failed: bool, cas: Cas, uids: map<Uid, Manifest>)
    requires ValidRequest(q)
  {
    forall n :: n in done ==> DoneNode(cmd, q, sources, uidOf, n, failed, cas, uids)
  }

  ghost predicate DoneNode(cmd: Command, q: Request, sources: Sources, uidOf: map<Node, Uid>, n: Node, failed: bool,
                           cas: Cas, uids: map<Uid, Manifest>)
    requires ValidRequest(q)
  {
    && n in uidOf && Builds(cmd, q, sources, n)
    && (uidOf[n] in uids || !failed ==> IntactIn(cas, uids, uidOf[n]))
  }

  /** The nodes one after the other, skipping those with a dependency that did not succeed. */
  method ExecuteAll(cache: Cache, q: Request, sources: Sources, uidOf: map<Node, Uid>)
    returns (ok: bool, commands: nat, ghost ran: set<Node>, ghost sound: bool, ghost tried: Tried)
    requires cache.Sound() && ValidRequest(q) && RightUids(q.p, sources, uidOf)
    requires forall n :: n in q.order ==> n in q.p.g && n in uidOf
    modifies cache
    ensures cache.Valid() && cache.cas.Keys >= old(cache.cas.Keys)
    ensures forall n :: n in ran ==> n in q.order
    ensures Tries(q, |q.order|, tried)
    ensures NoRepeats(q.order) && (q.keepGoing || forall x :: x in tried ==> x.1) ==> TriesAll(q, |q.order|, tried)
    ensures sound <==> AllCareful(cache, q, sources, ran)
    ensures sound ==> cache.Sound()
    ensures sound && ok ==> forall n :: n in q.order ==> cache.Intact(uidOf[n]) && Builds(cache.cmd, q, sources, n)
    ensures (sound && NothingFails(cache.cmd, q, sources)) || old(Warm(q, sources, cache.cas, cache.uids)) ==> ok
    ensures old(Warm(q, sources, cache.cas, cache.uids)) ==>
              ran == {} && commands == 0 && cache.cas == old(cache.cas) && cache.uids == old(cache.uids)
  {
    hide AllThere, HonestCas, SoundAll, CleanBuild, UidOf, Acyclic, Closed, Reach, Ordered, Builds, Careful,
      Physical, DoneWell, RemoteDelivers, Tries, TriesAll, NoRepeats, Traced, ValidRequest, AllCareful, CarefulWith;
    var done: set<Node>, failed := {}, false;
    commands, ran, sound, tried := 0, {}, true, [];
    TracedNone(q);
    NoneRan(cache, q, sources);
    ghost var good := NothingFails(cache.cmd, q, sources);
    ghost var warm := Warm(q, sources, cache.cas, cache.uids);
    assert DoneWell(cache.cmd, q, sources, uidOf, done, failed, cache.cas, cache.uids) by {
      NothingDone(cache, q, sources, uidOf);
    }
    for k := 0 to |q.order|
      invariant cache.Valid() && cache.cas.Keys >= old(cache.cas.Keys)
      invariant forall n :: n in ran ==> n in q.order
      invariant Traced(q, k, tried, done)
      invariant sound <==> AllCareful(cache, q, sources, ran)
      invariant sound ==> cache.Sound()
      invariant sound ==> DoneWell(cache.cmd, q, sources, uidOf, done, failed, cache.cas, cache.uids)
      invariant !failed ==> forall i :: 0 <= i < k ==> q.order[i] in done
      invariant (good && sound) || warm ==> !failed
      invariant warm ==> ran == {} && commands == 0 && cache.cas == old(cache.cas) && cache.uids == old(cache.uids)
    {
      var n := q.order[k];
      assert n in q.order;
      DependenciesFirst(q, k, !failed, done);
      var ready := forall d :: d in q.p.g[n] ==> d in done;
      if ready {
        var here, run;
        assert warm ==> old(IntactIn(cache.cas, cache.uids, uidOf[n]));
        assert good ==> Builds(cache.cmd, q, sources, n) && RemoteDelivers(cache.cmd, q, sources, n);
        ok, run, here := ExecuteNode(cache, q, sources, uidOf, done, failed, n, sound);
        CarefulMeans(cache, q, sources, uidOf, n, ran);
        TracedOne(q, k, tried, done, ok);
        tried := tried + [(n, ok)];
        sound := sound && cache.Sound();
        commands := commands + if run then 1 else 0;
        ran := if here then ran + {n} else ran;
        if ok {
          done := done + {n};
        } else {
          failed := true;
          if !q.keepGoing {
            return;
          }
        }
      } else {
        TracedNot(q, k, tried, done);
        failed := true;
      }
    }
    ok := !failed;
    TracedAll(q, tried, done);
    if ok && sound {
      AllDone(cache, q, sources, uidOf, done);
    }
  }

  lemma NoneRan(cache: Cache, q: Request, sources: Sources)
    requires ValidRequest(q)
    ensures AllCareful(cache, q, sources, {})
  {
  }

  lemma CarefulMeans(cache: Cache, q: Request, sources: Sources, uidOf: map<Node, Uid>, n: Node, ran: set<Node>)
    requires ValidRequest(q) && RightUids(q.p, sources, uidOf) && n in q.p.g && n in uidOf
    ensures AllCareful(cache, q, sources, ran + {n})
       <==> AllCareful(cache, q, sources, ran) && CarefulWith(cache.cmd, cache.rewrites, uidOf[n])
  {
    hide Acyclic, Closed, Reach, Ordered;
  }

  /** One node whose dependencies have succeeded: every remote attempt that loses its host puts it
      back, and it is tried again, at last here. While the cache is sound it stays so, except when its
      commands are run here and write into the files they are given. */
  method ExecuteNode(cache: Cache, q: Request, sources: Sources, uidOf: map<Node, Uid>, ghost done: set<Node>,
                     ghost failed: bool, n: Node, ghost sound: bool)
    returns (ok: bool, ran: bool, here: bool)
    requires cache.Valid() && ValidRequest(q) && RightUids(q.p, sources, uidOf)
    requires sound ==> cache.Sound()
    requires sound ==> DoneWell(cache.cmd, q, sources, uidOf, done, failed, cache.cas, cache.uids)
    requires n in q.p.g && n in uidOf && forall d :: d in q.p.g[n] ==> d in done
    modifies cache
    ensures cache.Valid() && cache.cas.Keys >= old(cache.cas.Keys)
    ensures sound ==> (cache.Sound() <==> !here || CarefulWith(cache.cmd, cache.rewrites, uidOf[n]))
    ensures sound ==> DoneWell(cache.cmd, q, sources, uidOf, if ok then done + {n} else done, failed || !ok,
                               cache.cas, cache.uids)
    ensures sound && !failed && n !in q.flaky && Builds(cache.cmd, q, sources, n)
            && RemoteDelivers(cache.cmd, q, sources, n)
        ==> ok
    ensures old(IntactIn(cache.cas, cache.uids, uidOf[n])) ==>
              ok && !ran && !here && cache.cas == old(cache.cas) && cache.uids == old(cache.uids)
  {
    hide AllThere, HonestCas, SoundAll, CleanBuild, UidOf, Acyclic, Closed, Reach, Ordered, Physical, Meaning,
      MeaningOfAll, ValidRequest, RemoteDelivers, Builds, DoneWell, CarefulWith, Keeps, FileTree, JobFiles;
    var u := uidOf[n];
    var tries := TriesOf(q, n);
    here := false;
    if sound {
      DepsOfDone(cache, q, sources, uidOf, done, failed, n);
    }
    for k := 0 to |tries|
      invariant cache.Valid() && cache.cas == old(cache.cas)
      invariant cache.uids == if k == 0 then old(cache.uids) else old(cache.uids) - {u}
      invariant k > 0 ==> !old(IntactIn(cache.cas, cache.uids, u))
      invariant sound ==> cache.Sound()
      invariant sound ==> DoneWell(cache.cmd, q, sources, uidOf, done, failed, cache.cas, cache.uids)
      invariant sound ==> cache.Whole(u.deps) && (!failed ==> cache.AllIntact(u.deps))
    {
      ghost var cas0, uids0 := cache.cas, cache.uids;
      var host, outcome := BlobsOf(cache.cas.Keys), Failed;
      if sound {
        RemoteGood(cache, q, sources, uidOf, done, failed, n, k);
        HostHasAll(cache, u.deps, host);
      }
      outcome, ran := ExecuteRemote(cache, u, host, BlobsOf(tries[k].received), tries[k].lost);
      if sound {
        DoneStays(cache, q, sources, uidOf, done, failed, n, outcome.Done?, true, cas0, uids0);
      }
      if !outcome.Requeued? {
        return outcome.Done?, ran, false;
      }
      if sound {
        DepsOfDone(cache, q, sources, uidOf, done, failed, n);
      }
    }
    ghost var cas0, uids0 := cache.cas, cache.uids;
    MeaningIsClean(cache.cmd, q.p, sources, n);
    BuildsMeans(cache.cmd, q, sources, n);
    ok, ran := cache.Execute(u, n in q.flaky);
    here := ran;
    if sound {
      DoneStays(cache, q, sources, uidOf, done, failed, n, ok, ok, cas0, uids0);
    }
  }

  lemma BuildsMeans(cmd: Command, q: Request, sources: Sources, n: Node)
    requires ValidRequest(q) && n in q.p.g
    ensures Builds(cmd, q, sources, n) <==> Meaning(cmd, UidOf(q.p, sources, n)).Some?
  {
    hide Meaning, CleanBuild, UidOf, Acyclic, Closed, Reach, Ordered;
    MeaningIsClean(cmd, q.p, sources, n);
  }

  lemma DepsOfDone(cache: Cache, q: Request, sources: Sources, uidOf: map<Node, Uid>, done: set<Node>, failed: bool,
                   n: Node)
    requires ValidRequest(q) && RightUids(q.p, sources, uidOf) && n in q.p.g && n in uidOf
    requires DoneWell(cache.cmd, q, sources, uidOf, done, failed, cache.cas, cache.uids)
    requires forall d :: d in q.p.g[n] ==> d in done
    ensures cache.Whole(uidOf[n].deps) && (!failed ==> cache.AllIntact(uidOf[n].deps))
  {
    hide AllThere, UidOf, Acyclic, Closed, Reach, Ordered, ValidRequest, Builds;
    forall v | v in uidOf[n].deps ensures v in cache.uids || !failed ==> cache.Intact(v) {
      var d := DependenciesOfUid(q.p, sources, n, v);
      assert DoneNode(cache.cmd, q, sources, uidOf, d, failed, cache.cas, cache.uids);
    }
  }

  /** A node that has been tried: what had succeeded has, unless a failed run took its manifest. */
  lemma DoneStays(cache: Cache, q: Request, sources: Sources, uidOf: map<Node, Uid>, done: set<Node>, failed: bool,
                  n: Node, ok: bool, keeps: bool, cas0: Cas, uids0: map<Uid, Manifest>)
    requires ValidRequest(q) && RightUids(q.p, sources, uidOf) && n in q.p.g && n in uidOf
    requires DoneWell(cache.cmd, q, sources, uidOf, done, failed, cas0, uids0)
    requires cas0.Keys <= cache.cas.Keys
    requires forall v :: v != uidOf[n] && v in cache.uids ==> v in uids0 && cache.uids[v] == uids0[v]
    requires ok ==> cache.Intact(uidOf[n]) && Meaning(cache.cmd, uidOf[n]).Some?
    requires if ok then keeps else uidOf[n] !in cache.uids
    requires keeps ==> Keeps(cas0, uids0, cache.cas, cache.uids)
    ensures DoneWell(cache.cmd, q, sources, uidOf, if ok then done + {n} else done, failed || !keeps,
                     cache.cas, cache.uids)
    ensures DoneWell(cache.cmd, q, sources, uidOf, if ok then done + {n} else done, failed || !ok,
                     cache.cas, cache.uids)
  {
    hide AllThere, UidOf, Acyclic, Closed, Reach, Ordered, ValidRequest, Builds, Meaning;
    forall m | m in done
      ensures DoneNode(cache.cmd, q, sources, uidOf, m, failed || !keeps, cache.cas, cache.uids)
    {
      assert DoneNode(cache.cmd, q, sources, uidOf, m, failed, cas0, uids0);
      if uidOf[m] in cache.uids && uidOf[m] != uidOf[n] {
        ThereOfMore(cas0, cache.cas, uids0[uidOf[m]]);
      }
    }
    BuildsMeans(cache.cmd, q, sources, n);
  }

  lemma HostHasAll(cache: Cache, us: seq<Uid>, host: Cas)
    requires cache.Whole(us) && host.Keys == cache.cas.Keys
    ensures forall v :: v in us && v in cache.uids ==> AllThere(host, cache.uids[v])
  {
    hide AllThere;
    forall v | v in us && v in cache.uids ensures AllThere(host, cache.uids[v]) {
      ThereOfMore(cache.cas, host, cache.uids[v]);
    }
  }

  /** An attempt whose host answers as it should succeeds. */
  lemma RemoteGood(cache: Cache, q: Request, sources: Sources, uidOf: map<Node, Uid>, done: set<Node>, failed: bool,
                   n: Node, k: nat)
    requires cache.Sound() && ValidRequest(q) && RightUids(q.p, sources, uidOf) && n in q.p.g && n in uidOf
    requires DoneWell(cache.cmd, q, sources, uidOf, done, failed, cache.cas, cache.uids)
    requires forall d :: d in q.p.g[n] ==> d in done
    requires !failed ==> cache.AllIntact(uidOf[n].deps)
    requires k < |TriesOf(q, n)|
    ensures var t := TriesOf(q, n)[k];
            !failed && Builds(cache.cmd, q, sources, n) && RemoteDelivers(cache.cmd, q, sources, n) ==>
              && Known(cache.uids - {uidOf[n]}, uidOf[n].deps)
              && FileTree(JobFiles(cache.uids - {uidOf[n]}, uidOf[n].deps))
              && (!t.lost ==> BuiltAndReceived(Meaning(cache.cmd, uidOf[n]), BlobsOf(t.received) + cache.cas))
  {
    hide AllThere, HonestCas, SoundAll, UidOf, Acyclic, Closed, Reach, Ordered, ValidRequest, CleanBuild, Builds,
      Meaning, Physical, Seal, JobFiles, FileTree, DepsApart, DoneWell;
    var u, t := uidOf[n], TriesOf(q, n)[k];
    if !failed && Builds(cache.cmd, q, sources, n) && RemoteDelivers(cache.cmd, q, sources, n) {
      NotItsOwnDep(u);
      KnownDeps(cache, u);
      FilesApart(cache, q, sources, uidOf, n);
      if !t.lost {
        MeaningIsClean(cache.cmd, q.p, sources, n);
        var tree := CleanBuild(cache.cmd, q.p, sources, n).value;
        ThereOfMore(BlobsOf(t.received), BlobsOf(t.received) + cache.cas, Seal(tree));
      }
    }
  }

  lemma NotItsOwnDep(u: Uid)
    ensures u !in u.deps
  {
    forall i | 0 <= i < |u.deps| ensures u.deps[i] != u {
    }
  }

  lemma KnownDeps(cache: Cache, u: Uid)
    requires cache.AllIntact(u.deps) && u !in u.deps
    ensures Known(cache.uids - {u}, u.deps)
  {
    hide AllThere;
  }

  lemma FilesApart(cache: Cache, q: Request, sources: Sources, uidOf: map<Node, Uid>, n: Node)
    requires cache.Sound() && ValidRequest(q) && RightUids(q.p, sources, uidOf) && n in q.p.g && n in uidOf
    requires cache.AllIntact(uidOf[n].deps) && DepsApart(cache.cmd, q, sources, n)
    ensures FileTree(JobFiles(cache.uids - {uidOf[n]}, uidOf[n].deps))
  {
    hide AllThere, HonestCas, UidOf, Acyclic, Reach, Ordered, CleanBuild, Meaning, Physical, JobFiles, SoundAll,
      Builds;
    var us, files := uidOf[n].deps, JobFiles(cache.uids - {uidOf[n]}, uidOf[n].deps);
    forall x | x in files ensures exists d :: IsDepPath(cache.cmd, q, sources, n, d, x) {
      var v := FileOfJob(cache.uids - {uidOf[n]}, us, x);
      var d := DependenciesOfUid(q.p, sources, n, v);
      SealedDep(cache, q, sources, d, v, x);
      assert IsDepPath(cache.cmd, q, sources, n, d, x);
    }
  }

  lemma SealedDep(cache: Cache, q: Request, sources: Sources, d: Node, v: Uid, x: Path)
    requires cache.Sound() && ValidRequest(q) && d in q.p.g && v == UidOf(q.p, sources, d)
    requires v in cache.uids && x in cache.uids[v]
    ensures Builds(cache.cmd, q, sources, d) && x in CleanBuild(cache.cmd, q.p, sources, d).value
  {
    hide AllThere, HonestCas, UidOf, Acyclic, Closed, Reach, Ordered, CleanBuild, Meaning, Physical;
    MeaningIsClean(cache.cmd, q.p, sources, d);
    assert SoundManifest(cache.cmd, v, cache.uids[v]);
  }

  lemma {:induction false} FileOfJob(uids: map<Uid, Manifest>, us: seq<Uid>, x: Path) returns (v: Uid)
    requires x in JobFiles(uids, us)
    ensures v in us && v in uids && x in uids[v]
    decreases |us|
  {
    var last := us[|us| - 1];
    if last in uids && x in uids[last] {
      v := last;
    } else {
      v := FileOfJob(uids, us[..|us| - 1], x);
    }
  }

  lemma NothingDone(cache: Cache, q: Request, sources: Sources, uidOf: map<Node, Uid>)
    requires ValidRequest(q)
    ensures DoneWell(cache.cmd, q, sources, uidOf, {}, false, cache.cas, cache.uids)
  {
  }

  lemma AllDone(cache: Cache, q: Request, sources: Sources, uidOf: map<Node, Uid>, done: set<Node>)
    requires ValidRequest(q) && DoneWell(cache.cmd, q, sources, uidOf, done, false, cache.cas, cache.uids)
    requires forall i :: 0 <= i < |q.order| ==> q.order[i] in done
    ensures forall n :: n in q.order ==> n in uidOf && cache.Intact(uidOf[n]) && Builds(cache.cmd, q, sources, n)
  {
    hide Builds, AllThere, ValidRequest;
  }

  lemma DependenciesFirst(q: Request, k: nat, good: bool, done: set<Node>)
    requires ValidRequest(q) && k < |q.order|
    requires good ==> forall i :: 0 <= i < k ==> q.order[i] in done
    ensures q.order[k] in q.p.g
    ensures good ==> forall d :: d in q.p.g[q.order[k]] ==> d in done
  {
    hide Acyclic, Closed, Reach;
    assert Ordered(q, k);
  }

  /** A sound manifest is of the clean build of its node. */
  lemma IntactBuilds(cache: Cache, q: Request, sources: Sources, n: Node, uidOf: map<Node, Uid>)
    requires cache.Sound() && ValidRequest(q) && RightUids(q.p, sources, uidOf)
    requires n in uidOf && cache.Intact(uidOf[n])
    ensures n in q.p.g && CleanBuild(cache.cmd, q.p, sources, n).Some?
    ensures cache.uids[uidOf[n]] == Seal(CleanBuild(cache.cmd, q.p, sources, n).value)
  {
    hide AllThere, HonestCas, CleanBuild, UidOf, Acyclic, Closed, Reach, Ordered, Meaning, Physical, Seal;
    assert SoundManifest(cache.cmd, uidOf[n], cache.uids[uidOf[n]]);
    MeaningIsClean(cache.cmd, q.p, sources, n);
  }

  /** Links to the requested nodes into the build root; a file of the root where a directory is needed is an
      error. */
  method RestoreRoots(cache: Cache, q: Request, sources: Sources, uidOf: map<Node, Uid>, root: Tree,
                      ghost sound: bool)
    returns (ok: bool, out: Tree)
    requires cache.Valid() && ValidRequest(q) && RightUids(q.p, sources, uidOf)
    requires forall r :: r in q.roots ==> r in uidOf
    requires sound ==> cache.Sound() && forall r :: r in q.roots ==> cache.Intact(uidOf[r])
    modifies cache
    ensures cache.Valid() && cache.cas == old(cache.cas) && (ok ==> cache.uids == old(cache.uids))
    ensures sound ==> cache.Sound()
    ensures sound && ok ==> CleanRoots(cache.cmd, q, sources, root, |q.roots|) == Some(out)
    ensures sound && !ok ==> CleanRoots(cache.cmd, q, sources, root, |q.roots|) == None
  {
    hide AllThere, HonestCas, SoundManifest, CleanBuild, UidOf, Acyclic, Closed, Reach, Ordered, Thaw, Physical, Lay,
      Blocked;
    out := root;
    for k := 0 to |q.roots|
      invariant cache.Valid() && cache.cas == old(cache.cas) && cache.uids == old(cache.uids)
      invariant sound ==> CleanRoots(cache.cmd, q, sources, root, k) == Some(out)
    {
      var r := q.roots[k];
      assert r in q.roots;
      if sound {
        IntactBuilds(cache, q, sources, r, uidOf);
        SameBlocks(map[], out, cache.uids[uidOf[r]]);
      }
      ok, out := cache.Restore(uidOf[r], out, true);
      if !ok {
        if sound {
          assert CleanRoots(cache.cmd, q, sources, root, k + 1) == None;
          NoneStays(cache.cmd, q, sources, root, k + 1);
        }
        return;
      }
    }
    ok := true;
  }

  lemma SameBlocks(cas: Cas, where: Tree, m: Manifest)
    ensures Blocked(where, Thaw(cas, m)) <==> Blocked(where, m)
  {
    hide ThawItem;
    SameKeysSameBlocks(where, where, Thaw(cas, m), m);
  }

  lemma {:induction false} NoneStays(cmd: Command, q: Request, sources: Sources, root: Tree, k: nat)
    requires ValidRequest(q) && k <= |q.roots| && CleanRoots(cmd, q, sources, root, k) == None
    ensures CleanRoots(cmd, q, sources, root, |q.roots|) == None
    decreases |q.roots| - k
  {
    hide Ordered, Acyclic, Closed, Reach, CleanBuild;
    if k < |q.roots| {
      NoneStays(cmd, q, sources, root, k + 1);
    }
  }

  // ---------------------------------------------------------------- histories

  /** The world between builds: the sources change, blobs and manifests disappear. */
  datatype Event = Edit(sources: Sources) | Lose(blobs: set<Digest>, manifests: set<Uid>) | Build(request: Request)

  ghost predicate ValidEvent(e: Event) {
    e.Build? ==> ValidRequest(e.request)
  }

  /** The sources after the first `k` events. */
  function SourcesAfter(events: seq<Event>, sources: Sources, k: nat): Sources
    requires k <= |events|
  {
    if k == 0 then sources
    else if events[k - 1].Edit? then events[k - 1].sources
    else SourcesAfter(events, sources, k - 1)
  }

  method Forget(cache: Cache, blobs: set<Digest>, manifests: set<Uid>)
    requires cache.Sound()
    modifies cache
    ensures cache.Sound() && cache.cas == old(cache.cas) - blobs && cache.uids == old(cache.uids) - manifests
  {
    cache.cas := cache.cas - blobs;
    cache.uids := cache.uids - manifests;
  }

  lemma NoneCareless(cache: Cache, q: Request, sources: Sources, ran: set<Node>)
    requires ValidRequest(q) && forall u :: CarefulWith(cache.cmd, cache.rewrites, u)
    ensures AllCareful(cache, q, sources, ran)
  {
    hide CarefulWith, Ordered, Acyclic, Closed, Reach;
  }

  /** What event `k` made of the build root and the blob store: a build that succeeded has put links
      to the clean builds of the sources as they were into what the root was, and their blobs are
      there; no build takes blobs away; nothing but a build touches the root, and so its links lead
      nowhere when their blobs are lost. */
  ghost predicate Faithful(cmd: Command, events: seq<Event>, sources: Sources, k: nat, ok: bool, root: Tree,
                           after: Tree, store: Cas, storeAfter: Cas)
    requires k < |events| && ValidEvent(events[k])
  {
    && HonestCas(storeAfter)
    && match events[k]
       case Build(q) =>
         && store.Keys <= storeAfter.Keys
         && (ok ==> CleanRoots(cmd, q, SourcesAfter(events, sources, k), root, |q.roots|) == Some(after)
                    && Delivered(cmd, q, SourcesAfter(events, sources, k), storeAfter))
       case Lose(blobs, _) => after == root && storeAfter == store - blobs
       case Edit(_) => after == root && storeAfter == store
  }

  /** A whole history: what each event found and left. */
  ghost predicate History(cmd: Command, events: seq<Event>, sources: Sources, results: seq<bool>, roots: seq<Tree>,
                          stores: seq<Cas>)
  {
    && |results| == |events| && |roots| == |events| + 1 && |stores| == |events| + 1
    && forall k :: 0 <= k < |events| ==>
         ValidEvent(events[k])
         && Faithful(cmd, events, sources, k, results[k], roots[k], roots[k + 1], stores[k], stores[k + 1])
  }

  /** Whatever happens between and in the builds, each one that succeeds puts exactly what a build
      from nothing of the current sources makes of the requested nodes, as links to blobs that are
      there, into the build root that the one before has left. */
  method Live(cmd: Command, rewrites: Rewrites, events: seq<Event>, sources0: Sources, root0: Tree)
    returns (cache: Cache, results: seq<bool>, roots: seq<Tree>, ghost stores: seq<Cas>)
    requires Physical(cmd, rewrites) && forall u :: CarefulWith(cmd, rewrites, u)
    requires forall e :: e in events ==> ValidEvent(e)
    ensures cache.cmd == cmd && cache.Sound()
    ensures History(cmd, events, sources0, results, roots, stores)
    ensures roots[0] == root0 && stores[0] == map[] && stores[|events|] == cache.cas
  {
    hide ValidRequest, CleanRoots, AllThere, HonestCas, SoundAll, Warm, AllSources, NothingFails, CarefulWith,
      Physical, Delivered;
    cache := new Cache(cmd, rewrites);
    results, roots, stores := [], [root0], [cache.cas];
    var sources := sources0;
    for k := 0 to |events|
      invariant fresh(cache) && cache.cmd == cmd && cache.rewrites == rewrites && cache.Sound()
      invariant |results| == k && |roots| == |stores| == k + 1
      invariant roots[0] == root0 && stores[0] == map[] && stores[k] == cache.cas
      invariant sources == SourcesAfter(events, sources0, k)
      invariant forall i :: 0 <= i < k ==> ValidEvent(events[i])
      invariant forall i :: 0 <= i < k ==> Faithful(cmd, events, sources0, i, results[i], roots[i], roots[i + 1],
                                                    stores[i], stores[i + 1])
    {
      assert ValidEvent(events[k]);
      var ok, after := true, roots[k];
      match events[k] {
        case Edit(s) =>
          sources := s;
        case Lose(blobs, manifests) =>
          Forget(cache, blobs, manifests);
        case Build(request) =>
          var commands;
          ghost var ran, sound, tried;
          ok, after, commands, ran, sound, tried := Run(cache, request, sources, roots[k]);
          NoneCareless(cache, request, sources, ran);
      }
      results, roots, stores := results + [ok], roots + [after], stores + [cache.cas];
    }
  }

  /** Building again with nothing changed runs no command; and with every clean build found in the
      build root as it is, it succeeds and leaves the build root alone. */
  method BuildTwice(cache: Cache, q: Request, sources: Sources, root: Tree)
    returns (first: Option<Tree>, second: Option<Tree>, commands: nat)
    requires cache.Sound() && ValidRequest(q) && AllCareful(cache, q, sources, set n | n in q.order)
    modifies cache
    ensures first.Some? ==> commands == 0
    ensures first.Some? && FileTree(first.value) && HoldsAll(cache.cmd, q, sources, first.value) ==> second == first
  {
    hide ValidRequest, CleanRoots, AllThere, HonestCas, SoundAll, Warm, AllSources, NothingFails, Careful, Physical,
      Delivered;
    first, second, commands := None, None, 0;
    ghost var ran, sound, tried;
    var ok, out, runs;
    ok, out, runs, ran, sound, tried := Run(cache, q, sources, root);
    if ok {
      first := Some(out);
      if FileTree(out) && HoldsAll(cache.cmd, q, sources, out) {
        NothingToPut(cache.cmd, q, sources, out, |q.roots|);
      }
      ok, out, commands, ran, sound, tried := Run(cache, q, sources, out);
      second := if ok then Some(out) else None;
    }
  }

  /** Links to the clean build of every requested node are in the tree. */
  ghost predicate HoldsAll(cmd: Command, q: Request, sources: Sources, out: Tree)
    requires ValidRequest(q)
  {
    forall r :: r in q.roots ==>
      Builds(cmd, q, sources, r) && Holds(Linked(CleanBuild(cmd, q.p, sources, r).value), out)
  }

  predicate Holds(tree: Tree, out: Tree) {
    forall path :: path in tree ==> path in out && out[path] == tree[path]
  }

  lemma {:induction false} NothingToPut(cmd: Command, q: Request, sources: Sources, out: Tree, k: nat)
    requires ValidRequest(q) && k <= |q.roots| && FileTree(out) && HoldsAll(cmd, q, sources, out)
    ensures CleanRoots(cmd, q, sources, out, k) == Some(out)
    decreases k
  {
    hide Ordered, Acyclic, Closed, Reach, CleanBuild;
    if k > 0 {
      NothingToPut(cmd, q, sources, out, k - 1);
      assert q.roots[k - 1] in q.roots;
      LaidAlready(out, Linked(CleanBuild(cmd, q.p, sources, q.roots[k - 1]).value));
    }
  }

  lemma LaidAlready(out: Tree, tree: Tree)
    requires FileTree(out) && Holds(tree, out)
    ensures Overlay(out, tree) == Some(out)
  {
    assert forall p :: p in tree ==> p in out;
    assert forall q :: q in out ==> !Covered(q, tree);
    assert !Blocked(out, tree);
    assert Lay(out, tree) == out;
  }
}

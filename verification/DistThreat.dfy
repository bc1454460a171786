/** build, `RemoteHost.execute`: exactly when the ledger of a connection that holds stays right. */
module DistThreat {
  import opened Options
  import opened Dist
  import opened DistWake
  import opened DistLedger
  import opened DistAnswers
  import opened DistStable
  import opened DistBehind
  import opened DistRuns
  import opened DistDeliver

  /** In every state of every run on the connection, from here on, the ledger is right for the job. */
  ghost predicate StaysRight(s: State, c: Conn, u: Uid) {
    forall t :: Reaches(s, t, c) ==> c in t.links && Trusted(t, c, u)
  }

  /** No later attempt of the job, in any such run, finds a blob missing. */
  ghost predicate NeverMisses(s: State, c: Conn, u: Uid) {
    forall t, k :: Reaches(s, t, c) && Checks(t, c, k, u, s.next) ==> u.blobs <= t.cache
  }

  ghost predicate Checks(t: State, c: Conn, k: nat, u: Uid, n: Reply) {
    Enabled(t, HostCheck(c, k)) && Late(t.links[c].queued[k], u, n)
  }

  lemma RunToMissing(s: State, c: Conn, u: Uid) returns (states: seq<State>, steps: seq<Step>, k: nat)
    requires !NeverMisses(s, c, u)
    ensures HoldingRun(states, steps, c) && |states| == |steps| + 1 && states[0] == s
    ensures Checks(states[|steps|], c, k, u, s.next) && !(u.blobs <= states[|steps|].cache)
  {
    hide Reaches, Checks;
    var t;
    t, k :| Reaches(s, t, c) && Checks(t, c, k, u, s.next) && !(u.blobs <= t.cache);
    states, steps := RunThere(s, t, c);
  }

  // ---------------------------------------------------------------- without a threat

  lemma SteadyReaches(s: State, t: State, c: Conn, u: Uid)
    requires OnLine(s, c) && Secure(s, c, u) && Reaches(s, t, c)
    ensures Steady(t, c, u, s.next) && c in t.links && Trusted(t, c, u)
  {
    hide Inv, DeadBehind, AllNumbered, Line, Secure, Enabled, Next, Holds, Steady;
    SteadyFrom(s, c, u);
    var states, steps := RunThere(s, t, c);
    SteadyRun(states, steps, c, u, s.next, 0, |steps|);
    SteadyIsTrusted(t, c, u, s.next);
  }

  lemma SteadyIsTrusted(s: State, c: Conn, u: Uid, n: Reply)
    requires Steady(s, c, u, n)
    ensures c in s.links && Trusted(s, c, u)
  {
    hide Inv, ResultsSafe, Trusted, Covered, QueuedReady, WritesAll, Unthreatened;
  }

  // ---------------------------------------------------------------- a threat carried out

  /** A thread of an older connection takes the lock and enters in the ledger what it will never
      write to this connection. */
  lemma StaleClaims(s: State, t: State, c: Conn, d: Digest, v: Uid) returns (t2: State)
    requires Lacks(s, t, c, d) && Stale(t, v, c) && d in v.blobs && !ToBeClaimed(t, c, d)
    ensures Lacks(s, t2, c, d) && d in t2.sent && IdleStay(t, t2, v)
  {
    hide Lacks, Moved;
    t2 := t;
    if t.threads[v].Registered? {
      t2 := LockGetsFree(s, t, c, d);
      MovedIdle(t, t2, c, v);
      GoesOn(s, t2, c, d, TakeLock(v));
      t2 := Next(t2, TakeLock(v));
    }
    GoesOn(s, t2, c, d, Claim(v));
    t2 := Next(t2, Claim(v));
  }

  lemma MovedIdle(t: State, t2: State, c: Conn, v: Uid)
    requires Moved(t, t2, c, v)
    ensures IdleStay(t, t2, v)
  {
  }

  /** A blob of the job for which the ledger is wrong, or about to be. */
  lemma Endangered(s: State, c: Conn, u: Uid) returns (d: Digest, v: Uid, f: Up)
    requires c in s.links && !Secure(s, c, u)
    ensures d in u.blobs && !Shipped(s, c, d)
    ensures || d in s.sent
            || (Stale(s, v, c) && d in v.blobs && !ToBeClaimed(s, c, d))
            || (Names(f, d) && (AtOnce(s, v, f) || (OnWay(s, v, f) && !ToBeClaimed(s, c, d) && d !in v.blobs)))
  {
    hide Shipped, ToBeClaimed, AtOnce, OnWay, Stale, Names;
    v, f := u, BlobUp(0);
    if !Trusted(s, c, u) {
      d :| d in u.blobs && d in s.sent && !Shipped(s, c, d);
    } else if !Unthreatened(s, c, u) {
      v, d :| Stale(s, v, c) && d in v.blobs && d in u.blobs && !Shipped(s, c, d) && !ToBeClaimed(s, c, d);
    } else if x, g, b :| AtOnce(s, x, g) && Names(g, b) && b in u.blobs && !Shipped(s, c, b) {
      d, v, f := b, x, g;
    } else {
      v, f, d :| OnWay(s, v, f) && Names(f, d) && d in u.blobs && !Shipped(s, c, d) && !ToBeClaimed(s, c, d)
                 && d !in v.blobs;
    }
  }

  lemma IsSpoilt(s: State, c: Conn, u: Uid) returns (t: State, d: Digest)
    requires OnLine(s, c) && c in s.links && !Secure(s, c, u)
    ensures Lacks(s, t, c, d) && d in t.sent && d in u.blobs && (Idle(s, u) ==> Idle(t, u))
  {
    hide Inv, AllNumbered, DeadBehind, Line, Shipped, Reaches, Secure, ToBeClaimed, Takes, Comes, NextFor, Names;
    ReachesItself(s, c);
    var v, f;
    d, v, f := Endangered(s, c, u);
    if d in s.sent {
      t := s;
    } else if Stale(s, v, c) && d in v.blobs && !ToBeClaimed(s, c, d) {
      t := StaleClaims(s, s, c, d, v);
    } else {
      t := ResultSpoils(s, s, c, d, v, f);
    }
  }

  // ---------------------------------------------------------------- the ledger stays right

  /** While the connection holds and the host keeps its cache, the ledger is right for a job in every
      state of every run if and only if it is now, and each blob of the job that a thread of an older
      connection has yet to claim, or a result on its way names, is on the host or on its way there,
      or will be before that thread can claim or take it. */
  lemma LedgerStaysRightIff(s: State, c: Conn, u: Uid)
    requires OnLine(s, c) && c in s.links
    ensures StaysRight(s, c, u) <==> Secure(s, c, u)
  {
    hide OnLine, Secure, Trusted, Reaches;
    if Secure(s, c, u) {
      forall t | Reaches(s, t, c) ensures c in t.links && Trusted(t, c, u) {
        SteadyReaches(s, t, c, u);
      }
    } else {
      var t, d := IsSpoilt(s, c, u);
      IsWrong(s, t, c, u, d);
    }
  }

  lemma IsWrong(s: State, t: State, c: Conn, u: Uid, d: Digest)
    requires Lacks(s, t, c, d) && d in t.sent && d in u.blobs
    ensures !StaysRight(s, c, u)
  {
    hide Reaches, Inv, DeadBehind, Shipped;
    assert d in u.blobs && d in t.sent;
  }

  // ---------------------------------------------------------------- a new connection

  /** What the host has said it still has, what threads of older connections have yet to claim, and
      what results on their way name, is all on the host; a thread that has yet to claim its own
      blobs may get them in a result. */
  ghost predicate NothingStale(s: State) {
    && s.attempt.Greeted? && s.attempt.kept <= s.cache
    && (forall v :: v in s.threads && MayClaim(s.threads[v]) ==> v.blobs <= s.cache)
    && (forall v, f :: v in s.threads && PastClaim(s.threads[v]) && Takes(s, v, f) && f.Result? ==>
          f.outputs <= s.cache)
    && (forall v, f :: OnWay(s, v, f) && f.Result? ==> f.outputs <= s.cache + v.blobs)
  }

  /** So the ledger of a new connection stays right for every job if and only if nothing that is left
      of older ones, nor of the greeting, names a blob the host lacks. */
  lemma NewLedgerStaysRightIff(s: State, c: Conn)
    requires Inv(s) && DeadBehind(s) && AllNumbered(s) && Enabled(s, Install(c))
    ensures (forall u :: StaysRight(Next(s, Install(c)), c, u)) <==> NothingStale(s)
  {
    hide OnLine, StaysRight, Secure, Inv, DeadBehind, AllNumbered, Next, NothingStale;
    var s1 := Next(s, Install(c));
    NewConnection(s, c);
    forall u ensures StaysRight(s1, c, u) <==> Secure(s1, c, u) {
      LedgerStaysRightIff(s1, c, u);
    }
    if NothingStale(s) {
      forall u ensures Secure(s1, c, u) {
        NewIsSecure(s, c, u);
      }
    }
    if forall u :: Secure(s1, c, u) {
      SecureIsNew(s, c);
    }
  }

  lemma NewConnection(s: State, c: Conn)
    requires Inv(s) && DeadBehind(s) && AllNumbered(s) && Enabled(s, Install(c))
    ensures OnLine(Next(s, Install(c)), c) && c in Next(s, Install(c)).links
  {
    hide Inv, DeadBehind, AllNumbered;
    StepInv(s, Install(c));
    DeadStep(s, Install(c));
    StepNumbered(s, Install(c));
    NobodyOn(s, c);
  }

  lemma NobodyOn(s: State, c: Conn)
    requires Inv(s) && Enabled(s, Install(c))
    ensures (forall v :: v in s.threads && HasConn(s.threads[v]) ==> s.threads[v].c != c) && s.pending == map[]
  {
    hide Pending, HeldApart, NotForgotten, Locked;
  }

  /** Nothing is on its way to the host, and nobody is about to write to it. */
  lemma NewShips(s: State, c: Conn)
    requires Inv(s) && Enabled(s, Install(c)) && c in Next(s, Install(c)).links
    ensures forall d :: Shipped(Next(s, Install(c)), c, d) <==> d in s.cache
    ensures forall d :: !ToBeClaimed(Next(s, Install(c)), c, d)
    ensures forall v :: Stale(Next(s, Install(c)), v, c) <==> v in s.threads && MayClaim(s.threads[v])
    ensures Next(s, Install(c)).sent == s.attempt.kept
  {
    hide Inv;
    NobodyOn(s, c);
  }

  lemma NewAnswers(s: State, c: Conn, v: Uid, f: Up)
    requires Inv(s) && Enabled(s, Install(c))
    ensures Takes(Next(s, Install(c)), v, f) <==> Takes(s, v, f)
    ensures OnWay(Next(s, Install(c)), v, f) <==> OnWay(s, v, f)
    ensures AtOnce(Next(s, Install(c)), v, f) <==> v in s.threads && PastClaim(s.threads[v]) && Takes(s, v, f)
  {
    hide Inv, Takes, Next;
    NobodyOn(s, c);
    NewTakes(s, c, v, f);
    NewComes(s, c, f);
  }

  lemma NewTakes(s: State, c: Conn, v: Uid, f: Up)
    requires Enabled(s, Install(c))
    ensures Takes(Next(s, Install(c)), v, f) <==> Takes(s, v, f)
    ensures Next(s, Install(c)).threads == s.threads && Next(s, Install(c)).pending == s.pending
  {
    var s1 := Next(s, Install(c));
    if Takes(s, v, f) && !GotIs(s, v, f) {
      var e :| PoppedFor(s, e, v, f);
      assert PoppedFor(s1, e, v, f);
    }
    if Takes(s1, v, f) && !GotIs(s1, v, f) {
      var e :| PoppedFor(s1, e, v, f);
      assert PoppedFor(s, e, v, f);
    }
  }

  lemma NewComes(s: State, c: Conn, f: Up)
    requires Enabled(s, Install(c))
    ensures forall e :: Comes(Next(s, Install(c)), e, f) <==> Comes(s, e, f)
  {
  }

  lemma NewIsSecure(s: State, c: Conn, u: Uid)
    requires Inv(s) && Enabled(s, Install(c)) && NothingStale(s) && c in Next(s, Install(c)).links
    ensures Secure(Next(s, Install(c)), c, u)
  {
    hide Inv, Next, Shipped, ToBeClaimed, Takes, AtOnce, OnWay, Stale;
    var s1 := Next(s, Install(c));
    NewShips(s, c);
    forall v, f ensures AtOnce(s1, v, f) && f.Result? ==> f.outputs <= s.cache {
      NewAnswers(s, c, v, f);
    }
    forall v, f ensures OnWay(s1, v, f) && f.Result? ==> f.outputs <= s.cache + v.blobs {
      NewAnswers(s, c, v, f);
    }
  }

  lemma SecureIsNew(s: State, c: Conn)
    requires Inv(s) && Enabled(s, Install(c)) && c in Next(s, Install(c)).links
    requires forall u :: Secure(Next(s, Install(c)), c, u)
    ensures NothingStale(s)
  {
    hide Inv, Next, Shipped, ToBeClaimed, Takes, AtOnce, OnWay, Stale;
    var s1 := Next(s, Install(c));
    NewShips(s, c);
    forall d ensures SecureFor(s1, c, d) {
      SecureJob(s1, c, d);
    }
    assert forall d :: d in s.attempt.kept ==> SecureFor(s1, c, d);
    forall v | v in s.threads && MayClaim(s.threads[v]) ensures v.blobs <= s.cache {
      assert Stale(s1, v, c);
      assert forall d :: d in v.blobs ==> SecureFor(s1, c, d);
    }
    forall v, f | v in s.threads && PastClaim(s.threads[v]) && Takes(s, v, f) && f.Result?
      ensures f.outputs <= s.cache
    {
      NewAnswers(s, c, v, f);
      assert forall d :: d in f.outputs ==> Names(f, d) && SecureFor(s1, c, d);
    }
    forall v, f | OnWay(s, v, f) && f.Result? ensures f.outputs <= s.cache + v.blobs {
      NewAnswers(s, c, v, f);
      assert forall d :: d in f.outputs ==> Names(f, d) && SecureFor(s1, c, d);
    }
  }

  /** What being secure means for one blob. */
  ghost predicate SecureFor(s: State, c: Conn, d: Digest)
    requires c in s.links
  {
    && (d in s.sent ==> Shipped(s, c, d))
    && (forall v :: Stale(s, v, c) && d in v.blobs ==> Shipped(s, c, d) || ToBeClaimed(s, c, d))
    && (forall v, f :: AtOnce(s, v, f) && Names(f, d) ==> Shipped(s, c, d))
    && (forall v, f :: OnWay(s, v, f) && Names(f, d) ==> Shipped(s, c, d) || ToBeClaimed(s, c, d) || d in v.blobs)
  }

  lemma SecureJob(s: State, c: Conn, d: Digest)
    requires c in s.links && forall u :: Secure(s, c, u)
    ensures SecureFor(s, c, d)
  {
    hide Shipped, ToBeClaimed, AtOnce, OnWay, Stale, Names;
    var u := Uid(0, {d});
    assert Secure(s, c, u) && d in u.blobs;
  }

  // ---------------------------------------------------------------- and so no blob is missed again

  lemma {:induction false} HostReadsAll(s: State, t: State, c: Conn, d: Digest, job: Job) returns (t2: State)
    requires Lacks(s, t, c, d) && c in t.links
    requires JobDown(job) in t.links[c].down || job in t.links[c].queued
    ensures Lacks(s, t2, c, d) && c in t2.links && job in t2.links[c].queued
    decreases |t.links[c].down|
  {
    hide Lacks;
    LacksOnLine(s, t, c, d);
    if t.links[c].down == [] {
      t2 := t;
    } else {
      GoesOn(s, t, c, d, HostRead(c));
      t2 := HostReadsAll(s, Next(t, HostRead(c)), c, d, job);
    }
  }

  /** A thread that starts an attempt finds the blob in the ledger and sends only the rest. */
  lemma SendsTheRest(s: State, t: State, c: Conn, d: Digest, u: Uid) returns (t2: State)
    requires Lacks(s, t, c, d) && d in t.sent && u in t.threads && t.threads[u].Begin? && t.writeLock == None
    ensures Lacks(s, t2, c, d) && c in t2.links && JobDown(Job(u, t.next)) in t2.links[c].down
  {
    hide Lacks, Moved;
    LacksOnLine(s, t, c, d);
    GoesOn(s, t, c, d, Register(u));
    var t1 := Next(t, Register(u));
    GoesOn(s, t1, c, d, TakeLock(u));
    t1 := Next(t1, TakeLock(u));
    GoesOn(s, t1, c, d, Claim(u));
    t1 := Next(t1, Claim(u));
    t2 := WritesOut(s, t1, c, d, u);
  }

  /** A thread that has nothing under way has started. */
  lemma Starts(s: State, t: State, c: Conn, d: Digest, u: Uid) returns (t2: State)
    requires Lacks(s, t, c, d) && Idle(t, u)
    ensures Lacks(s, t2, c, d) && u in t2.threads && t2.threads[u].Begin?
    ensures t2.sent == t.sent && t2.writeLock == t.writeLock
  {
    hide Lacks;
    t2 := t;
    if u !in t.threads {
      GoesOn(s, t, c, d, Start(u));
      t2 := Next(t, Start(u));
    }
  }

  lemma MissesAgain(s: State, t: State, c: Conn, d: Digest, u: Uid)
    requires Lacks(s, t, c, d) && d in t.sent && d in u.blobs && Idle(t, u)
    ensures !NeverMisses(s, c, u)
  {
    hide Lacks, Reaches, Moved;
    LacksOnLine(s, t, c, d);
    var t0 := LockGetsFree(s, t, c, d);
    MovedIdle(t, t0, c, Uid(u.id + 1, {}));
    var t1 := Starts(s, t0, c, d, u);
    LacksOnLine(s, t1, c, d);
    var t2 := SendsTheRest(s, t1, c, d, u);
    var t3 := HostReadsAll(s, t2, c, d, Job(u, t1.next));
    LacksOnLine(s, t3, c, d);
    var k :| 0 <= k < |t3.links[c].queued| && t3.links[c].queued[k] == Job(u, t1.next);
    assert Checks(t3, c, k, u, s.next);
  }

  /** While the connection holds and the host keeps its cache, no later attempt of a job that has
      nothing under way misses a blob, in any run, if and only if the ledger is right for it and
      nothing threatens it. */
  lemma NeverMissesIff(s: State, c: Conn, u: Uid)
    requires OnLine(s, c) && c in s.links && Idle(s, u)
    ensures NeverMisses(s, c, u) <==> Secure(s, c, u)
  {
    hide OnLine, Secure, Trusted, Reaches, Lacks;
    if Secure(s, c, u) {
      forall t, k | Reaches(s, t, c) && Checks(t, c, k, u, s.next) ensures u.blobs <= t.cache {
        SteadyReaches(s, t, c, u);
        ReadyRuns(t, c, k, u, s.next);
      }
    } else {
      var t, d := IsSpoilt(s, c, u);
      MissesAgain(s, t, c, d, u);
    }
  }

  /** When a missing answer has been dealt with, one retry is enough, in every run on a connection
      that holds, if and only if the answer still named all blobs of the job that the ledger names and
      that were not shipped, and then neither a thread of an older connection nor a result on its way
      threatens the job. */
  lemma OneRetrySufficesIff(s: State, c: Conn, u: Uid)
    requires OnLine(s, c) && Enabled(s, Wake(u))
    requires s.answers[s.threads[u].r].Got? && s.answers[s.threads[u].r].frame.Missing?
    ensures c in s.links && c in Next(s, Wake(u)).links
    ensures var s2 := Next(s, Wake(u));
            NeverMisses(s2, c, u)
            <==> && (forall d :: d in u.blobs && d in s.sent && !Shipped(s, c, d) ==>
                       d in s.answers[s.threads[u].r].frame.digests)
                 && Unthreatened(s2, c, u) && ResultsSafe(s2, c, u)
  {
    hide Inv, DeadBehind, AllNumbered, Line, Unthreatened, ResultsSafe, NeverMisses, Shipped;
    var s2 := Next(s, Wake(u));
    StepInv(s, Wake(u));
    DeadStep(s, Wake(u));
    StepNumbered(s, Wake(u));
    LineStep(s, Wake(u), c);
    LineLink(s, c);
    LineLink(s2, c);
    NeverMissesIff(s2, c, u);
    forall d ensures Shipped(s2, c, d) <==> Shipped(s, c, d) {
      WakeShipsNothing(s, u, c, d);
    }
  }

  lemma WakeShipsNothing(s: State, u: Uid, c: Conn, d: Digest)
    requires Enabled(s, Wake(u)) && c in s.links && c in Next(s, Wake(u)).links
    ensures Shipped(Next(s, Wake(u)), c, d) <==> Shipped(s, c, d)
  {
    var s2 := Next(s, Wake(u));
    if BeingWritten(s, c, d) {
      var w :| WritesTo(s, w, c) && d in s.threads[w].rest;
      assert WritesTo(s2, w, c);
    }
    if BeingWritten(s2, c, d) {
      var w :| WritesTo(s2, w, c) && d in s2.threads[w].rest;
      assert WritesTo(s, w, c);
    }
  }

  // ---------------------------------------------------------------- a host that has lost nothing

  /** Then no result on its way is a threat. */
  lemma FramesAreSafe(s: State, c: Conn, u: Uid)
    requires Frames(s) && c in s.links
    ensures ResultsSafe(s, c, u)
  {
    hide BeingWritten, ToBeClaimed;
    forall v, f | OnWay(s, v, f) ensures FrameOk(f, s.cache) {
      OnWayIsOk(s, v, f);
    }
    forall v, f | AtOnce(s, v, f) ensures OnWay(s, v, f) {
      TakesOrComes(s, v);
    }
  }

  lemma OnWayIsOk(s: State, v: Uid, f: Up)
    requires Frames(s) && OnWay(s, v, f)
    ensures FrameOk(f, s.cache)
  {
    hide FrameOk, For;
    if Takes(s, v, f) {
      if !GotIs(s, v, f) {
        var e :| PoppedFor(s, e, v, f);
      }
    } else {
      var e :| Comes(s, e, f);
      assert f in s.links[e].up || f in s.links[e].outbox;
    }
  }

  /** In any run in which the host has lost nothing: when a missing answer has been dealt with on the
      connection that is up, one retry is enough if and only if no thread of an older connection
      threatens the job then. */
  lemma OneRetryWithoutLosses(states: seq<State>, steps: seq<Step>, k: nat, c: Conn, u: Uid)
    requires IsRun(states, steps) && states[0] == Initial() && k <= |steps|
    requires forall i :: 0 <= i < k ==> !steps[i].Forget?
    requires states[k].process == Some(c) && c in states[k].links && states[k].links[c].alive
    requires Enabled(states[k], Wake(u)) && states[k].answers[states[k].threads[u].r].Got?
    requires states[k].answers[states[k].threads[u].r].frame.Missing?
    ensures c in Next(states[k], Wake(u)).links
    ensures NeverMisses(Next(states[k], Wake(u)), c, u) <==> Unthreatened(Next(states[k], Wake(u)), c, u)
  {
    hide OnLine, Inv, DeadBehind, AllNumbered, Unthreatened, ResultsSafe, NeverMisses, Next, Shipped, Frames;
    var s := states[k];
    UpIsOnLine(states, steps, k, c);
    RunKeepsFrames(states, steps, k);
    OneRetrySufficesIff(s, c, u);
    FramesStep(s, Wake(u));
    FramesAreSafe(Next(s, Wake(u)), c, u);
    MissingNamesAll(s, c, u);
  }

  lemma MissingNamesAll(s: State, c: Conn, u: Uid)
    requires Frames(s) && c in s.links && Enabled(s, Wake(u))
    requires s.answers[s.threads[u].r].Got? && s.answers[s.threads[u].r].frame.Missing?
    ensures forall d :: d in u.blobs && !Shipped(s, c, d) ==> d in s.answers[s.threads[u].r].frame.digests
  {
    hide BeingWritten, Streams;
    assert HasGot(s, u);
    assert FrameOk(GotBy(s, u), s.cache) && For(GotBy(s, u), u);
  }
}

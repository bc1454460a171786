/** build, `RemoteHost.execute`: on a connection that holds, the ledger stays right for a job that
    neither a thread of an older connection nor a result on its way threatens, and no attempt of it
    draws a missing answer. */
module DistStable {
  import opened Options
  import opened Dist
  import opened DistWake
  import opened DistLedger
  import opened DistAnswers

  // ---------------------------------------------------------------- attempts are numbered upwards

  ghost predicate Numbered(l: Link, next: Reply) {
    && (forall f :: f in l.down && f.JobDown? ==> f.job.attempt < next)
    && (forall j :: j in l.queued ==> j.attempt < next)
  }

  ghost predicate AllNumbered(s: State) {
    forall c :: c in s.links ==> Numbered(s.links[c], s.next)
  }

  /** The streams to the host and its queues stay. */
  lemma SameDownNumbered(s: State, s2: State)
    requires AllNumbered(s) && s.next <= s2.next && s2.links.Keys == s.links.Keys
    requires forall c :: c in s.links ==> s2.links[c].down == s.links[c].down && s2.links[c].queued == s.links[c].queued
    ensures AllNumbered(s2)
  {
  }

  lemma LinkNumbered(s: State, s2: State, c: Conn)
    requires AllNumbered(s) && s2.next == s.next && c in s2.links && s2.links == s.links[c := s2.links[c]]
    requires Numbered(s2.links[c], s.next)
    ensures AllNumbered(s2)
  {
    hide Numbered;
  }

  lemma NumberedThread(s: State, step: Step)
    requires AllNumbered(s) && Enabled(s, step)
    requires step.Start? || step.Register? || step.TakeLock? || step.Claim? || step.WriteFails? || step.Unclaim?
          || step.Lose? || step.Signal? || step.Leave? || step.Wake?
    ensures AllNumbered(Next(s, step))
  {
    hide AllNumbered;
    SameDownNumbered(s, Next(s, step));
  }

  lemma NumberedReader(s: State, step: Step)
    requires AllNumbered(s) && Enabled(s, step)
    requires step.SignalAnswer? || step.ReadEnd? || step.ReaderLose? || step.ReaderSignal? || step.ReaderLeave?
    ensures AllNumbered(Next(s, step))
  {
    hide AllNumbered;
    SameDownNumbered(s, Next(s, step));
  }

  lemma NumberedRead(s: State, c: Conn)
    requires AllNumbered(s) && Enabled(s, Read(c))
    ensures AllNumbered(Next(s, Read(c)))
  {
    hide AllNumbered;
    SameDownNumbered(s, Next(s, Read(c)));
  }

  lemma NumberedWorld(s: State, step: Step)
    requires AllNumbered(s) && Enabled(s, step) && (step.Forget? || step.Ask? || step.Greet? || step.GiveUp?)
    ensures AllNumbered(Next(s, step))
  {
    hide AllNumbered;
    SameDownNumbered(s, Next(s, step));
  }

  lemma NumberedWrite(s: State, step: Step)
    requires AllNumbered(s) && Inv(s) && Enabled(s, step) && (step.WriteBlob? || step.WriteJob?)
    ensures AllNumbered(Next(s, step))
  {
    hide Current, Pending, HeldApart, NotForgotten, Locked;
    LinkNumbered(s, Next(s, step), s.threads[step.u].c);
  }

  lemma NumberedHostRead(s: State, c: Conn)
    requires AllNumbered(s) && Enabled(s, HostRead(c))
    ensures AllNumbered(Next(s, HostRead(c)))
  {
    assert s.links[c].down[0] in s.links[c].down;
    LinkNumbered(s, Next(s, HostRead(c)), c);
  }

  lemma NumberedHostCheck(s: State, c: Conn, k: nat)
    requires AllNumbered(s) && Enabled(s, HostCheck(c, k))
    ensures AllNumbered(Next(s, HostCheck(c, k)))
  {
    LinkNumbered(s, Next(s, HostCheck(c, k)), c);
  }

  lemma NumberedOutput(s: State, step: Step)
    requires AllNumbered(s) && Enabled(s, step) && (step.HostFinish? || step.HostSend?)
    ensures AllNumbered(Next(s, step))
  {
    hide BlobFrames, Removed, AllNumbered;
    SameDownNumbered(s, Next(s, step));
  }

  lemma NumberedLink(s: State, step: Step)
    requires AllNumbered(s) && Enabled(s, step) && (step.Break? || step.Install?)
    ensures AllNumbered(Next(s, step))
  {
    LinkNumbered(s, Next(s, step), step.c);
  }

  lemma StepNumbered(s: State, step: Step)
    requires AllNumbered(s) && Inv(s) && Enabled(s, step)
    ensures AllNumbered(Next(s, step))
  {
    hide Inv, AllNumbered, Enabled, Next;
    match step
    case WriteBlob(u, d) => NumberedWrite(s, step);
    case WriteJob(u) => NumberedWrite(s, step);
    case HostRead(c) => NumberedHostRead(s, c);
    case HostCheck(c, k) => NumberedHostCheck(s, c, k);
    case HostFinish(c, k, ok, outputs) => NumberedOutput(s, step);
    case HostSend(c) => NumberedOutput(s, step);
    case Break(c, keep) => NumberedLink(s, step);
    case Install(c) => NumberedLink(s, step);
    case Read(c) => NumberedRead(s, c);
    case SignalAnswer(c) => NumberedReader(s, step);
    case ReadEnd(c) => NumberedReader(s, step);
    case ReaderLose(c) => NumberedReader(s, step);
    case ReaderSignal(c, r) => NumberedReader(s, step);
    case ReaderLeave(c) => NumberedReader(s, step);
    case Forget(lost) => NumberedWorld(s, step);
    case Ask => NumberedWorld(s, step);
    case Greet => NumberedWorld(s, step);
    case GiveUp => NumberedWorld(s, step);
    case _ => NumberedThread(s, step);
  }

  // ---------------------------------------------------------------- the ledger, step by step

  /** What keeps the ledger where the stream to the host stays as it is. */
  ghost predicate LedgerGoesOn(s: State, s2: State, c: Conn, u: Uid) {
    && c in s.links && c in s2.links && s.cache <= s2.cache
    && s2.links[c].down == s.links[c].down
    && (forall j :: j in s2.links[c].queued ==> j in s.links[c].queued)
    && (forall d :: d in s2.sent && d in u.blobs ==> d in s.sent || d in s2.cache || Shipped(s, c, d))
    && (forall v :: WritesTo(s, v, c) ==> WritesTo(s2, v, c) && s2.threads[v] == s.threads[v])
    && (forall v :: WritesTo(s2, v, c) ==> WritesTo(s, v, c))
  }

  /** What was shipped stays so. */
  ghost predicate Grows(s: State, s2: State, c: Conn)
    requires c in s.links && c in s2.links
  {
    forall d :: Shipped(s, c, d) ==> Shipped(s2, c, d)
  }

  ghost predicate LedgerIs(s: State, s2: State, c: Conn, u: Uid, n: Reply)
    requires c in s.links
  {
    c in s2.links && Ledger(s2, c, u, n) && Grows(s, s2, c)
  }

  lemma LedgerKept(s: State, s2: State, c: Conn, u: Uid, n: Reply)
    requires LedgerGoesOn(s, s2, c, u) && Ledger(s, c, u, n)
    ensures LedgerIs(s, s2, c, u, n)
  {
    hide BeingWritten;
    forall d | BeingWritten(s, c, d) ensures BeingWritten(s2, c, d) {
      StillWritten(s, s2, c, d);
    }
  }

  lemma StillWritten(s: State, s2: State, c: Conn, d: Digest)
    requires BeingWritten(s, c, d)
    requires forall v :: WritesTo(s, v, c) ==> WritesTo(s2, v, c) && s2.threads[v] == s.threads[v]
    ensures BeingWritten(s2, c, d)
  {
    var v :| WritesTo(s, v, c) && d in s.threads[v].rest;
    assert WritesTo(s2, v, c) && d in s2.threads[v].rest;
  }

  lemma LedgerThread(s: State, step: Step, c: Conn, u: Uid, n: Reply)
    requires Line(s, c) && Ledger(s, c, u, n) && Enabled(s, step)
    requires step.Start? || step.TakeLock? || step.Signal? || step.Leave?
    ensures LedgerIs(s, Next(s, step), c, u, n)
  {
    hide Ledger, LedgerIs, Shipped, Works;
    LedgerKept(s, Next(s, step), c, u, n);
  }

  lemma LedgerRegister(s: State, v: Uid, c: Conn, u: Uid, n: Reply)
    requires Line(s, c) && Ledger(s, c, u, n) && Enabled(s, Register(v))
    ensures LedgerIs(s, Next(s, Register(v)), c, u, n)
  {
    hide Ledger, LedgerIs, Shipped, Works;
    LedgerKept(s, Next(s, Register(v)), c, u, n);
  }

  /** What a thread of another connection takes back was not this one's. */
  lemma LedgerGivesUp(s: State, step: Step, c: Conn, u: Uid, n: Reply)
    requires Line(s, c) && Ledger(s, c, u, n) && Enabled(s, step)
    requires step.WriteFails? || step.Unclaim? || step.Lose?
    ensures LedgerIs(s, Next(s, step), c, u, n)
  {
    hide Ledger, LedgerIs, Shipped;
    LineGivesUp(s, step, c);
    LedgerKept(s, Next(s, step), c, u, n);
  }

  /** What a result adds to the ledger was shipped. */
  lemma LedgerWake(s: State, v: Uid, c: Conn, u: Uid, n: Reply)
    requires Line(s, c) && ResultsSafe(s, c, u) && Ledger(s, c, u, n) && Enabled(s, Wake(v))
    ensures LedgerIs(s, Next(s, Wake(v)), c, u, n)
  {
    hide Ledger, LedgerIs, Shipped, Works, OnWay, ToBeClaimed, Stream, First;
    if s.answers[s.threads[v].r].Got? {
      assert GotIs(s, v, GotBy(s, v)) && AtOnce(s, v, GotBy(s, v));
      if GotBy(s, v).Result? {
        assert forall d :: d in GotBy(s, v).outputs ==> Names(GotBy(s, v), d);
      }
    }
    LedgerKept(s, Next(s, Wake(v)), c, u, n);
  }

  lemma LedgerReader(s: State, step: Step, c: Conn, u: Uid, n: Reply)
    requires Line(s, c) && Ledger(s, c, u, n) && Enabled(s, step)
    requires step.SignalAnswer? || step.ReadEnd? || step.ReaderLose? || step.ReaderSignal? || step.ReaderLeave?
    ensures LedgerIs(s, Next(s, step), c, u, n)
  {
    hide Ledger, LedgerIs, Shipped, Works, LostReplies;
    LineReader(s, step, c);
    LedgerKept(s, Next(s, step), c, u, n);
  }

  lemma LineReader(s: State, step: Step, c: Conn)
    requires Line(s, c) && Enabled(s, step)
    requires step.SignalAnswer? || step.ReadEnd? || step.ReaderLose? || step.ReaderSignal? || step.ReaderLeave?
    ensures Next(s, step).threads == s.threads && Next(s, step).links == s.links && Next(s, step).sent == s.sent
    ensures Next(s, step).cache == s.cache
  {
    hide Works, LostReplies;
  }

  lemma LedgerRead(s: State, e: Conn, c: Conn, u: Uid, n: Reply)
    requires Line(s, c) && Ledger(s, c, u, n) && Enabled(s, Read(e))
    ensures LedgerIs(s, Next(s, Read(e)), c, u, n)
  {
    hide Ledger, LedgerIs, Shipped, Works;
    LedgerKept(s, Next(s, Read(e)), c, u, n);
  }

  lemma LedgerAttempt(s: State, step: Step, c: Conn, u: Uid, n: Reply)
    requires Line(s, c) && Ledger(s, c, u, n) && Enabled(s, step) && (step.Greet? || step.GiveUp?)
    ensures LedgerIs(s, Next(s, step), c, u, n)
  {
    hide Ledger, LedgerIs, Shipped, Works;
    LedgerKept(s, Next(s, step), c, u, n);
  }

  lemma LedgerCheck(s: State, e: Conn, k: nat, c: Conn, u: Uid, n: Reply)
    requires Line(s, c) && Ledger(s, c, u, n) && Enabled(s, HostCheck(e, k))
    ensures LedgerIs(s, Next(s, HostCheck(e, k)), c, u, n)
  {
    hide Ledger, LedgerIs, Shipped;
    LedgerKept(s, Next(s, HostCheck(e, k)), c, u, n);
  }

  lemma LedgerFinish(s: State, step: Step, c: Conn, u: Uid, n: Reply)
    requires Line(s, c) && Ledger(s, c, u, n) && Enabled(s, step) && step.HostFinish?
    ensures LedgerIs(s, Next(s, step), c, u, n)
  {
    hide Ledger, LedgerIs, Shipped, Removed;
    LedgerKept(s, Next(s, step), c, u, n);
  }

  lemma LedgerSend(s: State, e: Conn, c: Conn, u: Uid, n: Reply)
    requires Line(s, c) && Ledger(s, c, u, n) && Enabled(s, HostSend(e))
    ensures LedgerIs(s, Next(s, HostSend(e)), c, u, n)
  {
    hide Ledger, LedgerIs, Shipped, BlobFrames, Works;
    LedgerKept(s, Next(s, HostSend(e)), c, u, n);
  }

  lemma LedgerElsewhere(s: State, step: Step, c: Conn, u: Uid, n: Reply)
    requires Line(s, c) && Ledger(s, c, u, n) && Enabled(s, step)
    requires (step.Break? || step.HostRead?) && step.c != c
    ensures LedgerIs(s, Next(s, step), c, u, n)
  {
    hide Ledger, LedgerIs, Shipped, Works;
    LedgerKept(s, Next(s, step), c, u, n);
  }

  /** The first frame is read by the host: a blob becomes part of the cache, a late job has all
      its blobs there. */
  lemma LedgerHostRead(s: State, c: Conn, u: Uid, n: Reply)
    requires Line(s, c) && Ledger(s, c, u, n) && Enabled(s, HostRead(c))
    ensures LedgerIs(s, Next(s, HostRead(c)), c, u, n)
  {
    hide BeingWritten;
    var s2 := Next(s, HostRead(c));
    var down := s.links[c].down;
    forall d | BeingWritten(s, c, d) ensures BeingWritten(s2, c, d) {
      StillWritten(s, s2, c, d);
    }
    assert forall d :: BlobDown(d) in down ==> BlobDown(d) in down[1..] || d in s2.cache;
    CoveredTaken(down, s.cache, u, n);
    assert WritesAll(s2, c, u, n);
  }

  lemma CoveredTaken(down: seq<Down>, cache: set<Digest>, u: Uid, n: Reply)
    requires down != [] && Covered(down, cache, u, n)
    ensures down[0].BlobDown? ==> Covered(down[1..], cache + {down[0].digest}, u, n)
    ensures down[0].JobDown? ==> Covered(down[1..], cache, u, n)
    ensures down[0].JobDown? && Late(down[0].job, u, n) ==> u.blobs <= cache
  {
    forall i, d | 0 <= i < |down[1..]| && down[1..][i].JobDown? && Late(down[1..][i].job, u, n) && d in u.blobs
      ensures d in cache || down[0] == BlobDown(d) || BlobDown(d) in down[1..][..i]
    {
      assert down[i + 1] == down[1..][i];
      if d !in cache {
        var j :| 0 <= j < |down[..i + 1]| && down[..i + 1][j] == BlobDown(d);
        if j > 0 {
          assert down[1..][..i][j - 1] == BlobDown(d);
        }
      }
    }
  }

  lemma CoveredAppended(down: seq<Down>, f: Down, cache: set<Digest>, u: Uid, n: Reply)
    requires Covered(down, cache, u, n)
    requires f.JobDown? && Late(f.job, u, n) ==> forall d :: d in u.blobs ==> d in cache || BlobDown(d) in down
    ensures Covered(down + [f], cache, u, n)
  {
    assert forall i :: 0 <= i <= |down| ==> (down + [f])[..i] == down[..i];
    assert down[..|down|] == down;
  }

  /** Only the thread with the lock writes. */
  lemma OneWriter(s: State, c: Conn, v: Uid, w: Uid)
    requires Inv(s) && HasLock(s, v) && WritesTo(s, w, c)
    ensures v == w
  {
    hide Current, Own, Pending, HeldApart, NotForgotten;
    assert HasLock(s, w);
  }

  /** A claim enters in the ledger what the thread will now write, and of the rest of its job
      the ledger was right. */
  lemma LedgerClaim(s: State, v: Uid, c: Conn, u: Uid, n: Reply)
    requires Line(s, c) && Inv(s) && Ledger(s, c, u, n) && Enabled(s, Claim(v)) && s.threads[v].c == c
    ensures LedgerIs(s, Next(s, Claim(v)), c, u, n)
  {
    hide Inv, Works;
    var s2 := Next(s, Claim(v));
    forall d ensures !BeingWritten(s, c, d) {
      if BeingWritten(s, c, d) {
        var w :| WritesTo(s, w, c) && d in s.threads[w].rest;
        OneWriter(s, c, v, w);
      }
    }
    assert WritesTo(s2, v, c);
    forall d | d in v.blobs - s.sent ensures BeingWritten(s2, c, d) {
    }
  }

  /** A thread of an older connection claims, of the blobs of this job, only what was shipped. */
  lemma LedgerClaimElsewhere(s: State, v: Uid, c: Conn, u: Uid, n: Reply)
    requires Line(s, c) && Inv(s) && Unthreatened(s, c, u) && Ledger(s, c, u, n)
    requires Enabled(s, Claim(v)) && s.threads[v].c != c
    ensures LedgerIs(s, Next(s, Claim(v)), c, u, n)
  {
    hide Ledger, LedgerIs, Shipped, Inv;
    forall d | d in v.blobs && d in u.blobs ensures Shipped(s, c, d) {
      NoOtherClaims(s, v, c, d);
      assert Stale(s, v, c);
    }
    LedgerKept(s, Next(s, Claim(v)), c, u, n);
  }

  lemma NoOtherClaims(s: State, v: Uid, c: Conn, d: Digest)
    requires Inv(s) && Enabled(s, Claim(v)) && s.threads[v].c != c
    ensures !ToBeClaimed(s, c, d)
  {
    hide Current, Own, Pending, HeldApart, NotForgotten;
    assert HasLock(s, v);
    assert forall w :: ClaimsFor(s, w, c) ==> HasLock(s, w);
  }

  lemma LedgerWriteElsewhere(s: State, step: Step, c: Conn, u: Uid, n: Reply)
    requires Line(s, c) && Ledger(s, c, u, n) && Enabled(s, step)
    requires (step.WriteBlob? || step.WriteJob?) && s.threads[step.u].c != c
    ensures LedgerIs(s, Next(s, step), c, u, n)
  {
    hide Ledger, LedgerIs, Shipped, Works;
    LedgerKept(s, Next(s, step), c, u, n);
  }

  lemma LedgerWriteBlob(s: State, v: Uid, b: Digest, c: Conn, u: Uid, n: Reply)
    requires Line(s, c) && Ledger(s, c, u, n) && Enabled(s, WriteBlob(v, b)) && s.threads[v].c == c
    ensures LedgerIs(s, Next(s, WriteBlob(v, b)), c, u, n)
  {
    hide Works;
    var s2 := Next(s, WriteBlob(v, b));
    var down := s.links[c].down;
    CoveredAppended(down, BlobDown(b), s.cache, u, n);
    forall d | BeingWritten(s, c, d) ensures d == b || BeingWritten(s2, c, d) {
      var w :| WritesTo(s, w, c) && d in s.threads[w].rest;
      assert WritesTo(s2, w, c);
    }
    assert forall d :: BlobDown(d) in down || d == b ==> BlobDown(d) in down + [BlobDown(b)];
  }

  /** The job goes after all its blobs. */
  lemma LedgerWriteJob(s: State, v: Uid, c: Conn, u: Uid, n: Reply)
    requires Line(s, c) && Ledger(s, c, u, n) && Enabled(s, WriteJob(v)) && s.threads[v].c == c
    ensures LedgerIs(s, Next(s, WriteJob(v)), c, u, n)
  {
    hide Works;
    var s2 := Next(s, WriteJob(v));
    var down := s.links[c].down;
    CoveredAppended(down, JobDown(Job(v, s.threads[v].r)), s.cache, u, n);
    forall d | BeingWritten(s, c, d) ensures BeingWritten(s2, c, d) {
      var w :| WritesTo(s, w, c) && d in s.threads[w].rest;
      assert w != v && WritesTo(s2, w, c);
    }
    assert forall d :: BlobDown(d) in down ==> BlobDown(d) in s2.links[c].down;
  }

  // ---------------------------------------------------------------- a step, and a run

  ghost predicate Steady(s: State, c: Conn, u: Uid, n: Reply) {
    Inv(s) && Line(s, c) && Ledger(s, c, u, n) && Unthreatened(s, c, u) && ResultsSafe(s, c, u)
  }

  lemma LedgerByThread(s: State, step: Step, c: Conn, u: Uid, n: Reply)
    requires Steady(s, c, u, n) && Enabled(s, step) && ByThread(step)
    ensures LedgerIs(s, Next(s, step), c, u, n)
  {
    hide LedgerIs, Inv, Line, ResultsSafe, Ledger, Next;
    if step.Start? || step.TakeLock? || step.Signal? || step.Leave? {
      LedgerThread(s, step, c, u, n);
    } else if step.Register? {
      LedgerRegister(s, step.u, c, u, n);
    } else if step.WriteFails? || step.Unclaim? || step.Lose? {
      LedgerGivesUp(s, step, c, u, n);
    } else if step.Wake? {
      LedgerWake(s, step.u, c, u, n);
    } else if step.Claim? {
      if s.threads[step.u].c == c {
        LedgerClaim(s, step.u, c, u, n);
      } else {
        LedgerClaimElsewhere(s, step.u, c, u, n);
      }
    } else if s.threads[step.u].c != c {
      LedgerWriteElsewhere(s, step, c, u, n);
    } else if step.WriteBlob? {
      LedgerWriteBlob(s, step.u, step.d, c, u, n);
    } else {
      LedgerWriteJob(s, step.u, c, u, n);
    }
  }

  lemma LedgerByHost(s: State, step: Step, c: Conn, u: Uid, n: Reply)
    requires Steady(s, c, u, n) && Enabled(s, step) && ByHost(step)
    ensures LedgerIs(s, Next(s, step), c, u, n)
  {
    hide LedgerIs, Inv, Line, ResultsSafe, Ledger, Enabled, Next;
    if step.HostRead? {
      if step.c == c {
        LedgerHostRead(s, c, u, n);
      } else {
        LedgerElsewhere(s, step, c, u, n);
      }
    } else if step.HostCheck? {
      LedgerCheck(s, step.c, step.k, c, u, n);
    } else if step.HostFinish? {
      LedgerFinish(s, step, c, u, n);
    } else {
      LedgerSend(s, step.c, c, u, n);
    }
  }

  lemma LedgerStep(s: State, step: Step, c: Conn, u: Uid, n: Reply)
    requires Steady(s, c, u, n) && Enabled(s, step) && Holds(step, c)
    ensures LedgerIs(s, Next(s, step), c, u, n)
  {
    hide LedgerIs, Inv, Line, ResultsSafe, Ledger, Enabled, Next;
    NoNewConnection(s, step, c);
    if ByThread(step) {
      LedgerByThread(s, step, c, u, n);
    } else if ByHost(step) {
      LedgerByHost(s, step, c, u, n);
    } else if step.Read? {
      LedgerRead(s, step.c, c, u, n);
    } else if ByReader(step) {
      LedgerReader(s, step, c, u, n);
    } else if step.Break? {
      LedgerElsewhere(s, step, c, u, n);
    } else {
      LedgerAttempt(s, step, c, u, n);
    }
  }

  // ---------------------------------------------------------------- no new threat

  /** Whoever was about to claim on the connection still is, and no thread of an older one is new. */
  ghost predicate ThreadsGoOn(s: State, s2: State, c: Conn) {
    && (forall w :: ClaimsFor(s, w, c) ==> ClaimsFor(s2, w, c))
    && (forall v :: Stale(s2, v, c) ==> Stale(s, v, c))
  }

  lemma NoNewThreat(s: State, s2: State, c: Conn, u: Uid)
    requires c in s.links && c in s2.links && Unthreatened(s, c, u) && Grows(s, s2, c) && ThreadsGoOn(s, s2, c)
    ensures Unthreatened(s2, c, u)
  {
    hide Shipped, ToBeClaimed, Stale;
    forall d | ToBeClaimed(s, c, d) ensures ToBeClaimed(s2, c, d) {
      StillClaimed(s, s2, c, d);
    }
  }

  lemma StillClaimed(s: State, s2: State, c: Conn, d: Digest)
    requires ThreadsGoOn(s, s2, c) && ToBeClaimed(s, c, d)
    ensures ToBeClaimed(s2, c, d)
  {
    var w :| ClaimsFor(s, w, c) && d in w.blobs;
    assert ClaimsFor(s2, w, c);
  }

  /** A new thread on the loop takes the current connection. */
  lemma ThreadsByThread(s: State, step: Step, c: Conn)
    requires s.process == Some(c) && Enabled(s, step)
    requires step.Start? || step.Register? || step.TakeLock? || step.Leave? || step.Wake?
    ensures ThreadsGoOn(s, Next(s, step), c)
  {
  }

  lemma ThreadsAtWork(s: State, step: Step, c: Conn)
    requires Enabled(s, step)
    requires step.WriteBlob? || step.WriteJob? || step.WriteFails? || step.Unclaim? || step.Lose? || step.Signal?
    ensures ThreadsGoOn(s, Next(s, step), c)
  {
    hide LostReplies, Pushed;
  }

  lemma ThreadsByReader(s: State, step: Step, c: Conn)
    requires Enabled(s, step) && ByReader(step)
    ensures ThreadsGoOn(s, Next(s, step), c)
  {
    hide LostReplies;
  }

  lemma ThreadsElse(s: State, step: Step, c: Conn)
    requires Enabled(s, step) && !ByThread(step) && !ByReader(step)
    ensures ThreadsGoOn(s, Next(s, step), c)
  {
    hide BlobFrames, Removed;
  }

  /** What the thread with the lock claims is then being written, or was shipped before. */
  lemma ClaimUnthreatened(s: State, v: Uid, c: Conn, u: Uid, n: Reply)
    requires Steady(s, c, u, n) && Enabled(s, Claim(v)) && LedgerIs(s, Next(s, Claim(v)), c, u, n)
    ensures Unthreatened(Next(s, Claim(v)), c, u)
  {
    hide Inv, ResultsSafe, Shipped, Ledger, Grows, Works;
    var s2 := Next(s, Claim(v));
    forall x, d | Stale(s2, x, c) && d in x.blobs && d in u.blobs ensures Shipped(s2, c, d) {
      assert Stale(s, x, c);
      ClaimShips(s, v, c, u, n, d);
    }
  }

  lemma ClaimShips(s: State, v: Uid, c: Conn, u: Uid, n: Reply, d: Digest)
    requires Inv(s) && c in s.links && Ledger(s, c, u, n) && d in u.blobs && Enabled(s, Claim(v))
    requires LedgerIs(s, Next(s, Claim(v)), c, u, n)
    requires Shipped(s, c, d) || ToBeClaimed(s, c, d)
    ensures Shipped(Next(s, Claim(v)), c, d)
  {
    hide Shipped, WritesAll, Covered, QueuedReady, Current, Own, Pending, HeldApart, NotForgotten;
    if !Shipped(s, c, d) {
      var w :| ClaimsFor(s, w, c) && d in w.blobs;
      assert HasLock(s, v) && HasLock(s, w);
      assert d in Next(s, Claim(v)).sent;
    }
  }

  lemma ResultsKept(s: State, s2: State, c: Conn, u: Uid)
    requires c in s.links && c in s2.links && ResultsSafe(s, c, u) && NoneAtOnce(s, s2) && NoneOnWay(s, s2)
    requires Grows(s, s2, c) && ThreadsGoOn(s, s2, c)
    ensures ResultsSafe(s2, c, u)
  {
    hide AtOnce, OnWay, ToBeClaimed, BeingWritten;
    forall d | ToBeClaimed(s, c, d) ensures ToBeClaimed(s2, c, d) {
      StillClaimed(s, s2, c, d);
    }
  }

  /** What the thread with the lock may take from now on without it, it has claimed, or it was
      shipped. */
  lemma ClaimResultsSafe(s: State, v: Uid, c: Conn, u: Uid, n: Reply)
    requires Steady(s, c, u, n) && Enabled(s, Claim(v)) && LedgerIs(s, Next(s, Claim(v)), c, u, n)
    ensures ResultsSafe(Next(s, Claim(v)), c, u)
  {
    hide Inv, Works, BeingWritten, Ledger, AtOnce, OnWay, ToBeClaimed, Next;
    var s2 := Next(s, Claim(v));
    NoneByClaim(s, v);
    forall f, d | OnWay(s2, v, f) && Names(f, d) && d in u.blobs ensures Shipped(s2, c, d) || d !in v.blobs {
      if d in v.blobs {
        OwnBlobShips(s, v, c, u, n, d);
      }
    }
    forall x, f, d | OnWay(s, x, f) && Names(f, d) && d in u.blobs ensures Shipped(s2, c, d) || d in x.blobs {
      if d !in x.blobs {
        ClaimShips(s, v, c, u, n, d);
      }
    }
    forall x, f, d | x != v && AtOnce(s, x, f) && Names(f, d) && d in u.blobs ensures Shipped(s2, c, d) {
      ClaimShips(s, v, c, u, n, d);
    }
    TakesOrComes(s2, v);
  }

  lemma TakesOrComes(s: State, v: Uid)
    ensures forall f :: AtOnce(s, v, f) ==> OnWay(s, v, f)
  {
    hide Takes, Stream;
    forall f | AtOnce(s, v, f) ensures OnWay(s, v, f) {
      if !Takes(s, v, f) {
        var e :| NextFor(s, e, v, f);
        FirstIsIn(Stream(s.links[e]), v);
        assert Comes(s, e, f);
      }
    }
  }

  /** What a thread claims is shipped, or was before. */
  lemma OwnBlobShips(s: State, v: Uid, c: Conn, u: Uid, n: Reply, d: Digest)
    requires Steady(s, c, u, n) && Enabled(s, Claim(v)) && LedgerIs(s, Next(s, Claim(v)), c, u, n)
    requires d in v.blobs && d in u.blobs
    ensures Shipped(Next(s, Claim(v)), c, d)
  {
    hide Inv, Shipped, Ledger, LedgerIs, ResultsSafe, Works, Next, ToBeClaimed;
    if s.threads[v].c == c {
      assert ToBeClaimed(s, c, d) by {
        HolderClaims(s, v, c, d);
      }
    } else {
      assert Stale(s, v, c);
    }
    ClaimShips(s, v, c, u, n, d);
  }

  lemma HolderClaims(s: State, v: Uid, c: Conn, d: Digest)
    requires ClaimsFor(s, v, c) && d in v.blobs
    ensures ToBeClaimed(s, c, d)
  {
  }

  lemma ResultsSafeStep(s: State, step: Step, c: Conn, u: Uid, n: Reply)
    requires Steady(s, c, u, n) && Enabled(s, step) && Holds(step, c) && LedgerIs(s, Next(s, step), c, u, n)
    ensures ResultsSafe(Next(s, step), c, u)
  {
    hide Inv, Ledger, Enabled, Next, Unthreatened, ThreadsGoOn, Grows, ResultsSafe, NoneOnWay, NoneAtOnce;
    NoNewConnection(s, step, c);
    if step.Claim? {
      ClaimResultsSafe(s, step.u, c, u, n);
    } else {
      ThreadsStay(s, step, c);
      NoneByStep(s, step);
      ResultsKept(s, Next(s, step), c, u);
    }
  }

  lemma ThreadsStay(s: State, step: Step, c: Conn)
    requires s.process == Some(c) && Enabled(s, step) && !step.Claim?
    ensures ThreadsGoOn(s, Next(s, step), c)
  {
    hide Enabled, Next, ThreadsGoOn;
    if step.Start? || step.Register? || step.TakeLock? || step.Leave? || step.Wake? {
      ThreadsByThread(s, step, c);
    } else if ByThread(step) {
      ThreadsAtWork(s, step, c);
    } else if ByReader(step) {
      ThreadsByReader(s, step, c);
    } else {
      ThreadsElse(s, step, c);
    }
  }

  lemma UnthreatenedStep(s: State, step: Step, c: Conn, u: Uid, n: Reply)
    requires Steady(s, c, u, n) && Enabled(s, step) && LedgerIs(s, Next(s, step), c, u, n)
    ensures Unthreatened(Next(s, step), c, u)
  {
    hide Inv, ResultsSafe, Ledger, Enabled, Next, Unthreatened, ThreadsGoOn, Grows;
    if step.Claim? {
      ClaimUnthreatened(s, step.u, c, u, n);
    } else {
      ThreadsStay(s, step, c);
      NoNewThreat(s, Next(s, step), c, u);
    }
  }

  /** On a connection that holds, every step keeps the ledger right for a job that neither a thread of
      an older connection nor a result on its way threatens, and brings no threat. */
  lemma SteadyStep(s: State, step: Step, c: Conn, u: Uid, n: Reply)
    requires Steady(s, c, u, n) && Enabled(s, step) && Holds(step, c)
    ensures Steady(Next(s, step), c, u, n)
  {
    hide Inv, Line, ResultsSafe, Ledger, Enabled, Next, Unthreatened;
    StepInv(s, step);
    LineStep(s, step, c);
    LedgerStep(s, step, c, u, n);
    UnthreatenedStep(s, step, c, u, n);
    ResultsSafeStep(s, step, c, u, n);
  }

  ghost predicate HoldingRun(states: seq<State>, steps: seq<Step>, c: Conn) {
    IsRun(states, steps) && forall i :: 0 <= i < |steps| ==> Holds(steps[i], c)
  }

  lemma {:induction false} SteadyRun(states: seq<State>, steps: seq<Step>, c: Conn, u: Uid, n: Reply, first: nat,
                                     last: nat)
    requires HoldingRun(states, steps, c) && first <= last <= |steps| && Steady(states[first], c, u, n)
    ensures Steady(states[last], c, u, n)
    decreases last - first
  {
    hide Steady, Enabled, Next, Holds;
    if first < last {
      SteadyStep(states[first], steps[first], c, u, n);
      SteadyRun(states, steps, c, u, n, first + 1, last);
    }
  }

  /** The ledger is right for the job, and nothing is about to make it wrong. */
  ghost predicate Secure(s: State, c: Conn, u: Uid) {
    c in s.links && Trusted(s, c, u) && Unthreatened(s, c, u) && ResultsSafe(s, c, u)
  }

  /** From a state on in which the ledger is right for `u` and nothing threatens it, every later
      attempt is in order. */
  lemma SteadyFrom(s: State, c: Conn, u: Uid)
    requires Inv(s) && Line(s, c) && AllNumbered(s) && Secure(s, c, u)
    ensures Steady(s, c, u, s.next)
  {
    hide Inv, Trusted, Unthreatened, ResultsSafe;
    assert Numbered(s.links[c], s.next);
    assert WritesAll(s, c, u, s.next) by {
      NoneWritesYet(s, c, u);
    }
    assert forall j :: j in s.links[c].queued ==> !Late(j, u, s.next);
    assert forall i :: 0 <= i < |s.links[c].down| ==> s.links[c].down[i] in s.links[c].down;
  }

  lemma NoneWritesYet(s: State, c: Conn, u: Uid)
    requires Inv(s) && c in s.links
    ensures WritesAll(s, c, u, s.next)
  {
    hide Current, Pending, HeldApart, NotForgotten, Locked;
  }

  lemma ReadyRuns(s: State, c: Conn, k: nat, u: Uid, n: Reply)
    requires Steady(s, c, u, n) && Enabled(s, HostCheck(c, k)) && Late(s.links[c].queued[k], u, n)
    ensures u.blobs <= s.cache
  {
    hide Inv, Line, Unthreatened, ResultsSafe;
    assert s.links[c].queued[k] in s.links[c].queued;
  }

  // ---------------------------------------------------------------- the results

  lemma {:induction false} ReachedInv(states: seq<State>, steps: seq<Step>, k: nat)
    requires IsRun(states, steps) && states[0] == Initial() && k <= |steps|
    ensures Inv(states[k]) && AllNumbered(states[k])
    decreases k
  {
    hide Inv, AllNumbered, Enabled, Next;
    if k == 0 {
      InitialInv();
      NothingSent();
    } else {
      ReachedInv(states, steps, k - 1);
      StepInv(states[k - 1], steps[k - 1]);
      StepNumbered(states[k - 1], steps[k - 1]);
    }
  }

  lemma NothingSent()
    ensures AllNumbered(Initial())
  {
  }

  ghost predicate HoldsFrom(steps: seq<Step>, c: Conn, first: nat) {
    forall i :: first <= i < |steps| ==> Holds(steps[i], c)
  }

  /** While the connection holds, every attempt of a job for which the ledger was right, and which
      neither a thread of an older connection nor a result on its way threatened, finds all its blobs
      on the host, however the steps of all threads interleave. */
  lemma NoMissingWhileRight(states: seq<State>, steps: seq<Step>, c: Conn, u: Uid, first: nat, at: nat)
    requires IsRun(states, steps) && states[0] == Initial() && first <= at < |steps| && HoldsFrom(steps, c, first)
    requires Line(states[first], c) && Secure(states[first], c, u)
    requires steps[at].HostCheck? && steps[at].c == c && Enabled(states[at], steps[at])
    requires Late(states[at].links[c].queued[steps[at].k], u, states[first].next)
    ensures u.blobs <= states[at].cache
  {
    hide Inv, Line, Secure, AllNumbered, Next, Holds, Steady;
    ReachedInv(states, steps, first);
    SteadyFrom(states[first], c, u);
    SteadyBetween(states, steps, c, u, states[first].next, first, at);
    ReadyRuns(states[at], c, steps[at].k, u, states[first].next);
  }

  lemma SteadyBetween(states: seq<State>, steps: seq<Step>, c: Conn, u: Uid, n: Reply, first: nat, last: nat)
    requires IsRun(states, steps) && first <= last <= |steps| && HoldsFrom(steps, c, first)
    requires Steady(states[first], c, u, n)
    ensures Steady(states[last], c, u, n)
  {
    hide Steady, Enabled, Next, Holds;
    SteadyRun(states[first..], steps[first..], c, u, n, 0, last - first);
  }

  /** After a missing answer has been dealt with, the ledger is right for that job if the answer still
      names all that the host lacks of it. */
  lemma MissingSetsRight(s: State, c: Conn, u: Uid)
    requires Line(s, c) && Enabled(s, Wake(u))
    requires s.answers[s.threads[u].r].Got? && s.answers[s.threads[u].r].frame.Missing?
    requires u.blobs <= s.answers[s.threads[u].r].frame.digests + s.cache
    ensures c in Next(s, Wake(u)).links && Trusted(Next(s, Wake(u)), c, u)
  {
  }

  /** On a connection that holds, no attempt of a job after its first missing answer draws another,
      if that answer still names all that the host lacks, and neither a thread of an older connection
      nor a result on its way threatens the job when it has been dealt with. Whether the ledger was
      right before does not matter. */
  lemma OneRetrySuffices(states: seq<State>, steps: seq<Step>, c: Conn, u: Uid, first: nat, wake: nat, at: nat)
    requires IsRun(states, steps) && states[0] == Initial() && first <= wake < at < |steps|
    requires HoldsFrom(steps, c, first) && Line(states[first], c)
    requires steps[wake] == Wake(u) && Enabled(states[wake], Wake(u))
    requires states[wake].answers[states[wake].threads[u].r].Got?
    requires states[wake].answers[states[wake].threads[u].r].frame.Missing?
    requires u.blobs <= states[wake].answers[states[wake].threads[u].r].frame.digests + states[wake].cache
    requires c in states[wake + 1].links ==>
               Unthreatened(states[wake + 1], c, u) && ResultsSafe(states[wake + 1], c, u)
    requires steps[at].HostCheck? && steps[at].c == c && Enabled(states[at], steps[at])
    requires Late(states[at].links[c].queued[steps[at].k], u, states[wake + 1].next)
    ensures u.blobs <= states[at].cache
  {
    hide Inv, Line, Trusted, Unthreatened, ResultsSafe, AllNumbered, Next, Enabled, Holds;
    LineBetween(states, steps, c, first, wake);
    MissingSetsRight(states[wake], c, u);
    LineBetween(states, steps, c, wake, wake + 1);
    NoMissingWhileRight(states, steps, c, u, wake + 1, at);
  }

  lemma {:induction false} LineBetween(states: seq<State>, steps: seq<Step>, c: Conn, first: nat, last: nat)
    requires IsRun(states, steps) && first <= last <= |steps| && HoldsFrom(steps, c, first)
    requires Line(states[first], c)
    ensures Line(states[last], c)
    decreases last - first
  {
    hide Line, Enabled, Next, Holds;
    if first < last {
      LineStep(states[first], steps[first], c);
      LineBetween(states, steps, c, first + 1, last);
    }
  }
}

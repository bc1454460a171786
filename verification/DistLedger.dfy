/** build, `RemoteHost.execute`: the ledger of shipped blobs on a connection that holds. */
module DistLedger {
  import opened Dist
  import opened Options
  import opened DistWake

  // ---------------------------------------------------------------- what the ledger promises

  ghost predicate BeingWritten(s: State, c: Conn, d: Digest) {
    exists u :: WritesTo(s, u, c) && d in s.threads[u].rest
  }

  predicate WritesTo(s: State, u: Uid, c: Conn) {
    u in s.threads && s.threads[u].Writing? && s.threads[u].c == c
  }

  /** The host has the blob, or it is in the stream, or the thread with the lock will write it
      before anything else. */
  ghost predicate Shipped(s: State, c: Conn, d: Digest)
    requires c in s.links
  {
    d in s.cache || BlobDown(d) in s.links[c].down || BeingWritten(s, c, d)
  }

  /** For what this job needs the ledger is right. */
  ghost predicate Trusted(s: State, c: Conn, u: Uid)
    requires c in s.links
  {
    forall d :: d in u.blobs && d in s.sent ==> Shipped(s, c, d)
  }

  /** An attempt of `u` from number `n` on. */
  predicate Late(j: Job, u: Uid, n: Reply) {
    j.uid == u && j.attempt >= n
  }

  /** Before each late job of `u` in the stream come all its blobs that the host lacks. */
  ghost predicate Covered(down: seq<Down>, cache: set<Digest>, u: Uid, n: Reply) {
    forall i, d :: 0 <= i < |down| && down[i].JobDown? && Late(down[i].job, u, n) && d in u.blobs
      ==> d in cache || BlobDown(d) in down[..i]
  }

  ghost predicate QueuedReady(queued: seq<Job>, cache: set<Digest>, u: Uid, n: Reply) {
    forall j :: j in queued && Late(j, u, n) ==> u.blobs <= cache
  }

  /** The thread of `u` that is writing has what the host lacks in the stream or still to write. */
  ghost predicate WritesAll(s: State, c: Conn, u: Uid, n: Reply)
    requires c in s.links
  {
    WritesTo(s, u, c) && s.threads[u].r >= n ==>
      forall d :: d in u.blobs ==> d in s.cache || BlobDown(d) in s.links[c].down || d in s.threads[u].rest
  }

  ghost predicate Ledger(s: State, c: Conn, u: Uid, n: Reply)
    requires c in s.links
  {
    && Trusted(s, c, u) && WritesAll(s, c, u, n)
    && Covered(s.links[c].down, s.cache, u, n) && QueuedReady(s.links[c].queued, s.cache, u, n)
  }

  // ---------------------------------------------------------------- a connection that holds

  /** A thread on connection `c` is at work. */
  predicate Works(pc: Pc, c: Conn) {
    HasConn(pc) && pc.c == c ==> !pc.WriteFailed? && !pc.Losing?
  }

  /** The connection is up, and nobody on it is giving it up. Threads may still hold older ones. */
  ghost predicate Line(s: State, c: Conn) {
    && s.process == Some(c) && LinkOf(s, c) && s.links[c].alive && (s.readers[c].Reading? || s.readers[c].Popped?)
    && (forall u :: u in s.threads ==> Works(s.threads[u], c))
  }

  predicate MayClaim(pc: Pc) {
    pc.Registered? || pc.Holding?
  }

  /** A thread that took up an older connection and has yet to claim its blobs. */
  predicate Stale(s: State, v: Uid, c: Conn) {
    v in s.threads && MayClaim(s.threads[v]) && s.threads[v].c != c
  }

  /** A thread on the connection that has the lock claims next. */
  predicate ClaimsFor(s: State, w: Uid, c: Conn) {
    w in s.threads && s.threads[w].Holding? && s.threads[w].c == c
  }

  ghost predicate ToBeClaimed(s: State, c: Conn, d: Digest) {
    exists w :: ClaimsFor(s, w, c) && d in w.blobs
  }

  /** No thread of an older connection can enter in the ledger a blob of this job that is not on
      its way to the host, or will be before that thread has the lock. */
  ghost predicate Unthreatened(s: State, c: Conn, u: Uid)
    requires c in s.links
  {
    forall v, d :: Stale(s, v, c) && d in v.blobs && d in u.blobs ==> Shipped(s, c, d) || ToBeClaimed(s, c, d)
  }

  /** Results name what the host has, and a missing answer names all that it lacks. */
  predicate FrameOk(f: Up, cache: set<Digest>) {
    (f.Result? ==> f.outputs <= cache) && (f.Missing? ==> f.uid.blobs <= f.digests + cache)
  }

  predicate For(f: Up, u: Uid) {
    !f.BlobUp? && f.uid == u
  }

  ghost predicate StreamOk(l: Link, cache: set<Digest>) {
    && (forall f :: f in l.up ==> FrameOk(f, cache))
    && (forall f :: f in l.outbox ==> FrameOk(f, cache))
  }

  ghost predicate Streams(s: State) {
    forall c :: c in s.links ==> StreamOk(s.links[c], s.cache)
  }

  /** Every answer on its way, on any connection, is in accord with the host's cache and comes to
      the thread it is for; so is what a new connection was told. */
  ghost predicate Frames(s: State) {
    && Streams(s)
    && (forall c :: c in s.readers && s.readers[c].Popped? ==> FrameOk(s.readers[c].frame, s.cache))
    && (forall u, c :: AwaitsPopped(s, u, c) ==> For(s.readers[c].frame, u))
    && (forall u :: HasGot(s, u) ==> FrameOk(GotBy(s, u), s.cache) && For(GotBy(s, u), u))
    && (s.attempt.Greeted? ==> s.attempt.kept <= s.cache)
  }

  predicate AwaitsPopped(s: State, u: Uid, c: Conn) {
    && u in s.threads && HasConn(s.threads[u])
    && c in s.readers && s.readers[c].Popped? && s.readers[c].r == s.threads[u].r
  }

  predicate HasGot(s: State, u: Uid) {
    && u in s.threads && HasConn(s.threads[u])
    && s.threads[u].r in s.answers && s.answers[s.threads[u].r].Got?
  }

  function GotBy(s: State, u: Uid): Up
    requires HasGot(s, u)
  {
    s.answers[s.threads[u].r].frame
  }

  /** No loss of the connection and no loss from the host's cache. */
  predicate Holds(step: Step, c: Conn) {
    !step.Forget? && !(step.Break? && step.c == c)
  }

  /** The steps of the threads, and those of the readers. */
  predicate ByThread(step: Step) {
    || step.Start? || step.Register? || step.TakeLock? || step.Claim? || step.WriteBlob? || step.WriteJob?
    || step.WriteFails? || step.Unclaim? || step.Lose? || step.Signal? || step.Leave? || step.Wake?
  }

  predicate ByReader(step: Step) {
    || step.Read? || step.SignalAnswer? || step.ReadEnd? || step.ReaderLose? || step.ReaderSignal?
    || step.ReaderLeave?
  }

  predicate ByHost(step: Step) {
    step.HostRead? || step.HostCheck? || step.HostFinish? || step.HostSend?
  }

  // ---------------------------------------------------------------- the line, step by step

  /** What keeps the line: the connection stays up and every thread that moves is at work. */
  ghost predicate LineGoesOn(s: State, s2: State, c: Conn) {
    && s2.process == s.process && LinkOf(s2, c) && s2.links[c].alive && s.cache <= s2.cache
    && (s2.readers[c].Reading? || s2.readers[c].Popped?)
    && (forall u :: u in s2.threads && !(u in s.threads && s.threads[u] == s2.threads[u])
          ==> Works(s2.threads[u], c))
  }

  lemma LineKept(s: State, s2: State, c: Conn)
    requires Line(s, c) && LineGoesOn(s, s2, c)
    ensures Line(s2, c)
  {
  }

  lemma LineClaims(s: State, step: Step, c: Conn)
    requires Line(s, c) && Enabled(s, step)
    requires step.Start? || step.TakeLock? || step.Claim? || step.Signal? || step.Leave?
    ensures Line(Next(s, step), c)
  {
    LineKept(s, Next(s, step), c);
  }

  lemma LineLoop(s: State, step: Step, c: Conn)
    requires Line(s, c) && Enabled(s, step) && (step.Register? || step.Wake?)
    ensures Line(Next(s, step), c)
  {
    LineKept(s, Next(s, step), c);
  }

  lemma LineWrite(s: State, step: Step, c: Conn)
    requires Line(s, c) && Enabled(s, step) && (step.WriteBlob? || step.WriteJob?)
    ensures Line(Next(s, step), c)
  {
    LineKept(s, Next(s, step), c);
  }

  /** Only a thread of another connection gives up. */
  lemma LineGivesUp(s: State, step: Step, c: Conn)
    requires Line(s, c) && Enabled(s, step) && (step.WriteFails? || step.Unclaim? || step.Lose?)
    ensures Line(Next(s, step), c) && s.threads[step.u].c != c
  {
    assert Works(s.threads[step.u], c);
    LineKept(s, Next(s, step), c);
  }

  lemma LineReads(s: State, step: Step, c: Conn)
    requires Line(s, c) && Enabled(s, step) && (step.Read? || step.SignalAnswer?)
    ensures Line(Next(s, step), c)
  {
    hide Works;
    LineKept(s, Next(s, step), c);
  }

  /** Only the reader of another connection ends. */
  lemma LineReaderEnds(s: State, step: Step, c: Conn)
    requires Line(s, c) && Enabled(s, step)
    requires step.ReadEnd? || step.ReaderLose? || step.ReaderSignal? || step.ReaderLeave?
    ensures Line(Next(s, step), c) && step.c != c
  {
    hide Works;
    LineKept(s, Next(s, step), c);
  }

  lemma LineHostReads(s: State, e: Conn, c: Conn)
    requires Line(s, c) && Enabled(s, HostRead(e))
    ensures Line(Next(s, HostRead(e)), c)
  {
    hide Works;
    LineKept(s, Next(s, HostRead(e)), c);
  }

  lemma LineHostWorks(s: State, step: Step, c: Conn)
    requires Line(s, c) && Enabled(s, step) && (step.HostCheck? || step.HostFinish?)
    ensures Line(Next(s, step), c)
  {
    hide Removed, Works;
    LineKept(s, Next(s, step), c);
  }

  lemma LineOther(s: State, step: Step, c: Conn)
    requires Line(s, c) && Enabled(s, step) && Holds(step, c)
    requires step.HostSend? || step.Break? || step.Greet? || step.GiveUp?
    ensures Line(Next(s, step), c)
  {
    hide BlobFrames, Works;
    LineKept(s, Next(s, step), c);
  }

  /** While the connection is up, no other is asked for. */
  lemma LineStep(s: State, step: Step, c: Conn)
    requires Line(s, c) && Enabled(s, step) && Holds(step, c)
    ensures Line(Next(s, step), c) && !step.Ask? && !step.Install?
  {
    hide Next, Line;
    NoNewConnection(s, step, c);
    if step.Start? || step.TakeLock? || step.Claim? || step.Signal? || step.Leave? {
      LineClaims(s, step, c);
    } else if step.Register? || step.Wake? {
      LineLoop(s, step, c);
    } else if step.WriteBlob? || step.WriteJob? {
      LineWrite(s, step, c);
    } else if step.WriteFails? || step.Unclaim? || step.Lose? {
      LineGivesUp(s, step, c);
    } else if step.Read? || step.SignalAnswer? {
      LineReads(s, step, c);
    } else if ByReader(step) {
      LineReaderEnds(s, step, c);
    } else if step.HostRead? {
      LineHostReads(s, step.c, c);
    } else if step.HostCheck? || step.HostFinish? {
      LineHostWorks(s, step, c);
    } else {
      LineOther(s, step, c);
    }
  }

  lemma NoNewConnection(s: State, step: Step, c: Conn)
    requires Line(s, c) && Enabled(s, step)
    ensures !step.Ask? && !step.Install?
  {
  }

  // ---------------------------------------------------------------- the frames, step by step

  /** Nobody gets another answer. */
  ghost predicate AnswersGoOn(s: State, s2: State) {
    && (forall e :: e in s2.readers && s2.readers[e].Popped? ==> e in s.readers && s.readers[e] == s2.readers[e])
    && (forall u, e :: AwaitsPopped(s2, u, e) ==> AwaitsPopped(s, u, e))
    && (forall u :: HasGot(s2, u) ==> HasGot(s, u) && GotBy(s2, u) == GotBy(s, u))
    && (s2.attempt.Greeted? ==> s2.attempt == s.attempt)
  }

  lemma FramesKept(s: State, s2: State)
    requires Frames(s) && s.cache <= s2.cache && Streams(s2) && AnswersGoOn(s, s2)
    ensures Frames(s2)
  {
    hide HasGot, AwaitsPopped, GotBy, FrameOk, Streams;
    forall f: Up | FrameOk(f, s.cache) ensures FrameOk(f, s2.cache) {
      FrameStaysOk(f, s.cache, s2.cache);
    }
    forall u | HasGot(s2, u) ensures FrameOk(GotBy(s2, u), s2.cache) && For(GotBy(s2, u), u) {
      assert HasGot(s, u);
    }
    forall u, e | AwaitsPopped(s2, u, e)
      ensures e in s2.readers && s2.readers[e].Popped? && For(s2.readers[e].frame, u)
    {
      SamePopped(s, s2, u, e);
    }
  }

  lemma SamePopped(s: State, s2: State, u: Uid, e: Conn)
    requires AwaitsPopped(s2, u, e) && AnswersGoOn(s, s2)
    ensures AwaitsPopped(s, u, e) && e in s2.readers && e in s.readers && s2.readers[e] == s.readers[e]
    ensures s2.readers[e].Popped?
  {
  }

  /** Threads keep their replies, readers take nothing, nothing is answered but a loss, and the
      streams from the hosts stay. */
  ghost predicate Calm(s: State, s2: State) {
    && s.cache <= s2.cache && s2.attempt == s.attempt
    && (forall e :: e in s2.readers && s2.readers[e].Popped? ==> e in s.readers && s.readers[e] == s2.readers[e])
    && (forall u :: u in s2.threads && HasConn(s2.threads[u])
          ==> u in s.threads && HasConn(s.threads[u]) && s.threads[u].r == s2.threads[u].r)
    && (forall r :: r in s2.answers && s2.answers[r].Got? ==> r in s.answers && s.answers[r] == s2.answers[r])
    && (forall e :: e in s2.links
          ==> e in s.links && s.links[e].up == s2.links[e].up && s.links[e].outbox == s2.links[e].outbox)
  }

  lemma CalmFrames(s: State, s2: State)
    requires Frames(s) && Calm(s, s2)
    ensures Frames(s2)
  {
    hide Streams, FrameOk;
    SameStreams(s, s2);
    FramesKept(s, s2);
  }

  lemma SameStreams(s: State, s2: State)
    requires Streams(s) && s.cache <= s2.cache
    requires forall e :: e in s2.links ==>
               e in s.links && s.links[e].up == s2.links[e].up && s.links[e].outbox == s2.links[e].outbox
    ensures Streams(s2)
  {
    hide FrameOk, StreamOk;
    forall e | e in s2.links ensures StreamOk(s2.links[e], s2.cache) {
      StreamStaysOk(s.links[e], s2.links[e], s.cache, s2.cache);
    }
  }

  lemma OneStream(s: State, s2: State, c: Conn)
    requires Streams(s) && s.cache <= s2.cache && c in s2.links && s2.links == s.links[c := s2.links[c]]
    requires StreamOk(s2.links[c], s2.cache)
    ensures Streams(s2)
  {
    hide FrameOk, StreamOk;
    forall e | e in s2.links && e != c ensures StreamOk(s2.links[e], s2.cache) {
      StreamStaysOk(s.links[e], s.links[e], s.cache, s2.cache);
    }
  }

  lemma FrameStaysOk(f: Up, cache: set<Digest>, cache2: set<Digest>)
    requires FrameOk(f, cache) && cache <= cache2
    ensures FrameOk(f, cache2)
  {
  }

  lemma StreamStaysOk(l: Link, l2: Link, cache: set<Digest>, cache2: set<Digest>)
    requires StreamOk(l, cache) && cache <= cache2
    requires forall f :: f in l2.up ==> f in l.up || f in l.outbox || FrameOk(f, cache2)
    requires forall f :: f in l2.outbox ==> f in l.outbox || FrameOk(f, cache2)
    ensures StreamOk(l2, cache2)
  {
    hide FrameOk;
    forall f: Up | FrameOk(f, cache) ensures FrameOk(f, cache2) {
      FrameStaysOk(f, cache, cache2);
    }
  }

  lemma FramesClaims(s: State, step: Step)
    requires Frames(s) && Enabled(s, step)
    requires step.Start? || step.TakeLock? || step.Claim? || step.Signal? || step.Leave?
    ensures Frames(Next(s, step))
  {
    hide Frames;
    CalmFrames(s, Next(s, step));
  }

  lemma FramesGivesUp(s: State, step: Step)
    requires Frames(s) && Enabled(s, step) && (step.WriteFails? || step.Unclaim?)
    ensures Frames(Next(s, step))
  {
    hide Frames;
    CalmFrames(s, Next(s, step));
  }

  lemma FramesLose(s: State, u: Uid)
    requires Frames(s) && Enabled(s, Lose(u))
    ensures Frames(Next(s, Lose(u)))
  {
    hide Frames, LostReplies;
    CalmFrames(s, Next(s, Lose(u)));
  }

  lemma FramesWrite(s: State, step: Step)
    requires Frames(s) && Enabled(s, step) && (step.WriteBlob? || step.WriteJob?)
    ensures Frames(Next(s, step))
  {
    hide Frames;
    CalmFrames(s, Next(s, step));
  }

  lemma FramesWake(s: State, u: Uid)
    requires Frames(s) && Enabled(s, Wake(u))
    ensures Frames(Next(s, Wake(u)))
  {
    hide Frames;
    CalmFrames(s, Next(s, Wake(u)));
  }

  /** A fresh reply has no answer and nobody holds it. */
  lemma FramesRegister(s: State, u: Uid)
    requires Frames(s) && Inv(s) && Enabled(s, Register(u))
    ensures Frames(Next(s, Register(u)))
  {
    hide Streams, FrameOk, Held, NotForgotten, Pending, Locked, Current, AnswersGoOn;
    forall e | e in s.readers && s.readers[e].Popped? ensures s.readers[e].r < s.next {
      PoppedIsHeld(s, e);
    }
    RegisterAnswers(s, u);
    SameStreams(s, Next(s, Register(u)));
    hide Frames;
    FramesKept(s, Next(s, Register(u)));
  }

  lemma RegisterAnswers(s: State, u: Uid)
    requires Enabled(s, Register(u)) && s.next !in s.answers
    requires forall e :: e in s.readers && s.readers[e].Popped? ==> s.readers[e].r < s.next
    ensures AnswersGoOn(s, Next(s, Register(u)))
  {
  }

  lemma PoppedIsHeld(s: State, e: Conn)
    requires HeldApart(s) && e in s.readers && s.readers[e].Popped?
    ensures s.readers[e].r < s.next
  {
    assert s.readers[e].r in ReaderLeft(s, e);
    assert Held(s, s.readers[e].r);
  }

  lemma FramesRead(s: State, c: Conn)
    requires Frames(s) && Inv(s) && Enabled(s, Read(c))
    ensures Frames(Next(s, Read(c)))
  {
    hide Held, NotForgotten, HeldApart, Locked, Current, HasGot, GotBy, StreamOk, FrameOk;
    var s2, f := Next(s, Read(c)), s.links[c].up[0];
    HeadIsOk(s.links[c], s.cache);
    OneStream(s, s2, c);
    if !f.BlobUp? && f.uid in s.pending {
      assert IsPending(s, f.uid);
    }
    forall u | HasGot(s2, u) ensures HasGot(s, u) && GotBy(s2, u) == GotBy(s, u) {
      SameGot(s, s2, u);
    }
  }

  lemma HeadIsOk(l: Link, cache: set<Digest>)
    requires StreamOk(l, cache) && l.up != []
    ensures FrameOk(l.up[0], cache) && StreamOk(l.(up := l.up[1..]), cache)
  {
    assert l.up[0] in l.up;
  }

  lemma SameGot(s: State, s2: State, u: Uid)
    requires s2.threads == s.threads && s2.answers == s.answers
    ensures HasGot(s2, u) ==> HasGot(s, u) && GotBy(s2, u) == GotBy(s, u)
  {
  }

  lemma FramesSignalAnswer(s: State, c: Conn)
    requires Frames(s) && Enabled(s, SignalAnswer(c))
    ensures Frames(Next(s, SignalAnswer(c)))
  {
    hide FrameOk, StreamOk;
    var s2 := Next(s, SignalAnswer(c));
    forall u | HasGot(s2, u) ensures FrameOk(GotBy(s2, u), s2.cache) && For(GotBy(s2, u), u) {
      if s.threads[u].r == s.readers[c].r {
        assert AwaitsPopped(s, u, c);
      } else {
        assert HasGot(s, u);
      }
    }
    forall u, e | AwaitsPopped(s2, u, e) ensures For(s2.readers[e].frame, u) {
      assert AwaitsPopped(s, u, e);
    }
  }

  lemma FramesReaderEnds(s: State, step: Step)
    requires Frames(s) && Enabled(s, step) && (step.ReadEnd? || step.ReaderLose?)
    ensures Frames(Next(s, step))
  {
    hide Frames, LostReplies;
    CalmFrames(s, Next(s, step));
  }

  lemma FramesReaderSignals(s: State, step: Step)
    requires Frames(s) && Enabled(s, step) && (step.ReaderSignal? || step.ReaderLeave?)
    ensures Frames(Next(s, step))
  {
    hide Frames;
    CalmFrames(s, Next(s, step));
  }

  /** A step that touches no thread, reader or answer. */
  lemma QuietFrames(s: State, s2: State)
    requires Frames(s) && s.cache <= s2.cache && Streams(s2)
    requires s2.threads == s.threads && s2.answers == s.answers && s2.readers == s.readers && s2.attempt == s.attempt
    ensures Frames(s2)
  {
    hide Streams, FrameOk;
    FramesKept(s, s2);
  }

  lemma FramesHostRead(s: State, e: Conn)
    requires Frames(s) && Enabled(s, HostRead(e))
    ensures Frames(Next(s, HostRead(e)))
  {
    hide Frames;
    CalmFrames(s, Next(s, HostRead(e)));
  }

  lemma StreamsOfFrames(s: State)
    requires Frames(s)
    ensures Streams(s) && forall e :: e in s.links ==> StreamOk(s.links[e], s.cache)
  {
  }

  lemma FramesHostCheck(s: State, e: Conn, k: nat)
    requires Frames(s) && Enabled(s, HostCheck(e, k))
    ensures Frames(Next(s, HostCheck(e, k)))
  {
    hide FrameOk, Frames, Streams, StreamOk, Removed;
    var s2, u := Next(s, HostCheck(e, k)), s.links[e].queued[k].uid;
    StreamsOfFrames(s);
    MissingIsOk(u, s.cache);
    StreamStaysOk(s.links[e], s2.links[e], s.cache, s.cache);
    OneStream(s, s2, e);
    QuietFrames(s, s2);
  }

  lemma MissingIsOk(u: Uid, cache: set<Digest>)
    ensures FrameOk(Missing(u, u.blobs - cache), cache)
  {
  }

  lemma FramesHostFinish(s: State, e: Conn, k: nat, ok: bool, outputs: set<Digest>)
    requires Frames(s) && Enabled(s, HostFinish(e, k, ok, outputs))
    ensures Frames(Next(s, HostFinish(e, k, ok, outputs)))
  {
    hide FrameOk, Frames, Streams, StreamOk, Removed;
    var s2, u := Next(s, HostFinish(e, k, ok, outputs)), s.links[e].running[k].uid;
    StreamsOfFrames(s);
    ResultIsOk(u, ok, outputs, s.cache);
    StreamStaysOk(s.links[e], s2.links[e], s.cache, s2.cache);
    OneStream(s, s2, e);
    QuietFrames(s, s2);
  }

  lemma ResultIsOk(u: Uid, ok: bool, outputs: set<Digest>, cache: set<Digest>)
    ensures FrameOk(Result(u, if ok then outputs else {}), cache + outputs)
  {
  }

  lemma FramesHostSend(s: State, e: Conn)
    requires Frames(s) && Enabled(s, HostSend(e))
    ensures Frames(Next(s, HostSend(e)))
  {
    hide BlobFrames, Frames, Streams, StreamOk;
    var s2 := Next(s, HostSend(e));
    StreamsOfFrames(s);
    StreamStaysOk(s.links[e], s2.links[e], s.cache, s.cache);
    OneStream(s, s2, e);
    QuietFrames(s, s2);
  }

  lemma FramesBreak(s: State, e: Conn, keep: nat)
    requires Frames(s) && Enabled(s, Break(e, keep))
    ensures Frames(Next(s, Break(e, keep)))
  {
    hide Frames, Streams, StreamOk, FrameOk;
    var s2 := Next(s, Break(e, keep));
    StreamsOfFrames(s);
    StreamStaysOk(s.links[e], s2.links[e], s.cache, s.cache);
    OneStream(s, s2, e);
    QuietFrames(s, s2);
  }

  lemma FramesInstall(s: State, c: Conn)
    requires Frames(s) && Enabled(s, Install(c))
    ensures Frames(Next(s, Install(c)))
  {
    hide FrameOk;
    OneStream(s, Next(s, Install(c)), c);
    FramesKept(s, Next(s, Install(c)));
  }

  lemma FramesAttempt(s: State, step: Step)
    requires Frames(s) && Enabled(s, step) && (step.Ask? || step.Greet? || step.GiveUp?)
    ensures Frames(Next(s, step))
  {
    hide FrameOk, StreamOk;
    var s2 := Next(s, step);
    forall u | HasGot(s2, u) ensures FrameOk(GotBy(s2, u), s2.cache) && For(GotBy(s2, u), u) {
      assert HasGot(s, u);
    }
    forall u, e | AwaitsPopped(s2, u, e) ensures For(s2.readers[e].frame, u) {
      assert AwaitsPopped(s, u, e);
    }
  }

  /** As long as the host's cache loses nothing, every step keeps the frames in order. */
  lemma FramesStep(s: State, step: Step)
    requires Frames(s) && Inv(s) && Enabled(s, step) && !step.Forget?
    ensures Frames(Next(s, step))
  {
    hide Next, Frames, Enabled, Inv;
    if step.Start? || step.TakeLock? || step.Claim? || step.Signal? || step.Leave? {
      FramesClaims(s, step);
    } else if step.Lose? {
      FramesLose(s, step.u);
    } else if step.WriteFails? || step.Unclaim? {
      FramesGivesUp(s, step);
    } else if step.WriteBlob? || step.WriteJob? {
      FramesWrite(s, step);
    } else if step.Register? {
      FramesRegister(s, step.u);
    } else if step.Wake? {
      FramesWake(s, step.u);
    } else if ByReader(step) {
      FramesReaderStep(s, step);
    } else if ByHost(step) {
      FramesHostStep(s, step);
    } else if step.Break? {
      FramesBreak(s, step.c, step.keep);
    } else if step.Install? {
      FramesInstall(s, step.c);
    } else {
      FramesAttempt(s, step);
    }
  }

  lemma FramesReaderStep(s: State, step: Step)
    requires Frames(s) && Inv(s) && Enabled(s, step) && ByReader(step)
    ensures Frames(Next(s, step))
  {
    hide Next, Frames, Enabled, Inv;
    if step.Read? {
      FramesRead(s, step.c);
    } else if step.SignalAnswer? {
      FramesSignalAnswer(s, step.c);
    } else if step.ReadEnd? || step.ReaderLose? {
      FramesReaderEnds(s, step);
    } else {
      FramesReaderSignals(s, step);
    }
  }

  lemma FramesHostStep(s: State, step: Step)
    requires Frames(s) && Enabled(s, step) && ByHost(step)
    ensures Frames(Next(s, step))
  {
    hide Next, Frames, Enabled;
    if step.HostRead? {
      FramesHostRead(s, step.c);
    } else if step.HostCheck? {
      FramesHostCheck(s, step.c, step.k);
    } else if step.HostFinish? {
      FramesHostFinish(s, step.c, step.k, step.ok, step.outputs);
    } else {
      FramesHostSend(s, step.c);
    }
  }
}

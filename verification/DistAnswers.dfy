/** build, `RemoteHost`: results that a thread has yet to take, and what they may add to the ledger. */
module DistAnswers {
  import opened Options
  import opened Dist
  import opened DistWake
  import opened DistLedger

  // ---------------------------------------------------------------- what is on its way

  /** What a reader can still read, as it is: a live host sends what it has ready. */
  function Stream(l: Link): seq<Up> {
    if l.alive then l.up + l.outbox else l.up
  }

  /** The first answer for `v`. */
  function First(q: seq<Up>, v: Uid): Option<Up> {
    if q == [] then None else if For(q[0], v) then Some(q[0]) else First(q[1..], v)
  }

  predicate Reads(r: Reader) {
    r.Reading? || r.Popped?
  }

  /** The thread has entered its blobs in the ledger, for this attempt. */
  predicate PastClaim(pc: Pc) {
    pc.Writing? || pc.Waiting?
  }

  predicate GotIs(s: State, v: Uid, f: Up) {
    HasGot(s, v) && GotBy(s, v) == f
  }

  predicate PoppedFor(s: State, e: Conn, v: Uid, f: Up) {
    AwaitsPopped(s, v, e) && s.readers[e].frame == f
  }

  /** The reply of the thread has this answer, or a reader is about to give it. */
  ghost predicate Takes(s: State, v: Uid, f: Up) {
    && v in s.threads && NeedsAnswer(s.threads[v])
    && (GotIs(s, v, f) || exists e :: PoppedFor(s, e, v, f))
  }

  predicate ReaderOf(s: State, e: Conn) {
    LinkOf(s, e) && Reads(s.readers[e])
  }

  predicate NextFor(s: State, e: Conn, v: Uid, f: Up) {
    ReaderOf(s, e) && First(Stream(s.links[e]), v) == Some(f)
  }

  predicate Comes(s: State, e: Conn, f: Up) {
    ReaderOf(s, e) && f in Stream(s.links[e])
  }

  /** The thread can take this answer without the write lock. */
  ghost predicate AtOnce(s: State, v: Uid, f: Up) {
    && v in s.threads && PastClaim(s.threads[v])
    && (Takes(s, v, f) || (v in s.pending && exists e :: NextFor(s, e, v, f)))
  }

  /** A thread of this job can take this answer, in this attempt or another. */
  ghost predicate OnWay(s: State, v: Uid, f: Up) {
    Takes(s, v, f) || (For(f, v) && exists e :: Comes(s, e, f))
  }

  predicate Names(f: Up, d: Digest) {
    f.Result? && d in f.outputs
  }

  /** No result on its way can enter in the ledger a blob of this job that is not shipped by then. A
      thread that still has to claim does so first: before it comes what the thread with the lock
      claims, and what it claims itself. */
  ghost predicate ResultsSafe(s: State, c: Conn, u: Uid)
    requires c in s.links
  {
    && (forall v, f, d :: AtOnce(s, v, f) && Names(f, d) && d in u.blobs ==> Shipped(s, c, d))
    && (forall v, f, d :: OnWay(s, v, f) && Names(f, d) && d in u.blobs ==>
          Shipped(s, c, d) || ToBeClaimed(s, c, d) || d in v.blobs)
  }

  // ---------------------------------------------------------------- streams

  lemma {:induction false} FirstOfJoined(a: seq<Up>, b: seq<Up>, v: Uid)
    ensures First(a + b, v) == if First(a, v).Some? then First(a, v) else First(b, v)
  {
    if a == [] {
      assert a + b == b;
    } else {
      assert (a + b)[1..] == a[1..] + b;
      FirstOfJoined(a[1..], b, v);
    }
  }

  lemma {:induction false} FirstIsIn(q: seq<Up>, v: Uid)
    ensures First(q, v).Some? ==> First(q, v).value in q && For(First(q, v).value, v)
    ensures First(q, v) == None <==> forall f :: f in q ==> !For(f, v)
  {
    if q != [] {
      FirstIsIn(q[1..], v);
      assert q == [q[0]] + q[1..];
    }
  }

  /** What is left when the end is cut off. */
  lemma FirstOfPrefix(q: seq<Up>, k: nat, v: Uid)
    requires k <= |q| && First(q[..k], v).Some?
    ensures First(q, v) == First(q[..k], v)
  {
    FirstOfJoined(q[..k], q[k..], v);
    assert q[..k] + q[k..] == q;
  }

  // ---------------------------------------------------------------- no result is new

  /** A result that can be taken could be before, or names only what the host has. */
  ghost predicate NoneAtOnce(s: State, s2: State) {
    forall v, f :: AtOnce(s2, v, f) && f.Result? ==> AtOnce(s, v, f) || f.outputs <= s2.cache
  }

  ghost predicate NoneOnWay(s: State, s2: State) {
    forall v, f :: OnWay(s2, v, f) && f.Result? ==> OnWay(s, v, f) || f.outputs <= s2.cache
  }

  /** Threads keep their replies. */
  ghost predicate SameReplies(s: State, s2: State) {
    && (forall v :: v in s2.threads && NeedsAnswer(s2.threads[v]) ==>
          v in s.threads && NeedsAnswer(s.threads[v]) && s.threads[v].r == s2.threads[v].r)
    && (forall v :: v in s2.pending ==> v in s.pending)
  }

  ghost predicate NobodyClaims(s: State, s2: State) {
    forall v :: v in s2.threads && PastClaim(s2.threads[v]) ==> v in s.threads && PastClaim(s.threads[v])
  }

  /** Nobody is answered but by a loss, readers take nothing, and the streams stay. */
  ghost predicate SameWires(s: State, s2: State) {
    && (forall r :: r in s2.answers && s2.answers[r].Got? ==> r in s.answers && s.answers[r] == s2.answers[r])
    && (forall e :: e in s2.readers && s2.readers[e].Popped? ==> e in s.readers && s.readers[e] == s2.readers[e])
    && (forall e :: ReaderOf(s2, e) ==> ReaderOf(s, e) && Stream(s2.links[e]) == Stream(s.links[e]))
  }

  lemma TakesFewer(s: State, s2: State, v: Uid, f: Up)
    requires SameReplies(s, s2) && SameWires(s, s2) && Takes(s2, v, f)
    ensures Takes(s, v, f)
  {
    hide Stream;
    if GotIs(s2, v, f) {
      assert GotIs(s, v, f);
    } else {
      var e :| PoppedFor(s2, e, v, f);
      assert PoppedFor(s, e, v, f);
    }
  }

  lemma NoneNew(s: State, s2: State)
    requires SameReplies(s, s2) && SameWires(s, s2)
    ensures NoneOnWay(s, s2)
    ensures NobodyClaims(s, s2) ==> NoneAtOnce(s, s2)
  {
    hide Stream, First, Takes;
    forall v, f | Takes(s2, v, f) ensures Takes(s, v, f) {
      TakesFewer(s, s2, v, f);
    }
    forall e, f | Comes(s2, e, f) ensures Comes(s, e, f) {
    }
    forall e, v, f | NextFor(s2, e, v, f) ensures NextFor(s, e, v, f) {
    }
  }

  // ---------------------------------------------------------------- step by step

  /** Another thread's claim comes with no new result. */
  lemma NoneByClaim(s: State, u: Uid)
    requires Enabled(s, Claim(u))
    ensures NoneOnWay(s, Next(s, Claim(u)))
    ensures forall v, f :: v != u && AtOnce(Next(s, Claim(u)), v, f) ==> AtOnce(s, v, f)
  {
    hide NoneOnWay, Stream, Takes, First;
    var s2 := Next(s, Claim(u));
    NoneNew(s, s2);
    forall v, f | v != u && AtOnce(s2, v, f) ensures AtOnce(s, v, f) {
      if Takes(s2, v, f) {
        TakesFewer(s, s2, v, f);
      } else {
        var e :| NextFor(s2, e, v, f);
        assert NextFor(s, e, v, f);
      }
    }
  }

  lemma NoneByMoves(s: State, step: Step)
    requires Enabled(s, step) && (step.Start? || step.TakeLock? || step.Signal? || step.Leave?)
    ensures NoneOnWay(s, Next(s, step)) && NoneAtOnce(s, Next(s, step))
  {
    hide NoneOnWay, NoneAtOnce, Stream;
    NoneNew(s, Next(s, step));
  }

  lemma NoneByGivingUp(s: State, step: Step)
    requires Enabled(s, step) && (step.WriteFails? || step.Unclaim?)
    ensures NoneOnWay(s, Next(s, step)) && NoneAtOnce(s, Next(s, step))
  {
    hide NoneOnWay, NoneAtOnce, Stream;
    NoneNew(s, Next(s, step));
  }

  lemma NoneByLosing(s: State, u: Uid)
    requires Enabled(s, Lose(u))
    ensures NoneOnWay(s, Next(s, Lose(u))) && NoneAtOnce(s, Next(s, Lose(u)))
  {
    hide NoneOnWay, NoneAtOnce, Stream, LostReplies;
    NoneNew(s, Next(s, Lose(u)));
  }

  lemma NoneByWriting(s: State, step: Step)
    requires Enabled(s, step) && (step.WriteBlob? || step.WriteJob?)
    ensures NoneOnWay(s, Next(s, step)) && NoneAtOnce(s, Next(s, step))
  {
    hide NoneOnWay, NoneAtOnce;
    NoneNew(s, Next(s, step));
  }

  lemma NoneByWaking(s: State, u: Uid)
    requires Enabled(s, Wake(u))
    ensures NoneOnWay(s, Next(s, Wake(u))) && NoneAtOnce(s, Next(s, Wake(u)))
  {
    hide NoneOnWay, NoneAtOnce, Stream;
    NoneNew(s, Next(s, Wake(u)));
  }

  lemma NoneByEnding(s: State, e: Conn)
    requires Enabled(s, ReadEnd(e))
    ensures NoneOnWay(s, Next(s, ReadEnd(e))) && NoneAtOnce(s, Next(s, ReadEnd(e)))
  {
    hide NoneOnWay, NoneAtOnce, Stream;
    NoneNew(s, Next(s, ReadEnd(e)));
  }

  lemma NoneByReaderLoss(s: State, e: Conn)
    requires Enabled(s, ReaderLose(e))
    ensures NoneOnWay(s, Next(s, ReaderLose(e))) && NoneAtOnce(s, Next(s, ReaderLose(e)))
  {
    hide NoneOnWay, NoneAtOnce, Stream, LostReplies;
    NoneNew(s, Next(s, ReaderLose(e)));
  }

  lemma NoneBySignalling(s: State, step: Step)
    requires Enabled(s, step) && (step.ReaderSignal? || step.ReaderLeave?)
    ensures NoneOnWay(s, Next(s, step)) && NoneAtOnce(s, Next(s, step))
  {
    hide NoneOnWay, NoneAtOnce, Stream;
    NoneNew(s, Next(s, step));
  }

  lemma NoneByHostRead(s: State, e: Conn)
    requires Enabled(s, HostRead(e))
    ensures NoneOnWay(s, Next(s, HostRead(e))) && NoneAtOnce(s, Next(s, HostRead(e)))
  {
    hide NoneOnWay, NoneAtOnce;
    NoneNew(s, Next(s, HostRead(e)));
  }

  lemma NoneByAttempt(s: State, step: Step)
    requires Enabled(s, step) && (step.Ask? || step.Greet? || step.GiveUp?)
    ensures NoneOnWay(s, Next(s, step)) && NoneAtOnce(s, Next(s, step))
  {
    hide NoneOnWay, NoneAtOnce, Stream;
    NoneNew(s, Next(s, step));
  }

  /** A fresh reply has no answer and nobody holds it. */
  lemma NoneByRegister(s: State, u: Uid)
    requires Inv(s) && Enabled(s, Register(u))
    ensures NoneOnWay(s, Next(s, Register(u))) && NoneAtOnce(s, Next(s, Register(u)))
  {
    hide Stream, First, NotForgotten, HeldApart, Pending, Locked, Current;
    var s2 := Next(s, Register(u));
    forall e | e in s.readers && s.readers[e].Popped? ensures s.readers[e].r < s.next {
      PoppedIsHeld(s, e);
    }
    forall v, f | Takes(s2, v, f) ensures Takes(s, v, f) {
      FreshTakesNothing(s, u, v, f);
    }
    forall e, f | Comes(s2, e, f) ensures Comes(s, e, f) {
    }
    forall e, v, f | NextFor(s2, e, v, f) ensures NextFor(s, e, v, f) {
    }
  }

  lemma FreshTakesNothing(s: State, u: Uid, v: Uid, f: Up)
    requires Enabled(s, Register(u)) && Takes(Next(s, Register(u)), v, f) && s.next !in s.answers
    requires forall e :: e in s.readers && s.readers[e].Popped? ==> s.readers[e].r < s.next
    ensures Takes(s, v, f)
  {
    var s2 := Next(s, Register(u));
    if GotIs(s2, v, f) {
      assert GotIs(s, v, f);
    } else {
      var e :| PoppedFor(s2, e, v, f);
      assert PoppedFor(s, e, v, f);
    }
  }

  lemma NoneBySignal(s: State, e: Conn)
    requires Enabled(s, SignalAnswer(e))
    ensures NoneOnWay(s, Next(s, SignalAnswer(e))) && NoneAtOnce(s, Next(s, SignalAnswer(e)))
  {
    hide Stream, First;
    var s2 := Next(s, SignalAnswer(e));
    forall v, f | Takes(s2, v, f) ensures Takes(s, v, f) {
      SignalledWasPopped(s, e, v, f);
    }
    forall x, f | Comes(s2, x, f) ensures Comes(s, x, f) {
    }
    forall x, v, f | NextFor(s2, x, v, f) ensures NextFor(s, x, v, f) {
    }
  }

  lemma SignalledWasPopped(s: State, e: Conn, v: Uid, f: Up)
    requires Enabled(s, SignalAnswer(e)) && Takes(Next(s, SignalAnswer(e)), v, f)
    ensures Takes(s, v, f)
  {
    var s2 := Next(s, SignalAnswer(e));
    if GotIs(s2, v, f) {
      assert GotIs(s, v, f) || PoppedFor(s, e, v, f);
    } else {
      var x :| PoppedFor(s2, x, v, f);
      assert PoppedFor(s, x, v, f);
    }
  }

  /** The frame that is read was the next in its stream. */
  lemma NoneByRead(s: State, e: Conn)
    requires Inv(s) && Enabled(s, Read(e))
    ensures NoneOnWay(s, Next(s, Read(e))) && NoneAtOnce(s, Next(s, Read(e)))
  {
    hide Takes, Stream, Inv, Next;
    var s2 := Next(s, Read(e));
    forall v, f | Takes(s2, v, f) ensures Takes(s, v, f) || (For(f, v) && Comes(s, e, f)) {
      PoppedWasNext(s, e, v, f);
    }
    forall v, f | Takes(s2, v, f) ensures Takes(s, v, f) || (v in s.pending && NextFor(s, e, v, f)) {
      PoppedWasNext(s, e, v, f);
    }
    forall x, f | Comes(s2, x, f) ensures Comes(s, x, f) {
      ReadLeaves(s, e, x, f);
    }
    forall x, v, f | v in s2.pending && NextFor(s2, x, v, f) ensures v in s.pending && NextFor(s, x, v, f) {
      ReadLeavesNext(s, e, x, v, f);
    }
    ReadKeepsThreads(s, e);
  }

  lemma ReadKeepsThreads(s: State, e: Conn)
    requires Enabled(s, Read(e))
    ensures Next(s, Read(e)).threads == s.threads
  {
  }

  lemma HeadOfStream(l: Link)
    requires l.up != []
    ensures Stream(l) != [] && Stream(l)[0] == l.up[0] && Stream(l)[1..] == Stream(l.(up := l.up[1..]))
  {
  }

  lemma PoppedWasNext(s: State, e: Conn, v: Uid, f: Up)
    requires Inv(s) && Enabled(s, Read(e)) && Takes(Next(s, Read(e)), v, f)
    ensures Takes(s, v, f) || (For(f, v) && Comes(s, e, f) && v in s.pending && NextFor(s, e, v, f))
  {
    hide Stream, NotForgotten, HeldApart, Locked, Current;
    var s2, g := Next(s, Read(e)), s.links[e].up[0];
    HeadOfStream(s.links[e]);
    if GotIs(s2, v, f) {
      assert GotIs(s, v, f);
    } else {
      var x :| PoppedFor(s2, x, v, f);
      if s2.readers[x] == s.readers[x] {
        assert PoppedFor(s, x, v, f);
      } else {
        assert IsPending(s, g.uid) && v == g.uid && f == g;
      }
    }
  }

  lemma ReadLeaves(s: State, e: Conn, x: Conn, f: Up)
    requires Enabled(s, Read(e)) && Comes(Next(s, Read(e)), x, f)
    ensures Comes(s, x, f)
  {
    hide Stream;
    HeadOfStream(s.links[e]);
  }

  lemma ReadLeavesNext(s: State, e: Conn, x: Conn, v: Uid, f: Up)
    requires Enabled(s, Read(e)) && v in Next(s, Read(e)).pending && NextFor(Next(s, Read(e)), x, v, f)
    ensures v in s.pending && NextFor(s, x, v, f)
  {
    hide Stream;
    HeadOfStream(s.links[e]);
  }

  /** A host's stream changes: what is new in it is no result that names a blob the host lacks, and
      what was first for somebody is not overtaken by such. */
  ghost predicate StreamGoesOn(s: State, s2: State, e: Conn) {
    && s2.threads == s.threads && s2.pending == s.pending && s2.answers == s.answers && s2.readers == s.readers
    && e in s.links && e in s2.links && s2.links == s.links[e := s2.links[e]]
    && (forall f :: f in Stream(s2.links[e]) && f.Result? ==> f in Stream(s.links[e]) || f.outputs <= s2.cache)
    && (forall v, f :: First(Stream(s2.links[e]), v) == Some(f) && f.Result? ==>
          First(Stream(s.links[e]), v) == Some(f) || f.outputs <= s2.cache)
  }

  lemma NoneByStream(s: State, s2: State, e: Conn)
    requires StreamGoesOn(s, s2, e)
    ensures NoneOnWay(s, s2) && NoneAtOnce(s, s2)
  {
    hide Stream, First;
    forall v, f | Takes(s2, v, f) ensures Takes(s, v, f) {
      SameTakes(s, s2, v, f);
    }
    forall x, f | Comes(s2, x, f) && f.Result? ensures Comes(s, x, f) || f.outputs <= s2.cache {
    }
    forall x, v, f | NextFor(s2, x, v, f) && f.Result? ensures NextFor(s, x, v, f) || f.outputs <= s2.cache {
    }
  }

  lemma SameTakes(s: State, s2: State, v: Uid, f: Up)
    requires s2.threads == s.threads && s2.answers == s.answers && s2.readers == s.readers && Takes(s2, v, f)
    ensures Takes(s, v, f)
  {
    if GotIs(s2, v, f) {
      assert GotIs(s, v, f);
    } else {
      var x :| PoppedFor(s2, x, v, f);
      assert PoppedFor(s, x, v, f);
    }
  }

  /** A frame put behind what has been sent, before what waits to be. */
  lemma OneMoreSent(l: Link, m: Up)
    requires l.alive
    ensures forall f :: f in Stream(l.(up := l.up + [m])) ==> f in Stream(l) || f == m
    ensures forall v :: First(Stream(l.(up := l.up + [m])), v) == First(Stream(l), v)
                     || First(Stream(l.(up := l.up + [m])), v) == Some(m)
  {
    forall v ensures First(Stream(l.(up := l.up + [m])), v) == First(Stream(l), v)
                  || First(Stream(l.(up := l.up + [m])), v) == Some(m)
    {
      FirstOfJoined(l.up + [m], l.outbox, v);
      FirstOfJoined(l.up, [m], v);
      FirstOfJoined(l.up, l.outbox, v);
      assert [m][1..] == [];
    }
  }

  lemma OneMoreReady(l: Link, m: Up)
    requires l.alive
    ensures forall f :: f in Stream(l.(outbox := l.outbox + [m])) ==> f in Stream(l) || f == m
    ensures forall v :: First(Stream(l.(outbox := l.outbox + [m])), v) == First(Stream(l), v)
                     || First(Stream(l.(outbox := l.outbox + [m])), v) == Some(m)
  {
    var q := Stream(l);
    assert Stream(l.(outbox := l.outbox + [m])) == q + [m];
    forall v ensures First(q + [m], v) == First(q, v) || First(q + [m], v) == Some(m) {
      FirstOfJoined(q, [m], v);
      assert [m][1..] == [];
    }
  }

  lemma NoneByHostCheck(s: State, e: Conn, k: nat)
    requires Enabled(s, HostCheck(e, k))
    ensures NoneOnWay(s, Next(s, HostCheck(e, k))) && NoneAtOnce(s, Next(s, HostCheck(e, k)))
  {
    hide NoneOnWay, NoneAtOnce, Removed, Stream, First;
    var l, u := s.links[e], s.links[e].queued[k].uid;
    OneMoreSent(l, Missing(u, u.blobs - s.cache));
    StreamHas(l, Removed(l.queued, k), l.running + [l.queued[k]]);
    StreamHas(l.(up := l.up + [Missing(u, u.blobs - s.cache)]), Removed(l.queued, k), l.running);
    NoneByStream(s, Next(s, HostCheck(e, k)), e);
  }

  /** The host's own lists are no part of the stream. */
  lemma StreamHas(l: Link, queued: seq<Job>, running: seq<Job>)
    ensures Stream(l.(queued := queued, running := running)) == Stream(l)
  {
  }

  lemma NoneByHostFinish(s: State, e: Conn, k: nat, ok: bool, outputs: set<Digest>)
    requires Enabled(s, HostFinish(e, k, ok, outputs))
    ensures NoneOnWay(s, Next(s, HostFinish(e, k, ok, outputs)))
    ensures NoneAtOnce(s, Next(s, HostFinish(e, k, ok, outputs)))
  {
    hide NoneOnWay, NoneAtOnce, Removed, Stream, First;
    var l, u := s.links[e], s.links[e].running[k].uid;
    var m := Result(u, if ok then outputs else {});
    OneMoreSent(l, m);
    OneMoreReady(l, m);
    StreamHas(l.(up := l.up + [m]), l.queued, Removed(l.running, k));
    StreamHas(l.(outbox := l.outbox + [m]), l.queued, Removed(l.running, k));
    NoneByStream(s, Next(s, HostFinish(e, k, ok, outputs)), e);
  }

  lemma BlobsAreForNobody(q: seq<Up>, v: Uid)
    requires forall f :: f in q ==> f.BlobUp?
    ensures First(q, v) == None
  {
    FirstIsIn(q, v);
  }

  /** What is sent comes behind its blobs, where it was. */
  lemma SentIsSame(l: Link, l2: Link)
    requires l.alive && l.outbox != []
    requires l2 == l.(outbox := l.outbox[1..], up := l2.up)
    requires l2.up == l.up + BlobFrames(if l.outbox[0].Result? then l.outbox[0].outputs else {}) + [l.outbox[0]]
    ensures forall f :: f in Stream(l2) && f.Result? ==> f in Stream(l)
    ensures forall v :: First(Stream(l2), v) == First(Stream(l), v)
  {
    hide BlobFrames;
    var blobs := BlobFrames(if l.outbox[0].Result? then l.outbox[0].outputs else {});
    assert l.outbox == [l.outbox[0]] + l.outbox[1..];
    assert Stream(l2) == l.up + (blobs + l.outbox);
    forall v ensures First(Stream(l2), v) == First(Stream(l), v) {
      FirstOfJoined(l.up, blobs + l.outbox, v);
      FirstOfJoined(blobs, l.outbox, v);
      FirstOfJoined(l.up, l.outbox, v);
      BlobsAreForNobody(blobs, v);
    }
  }

  lemma NoneByHostSend(s: State, e: Conn)
    requires Enabled(s, HostSend(e))
    ensures NoneOnWay(s, Next(s, HostSend(e))) && NoneAtOnce(s, Next(s, HostSend(e)))
  {
    hide NoneOnWay, NoneAtOnce, Stream, First, BlobFrames;
    SentIsSame(s.links[e], Next(s, HostSend(e)).links[e]);
    NoneByStream(s, Next(s, HostSend(e)), e);
  }

  lemma NoneByBreak(s: State, e: Conn, keep: nat)
    requires Enabled(s, Break(e, keep))
    ensures NoneOnWay(s, Next(s, Break(e, keep))) && NoneAtOnce(s, Next(s, Break(e, keep)))
  {
    hide NoneOnWay, NoneAtOnce, First;
    var l := s.links[e];
    var q := l.up[..keep];
    assert Stream(l)[..keep] == q;
    forall v, f | First(q, v) == Some(f) ensures First(Stream(l), v) == Some(f) {
      FirstOfPrefix(Stream(l), keep, v);
    }
    NoneByStream(s, Next(s, Break(e, keep)), e);
  }

  /** No step but a claim brings a result within reach of the ledger. */
  lemma NoneByStep(s: State, step: Step)
    requires Inv(s) && Enabled(s, step) && !step.Claim? && !step.Forget? && !step.Install?
    ensures NoneOnWay(s, Next(s, step)) && NoneAtOnce(s, Next(s, step))
  {
    hide Next, Enabled, Inv, NoneOnWay, NoneAtOnce;
    if step.Register? {
      NoneByRegister(s, step.u);
    } else if ByThread(step) {
      NoneByThread(s, step);
    } else if ByReader(step) {
      NoneByReader(s, step);
    } else if step.HostRead? {
      NoneByHostRead(s, step.c);
    } else if step.HostCheck? {
      NoneByHostCheck(s, step.c, step.k);
    } else if step.HostFinish? {
      NoneByHostFinish(s, step.c, step.k, step.ok, step.outputs);
    } else if step.HostSend? {
      NoneByHostSend(s, step.c);
    } else if step.Break? {
      NoneByBreak(s, step.c, step.keep);
    } else {
      NoneByAttempt(s, step);
    }
  }

  lemma NoneByThread(s: State, step: Step)
    requires Enabled(s, step) && ByThread(step) && !step.Claim? && !step.Register?
    ensures NoneOnWay(s, Next(s, step)) && NoneAtOnce(s, Next(s, step))
  {
    hide Next, Enabled, NoneOnWay, NoneAtOnce;
    if step.Start? || step.TakeLock? || step.Signal? || step.Leave? {
      NoneByMoves(s, step);
    } else if step.WriteFails? || step.Unclaim? {
      NoneByGivingUp(s, step);
    } else if step.Lose? {
      NoneByLosing(s, step.u);
    } else if step.Wake? {
      NoneByWaking(s, step.u);
    } else {
      NoneByWriting(s, step);
    }
  }

  lemma NoneByReader(s: State, step: Step)
    requires Inv(s) && Enabled(s, step) && ByReader(step)
    ensures NoneOnWay(s, Next(s, step)) && NoneAtOnce(s, Next(s, step))
  {
    hide Next, Enabled, Inv, NoneOnWay, NoneAtOnce;
    if step.Read? {
      NoneByRead(s, step.c);
    } else if step.SignalAnswer? {
      NoneBySignal(s, step.c);
    } else if step.ReadEnd? {
      NoneByEnding(s, step.c);
    } else if step.ReaderLose? {
      NoneByReaderLoss(s, step.c);
    } else {
      NoneBySignalling(s, step);
    }
  }
}

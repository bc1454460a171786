/** build, `RemoteHost._reader` and `execute`: a result that is on its way can come to its thread. */
module DistDeliver {
  import opened Options
  import opened Dist
  import opened DistWake
  import opened DistLedger
  import opened DistAnswers
  import opened DistStable
  import opened DistBehind
  import opened DistRuns

  /** The threads but `v` that have nothing under way still have not. */
  ghost predicate IdleStay(t: State, t2: State, v: Uid) {
    forall x :: x != v && Idle(t, x) ==> Idle(t2, x)
  }

  // ---------------------------------------------------------------- from the reader to the ledger

  /** A thread takes its answer: what the result names is then in the ledger. */
  lemma TakesIt(s: State, t: State, c: Conn, d: Digest, v: Uid, f: Up) returns (t2: State)
    requires Lacks(s, t, c, d) && Takes(t, v, f) && Names(f, d)
    requires PastClaim(t.threads[v]) || (!ToBeClaimed(t, c, d) && d !in v.blobs)
    ensures Lacks(s, t2, c, d) && d in t2.sent && IdleStay(t, t2, v)
  {
    hide Lacks, ToBeClaimed;
    t2 := t;
    if !GotIs(t, v, f) {
      var e :| PoppedFor(t, e, v, f);
      GoesOn(s, t, c, d, SignalAnswer(e));
      t2 := Next(t, SignalAnswer(e));
      SameClaims(t, t2, c, d);
    }
    assert GotIs(t2, v, f);
    var t1 := ComesToWait(s, t2, c, d, v);
    GoesOn(s, t1, c, d, Wake(v));
    WakesAlone(t1, v, f);
    t2 := Next(t1, Wake(v));
  }

  /** A result is entered in the ledger, and no other thread moves. */
  lemma WakesAlone(t: State, v: Uid, f: Up)
    requires Enabled(t, Wake(v)) && t.answers[t.threads[v].r] == Got(f) && f.Result?
    ensures Next(t, Wake(v)).sent == t.sent + f.outputs && IdleStay(t, Next(t, Wake(v)), v)
  {
  }

  lemma SameClaims(t: State, t2: State, c: Conn, d: Digest)
    requires t2.threads == t.threads
    ensures ToBeClaimed(t2, c, d) <==> ToBeClaimed(t, c, d)
  {
    if ToBeClaimed(t, c, d) {
      var w :| ClaimsFor(t, w, c) && d in w.blobs;
      assert ClaimsFor(t2, w, c);
    }
    if ToBeClaimed(t2, c, d) {
      var w :| ClaimsFor(t2, w, c) && d in w.blobs;
      assert ClaimsFor(t, w, c);
    }
  }

  /** The reader finds an answer for a thread that is pending. */
  lemma ReadsNext(s: State, t: State, c: Conn, d: Digest, e: Conn, v: Uid) returns (t2: State)
    requires Lacks(s, t, c, d) && LinkOf(t, e) && t.readers[e].Reading? && t.links[e].up != []
    requires For(t.links[e].up[0], v) && v in t.pending
    ensures Lacks(s, t2, c, d) && t2.threads == t.threads && Takes(t2, v, t.links[e].up[0])
  {
    hide Lacks;
    LacksOnLine(s, t, c, d);
    PendingNeedsAnswer(s, t, c, d, v);
    GoesOn(s, t, c, d, Read(e));
    t2 := Next(t, Read(e));
    assert PoppedFor(t2, e, v, t.links[e].up[0]);
  }

  lemma PendingNeedsAnswer(s: State, t: State, c: Conn, d: Digest, v: Uid)
    requires Lacks(s, t, c, d) && v in t.pending
    ensures v in t.threads && NeedsAnswer(t.threads[v]) && t.threads[v].r == t.pending[v]
  {
    hide Reaches, Shipped, DeadBehind, Current, Own, HeldApart, NotForgotten, Locked;
    assert IsPending(t, v);
    assert Works(t.threads[v], c);
  }

  // ---------------------------------------------------------------- up to a frame of a stream

  predicate NoneBefore(q: seq<Up>, i: nat, v: Uid)
    requires i <= |q|
  {
    forall j :: 0 <= j < i ==> !For(q[j], v)
  }

  /** A reader reads all that comes before a frame; a host sends what it has ready for that. Threads
      for which nothing comes before it stay pending. */
  lemma {:induction false} ReadsUpTo(s: State, t: State, c: Conn, d: Digest, e: Conn, i: nat) returns (t2: State)
    requires Lacks(s, t, c, d) && ReaderOf(t, e) && i < |Stream(t.links[e])|
    ensures Lacks(s, t2, c, d) && t2.threads == t.threads
    ensures LinkOf(t2, e) && t2.readers[e].Reading?
    ensures t2.links[e].up != [] && t2.links[e].up[0] == Stream(t.links[e])[i]
    ensures forall v :: v in t.pending && NoneBefore(Stream(t.links[e]), i, v) ==> v in t2.pending
    decreases |t.links[e].outbox|, i, if t.readers[e].Popped? then 1 else 0
  {
    hide Lacks, BlobFrames, NoneBefore, Next, Enabled, Stream;
    var q := Stream(t.links[e]);
    if t.readers[e].Popped? {
      SignalsOn(t, e);
      GoesOn(s, t, c, d, SignalAnswer(e));
      t2 := ReadsUpTo(s, Next(t, SignalAnswer(e)), c, d, e, i);
    } else if t.links[e].up == [] {
      LacksOnLine(s, t, c, d);
      var blobs := SendsOn(t, e);
      GoesOn(s, t, c, d, HostSend(e));
      forall v | NoneBefore(q, i, v) ensures NoneBefore(blobs + q, |blobs| + i, v) {
        NoneBeforeBlobs(blobs, q, i, v);
      }
      t2 := ReadsUpTo(s, Next(t, HostSend(e)), c, d, e, |blobs| + i);
    } else if i == 0 {
      HeadOfStream(t.links[e]);
      t2 := t;
    } else {
      HeadOfStream(t.links[e]);
      ReadPops(t, e);
      GoesOn(s, t, c, d, Read(e));
      forall v | NoneBefore(q, i, v) ensures NoneBefore(q[1..], i - 1, v) && !For(q[0], v) {
        NoneBeforeRest(q, i, v);
      }
      t2 := ReadsUpTo(s, Next(t, Read(e)), c, d, e, i - 1);
    }
  }

  lemma NoneBeforeBlobs(blobs: seq<Up>, q: seq<Up>, i: nat, v: Uid)
    requires (forall f :: f in blobs ==> f.BlobUp?) && i <= |q| && NoneBefore(q, i, v)
    ensures NoneBefore(blobs + q, |blobs| + i, v)
  {
    assert forall j :: 0 <= j < |blobs| ==> blobs[j] in blobs;
  }

  lemma NoneBeforeRest(q: seq<Up>, i: nat, v: Uid)
    requires 0 < i <= |q| && NoneBefore(q, i, v)
    ensures NoneBefore(q[1..], i - 1, v) && !For(q[0], v)
  {
  }

  lemma SignalsOn(t: State, e: Conn)
    requires LinkOf(t, e) && t.readers[e].Popped?
    ensures Enabled(t, SignalAnswer(e))
    ensures var t1 := Next(t, SignalAnswer(e));
            && t1.threads == t.threads && t1.links == t.links && t1.pending == t.pending
            && LinkOf(t1, e) && t1.readers[e].Reading?
  {
  }

  /** What is sent comes behind its blobs. */
  lemma SendsOn(t: State, e: Conn) returns (blobs: seq<Up>)
    requires ReaderOf(t, e) && t.links[e].up == [] && Stream(t.links[e]) != []
    ensures Enabled(t, HostSend(e)) && forall f :: f in blobs ==> f.BlobUp?
    ensures var t1 := Next(t, HostSend(e));
            && t1.threads == t.threads && t1.readers == t.readers && t1.pending == t.pending && LinkOf(t1, e)
            && Stream(t1.links[e]) == blobs + Stream(t.links[e])
            && |t1.links[e].outbox| < |t.links[e].outbox|
  {
    hide BlobFrames, Stream;
    var l := t.links[e];
    StreamIsReady(l);
    blobs := BlobFrames(if l.outbox[0].Result? then l.outbox[0].outputs else {});
    SentStream(l, l.(outbox := l.outbox[1..], up := l.up + blobs + [l.outbox[0]]), blobs);
  }

  lemma StreamIsReady(l: Link)
    requires l.up == [] && Stream(l) != []
    ensures l.alive && l.outbox != []
  {
  }

  lemma SentStream(l: Link, l2: Link, blobs: seq<Up>)
    requires l.alive && l.up == [] && l.outbox != []
    requires l2 == l.(outbox := l.outbox[1..], up := l.up + blobs + [l.outbox[0]])
    ensures Stream(l2) == blobs + Stream(l) && |l2.outbox| < |l.outbox|
  {
    assert l.outbox == [l.outbox[0]] + l.outbox[1..];
  }

  lemma ReadPops(t: State, e: Conn)
    requires LinkOf(t, e) && t.readers[e].Reading? && t.links[e].up != []
    ensures Enabled(t, Read(e))
    ensures forall v :: v in t.pending && !For(t.links[e].up[0], v) ==> v in Next(t, Read(e)).pending
    ensures Next(t, Read(e)).threads == t.threads && ReaderOf(Next(t, Read(e)), e)
    ensures Next(t, Read(e)).links[e] == t.links[e].(up := t.links[e].up[1..])
  {
  }

  // ---------------------------------------------------------------- a thread tries again

  /** The reader has these frames before it, and nobody is about to claim the blob. */
  ghost predicate Ready(t: State, c: Conn, d: Digest, e: Conn, q: seq<Up>) {
    !ToBeClaimed(t, c, d) && LinkOf(t, e) && t.readers[e].Reading? && t.links[e].up == q
  }

  lemma ReadyStays(t: State, t2: State, c: Conn, d: Digest, e: Conn, q: seq<Up>)
    requires Ready(t, c, d, e, q) && LinkOf(t2, e) && t2.readers[e] == t.readers[e] && t2.links[e].up == t.links[e].up
    requires forall w :: ClaimsFor(t2, w, c) ==> ClaimsFor(t, w, c)
    ensures Ready(t2, c, d, e, q)
  {
  }

  /** A thread leaves or enters, or somebody signals a loss. */
  lemma StepsAside(t: State, c: Conn, d: Digest, e: Conn, q: seq<Up>, step: Step)
    requires Ready(t, c, d, e, q) && Enabled(t, step)
    requires step.Start? || step.Unclaim? || step.Signal? || step.Leave? || step.Wake?
    ensures Ready(Next(t, step), c, d, e, q) && IdleStay(t, Next(t, step), step.u)
    ensures step.Signal? ==> forall v :: IdleStay(t, Next(t, step), v)
  {
    hide ToBeClaimed, Ready;
    ReadyMeans(t, c, d, e, q);
    ReadyStays(t, Next(t, step), c, d, e, q);
  }

  lemma ReadyMeans(t: State, c: Conn, d: Digest, e: Conn, q: seq<Up>)
    requires Ready(t, c, d, e, q)
    ensures LinkOf(t, e) && t.readers[e].Reading? && t.links[e].up == q && !ToBeClaimed(t, c, d)
  {
    hide ToBeClaimed;
  }

  lemma LosesAside(t: State, c: Conn, d: Digest, e: Conn, q: seq<Up>, v: Uid)
    requires Ready(t, c, d, e, q) && Enabled(t, Lose(v)) && t.process != Some(t.threads[v].c)
    ensures Ready(Next(t, Lose(v)), c, d, e, q) && IdleStay(t, Next(t, Lose(v)), v)
    ensures Next(t, Lose(v)) == Without(t, v)
  {
    hide ToBeClaimed, Ready;
    ReadyMeans(t, c, d, e, q);
    ReadyStays(t, Next(t, Lose(v)), c, d, e, q);
  }

  lemma EntersAside(t: State, c: Conn, d: Digest, e: Conn, q: seq<Up>, v: Uid)
    requires Ready(t, c, d, e, q) && Enabled(t, Register(v)) && t.process.Some?
    ensures Ready(Next(t, Register(v)), c, d, e, q) && IdleStay(t, Next(t, Register(v)), v)
    ensures v in Next(t, Register(v)).pending
  {
    hide ToBeClaimed, Ready;
    ReadyMeans(t, c, d, e, q);
    ReadyStays(t, Next(t, Register(v)), c, d, e, q);
  }

  /** Another reader signals. */
  lemma ReaderAside(t: State, c: Conn, d: Digest, e: Conn, q: seq<Up>, step: Step)
    requires Ready(t, c, d, e, q) && Enabled(t, step) && (step.SignalAnswer? || step.ReaderSignal?)
    ensures Ready(Next(t, step), c, d, e, q) && Next(t, step).threads == t.threads
  {
    hide ToBeClaimed, Ready;
    ReadyMeans(t, c, d, e, q);
    ReadyStays(t, Next(t, step), c, d, e, q);
  }

  /** A reply that is not pending is answered, or is by the one who holds it. */
  lemma IsAnswered(s: State, t: State, c: Conn, d: Digest, e: Conn, q: seq<Up>, v: Uid) returns (t2: State)
    requires Lacks(s, t, c, d) && Ready(t, c, d, e, q)
    requires v in t.threads && NeedsAnswer(t.threads[v]) && v !in t.pending
    ensures Lacks(s, t2, c, d) && Ready(t2, c, d, e, q) && IdleStay(t, t2, v)
    ensures v in t2.threads && t2.threads[v] == t.threads[v] && t2.threads[v].r in t2.answers
  {
    hide Lacks, Ready, Next, Enabled, Held;
    t2 := t;
    var r := t.threads[v].r;
    if r !in t.answers {
      HeldThen(s, t, c, d, v);
      if x :| r in ThreadLeft(t, x) {
        ThreadSignals(t, x, r, v);
        GoesOn(s, t, c, d, Signal(x, r));
        StepsAside(t, c, d, e, q, Signal(x, r));
        t2 := Next(t, Signal(x, r));
      } else {
        HeldByNoThread(t, r);
        var x :| r in ReaderLeft(t, x);
        var step := ReaderSignals(t, x, r);
        GoesOn(s, t, c, d, step);
        ReaderAside(t, c, d, e, q, step);
        t2 := Next(t, step);
      }
    }
  }

  lemma HeldByNoThread(t: State, r: Reply)
    requires Held(t, r) && forall x :: r !in ThreadLeft(t, x)
    ensures exists x :: r in ReaderLeft(t, x)
  {
    hide ThreadLeft, ReaderLeft;
  }

  lemma HeldThen(s: State, t: State, c: Conn, d: Digest, v: Uid)
    requires Lacks(s, t, c, d) && v in t.threads && NeedsAnswer(t.threads[v]) && v !in t.pending
    requires t.threads[v].r !in t.answers
    ensures Held(t, t.threads[v].r)
  {
    hide Reaches, Shipped, DeadBehind, Current, Own, Pending, HeldApart, Locked, Held, Line;
    assert Remembered(t, v);
  }

  lemma ThreadSignals(t: State, x: Uid, r: Reply, v: Uid)
    requires r in ThreadLeft(t, x) && v in t.threads && NeedsAnswer(t.threads[v])
    ensures Enabled(t, Signal(x, r)) && r in Next(t, Signal(x, r)).answers
    ensures v in Next(t, Signal(x, r)).threads && Next(t, Signal(x, r)).threads[v] == t.threads[v]
  {
  }

  lemma ReaderSignals(t: State, x: Conn, r: Reply) returns (step: Step)
    requires r in ReaderLeft(t, x)
    ensures (step == SignalAnswer(x) || step == ReaderSignal(x, r)) && Enabled(t, step) && r in Next(t, step).answers
  {
    step := if t.readers[x].Popped? then SignalAnswer(x) else ReaderSignal(x, r);
  }

  lemma {:induction false} SignalsAll(s: State, t: State, c: Conn, d: Digest, e: Conn, q: seq<Up>, v: Uid)
    returns (t2: State)
    requires Lacks(s, t, c, d) && Ready(t, c, d, e, q) && v in t.threads && t.threads[v].Signalling?
    ensures Lacks(s, t2, c, d) && Ready(t2, c, d, e, q) && IdleStay(t, t2, v) && v !in t2.threads
    decreases |t.threads[v].left|
  {
    hide Lacks, Ready;
    if t.threads[v].left == {} {
      GoesOn(s, t, c, d, Leave(v));
      StepsAside(t, c, d, e, q, Leave(v));
      t2 := Next(t, Leave(v));
    } else {
      var r :| r in t.threads[v].left;
      GoesOn(s, t, c, d, Signal(v, r));
      StepsAside(t, c, d, e, q, Signal(v, r));
      var t1 := Next(t, Signal(v, r));
      assert |t1.threads[v].left| < |t.threads[v].left|;
      t2 := SignalsAll(s, t1, c, d, e, q, v);
    }
  }

  /** A thread ends its attempt. */
  lemma Ends(s: State, t: State, c: Conn, d: Digest, e: Conn, q: seq<Up>, v: Uid) returns (t2: State)
    requires Lacks(s, t, c, d) && Ready(t, c, d, e, q) && d !in v.blobs
    requires v in t.threads && NeedsAnswer(t.threads[v]) && v !in t.pending
    ensures Lacks(s, t2, c, d) && Ready(t2, c, d, e, q) && IdleStay(t, t2, v) && Idle(t2, v)
  {
    hide Lacks, Ready, Moved, Enabled, Next;
    var t1 := IsAnswered(s, t, c, d, e, q, v);
    ReadyMeans(t1, c, d, e, q);
    t2 := ComesToWait(s, t1, c, d, v);
    MovedReady(t1, t2, c, d, e, q, v);
    WakesIdle(t2, v);
    GoesOn(s, t2, c, d, Wake(v));
    StepsAside(t2, c, d, e, q, Wake(v));
    t2 := Next(t2, Wake(v));
  }

  lemma WakesIdle(t: State, v: Uid)
    requires v in t.threads && t.threads[v].Waiting? && t.threads[v].r in t.answers
    ensures Enabled(t, Wake(v)) && Idle(Next(t, Wake(v)), v)
  {
  }

  lemma MovedReady(t: State, t2: State, c: Conn, d: Digest, e: Conn, q: seq<Up>, v: Uid)
    requires Moved(t, t2, c, v) && Ready(t, c, d, e, q) && d !in v.blobs
    ensures Ready(t2, c, d, e, q) && IdleStay(t, t2, v) && t2.answers == t.answers
  {
    hide ToBeClaimed;
    StillUnclaimed(t, t2, c, v, d);
  }

  /** Whatever a thread is at, it can come to have nothing under way. */
  lemma BecomesIdle(s: State, t: State, c: Conn, d: Digest, e: Conn, q: seq<Up>, v: Uid) returns (t2: State)
    requires Lacks(s, t, c, d) && Ready(t, c, d, e, q) && d !in v.blobs && v !in t.pending
    ensures Lacks(s, t2, c, d) && Ready(t2, c, d, e, q) && IdleStay(t, t2, v) && Idle(t2, v)
  {
    hide Lacks, Ready, Enabled, Next;
    t2 := t;
    if v in t.threads {
      if NeedsAnswer(t.threads[v]) {
        t2 := Ends(s, t, c, d, e, q, v);
      } else if t.threads[v].Signalling? {
        t2 := SignalsAll(s, t, c, d, e, q, v);
      } else if !t.threads[v].Begin? {
        t2 := GivesUpAndLoses(s, t, c, d, e, q, v);
      }
    }
  }

  /** A thread whose write failed finds its connection replaced. */
  lemma GivesUpAndLoses(s: State, t: State, c: Conn, d: Digest, e: Conn, q: seq<Up>, v: Uid) returns (t2: State)
    requires Lacks(s, t, c, d) && Ready(t, c, d, e, q) && v in t.threads && GivesUp(t.threads[v])
    ensures Lacks(s, t2, c, d) && Ready(t2, c, d, e, q) && IdleStay(t, t2, v) && v !in t2.threads
  {
    hide Lacks, Ready;
    NotOnLine(s, t, c, d, v);
    LacksOnLine(s, t, c, d);
    t2 := t;
    if t.threads[v].WriteFailed? {
      GoesOn(s, t, c, d, Unclaim(v));
      StepsAside(t, c, d, e, q, Unclaim(v));
      t2 := Next(t, Unclaim(v));
    }
    GoesOn(s, t2, c, d, Lose(v));
    LosesAside(t2, c, d, e, q, v);
    t2 := Next(t2, Lose(v));
  }

  lemma NotOnLine(s: State, t: State, c: Conn, d: Digest, v: Uid)
    requires Lacks(s, t, c, d) && v in t.threads && GivesUp(t.threads[v])
    ensures t.threads[v].c != c && t.process == Some(c)
  {
    hide Reaches, Shipped, DeadBehind, Inv;
    assert Works(t.threads[v], c);
  }

  /** It starts again, and is pending. */
  lemma BecomesPending(s: State, t: State, c: Conn, d: Digest, e: Conn, q: seq<Up>, v: Uid) returns (t2: State)
    requires Lacks(s, t, c, d) && Ready(t, c, d, e, q) && d !in v.blobs && v !in t.pending
    ensures Lacks(s, t2, c, d) && Ready(t2, c, d, e, q) && IdleStay(t, t2, v) && v in t2.pending
  {
    hide Lacks, Ready, Next;
    t2 := BecomesIdle(s, t, c, d, e, q, v);
    if v !in t2.threads {
      StartsIdle(t2, v);
      GoesOn(s, t2, c, d, Start(v));
      StepsAside(t2, c, d, e, q, Start(v));
      t2 := Next(t2, Start(v));
    }
    LacksOnLine(s, t2, c, d);
    GoesOn(s, t2, c, d, Register(v));
    EntersAside(t2, c, d, e, q, v);
    t2 := Next(t2, Register(v));
  }

  lemma StartsIdle(t: State, v: Uid)
    requires v !in t.threads
    ensures v in Next(t, Start(v)).threads && Next(t, Start(v)).threads[v].Begin?
  {
  }

  // ---------------------------------------------------------------- any result on its way

  /** A result in a stream comes to a thread of its job that claims something else before. */
  lemma ComesToThread(s: State, t: State, c: Conn, d: Digest, e: Conn, v: Uid, f: Up) returns (t2: State)
    requires Lacks(s, t, c, d) && Comes(t, e, f) && For(f, v) && Names(f, d) && !ToBeClaimed(t, c, d) && d !in v.blobs
    ensures Lacks(s, t2, c, d) && d in t2.sent && IdleStay(t, t2, v)
  {
    hide Lacks, ToBeClaimed, Stream;
    var i :| 0 <= i < |Stream(t.links[e])| && Stream(t.links[e])[i] == f;
    var t0 := ReadsUpTo(s, t, c, d, e, i);
    SameClaims(t, t0, c, d);
    var t1 := t0;
    if v !in t0.pending {
      t1 := BecomesPending(s, t0, c, d, e, t0.links[e].up, v);
    }
    t2 := ReadsNext(s, t1, c, d, e, v);
    SameClaims(t1, t2, c, d);
    t2 := TakesIt(s, t2, c, d, v, f);
    forall x | x != v && Idle(t, x) ensures Idle(t2, x) {
      assert Idle(t0, x) && Idle(t1, x);
    }
  }

  lemma {:induction false} FirstAt(q: seq<Up>, v: Uid) returns (i: nat)
    requires First(q, v).Some?
    ensures i < |q| && Some(q[i]) == First(q, v) && For(q[i], v) && NoneBefore(q, i, v)
  {
    if For(q[0], v) {
      i := 0;
    } else {
      i := FirstAt(q[1..], v);
      i := i + 1;
    }
  }

  /** The next answer for a thread that has claimed comes to it. */
  lemma ComesNext(s: State, t: State, c: Conn, d: Digest, e: Conn, v: Uid, f: Up) returns (t2: State)
    requires Lacks(s, t, c, d) && NextFor(t, e, v, f) && Names(f, d) && v in t.pending
    requires v in t.threads && PastClaim(t.threads[v])
    ensures Lacks(s, t2, c, d) && d in t2.sent && IdleStay(t, t2, v)
  {
    hide Lacks, ToBeClaimed, Stream, NoneBefore;
    var i := FirstAt(Stream(t.links[e]), v);
    var t1 := ReadsUpTo(s, t, c, d, e, i);
    t2 := ReadsNext(s, t1, c, d, e, v);
    t2 := TakesIt(s, t2, c, d, v, f);
  }

  /** So every result that is not safe can make the ledger wrong. */
  lemma ResultSpoils(s: State, t: State, c: Conn, d: Digest, v: Uid, f: Up) returns (t2: State)
    requires Lacks(s, t, c, d) && Names(f, d)
    requires AtOnce(t, v, f) || (OnWay(t, v, f) && !ToBeClaimed(t, c, d) && d !in v.blobs)
    ensures Lacks(s, t2, c, d) && d in t2.sent && IdleStay(t, t2, v)
  {
    hide Lacks, Takes, Comes, NextFor, ToBeClaimed;
    if Takes(t, v, f) {
      TakersNeedAnswers(t, v, f);
      t2 := TakesIt(s, t, c, d, v, f);
    } else if AtOnce(t, v, f) {
      var e :| NextFor(t, e, v, f);
      t2 := ComesNext(s, t, c, d, e, v, f);
    } else {
      var e :| Comes(t, e, f);
      t2 := ComesToThread(s, t, c, d, e, v, f);
    }
  }

  lemma TakersNeedAnswers(t: State, v: Uid, f: Up)
    requires Takes(t, v, f)
    ensures v in t.threads && NeedsAnswer(t.threads[v])
  {
  }
}

/** build, `RemoteHost`: runs on a connection that holds, along which the host never gets some blob. */
module DistRuns {
  import opened Options
  import opened Dist
  import opened DistWake
  import opened DistLedger
  import opened DistAnswers
  import opened DistStable
  import opened DistBehind

  /** The connection is up, in a state as runs reach it. */
  ghost predicate OnLine(s: State, c: Conn) {
    Inv(s) && DeadBehind(s) && AllNumbered(s) && Line(s, c)
  }

  /** In every reachable state whose current connection is up. */
  lemma UpIsOnLine(states: seq<State>, steps: seq<Step>, k: nat, c: Conn)
    requires IsRun(states, steps) && states[0] == Initial() && k <= |steps|
    requires states[k].process == Some(c) && c in states[k].links && states[k].links[c].alive
    ensures OnLine(states[k], c)
  {
    hide Inv, DeadBehind, AllNumbered, Frames, Enabled, Next, Line;
    RunKeepsFrames(states, steps, k);
    UpIsLine(states[k], c);
  }

  lemma UpIsLine(s: State, c: Conn)
    requires Inv(s) && DeadBehind(s) && s.process == Some(c) && c in s.links && s.links[c].alive
    ensures Line(s, c)
  {
    hide Own, Pending, HeldApart, NotForgotten, Locked;
    assert forall u :: u in s.threads && GivesUp(s.threads[u]) ==> IsDown(s, s.threads[u].c);
  }

  /** A run leads from one state to the other in which the connection holds and the host keeps
      its cache. */
  ghost predicate Reaches(s: State, t: State, c: Conn) {
    exists states, steps :: HoldingRun(states, steps, c) && states[0] == s && states[|steps|] == t
  }

  lemma ReachesItself(s: State, c: Conn)
    ensures Reaches(s, s, c)
  {
    assert HoldingRun([s], [], c);
  }

  lemma ReachesOn(s: State, t: State, c: Conn, step: Step)
    requires Reaches(s, t, c) && Enabled(t, step) && Holds(step, c)
    ensures Reaches(s, Next(t, step), c)
  {
    hide Enabled, Next, Holds;
    var states, steps :| HoldingRun(states, steps, c) && states[0] == s && states[|steps|] == t;
    assert HoldingRun(states + [Next(t, step)], steps + [step], c);
  }

  lemma RunThere(s: State, t: State, c: Conn) returns (states: seq<State>, steps: seq<Step>)
    requires Reaches(s, t, c)
    ensures HoldingRun(states, steps, c) && |states| == |steps| + 1 && states[0] == s && states[|steps|] == t
  {
    hide Enabled, Next, Holds;
    states, steps :| HoldingRun(states, steps, c) && states[0] == s && states[|steps|] == t;
  }

  // ---------------------------------------------------------------- a blob that is not shipped

  /** The host lacks the blob, and nobody is about to write it. */
  ghost predicate Unshipped(t: State, c: Conn, d: Digest) {
    Inv(t) && DeadBehind(t) && Line(t, c) && !Shipped(t, c, d)
  }

  /** The step writes the blob neither to the host nor to the list of what is written next. */
  ghost predicate Spares(t: State, c: Conn, d: Digest, step: Step) {
    || step.TakeLock? || step.Register? || step.WriteBlob? || step.WriteJob? || Passes(step)
    || (step.Claim? && (ClaimsFor(t, step.u, c) ==> d !in step.u.blobs || d in t.sent))
    || (step.HostRead? && step.c == c)
  }

  /** Steps that write nothing to a host. */
  predicate Passes(step: Step) {
    || step.Start? || step.Unclaim? || step.Lose? || step.Signal? || step.Leave? || step.Wake?
    || step.Read? || step.SignalAnswer? || step.ReaderSignal? || step.HostSend?
  }

  lemma SparedByThread(t: State, c: Conn, d: Digest, step: Step)
    requires Unshipped(t, c, d) && Enabled(t, step)
    requires step.TakeLock? || step.Register? || (step.Claim? && Spares(t, c, d, step))
    requires c in Next(t, step).links
    ensures !Shipped(Next(t, step), c, d) && Next(t, step).next >= t.next
  {
    hide Inv, DeadBehind, Works;
    var t2 := Next(t, step);
    assert t2.links == t.links && t2.cache == t.cache;
    forall w | WritesTo(t2, w, c) ensures d !in t2.threads[w].rest {
      if WritesTo(t, w, c) && t2.threads[w] == t.threads[w] {
        assert !BeingWritten(t, c, d);
      }
    }
  }

  lemma SparedByWrite(t: State, c: Conn, d: Digest, step: Step)
    requires Unshipped(t, c, d) && Enabled(t, step) && (step.WriteBlob? || step.WriteJob?)
    requires c in Next(t, step).links
    ensures !Shipped(Next(t, step), c, d) && Next(t, step).next >= t.next
  {
    hide Inv, DeadBehind, Works;
    var t2 := Next(t, step);
    assert !BeingWritten(t, c, d);
    assert t.threads[step.u].c == c ==> WritesTo(t, step.u, c);
    forall w | WritesTo(t2, w, c) ensures d !in t2.threads[w].rest {
      assert WritesTo(t, w, c);
    }
  }

  lemma SparedByHost(t: State, c: Conn, d: Digest)
    requires Unshipped(t, c, d) && Enabled(t, HostRead(c)) && c in Next(t, HostRead(c)).links
    ensures !Shipped(Next(t, HostRead(c)), c, d) && Next(t, HostRead(c)).next >= t.next
  {
    hide Inv, DeadBehind, Works;
    var t2 := Next(t, HostRead(c));
    assert !BeingWritten(t, c, d);
    assert t.links[c].down[0] in t.links[c].down;
    forall w | WritesTo(t2, w, c) ensures d !in t2.threads[w].rest {
      assert WritesTo(t, w, c);
    }
  }

  lemma SparedByPassing(t: State, c: Conn, d: Digest, step: Step)
    requires Unshipped(t, c, d) && Enabled(t, step) && Passes(step) && c in Next(t, step).links
    ensures !Shipped(Next(t, step), c, d) && Next(t, step).next >= t.next
  {
    hide Inv, DeadBehind, Works, Next, Enabled;
    var t2 := Next(t, step);
    PassingWritesNothing(t, step, c);
    assert !BeingWritten(t, c, d);
    forall w | WritesTo(t2, w, c) ensures d !in t2.threads[w].rest {
      assert WritesTo(t, w, c);
    }
  }

  /** No stream to a host, no cache, and nobody who writes. */
  ghost predicate WritersStay(t: State, t2: State, c: Conn)
    requires c in t.links
  {
    && c in t2.links && t2.links[c].down == t.links[c].down && t2.cache == t.cache && t2.next >= t.next
    && (forall w :: WritesTo(t2, w, c) ==> WritesTo(t, w, c) && t2.threads[w] == t.threads[w])
  }

  lemma PassingWritesNothing(t: State, step: Step, c: Conn)
    requires Line(t, c) && Enabled(t, step) && Passes(step)
    ensures WritersStay(t, Next(t, step), c)
  {
    hide Enabled, Next, WritersStay, Works;
    if step.Start? || step.Unclaim? || step.Signal? || step.Leave? {
      ThreadWritesNothing(t, step, c);
    } else if step.Lose? || step.Wake? {
      EndWritesNothing(t, step, c);
    } else {
      ReaderWritesNothing(t, step, c);
    }
  }

  lemma ThreadWritesNothing(t: State, step: Step, c: Conn)
    requires c in t.links && Enabled(t, step) && (step.Start? || step.Unclaim? || step.Signal? || step.Leave?)
    ensures WritersStay(t, Next(t, step), c)
  {
  }

  lemma EndWritesNothing(t: State, step: Step, c: Conn)
    requires c in t.links && Enabled(t, step) && (step.Lose? || step.Wake?)
    ensures WritersStay(t, Next(t, step), c)
  {
    hide LostReplies;
  }

  lemma ReaderWritesNothing(t: State, step: Step, c: Conn)
    requires c in t.links && Enabled(t, step)
    requires step.Read? || step.SignalAnswer? || step.ReaderSignal? || step.HostSend?
    ensures WritersStay(t, Next(t, step), c)
  {
    hide BlobFrames;
  }

  lemma StaysUnshipped(t: State, c: Conn, d: Digest, step: Step)
    requires Unshipped(t, c, d) && Enabled(t, step) && Spares(t, c, d, step)
    ensures Unshipped(Next(t, step), c, d) && Holds(step, c) && Next(t, step).next >= t.next
  {
    hide Inv, DeadBehind, Line, Enabled, Next, Shipped;
    StepInv(t, step);
    DeadStep(t, step);
    LineStep(t, step, c);
    LineLink(Next(t, step), c);
    if step.HostRead? {
      SparedByHost(t, c, d);
    } else if step.WriteBlob? || step.WriteJob? {
      SparedByWrite(t, c, d, step);
    } else if Passes(step) {
      SparedByPassing(t, c, d, step);
    } else {
      SparedByThread(t, c, d, step);
    }
  }

  lemma LineLink(s: State, c: Conn)
    requires Line(s, c)
    ensures c in s.links
  {
    hide Works;
  }

  // ---------------------------------------------------------------- such a run goes on

  /** A run has led here, and the blob is not shipped. */
  ghost predicate Lacks(s: State, t: State, c: Conn, d: Digest) {
    Reaches(s, t, c) && Unshipped(t, c, d) && t.next >= s.next
  }

  lemma GoesOn(s: State, t: State, c: Conn, d: Digest, step: Step)
    requires Lacks(s, t, c, d) && Enabled(t, step) && Spares(t, c, d, step)
    ensures Lacks(s, Next(t, step), c, d)
  {
    hide Reaches, Unshipped, Enabled, Next, Spares, Holds;
    StaysUnshipped(t, c, d, step);
    ReachesOn(s, t, c, step);
  }

  lemma IsOnLine(t: State, c: Conn, d: Digest)
    requires Unshipped(t, c, d)
    ensures t.process == Some(c) && c in t.links && t.links[c].alive && d !in t.cache
    ensures Locked(t) && forall w :: ClaimsFor(t, w, c) ==> t.writeLock == Some(w)
    ensures forall w :: w in t.threads && HasConn(t.threads[w]) && t.threads[w].c != c ==> IsDown(t, t.threads[w].c)
  {
    hide Current, Pending, HeldApart, NotForgotten;
    forall w | ClaimsFor(t, w, c) ensures t.writeLock == Some(w) {
      assert HasLock(t, w);
    }
  }

  lemma LacksOnLine(s: State, t: State, c: Conn, d: Digest)
    requires Lacks(s, t, c, d)
    ensures t.process == Some(c) && c in t.links && t.links[c].alive && d !in t.cache
    ensures Locked(t) && forall w :: ClaimsFor(t, w, c) ==> t.writeLock == Some(w)
    ensures forall w :: w in t.threads && HasConn(t.threads[w]) && t.threads[w].c != c ==> IsDown(t, t.threads[w].c)
    ensures Reaches(s, t, c) && t.next >= s.next && !Shipped(t, c, d)
  {
    hide Reaches, Inv, DeadBehind, Line, Shipped, Locked;
    IsOnLine(t, c, d);
  }

  // ---------------------------------------------------------------- only threads move

  /** A thread that has nothing under way. */
  predicate Idle(t: State, x: Uid) {
    x in t.threads ==> t.threads[x].Begin?
  }

  /** Answers, readers and the streams from the hosts stay; of the threads but `v`, the idle ones
      do, and no other comes to hold the lock. */
  ghost predicate Moved(t: State, t2: State, c: Conn, v: Uid) {
    && t2.readers == t.readers && t2.answers == t.answers && t2.pending == t.pending
    && t2.links.Keys == t.links.Keys
    && (forall e :: e in t.links ==> SameUp(t.links[e], t2.links[e]))
    && (forall x :: x != v && Idle(t, x) ==> Idle(t2, x))
    && (forall w :: w != v && ClaimsFor(t2, w, c) ==> ClaimsFor(t, w, c))
  }

  predicate SameUp(l: Link, l2: Link) {
    l2.up == l.up && l2.outbox == l.outbox && l2.alive == l.alive
  }

  lemma MovedTwice(t: State, t1: State, t2: State, c: Conn, v: Uid)
    requires Moved(t, t1, c, v) && Moved(t1, t2, c, v)
    ensures Moved(t, t2, c, v)
  {
    hide Idle, ClaimsFor;
  }

  lemma StillUnclaimed(t: State, t2: State, c: Conn, v: Uid, d: Digest)
    requires Moved(t, t2, c, v) && !ToBeClaimed(t, c, d) && d !in v.blobs
    ensures !ToBeClaimed(t2, c, d)
  {
  }

  lemma MovesOnly(t: State, c: Conn, step: Step)
    requires Enabled(t, step)
    requires step.TakeLock? || step.Claim? || step.WriteBlob? || step.WriteJob?
    ensures Moved(t, Next(t, step), c, step.u)
    ensures step.Claim? || step.WriteBlob? || step.WriteJob? ==> forall x :: Moved(t, Next(t, step), c, x)
  {
    hide ClaimsFor;
    forall w | !step.TakeLock? && ClaimsFor(Next(t, step), w, c) ensures ClaimsFor(t, w, c) {
      NoNewHolder(t, step, w, c);
    }
    forall w | w != step.u && ClaimsFor(Next(t, step), w, c) ensures ClaimsFor(t, w, c) {
      NoNewHolder(t, step, w, c);
    }
  }

  lemma NoNewHolder(t: State, step: Step, w: Uid, c: Conn)
    requires Enabled(t, step) && (step.TakeLock? || step.Claim? || step.WriteBlob? || step.WriteJob?)
    requires ClaimsFor(Next(t, step), w, c) && (w != step.u || !step.TakeLock?)
    ensures ClaimsFor(t, w, c)
  {
  }

  /** A thread writes its blobs and its job, to a host or into a buffer, and gives up the lock. */
  lemma {:induction false} WritesOut(s: State, t: State, c: Conn, d: Digest, w: Uid) returns (t2: State)
    requires Lacks(s, t, c, d) && w in t.threads && t.threads[w].Writing?
    ensures Lacks(s, t2, c, d) && t2.writeLock == None && t2.sent == t.sent
    ensures t2.threads == t.threads[w := Waiting(t.threads[w].c, t.threads[w].r)]
    ensures forall x :: Moved(t, t2, c, x)
    ensures t.threads[w].c == c ==> c in t2.links && JobDown(Job(w, t.threads[w].r)) in t2.links[c].down
    decreases |t.threads[w].rest|
  {
    hide Lacks, Moved;
    LacksOnLine(s, t, c, d);
    if t.threads[w].rest == {} {
      GoesOn(s, t, c, d, WriteJob(w));
      MovesOnly(t, c, WriteJob(w));
      t2 := Next(t, WriteJob(w));
    } else {
      var b :| b in t.threads[w].rest;
      GoesOn(s, t, c, d, WriteBlob(w, b));
      MovesOnly(t, c, WriteBlob(w, b));
      var t1 := Next(t, WriteBlob(w, b));
      assert |t1.threads[w].rest| < |t.threads[w].rest|;
      t2 := WritesOut(s, t1, c, d, w);
      forall x ensures Moved(t, t2, c, x) {
        MovedTwice(t, t1, t2, c, x);
      }
      assert t2.threads == t.threads[w := Waiting(t.threads[w].c, t.threads[w].r)];
    }
  }

  lemma MovedNot(t: State, c: Conn, v: Uid)
    ensures Moved(t, t, c, v)
  {
  }

  /** Whoever has the lock claims, if it still has to, writes, and gives the lock up. */
  lemma LockGetsFree(s: State, t: State, c: Conn, d: Digest) returns (t2: State)
    requires Lacks(s, t, c, d) && (!ToBeClaimed(t, c, d) || d in t.sent)
    ensures Lacks(s, t2, c, d) && t2.writeLock == None && t.sent <= t2.sent
    ensures forall x :: Moved(t, t2, c, x)
    ensures forall x :: x in t.threads && !HasLock(t, x) ==> x in t2.threads && t2.threads[x] == t.threads[x]
  {
    hide Lacks, Moved;
    LacksOnLine(s, t, c, d);
    t2 := t;
    forall x ensures Moved(t, t, c, x) {
      MovedNot(t, c, x);
    }
    if t.writeLock.Some? {
      var w := t.writeLock.value;
      if t.threads[w].Holding? {
        assert ClaimsFor(t, w, c) ==> d !in w.blobs || d in t.sent;
        GoesOn(s, t, c, d, Claim(w));
        MovesOnly(t, c, Claim(w));
        t2 := Next(t, Claim(w));
      }
      var t1 := t2;
      t2 := WritesOut(s, t1, c, d, w);
      forall x ensures Moved(t, t2, c, x) {
        MovedTwice(t, t1, t2, c, x);
      }
    }
  }

  /** A thread comes to wait for its answer; the blob is none that it claims on the way. */
  lemma ComesToWait(s: State, t: State, c: Conn, d: Digest, v: Uid) returns (t2: State)
    requires Lacks(s, t, c, d) && v in t.threads && NeedsAnswer(t.threads[v])
    requires PastClaim(t.threads[v]) || (!ToBeClaimed(t, c, d) && d !in v.blobs)
    ensures Lacks(s, t2, c, d) && Moved(t, t2, c, v)
    ensures v in t2.threads && t2.threads[v] == Waiting(t.threads[v].c, t.threads[v].r)
  {
    hide Lacks, Moved;
    LacksOnLine(s, t, c, d);
    t2 := t;
    MovedNot(t, c, v);
    if t2.threads[v].Registered? {
      t2 := LockGetsFree(s, t2, c, d);
      GoesOn(s, t2, c, d, TakeLock(v));
      MovesOnly(t2, c, TakeLock(v));
      MovedTwice(t, t2, Next(t2, TakeLock(v)), c, v);
      t2 := Next(t2, TakeLock(v));
    }
    if t2.threads[v].Holding? {
      GoesOn(s, t2, c, d, Claim(v));
      MovesOnly(t2, c, Claim(v));
      MovedTwice(t, t2, Next(t2, Claim(v)), c, v);
      t2 := Next(t2, Claim(v));
    }
    if t2.threads[v].Writing? {
      var t1 := t2;
      t2 := WritesOut(s, t1, c, d, v);
      MovedTwice(t, t1, t2, c, v);
    }
  }
}

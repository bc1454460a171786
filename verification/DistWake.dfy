/** build, `RemoteHost`: no waiting thread is forgotten. */
module DistWake {
  import opened Dist
  import opened Options

  /** No host, no pending reply; a host has a reader that has yet to find the connection lost. */
  ghost predicate Current(s: State) {
    && (s.process == None ==> s.pending == map[])
    && (s.process.Some? ==> s.process.value in s.readers && Watching(s.readers[s.process.value]))
    && s.readers.Keys == s.links.Keys
  }

  predicate Watching(r: Reader) {
    r.Reading? || r.Popped? || r.ReaderLosing?
  }

  /** Every thread's connection is known and its reply its own. */
  ghost predicate Own(s: State) {
    && (forall u :: u in s.threads && HasConn(s.threads[u]) ==> s.threads[u].c in s.links && s.threads[u].r < s.next)
    && (forall u, v :: u in s.threads && v in s.threads && u != v && HasConn(s.threads[u]) && HasConn(s.threads[v])
          ==> s.threads[u].r != s.threads[v].r)
    && (forall r :: r in s.answers ==> r < s.next)
  }

  /** A pending reply is the unsignalled one of a thread on the current connection. */
  ghost predicate Pending(s: State) {
    forall u :: u in s.pending ==> IsPending(s, u)
  }

  ghost predicate IsPending(s: State, u: Uid)
    requires u in s.pending
  {
    && u in s.threads && HasConn(s.threads[u]) && s.process == Some(s.threads[u].c)
    && s.threads[u].r == s.pending[u] && s.pending[u] !in s.answers
  }

  /** The replies taken from the pending ones that a thread or a reader is about to signal. */
  function ThreadLeft(s: State, u: Uid): set<Reply> {
    if u in s.threads && s.threads[u].Signalling? then s.threads[u].left else {}
  }

  function ReaderLeft(s: State, c: Conn): set<Reply> {
    if c !in s.readers then {}
    else if s.readers[c].Popped? then {s.readers[c].r}
    else if s.readers[c].ReaderSignalling? then s.readers[c].left
    else {}
  }

  ghost predicate Held(s: State, r: Reply) {
    (exists u :: r in ThreadLeft(s, u)) || (exists c :: r in ReaderLeft(s, c))
  }

  /** A step of thread `u` changes what is held by what it holds. */
  lemma HeldByThread(s: State, s2: State, u: Uid)
    requires s2.readers == s.readers && forall v :: v != u ==> ThreadLeft(s2, v) == ThreadLeft(s, v)
    ensures forall r :: Held(s2, r) ==> Held(s, r) || r in ThreadLeft(s2, u)
    ensures forall r :: Held(s, r) ==> Held(s2, r) || r in ThreadLeft(s, u)
    ensures forall r :: r in ThreadLeft(s2, u) ==> Held(s2, r)
    ensures forall r :: r in ThreadLeft(s, u) ==> Held(s, r)
  {
    hide ThreadLeft;
    assert forall c :: ReaderLeft(s2, c) == ReaderLeft(s, c);
  }

  lemma HeldByReader(s: State, s2: State, c: Conn)
    requires s2.threads == s.threads && forall d :: d != c ==> ReaderLeft(s2, d) == ReaderLeft(s, d)
    ensures forall r :: Held(s2, r) ==> Held(s, r) || r in ReaderLeft(s2, c)
    ensures forall r :: Held(s, r) ==> Held(s2, r) || r in ReaderLeft(s, c)
    ensures forall r :: r in ReaderLeft(s2, c) ==> Held(s2, r)
    ensures forall r :: r in ReaderLeft(s, c) ==> Held(s, r)
  {
    hide ReaderLeft;
    assert forall u :: ThreadLeft(s2, u) == ThreadLeft(s, u);
  }

  /** What is about to be signalled is no longer pending. */
  ghost predicate HeldApart(s: State) {
    forall r: Reply :: Held(s, r) ==> r < s.next && forall u :: u in s.pending ==> s.pending[u] != r
  }

  predicate NeedsAnswer(pc: Pc) {
    pc.Registered? || pc.Holding? || pc.Writing? || pc.Waiting?
  }

  /** Every unsignalled reply is pending for the current connection or in the hands of a thread
      about to signal it. */
  ghost predicate NotForgotten(s: State) {
    forall u :: u in s.threads && NeedsAnswer(s.threads[u]) ==> Remembered(s, u)
  }

  ghost predicate Remembered(s: State, u: Uid)
    requires u in s.threads && HasConn(s.threads[u])
  {
    || s.threads[u].r in s.answers
    || (u in s.pending && s.pending[u] == s.threads[u].r)
    || Held(s, s.threads[u].r)
  }

  /** The write lock is with the thread that is writing. */
  ghost predicate Locked(s: State) {
    && (forall u :: HasLock(s, u) ==> s.writeLock == Some(u))
    && (s.writeLock.Some? ==> HasLock(s, s.writeLock.value))
  }

  predicate HasLock(s: State, u: Uid) {
    u in s.threads && (s.threads[u].Holding? || s.threads[u].Writing?)
  }

  ghost predicate Inv(s: State) {
    Current(s) && Own(s) && Pending(s) && HeldApart(s) && NotForgotten(s) && Locked(s)
  }

  lemma InitialInv()
    ensures Inv(Initial())
  {
  }

  // ---------------------------------------------------------------- steps of the threads

  /** A step that changes nothing but where one thread stands, what it has written and the
      ledger, and keeps the connection and the reply of the thread. */
  ghost predicate Moves(s: State, s2: State, u: Uid) {
    && u in s.threads && u in s2.threads && HasConn(s.threads[u]) && HasConn(s2.threads[u])
    && s2.threads == s.threads[u := s2.threads[u]]
    && s2.threads[u].c == s.threads[u].c && s2.threads[u].r == s.threads[u].r
    && (NeedsAnswer(s2.threads[u]) ==> NeedsAnswer(s.threads[u]))
    && s2.process == s.process && s2.pending == s.pending && s2.answers == s.answers && s2.next == s.next
    && s2.readers == s.readers && s2.links.Keys == s.links.Keys
  }

  lemma MovesInv(s: State, s2: State, u: Uid)
    requires Inv(s) && Moves(s, s2, u)
    ensures Current(s2) && Own(s2) && Pending(s2) && HeldApart(s2) && NotForgotten(s2)
  {
    hide Held, Locked;
    HeldByThread(s, s2, u);
    MovesOwn(s, s2, u);
  }

  lemma MovesOwn(s: State, s2: State, u: Uid)
    requires Own(s) && Moves(s, s2, u)
    ensures Own(s2)
  {
  }

  lemma ThreadStepInv(s: State, u: Uid, step: Step)
    requires Inv(s) && Enabled(s, step)
    requires step == TakeLock(u) || step == Claim(u) || step == WriteJob(u) || step == WriteFails(u)
          || step == Unclaim(u) || (step.WriteBlob? && step.u == u)
    ensures Inv(Next(s, step))
  {
    hide Current, Own, Pending, HeldApart, NotForgotten, Pushed;
    MovesInv(s, Next(s, step), u);
    assert HasLock(s, u) || step == TakeLock(u) || step == Unclaim(u);
  }

  /** Thread `u`, which nothing pending belongs to, ends or goes back to the start. */
  ghost predicate Goes(s: State, s2: State, u: Uid) {
    && u !in s.pending && !HasLock(s, u) && !HasLock(s2, u)
    && (u in s2.threads ==> s2.threads[u] == Begin) && ThreadLeft(s, u) == {}
    && (forall v :: v != u ==> (v in s2.threads <==> v in s.threads))
    && (forall v :: v != u && v in s.threads ==> s2.threads[v] == s.threads[v])
    && s2.process == s.process && s2.pending == s.pending && s2.answers == s.answers && s2.next == s.next
    && s2.readers == s.readers && s2.links == s.links && s2.writeLock == s.writeLock
  }

  lemma GoesInv(s: State, s2: State, u: Uid)
    requires Inv(s) && Goes(s, s2, u)
    ensures Inv(s2)
  {
    hide Held;
    assert forall v :: ThreadLeft(s2, v) == ThreadLeft(s, v);
    HeldByThread(s, s2, u);
  }

  lemma StartInv(s: State, u: Uid)
    requires Inv(s) && Enabled(s, Start(u))
    ensures Inv(Next(s, Start(u)))
  {
    hide Held, HeldApart, NotForgotten, Own, Current;
    GoesInv(s, Next(s, Start(u)), u);
  }

  lemma RegisterInv(s: State, u: Uid)
    requires Inv(s) && Enabled(s, Register(u))
    ensures Inv(Next(s, Register(u)))
  {
    hide Held, HeldApart, NotForgotten, Own, Current, Inv;
    var s2 := Next(s, Register(u));
    NotPending(s, u);
    if s.process == None {
      GoesInv(s, s2, u);
    } else {
      EntersInv(s, s2, u);
    }
  }

  /** A thread whose reply is not pending, or that has none, is not among the pending ones. */
  lemma NotPending(s: State, u: Uid)
    requires Inv(s)
    ensures u in s.pending ==> u in s.threads && HasConn(s.threads[u]) && s.process == Some(s.threads[u].c)
    ensures u in s.pending ==> s.threads[u].r !in s.answers
    ensures HasLock(s, u) ==> s.writeLock == Some(u)
  {
    hide Held, HeldApart, NotForgotten, Own, Current;
    assert u in s.pending ==> IsPending(s, u);
  }

  lemma EntersInv(s: State, s2: State, u: Uid)
    requires Inv(s) && u in s.threads && s.threads[u].Begin? && s.process.Some?
    requires s2 == With(s, u, Registered(s.process.value, s.next)).(pending := s.pending[u := s.next],
                                                                    next := s.next + 1)
    ensures Inv(s2)
  {
    hide Held, Own, HeldApart, Locked;
    HeldByThread(s, s2, u);
    EntersHeld(s, s2, u);
    EntersOwn(s, s2, u);
    assert Locked(s2) by {
      EntersLocked(s, s2, u);
    }
  }

  lemma EntersOwn(s: State, s2: State, u: Uid)
    requires Own(s) && u in s.threads && s.process.Some? && s.process.value in s.links
    requires s2 == With(s, u, Registered(s.process.value, s.next)).(pending := s.pending[u := s.next],
                                                                    next := s.next + 1)
    ensures Own(s2) && s.next !in s2.answers
  {
  }

  lemma EntersLocked(s: State, s2: State, u: Uid)
    requires Locked(s) && !HasLock(s, u) && !HasLock(s2, u) && s2.writeLock == s.writeLock
    requires forall v :: v != u ==> (HasLock(s2, v) <==> HasLock(s, v))
    ensures Locked(s2)
  {
  }

  lemma EntersHeld(s: State, s2: State, u: Uid)
    requires HeldApart(s) && s2.pending == s.pending[u := s.next] && s2.next == s.next + 1
    requires forall r: Reply :: Held(s2, r) ==> Held(s, r)
    ensures HeldApart(s2)
  {
    hide Held;
  }

  /** The current connection is given up, and all pending replies are in one pair of hands. */
  ghost predicate Drops(s: State, s2: State) {
    && s.process.Some? && s2.process == None && s2.pending == map[]
    && (forall r: Reply :: Held(s2, r) <==> Held(s, r) || r in LostReplies(s))
    && (forall v :: v in s2.threads && HasConn(s2.threads[v]) ==> v in s.threads && s.threads[v] == s2.threads[v])
    && (forall v :: HasLock(s2, v) <==> HasLock(s, v))
    && s2.answers == s.answers && s2.next == s.next && s2.readers.Keys == s.readers.Keys
    && s2.links == s.links && s2.writeLock == s.writeLock
  }

  lemma DropsInv(s: State, s2: State)
    requires Inv(s) && Drops(s, s2)
    ensures Inv(s2)
  {
    hide Held, LostReplies;
    PendingAreLost(s);
    assert HeldApart(s2);
  }

  lemma PendingAreLost(s: State)
    requires Inv(s)
    ensures forall v :: v in s.pending ==> s.pending[v] in LostReplies(s)
    ensures forall r: Reply :: r in LostReplies(s) ==> r < s.next
  {
    hide Held, HeldApart, NotForgotten;
    forall r: Reply | r in LostReplies(s) ensures r < s.next {
      var v :| v in s.pending && s.pending[v] == r;
      assert IsPending(s, v);
    }
  }

  lemma LoseInv(s: State, u: Uid)
    requires Inv(s) && Enabled(s, Lose(u))
    ensures Inv(Next(s, Lose(u)))
  {
    hide Held, HeldApart, NotForgotten, Own, Current, Inv, LostReplies;
    var s2 := Next(s, Lose(u));
    NotPending(s, u);
    if s.process != Some(s.threads[u].c) {
      GoesInv(s, s2, u);
    } else {
      HeldByThread(s, s2, u);
      assert ThreadLeft(s2, u) == LostReplies(s) && ThreadLeft(s, u) == {};
      DropsInv(s, s2);
    }
  }

  /** A reply that someone held is answered. */
  ghost predicate Signals(s: State, s2: State, r: Reply) {
    && Held(s, r) && s2.answers.Keys == s.answers.Keys + {r}
    && (forall x: Reply :: Held(s2, x) ==> Held(s, x))
    && (forall x: Reply :: Held(s, x) ==> Held(s2, x) || x == r)
    && (forall v :: v in s2.threads <==> v in s.threads)
    && (forall v :: v in s.threads ==>
          s2.threads[v] == s.threads[v] || (s2.threads[v].Signalling? && s.threads[v].Signalling?))
    && (forall c :: c in s.readers && c in s2.readers && Watching(s.readers[c]) ==> Watching(s2.readers[c]))
    && s2.process == s.process && s2.pending == s.pending && s2.next == s.next && s2.readers.Keys == s.readers.Keys
    && s2.links == s.links && s2.writeLock == s.writeLock
  }

  lemma SignalsInv(s: State, s2: State, r: Reply)
    requires Inv(s) && Signals(s, s2, r)
    ensures Inv(s2)
  {
    hide Held;
  }

  lemma SignalInv(s: State, u: Uid, r: Reply)
    requires Inv(s) && Enabled(s, Signal(u, r))
    ensures Inv(Next(s, Signal(u, r)))
  {
    hide Held, Inv;
    var s2 := Next(s, Signal(u, r));
    HeldByThread(s, s2, u);
    assert r in ThreadLeft(s, u) && ThreadLeft(s2, u) == ThreadLeft(s, u) - {r};
    SignalsInv(s, s2, r);
  }

  lemma LeaveInv(s: State, u: Uid)
    requires Inv(s) && Enabled(s, Leave(u))
    ensures Inv(Next(s, Leave(u)))
  {
    hide Held, HeldApart, NotForgotten, Own, Current, Inv;
    NotPending(s, u);
    GoesInv(s, Next(s, Leave(u)), u);
  }

  lemma WakeInv(s: State, u: Uid)
    requires Inv(s) && Enabled(s, Wake(u))
    ensures Inv(Next(s, Wake(u)))
  {
    hide Held, HeldApart, NotForgotten, Own, Current, Inv;
    NotPending(s, u);
    GoesInv(s, Next(s, Wake(u)), u);
  }

  // ---------------------------------------------------------------- steps of the readers

  /** A pending reply is taken, and held by the one who took it. */
  ghost predicate Pops(s: State, s2: State, v: Uid) {
    && v in s.pending && s2.pending == s.pending - {v}
    && (forall r: Reply :: Held(s2, r) <==> Held(s, r) || r == s.pending[v])
    && (forall c :: c in s.readers && c in s2.readers && Watching(s.readers[c]) ==> Watching(s2.readers[c]))
    && s2.process == s.process && s2.answers == s.answers && s2.next == s.next && s2.readers.Keys == s.readers.Keys
    && s2.threads == s.threads && s2.links.Keys == s.links.Keys && s2.writeLock == s.writeLock
  }

  lemma PopsInv(s: State, s2: State, v: Uid)
    requires Inv(s) && Pops(s, s2, v)
    ensures Inv(s2)
  {
    hide Held;
    assert IsPending(s, v);
    forall u | u in s2.pending ensures IsPending(s2, u) && s2.pending[u] != s.pending[v] {
      assert IsPending(s, u);
    }
  }

  lemma ReadInv(s: State, c: Conn)
    requires Inv(s) && Enabled(s, Read(c))
    ensures Inv(Next(s, Read(c)))
  {
    hide Held, Inv;
    var s2 := Next(s, Read(c));
    var f := s.links[c].up[0];
    if !f.BlobUp? && f.uid in s.pending {
      HeldByReader(s, s2, c);
      assert ReaderLeft(s2, c) == {s.pending[f.uid]} && ReaderLeft(s, c) == {};
      PopsInv(s, s2, f.uid);
    } else {
      QuietInv(s, s2);
    }
  }

  lemma SignalAnswerInv(s: State, c: Conn)
    requires Inv(s) && Enabled(s, SignalAnswer(c))
    ensures Inv(Next(s, SignalAnswer(c)))
  {
    hide Held, Inv;
    var s2 := Next(s, SignalAnswer(c));
    HeldByReader(s, s2, c);
    assert ReaderLeft(s, c) == {s.readers[c].r} && ReaderLeft(s2, c) == {};
    SignalsInv(s, s2, s.readers[c].r);
  }

  lemma ReaderSignalInv(s: State, c: Conn, r: Reply)
    requires Inv(s) && Enabled(s, ReaderSignal(c, r))
    ensures Inv(Next(s, ReaderSignal(c, r)))
  {
    hide Held, Inv;
    var s2 := Next(s, ReaderSignal(c, r));
    HeldByReader(s, s2, c);
    assert r in ReaderLeft(s, c) && ReaderLeft(s2, c) == ReaderLeft(s, c) - {r};
    SignalsInv(s, s2, r);
  }

  /** A reader goes on without holding anything new; one that watched the current connection
      still does. */
  ghost predicate Turns(s: State, s2: State, c: Conn) {
    && c in s.readers && ReaderLeft(s, c) == ReaderLeft(s2, c) == {}
    && c in s2.readers && s2 == WithReader(s, c, s2.readers[c])
    && (s.process == Some(c) ==> Watching(s2.readers[c]))
  }

  lemma TurnsInv(s: State, s2: State, c: Conn)
    requires Inv(s) && Turns(s, s2, c)
    ensures Inv(s2)
  {
    hide Held;
    HeldByReader(s, s2, c);
  }

  lemma ReadEndInv(s: State, c: Conn)
    requires Inv(s) && Enabled(s, ReadEnd(c))
    ensures Inv(Next(s, ReadEnd(c)))
  {
    hide Held, Inv;
    TurnsInv(s, Next(s, ReadEnd(c)), c);
  }

  lemma ReaderLoseInv(s: State, c: Conn)
    requires Inv(s) && Enabled(s, ReaderLose(c))
    ensures Inv(Next(s, ReaderLose(c)))
  {
    hide Held, Inv, LostReplies;
    var s2 := Next(s, ReaderLose(c));
    if s.process != Some(c) {
      TurnsInv(s, s2, c);
    } else {
      HeldByReader(s, s2, c);
      assert ReaderLeft(s2, c) == LostReplies(s) && ReaderLeft(s, c) == {};
      DropsInv(s, s2);
    }
  }

  lemma ReaderLeaveInv(s: State, c: Conn)
    requires Inv(s) && Enabled(s, ReaderLeave(c))
    ensures Inv(Next(s, ReaderLeave(c)))
  {
    hide Held, HeldApart, NotForgotten, Own, Pending;
    TurnsInv(s, Next(s, ReaderLeave(c)), c);
  }

  // ---------------------------------------------------------------- steps of the host and the world

  /** A step that touches no thread, no reader and no reply. */
  ghost predicate Quiet(s: State, s2: State) {
    && s2.process == s.process && s2.pending == s.pending && s2.answers == s.answers && s2.next == s.next
    && s2.threads == s.threads && s2.readers == s.readers && s2.writeLock == s.writeLock
    && s2.links.Keys == s.links.Keys
  }

  lemma QuietInv(s: State, s2: State)
    requires Inv(s) && Quiet(s, s2)
    ensures Inv(s2)
  {
    hide Held, Own, Current, Locked;
    assert Own(s2) && Current(s2) && Locked(s2) by {
      QuietThreads(s, s2);
    }
    HeldByReader(s, s2, 0);
    assert ReaderLeft(s2, 0) == ReaderLeft(s, 0);
    forall u | u in s2.pending ensures IsPending(s2, u) {
      assert IsPending(s, u);
    }
    forall u | u in s2.threads && NeedsAnswer(s2.threads[u]) ensures Remembered(s2, u) {
      assert Remembered(s, u);
    }
  }

  lemma QuietThreads(s: State, s2: State)
    requires Current(s) && Own(s) && Locked(s) && Quiet(s, s2)
    ensures Current(s2) && Own(s2) && Locked(s2)
  {
  }

  lemma InstallInv(s: State, c: Conn)
    requires Inv(s) && Enabled(s, Install(c))
    ensures Inv(Next(s, Install(c)))
  {
    hide Held;
    HeldByReader(s, Next(s, Install(c)), c);
  }

  lemma HostReadInv(s: State, c: Conn)
    requires Inv(s) && Enabled(s, HostRead(c))
    ensures Inv(Next(s, HostRead(c)))
  {
    hide Inv;
    QuietInv(s, Next(s, HostRead(c)));
  }

  lemma HostCheckInv(s: State, c: Conn, k: nat)
    requires Inv(s) && Enabled(s, HostCheck(c, k))
    ensures Inv(Next(s, HostCheck(c, k)))
  {
    hide Inv, Removed;
    QuietInv(s, Next(s, HostCheck(c, k)));
  }

  lemma HostFinishInv(s: State, c: Conn, k: nat, ok: bool, outputs: set<Digest>)
    requires Inv(s) && Enabled(s, HostFinish(c, k, ok, outputs))
    ensures Inv(Next(s, HostFinish(c, k, ok, outputs)))
  {
    hide Inv, Removed;
    QuietInv(s, Next(s, HostFinish(c, k, ok, outputs)));
  }

  lemma OtherStepInv(s: State, step: Step)
    requires Inv(s) && Enabled(s, step)
    requires step.HostSend? || step.Break? || step.Forget? || step.Ask? || step.Greet? || step.GiveUp?
    ensures Inv(Next(s, step))
  {
    hide Inv, BlobFrames;
    QuietInv(s, Next(s, step));
  }

  /** Every step keeps it. */
  lemma StepInv(s: State, step: Step)
    requires Inv(s) && Enabled(s, step)
    ensures Inv(Next(s, step))
  {
    hide Inv, Enabled, Next;
    match step
    case Start(u) => StartInv(s, u);
    case Register(u) => RegisterInv(s, u);
    case TakeLock(u) => ThreadStepInv(s, u, step);
    case Claim(u) => ThreadStepInv(s, u, step);
    case WriteBlob(u, d) => ThreadStepInv(s, u, step);
    case WriteJob(u) => ThreadStepInv(s, u, step);
    case WriteFails(u) => ThreadStepInv(s, u, step);
    case Unclaim(u) => ThreadStepInv(s, u, step);
    case Lose(u) => LoseInv(s, u);
    case Signal(u, r) => SignalInv(s, u, r);
    case Leave(u) => LeaveInv(s, u);
    case Wake(u) => WakeInv(s, u);
    case Read(c) => ReadInv(s, c);
    case SignalAnswer(c) => SignalAnswerInv(s, c);
    case ReadEnd(c) => ReadEndInv(s, c);
    case ReaderLose(c) => ReaderLoseInv(s, c);
    case ReaderSignal(c, r) => ReaderSignalInv(s, c, r);
    case ReaderLeave(c) => ReaderLeaveInv(s, c);
    case Install(c) => InstallInv(s, c);
    case HostRead(c) => HostReadInv(s, c);
    case HostCheck(c, k) => HostCheckInv(s, c, k);
    case HostFinish(c, k, ok, outputs) => HostFinishInv(s, c, k, ok, outputs);
    case _ => OtherStepInv(s, step);
  }
}

/** build, `RemoteHost` and `ExecService`: every thread in `execute` can always go on, and comes
    home by steps of the program itself. */
module DistHome {
  import opened Options
  import opened Dist
  import opened DistWake
  import opened DistToken

  // ---------------------------------------------------------------- steps that serve a thread

  /** The thread that does the step. */
  function Actor(step: Step): Option<Uid> {
    match step
    case Register(u) => Some(u)
    case TakeLock(u) => Some(u)
    case Claim(u) => Some(u)
    case WriteBlob(u, _) => Some(u)
    case WriteJob(u) => Some(u)
    case WriteFails(u) => Some(u)
    case Unclaim(u) => Some(u)
    case Lose(u) => Some(u)
    case Signal(u, _) => Some(u)
    case Leave(u) => Some(u)
    case Wake(u) => Some(u)
    case _ => None
  }

  /** The step takes thread `u` on: its own next one, one of the thread that has the lock it
      wants, the signal it waits for, or one on its connection that brings the answer nearer. */
  ghost predicate Serves(s: State, u: Uid, step: Step)
    requires u in s.threads
  {
    var pc := s.threads[u];
    || Actor(step) == Some(u)
    || (pc.Registered? && s.writeLock.Some? && Actor(step) == s.writeLock)
    || (pc.Waiting? && (
         || (step.Signal? && step.r == pc.r)
         || (step.ReaderSignal? && step.r == pc.r)
         || (step.SignalAnswer? && step.c in s.readers && s.readers[step.c].Popped? && s.readers[step.c].r == pc.r)
         || (u in s.pending && Brings(s, u, pc.c, step))))
  }

  ghost predicate Brings(s: State, u: Uid, c: Conn, step: Step) {
    || step == Read(c) || step == SignalAnswer(c) || step == ReadEnd(c) || step == ReaderLose(c) || step == HostRead(c)
    || step == HostSend(c)
    || (step.HostCheck? && step.c == c && LinkOf(s, c)
        && step.k < |s.links[c].queued| && s.links[c].queued[step.k].uid == u)
    || (step.HostFinish? && step.c == c && LinkOf(s, c)
        && step.k < |s.links[c].running| && s.links[c].running[step.k].uid == u)
  }

  // ---------------------------------------------------------------- how far a thread is from home

  /** How much is on the way over a connection: every step of the host and every frame read
      lowers it. */
  function LinkWork(l: Link): nat {
    5 * |l.down| + 4 * |l.queued| + 3 * |l.running| + OutboxWork(l.outbox) + |l.up|
  }

  function OutboxWork(q: seq<Up>): nat {
    if q == [] then 0 else FrameWork(q[0]) + OutboxWork(q[1..])
  }

  function FrameWork(f: Up): nat {
    2 + if f.Result? then |f.outputs| else 0
  }

  function ReaderWork(s: State, c: Conn): nat {
    if !LinkOf(s, c) then 0
    else
      match s.readers[c]
      case Reading => 1 + 2 * LinkWork(s.links[c])
      case Popped(_, _) => 2 + 2 * LinkWork(s.links[c])
      case _ => 0
  }

  /** What the thread with the lock has still to write. */
  function HolderWork(s: State): nat {
    if s.writeLock == None || s.writeLock.value !in s.threads then 0
    else
      match s.threads[s.writeLock.value]
      case Holding(_, _) => |s.writeLock.value.blobs| + 2
      case Writing(_, _, _, rest) => |rest| + 1
      case _ => 0
  }

  datatype Rank = Rank(stage: nat, work: nat)

  predicate Less(a: Rank, b: Rank) {
    a.stage < b.stage || (a.stage == b.stage && a.work < b.work)
  }

  /** How far thread `u` is from the end of this attempt. */
  function RankOf(s: State, u: Uid): Rank
    requires u in s.threads
  {
    match s.threads[u]
    case Begin => Rank(7, 0)
    case Registered(_, _) => Rank(6, HolderWork(s))
    case Holding(_, _) => Rank(5, 0)
    case Writing(_, _, _, rest) => Rank(4, |rest|)
    case WriteFailed(_, _, _) => Rank(3, 0)
    case Losing(_, _) => Rank(2, 0)
    case Signalling(left) => Rank(1, |left|)
    case Waiting(c, r) =>
      if r in s.answers then Rank(1, 0)
      else if u in s.pending then Rank(3, ReaderWork(s, c))
      else Rank(2, 0)
  }

  /** The step ends the attempt, or brings the thread nearer to its end. */
  ghost predicate Advances(s: State, u: Uid, step: Step)
    requires u in s.threads && Enabled(s, step)
  {
    step == Wake(u) || u !in Next(s, step).threads || Less(RankOf(Next(s, step), u), RankOf(s, u))
  }

  lemma OutboxTaken(q: seq<Up>)
    requires q != []
    ensures OutboxWork(q) == FrameWork(q[0]) + OutboxWork(q[1..])
  {
  }

  lemma {:induction false} OutboxGrows(q: seq<Up>, f: Up)
    ensures OutboxWork(q + [f]) == OutboxWork(q) + FrameWork(f)
  {
    if q == [] {
      assert q + [f] == [f] && [f][1..] == [];
    } else {
      assert (q + [f])[1..] == q[1..] + [f];
      OutboxGrows(q[1..], f);
    }
  }

  lemma FewerLeft(left: set<Reply>, r: Reply)
    requires r in left
    ensures |left - {r}| < |left|
  {
  }

  lemma SubsetIsSmaller(a: set<Digest>, b: set<Digest>)
    requires a <= b
    ensures |a| <= |b|
  {
    assert b == a + (b - a);
  }

  // ---------------------------------------------------------------- somebody can always go on

  /** No lost wakeup: whatever has happened, every thread in `execute` can be taken on by a step
      of the program itself, and that step brings it nearer to the end of its attempt. */
  lemma NoLostWakeup(s: State, u: Uid) returns (step: Step)
    requires Inv(s) && Tokens(s) && u in s.threads
    ensures Enabled(s, step) && Serves(s, u, step) && Advances(s, u, step)
  {
    hide Inv, Tokens, Brings, Advances;
    match s.threads[u]
    case Registered(c, r) =>
      if s.writeLock == None {
        step := OwnStep(s, u);
      } else {
        HolderHasLock(s);
        step := HolderGoesOn(s, s.writeLock.value, u);
      }
    case Waiting(c, r) => step := WaiterIsServed(s, u);
    case _ => step := OwnStep(s, u);
  }

  lemma HolderHasLock(s: State)
    requires Inv(s) && s.writeLock.Some?
    ensures HasLock(s, s.writeLock.value)
  {
  }

  /** Outside of the waits a thread goes on by itself. */
  lemma OwnStep(s: State, u: Uid) returns (step: Step)
    requires Inv(s) && u in s.threads && !s.threads[u].Waiting?
    requires s.threads[u].Registered? ==> s.writeLock == None
    ensures Enabled(s, step) && Actor(step) == Some(u) && Advances(s, u, step)
  {
    hide Inv, Advances, Enabled;
    match s.threads[u]
    case Begin => step := StartStep(s, u);
    case Registered(_, _) => step := StartStep(s, u);
    case Holding(_, _) => step := WriteStep(s, u);
    case Writing(_, _, _, _) => step := WriteStep(s, u);
    case _ => step := GiveUpStep(s, u);
  }

  lemma StartStep(s: State, u: Uid) returns (step: Step)
    requires u in s.threads && (s.threads[u].Begin? || (s.threads[u].Registered? && s.writeLock == None))
    ensures Enabled(s, step) && Actor(step) == Some(u) && Advances(s, u, step)
  {
    step := if s.threads[u].Begin? then Register(u) else TakeLock(u);
    if s.threads[u].Registered? {
      assert Next(s, TakeLock(u)).threads[u].Holding?;
    }
  }

  lemma WriteStep(s: State, u: Uid) returns (step: Step)
    requires Inv(s) && u in s.threads && (s.threads[u].Holding? || s.threads[u].Writing?)
    ensures Enabled(s, step) && Actor(step) == Some(u) && Advances(s, u, step)
  {
    hide Current, Pending, HeldApart, NotForgotten, LinkWork;
    if s.threads[u].Holding? {
      step := Claim(u);
    } else if s.threads[u].rest == {} {
      step := WriteJob(u);
    } else {
      var d :| d in s.threads[u].rest;
      step := WriteBlob(u, d);
    }
  }

  lemma GiveUpStep(s: State, u: Uid) returns (step: Step)
    requires u in s.threads && (s.threads[u].WriteFailed? || s.threads[u].Losing? || s.threads[u].Signalling?)
    ensures Enabled(s, step) && Actor(step) == Some(u) && Advances(s, u, step)
  {
    hide LostReplies;
    match s.threads[u]
    case WriteFailed(_, _, _) => step := Unclaim(u);
    case Losing(_, _) => step := Lose(u);
    case Signalling(left) =>
      if left == {} {
        step := Leave(u);
      } else {
        var r :| r in left;
        FewerLeft(left, r);
        step := Signal(u, r);
      }
  }

  /** The thread with the lock goes on, and so gets nearer to giving it up. */
  lemma HolderGoesOn(s: State, v: Uid, u: Uid) returns (step: Step)
    requires Inv(s) && HasLock(s, v) && u in s.threads && s.threads[u].Registered?
    ensures Enabled(s, step) && Actor(step) == Some(v) && Advances(s, u, step) && s.writeLock == Some(v)
  {
    hide Current, Pending, HeldApart, NotForgotten, LinkWork, Advances, Next;
    if s.threads[v].Holding? {
      step := Claim(v);
      HolderClaims(s, v, u);
    } else if s.threads[v].rest == {} {
      step := WriteJob(v);
      HolderWritesJob(s, v, u);
    } else {
      var d :| d in s.threads[v].rest;
      step := WriteBlob(v, d);
      HolderWritesBlob(s, v, d, u);
    }
  }

  lemma HolderClaims(s: State, v: Uid, u: Uid)
    requires s.writeLock == Some(v) && Enabled(s, Claim(v)) && u in s.threads && s.threads[u].Registered?
    ensures Advances(s, u, Claim(v))
  {
    SubsetIsSmaller(v.blobs - s.sent, v.blobs);
    assert Next(s, Claim(v)).threads[u] == s.threads[u];
  }

  lemma HolderWritesJob(s: State, v: Uid, u: Uid)
    requires s.writeLock == Some(v) && Enabled(s, WriteJob(v)) && u in s.threads && s.threads[u].Registered?
    ensures Advances(s, u, WriteJob(v))
  {
    hide Pushed;
    assert Next(s, WriteJob(v)).threads[u] == s.threads[u];
  }

  lemma HolderWritesBlob(s: State, v: Uid, d: Digest, u: Uid)
    requires s.writeLock == Some(v) && Enabled(s, WriteBlob(v, d)) && u in s.threads && s.threads[u].Registered?
    ensures Advances(s, u, WriteBlob(v, d))
  {
    hide Pushed;
    assert Next(s, WriteBlob(v, d)).threads[u] == s.threads[u];
  }

  lemma WaiterIsServed(s: State, u: Uid) returns (step: Step)
    requires Inv(s) && Tokens(s) && u in s.threads && s.threads[u].Waiting?
    ensures Enabled(s, step) && Serves(s, u, step) && Advances(s, u, step)
  {
    hide Current, Pending, HeldApart, Own, Locked, Tokens, Held, Brings, Advances;
    var r := s.threads[u].r;
    assert Remembered(s, u);
    if r in s.answers {
      step := Wake(u);
      assert Advances(s, u, step) by {
        WakingAdvances(s, u);
      }
    } else if u in s.pending {
      step := PendingIsServed(s, u);
    } else {
      step := HeldIsSignalled(s, u, r);
    }
  }

  lemma WakingAdvances(s: State, u: Uid)
    requires Enabled(s, Wake(u))
    ensures Advances(s, u, Wake(u))
  {
  }

  lemma HeldIsSignalled(s: State, u: Uid, r: Reply) returns (step: Step)
    requires Held(s, r) && u in s.threads && s.threads[u].Waiting? && s.threads[u].r == r
    requires r !in s.answers && u !in s.pending
    ensures Enabled(s, step) && Serves(s, u, step) && Advances(s, u, step)
  {
    if v :| r in ThreadLeft(s, v) {
      step := Signal(v, r);
    } else {
      var c: Conn :| r in ReaderLeft(s, c);
      step := if s.readers[c].Popped? then SignalAnswer(c) else ReaderSignal(c, r);
    }
  }

  lemma PendingIsServed(s: State, u: Uid) returns (step: Step)
    requires Inv(s) && Tokens(s) && u in s.threads && s.threads[u].Waiting? && u in s.pending
    ensures Enabled(s, step) && Brings(s, u, s.threads[u].c, step) && Advances(s, u, step)
  {
    hide HeldApart, NotForgotten, Own, Locked, Held, Advances, Brings;
    var c := s.threads[u].c;
    assert IsPending(s, u);
    if s.readers[c].Reading? && s.links[c].up == [] && s.links[c].alive {
      assert WaitsAt(s, u);
      step := HostGoesOn(s, c, u);
    } else {
      step := ReaderGoesOn(s, c, u);
    }
  }

  lemma ReaderGoesOn(s: State, c: Conn, u: Uid) returns (step: Step)
    requires LinkOf(s, c) && Watching(s.readers[c]) && s.process == Some(c)
    requires u in s.threads && s.threads[u].Waiting? && s.threads[u].c == c && u in s.pending
    requires s.threads[u].r == s.pending[u] && s.pending[u] !in s.answers
    requires s.readers[c].Reading? ==> s.links[c].up != [] || !s.links[c].alive
    ensures Enabled(s, step) && Brings(s, u, c, step) && Advances(s, u, step)
  {
    hide LostReplies, OutboxWork;
    match s.readers[c]
    case Popped(_, _) => step := SignalAnswer(c);
    case ReaderLosing => step := ReaderLose(c);
    case Reading => step := if s.links[c].up != [] then Read(c) else ReadEnd(c);
  }

  /** A step of the host on the connection lowers what is on the way over it. */
  lemma HostAdvances(s: State, c: Conn, u: Uid, step: Step)
    requires LinkOf(s, c) && s.readers[c].Reading? && Enabled(s, step)
    requires u in s.threads && s.threads[u].Waiting? && s.threads[u].c == c && u in s.pending
    requires s.threads[u].r !in s.answers
    requires Next(s, step).threads == s.threads && Next(s, step).pending == s.pending
    requires Next(s, step).answers == s.answers && Next(s, step).readers == s.readers
    requires c in Next(s, step).links && LinkWork(Next(s, step).links[c]) < LinkWork(s.links[c])
    ensures Advances(s, u, step)
  {
    hide LinkWork, Next, Enabled;
  }

  lemma HostGoesOn(s: State, c: Conn, u: Uid) returns (step: Step)
    requires LinkOf(s, c) && s.links[c].alive && s.links[c].up == [] && OnTheWay(s.links[c], u)
    requires s.readers[c].Reading? && s.threads.Keys >= {u} && s.threads[u].Waiting? && s.threads[u].c == c
    requires u in s.pending && s.threads[u].r !in s.answers
    ensures Enabled(s, step) && Brings(s, u, c, step) && Advances(s, u, step)
  {
    hide Advances, LinkWork, BlobFrames, Removed;
    var l := s.links[c];
    if l.down != [] {
      step := HostRead(c);
      WorkOfRead(s, c);
      HostAdvances(s, c, u, step);
    } else if l.outbox != [] {
      step := HostSend(c);
      WorkOfSend(s, c);
      HostAdvances(s, c, u, step);
    } else {
      step := JobGoesOn(s, c, u);
    }
  }

  lemma JobGoesOn(s: State, c: Conn, u: Uid) returns (step: Step)
    requires LinkOf(s, c) && s.links[c].alive && (JobFor(s.links[c].queued, u) || JobFor(s.links[c].running, u))
    requires s.readers[c].Reading? && s.threads.Keys >= {u} && s.threads[u].Waiting? && s.threads[u].c == c
    requires u in s.pending && s.threads[u].r !in s.answers
    ensures Enabled(s, step) && Brings(s, u, c, step) && Advances(s, u, step)
  {
    hide Advances, LinkWork, Removed;
    var l := s.links[c];
    if JobFor(l.queued, u) {
      var k :| 0 <= k < |l.queued| && l.queued[k].uid == u;
      step := HostCheck(c, k);
      WorkOfCheck(s, c, k);
    } else {
      var j :| j in l.running && j.uid == u;
      var k :| 0 <= k < |l.running| && l.running[k] == j;
      step := HostFinish(c, k, true, {});
      WorkOfFinish(s, c, k);
    }
    HostAdvances(s, c, u, step);
  }

  lemma WorkOfRead(s: State, c: Conn)
    requires Enabled(s, HostRead(c))
    ensures LinkWork(Next(s, HostRead(c)).links[c]) < LinkWork(s.links[c])
  {
    hide OutboxWork;
    var l := s.links[c];
    assert Next(s, HostRead(c)).links[c].down == l.down[1..];
  }

  lemma WorkOfCheck(s: State, c: Conn, k: nat)
    requires Enabled(s, HostCheck(c, k))
    ensures LinkWork(Next(s, HostCheck(c, k)).links[c]) < LinkWork(s.links[c])
  {
    hide OutboxWork;
  }

  lemma WorkOfFinish(s: State, c: Conn, k: nat)
    requires Enabled(s, HostFinish(c, k, true, {}))
    ensures LinkWork(Next(s, HostFinish(c, k, true, {})).links[c]) < LinkWork(s.links[c])
  {
    hide OutboxWork;
    OutboxGrows(s.links[c].outbox, Result(s.links[c].running[k].uid, {}));
  }

  lemma WorkOfSend(s: State, c: Conn)
    requires Enabled(s, HostSend(c))
    ensures LinkWork(Next(s, HostSend(c)).links[c]) < LinkWork(s.links[c])
  {
    hide OutboxWork;
    OutboxTaken(s.links[c].outbox);
  }

  // ---------------------------------------------------------------- coming home

  lemma NoLostWakeupInRuns(states: seq<State>, steps: seq<Step>, u: Uid) returns (step: Step)
    requires IsRun(states, steps) && states[0] == Initial() && u in states[|steps|].threads
    ensures Enabled(states[|steps|], step) && Serves(states[|steps|], u, step) && Advances(states[|steps|], u, step)
  {
    hide Inv, Tokens, Serves, Enabled, Advances;
    RunKeepsInv(states, steps);
    step := NoLostWakeup(states[|steps|], u);
  }

  /** From every state that a run can reach, finitely many steps that serve the thread end its
      attempt: it wakes to its answer or has left. */
  lemma {:induction false} AttemptComesToAnEnd(s: State, u: Uid) returns (states: seq<State>, steps: seq<Step>)
    requires Inv(s) && Tokens(s) && u in s.threads
    ensures IsRun(states, steps) && states[0] == s
    ensures forall i :: 0 <= i < |steps| ==> u in states[i].threads && Serves(states[i], u, steps[i])
    ensures u !in states[|steps|].threads || (steps != [] && steps[|steps| - 1] == Wake(u))
    decreases RankOf(s, u).stage, RankOf(s, u).work
  {
    hide Inv, Tokens, Serves, Enabled, Next, RankOf;
    var step := NoLostWakeup(s, u);
    var t := Next(s, step);
    states, steps := [s, t], [step];
    if step != Wake(u) && u in t.threads {
      StepInv(s, step);
      StepTokens(s, step);
      var more, moreSteps := AttemptComesToAnEnd(t, u);
      states, steps := [s] + more, [step] + moreSteps;
    }
  }
}

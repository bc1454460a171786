/** build, `RemoteHost` and `ExecService`: jobs on one remote host, as a machine whose steps are
    what one thread does between two points where another can come in. */
module Dist {
  import opened Options

  type Digest = nat
  type Conn = nat
  type Reply = nat

  /** The uid hashes all that a job reads, so it fixes the blobs the job needs. */
  datatype Uid = Uid(id: nat, blobs: set<Digest>)

  /** To the host. The number of the attempt is not on the wire and no step depends on it. */
  datatype Down = BlobDown(digest: Digest) | JobDown(job: Job)
  datatype Job = Job(uid: Uid, attempt: Reply)

  /** From the host. A failed command gives a result without outputs. */
  datatype Up =
    | BlobUp(digest: Digest)
    | Result(uid: Uid, outputs: set<Digest>)
    | Missing(uid: Uid, digests: set<Digest>)

  datatype Answer = Lost | Got(frame: Up)

  /** Where a thread is in `execute` and, inside of it, in `_lost`. */
  datatype Pc =
    | Begin
    | Registered(c: Conn, r: Reply)
    | Holding(c: Conn, r: Reply)
    | Writing(c: Conn, r: Reply, needed: set<Digest>, rest: set<Digest>)
    | WriteFailed(c: Conn, r: Reply, needed: set<Digest>)
    | Losing(c: Conn, r: Reply)
    | Waiting(c: Conn, r: Reply)
    | Signalling(left: set<Reply>)

  /** Where the reader of a connection is. */
  datatype Reader =
    | Reading
    | Popped(r: Reply, frame: Up)
    | ReaderLosing
    | ReaderSignalling(left: set<Reply>)
    | ReaderDone

  /** A connection with the service at its far end: both streams, the jobs in the pool, the ones
      that run, and finished jobs with their outputs for the sender. */
  datatype Link = Link(alive: bool, down: seq<Down>, up: seq<Up>, queued: seq<Job>, running: seq<Job>,
                       outbox: seq<Up>)

  /** An attempt to connect asks which of the ledger's digests the host still has. */
  datatype Attempt = NoAttempt | Asking(digests: set<Digest>) | Greeted(kept: set<Digest>)

  /** `cache` is the host's cache, which outlives connections, and `local` the controller's. */
  datatype State = State(process: Option<Conn>, attempt: Attempt, pending: map<Uid, Reply>,
                         sent: set<Digest>, writeLock: Option<Uid>, threads: map<Uid, Pc>,
                         answers: map<Reply, Answer>, next: Reply, local: set<Digest>,
                         readers: map<Conn, Reader>, links: map<Conn, Link>, cache: set<Digest>)

  datatype Step =
    | Start(u: Uid) | Register(u: Uid) | TakeLock(u: Uid) | Claim(u: Uid) | WriteBlob(u: Uid, d: Digest)
    | WriteJob(u: Uid) | WriteFails(u: Uid) | Unclaim(u: Uid) | Lose(u: Uid) | Signal(u: Uid, r: Reply)
    | Leave(u: Uid) | Wake(u: Uid)
    | Read(c: Conn) | SignalAnswer(c: Conn) | ReadEnd(c: Conn) | ReaderLose(c: Conn)
    | ReaderSignal(c: Conn, r: Reply) | ReaderLeave(c: Conn)
    | HostRead(c: Conn) | HostCheck(c: Conn, k: nat) | HostFinish(c: Conn, k: nat, ok: bool, outputs: set<Digest>)
    | HostSend(c: Conn)
    | Break(c: Conn, keep: nat) | Forget(lost: set<Digest>)
    | Ask | Greet | GiveUp | Install(c: Conn)

  predicate HasConn(pc: Pc) {
    !pc.Begin? && !pc.Signalling?
  }

  predicate At(s: State, u: Uid) {
    u in s.threads
  }

  predicate LinkOf(s: State, c: Conn) {
    c in s.links && c in s.readers
  }

  /** `_lost` starts the thread that reconnects when it has signalled all replies. */
  predicate NobodySignals(s: State) {
    && (forall u :: u in s.threads ==> !s.threads[u].Signalling?)
    && (forall c :: c in s.readers ==> !s.readers[c].ReaderSignalling?)
  }

  // ---------------------------------------------------------------- when a step can happen

  predicate Enabled(s: State, step: Step) {
    match step
    case Start(u) => u !in s.threads
    case Register(u) => u in s.threads && s.threads[u].Begin?
    case TakeLock(u) => u in s.threads && s.threads[u].Registered? && s.writeLock == None
    case Claim(u) => u in s.threads && s.threads[u].Holding?
    case WriteBlob(u, d) =>
      u in s.threads && s.threads[u].Writing? && d in s.threads[u].rest && s.threads[u].c in s.links
    case WriteJob(u) => u in s.threads && s.threads[u].Writing? && s.threads[u].rest == {} && s.threads[u].c in s.links
    case WriteFails(u) =>
      u in s.threads && s.threads[u].Writing? && s.threads[u].c in s.links && !s.links[s.threads[u].c].alive
    case Unclaim(u) => u in s.threads && s.threads[u].WriteFailed?
    case Lose(u) => u in s.threads && s.threads[u].Losing?
    case Signal(u, r) => u in s.threads && s.threads[u].Signalling? && r in s.threads[u].left
    case Leave(u) => u in s.threads && s.threads[u].Signalling? && s.threads[u].left == {}
    case Wake(u) => u in s.threads && s.threads[u].Waiting? && s.threads[u].r in s.answers
    case Read(c) => LinkOf(s, c) && s.readers[c].Reading? && s.links[c].up != []
    case SignalAnswer(c) => c in s.readers && s.readers[c].Popped?
    case ReadEnd(c) => LinkOf(s, c) && s.readers[c].Reading? && s.links[c].up == [] && !s.links[c].alive
    case ReaderLose(c) => c in s.readers && s.readers[c].ReaderLosing?
    case ReaderSignal(c, r) => c in s.readers && s.readers[c].ReaderSignalling? && r in s.readers[c].left
    case ReaderLeave(c) => c in s.readers && s.readers[c].ReaderSignalling? && s.readers[c].left == {}
    case HostRead(c) => c in s.links && s.links[c].alive && s.links[c].down != []
    case HostCheck(c, k) => c in s.links && s.links[c].alive && k < |s.links[c].queued|
    case HostFinish(c, k, ok, outputs) => c in s.links && s.links[c].alive && k < |s.links[c].running|
    case HostSend(c) => c in s.links && s.links[c].alive && s.links[c].outbox != []
    case Break(c, keep) => c in s.links && s.links[c].alive && keep <= |s.links[c].up|
    case Forget(lost) => true
    case Ask => s.process == None && s.attempt.NoAttempt? && NobodySignals(s)
    case Greet => s.attempt.Asking?
    case GiveUp => !s.attempt.NoAttempt?
    case Install(c) => s.process == None && s.attempt.Greeted? && c !in s.links && c !in s.readers
  }

  // ---------------------------------------------------------------- what a step does

  function With(s: State, u: Uid, pc: Pc): State {
    s.(threads := s.threads[u := pc])
  }

  function Without(s: State, u: Uid): State {
    s.(threads := s.threads - {u})
  }

  function WithReader(s: State, c: Conn, reader: Reader): State {
    s.(readers := s.readers[c := reader])
  }

  function WithLink(s: State, c: Conn, link: Link): State {
    s.(links := s.links[c := link])
  }

  /** The top of the loop in `execute`: no host, or a new reply. */
  function DoRegister(s: State, u: Uid): State
    requires Enabled(s, Register(u))
  {
    match s.process
    case None => Without(s, u)
    case Some(c) => With(s, u, Registered(c, s.next)).(pending := s.pending[u := s.next], next := s.next + 1)
  }

  /** The blobs not in the ledger are entered there before they are written. */
  function DoClaim(s: State, u: Uid): State
    requires Enabled(s, Claim(u))
  {
    var needed := u.blobs - s.sent;
    With(s, u, Writing(s.threads[u].c, s.threads[u].r, needed, needed)).(sent := s.sent + needed)
  }

  /** A write to a connection that has gone may be swallowed by a buffer. */
  function Pushed(l: Link, f: Down): Link {
    if l.alive then l.(down := l.down + [f]) else l
  }

  function DoWriteBlob(s: State, u: Uid, d: Digest): State
    requires Enabled(s, WriteBlob(u, d))
  {
    var pc := s.threads[u];
    WithLink(With(s, u, pc.(rest := pc.rest - {d})), pc.c, Pushed(s.links[pc.c], BlobDown(d)))
  }

  function DoWriteJob(s: State, u: Uid): State
    requires Enabled(s, WriteJob(u))
  {
    var pc := s.threads[u];
    WithLink(With(s, u, Waiting(pc.c, pc.r)), pc.c, Pushed(s.links[pc.c], JobDown(Job(u, pc.r)))).(writeLock := None)
  }

  /** The locked part of `_lost`: the replies to signal, if the connection is still the one. */
  function LostReplies(s: State): set<Reply> {
    s.pending.Values
  }

  function Dropped(s: State): State {
    s.(process := None, pending := map[])
  }

  function DoLose(s: State, u: Uid): State
    requires Enabled(s, Lose(u))
  {
    if s.process != Some(s.threads[u].c) then Without(s, u)
    else With(Dropped(s), u, Signalling(LostReplies(s)))
  }

  function DoReaderLose(s: State, c: Conn): State
    requires Enabled(s, ReaderLose(c))
  {
    if s.process != Some(c) then WithReader(s, c, ReaderDone)
    else WithReader(Dropped(s), c, ReaderSignalling(LostReplies(s)))
  }

  /** After the wait: lost, missing blobs and once more, or a result. */
  function DoWake(s: State, u: Uid): State
    requires Enabled(s, Wake(u))
  {
    match s.answers[s.threads[u].r]
    case Lost => Without(s, u)
    case Got(Missing(_, digests)) => With(s, u, Begin).(sent := s.sent - digests)
    case Got(Result(_, outputs)) => Without(s, u).(sent := s.sent + outputs)
    case Got(BlobUp(_)) => Without(s, u)
  }

  /** One frame of `_reader`. */
  function DoRead(s: State, c: Conn): State
    requires Enabled(s, Read(c))
  {
    var f := s.links[c].up[0];
    var rest := WithLink(s, c, s.links[c].(up := s.links[c].up[1..]));
    if f.BlobUp? then rest.(local := s.local + {f.digest})
    else if f.uid in s.pending then
      WithReader(rest, c, Popped(s.pending[f.uid], f)).(pending := s.pending - {f.uid})
    else rest
  }

  /** One frame of the service's loop. */
  function DoHostRead(s: State, c: Conn): State
    requires Enabled(s, HostRead(c))
  {
    var l := s.links[c].(down := s.links[c].down[1..]);
    match s.links[c].down[0]
    case BlobDown(d) => WithLink(s, c, l).(cache := s.cache + {d})
    case JobDown(job) => WithLink(s, c, l.(queued := l.queued + [job]))
  }

  function Removed<T>(q: seq<T>, k: nat): seq<T>
    requires k < |q|
  {
    q[..k] + q[k + 1..]
  }

  /** The start of a job: it runs only when all its blobs are in the host's cache. */
  function DoHostCheck(s: State, c: Conn, k: nat): State
    requires Enabled(s, HostCheck(c, k))
  {
    var l := s.links[c];
    var job := l.queued[k];
    var missing := job.uid.blobs - s.cache;
    var l1 := l.(queued := Removed(l.queued, k));
    WithLink(s, c, if missing != {} then l1.(up := l.up + [Missing(job.uid, missing)])
                   else l1.(running := l.running + [job]))
  }

  /** The end of a job: outputs go into the cache, also those collected before one was found
      missing; a failure is answered at once, a success by the sender. */
  function DoHostFinish(s: State, c: Conn, k: nat, ok: bool, outputs: set<Digest>): State
    requires Enabled(s, HostFinish(c, k, ok, outputs))
  {
    var l := s.links[c];
    var job := l.running[k];
    var l1 := l.(running := Removed(l.running, k));
    WithLink(s, c, if ok then l1.(outbox := l.outbox + [Result(job.uid, outputs)])
                   else l1.(up := l.up + [Result(job.uid, {})])).(cache := s.cache + outputs)
  }

  /** Blobs in some order. */
  ghost function BlobFrames(ds: set<Digest>): (r: seq<Up>)
    ensures |r| == |ds| && forall f :: f in r ==> f.BlobUp?
    ensures forall d :: d in ds ==> BlobUp(d) in r
  {
    if ds == {} then []
    else
      var d :| d in ds;
      [BlobUp(d)] + BlobFrames(ds - {d})
  }

  /** The sender writes a batch, the blobs first, with nothing in between. */
  ghost function DoHostSend(s: State, c: Conn): State
    requires Enabled(s, HostSend(c))
  {
    var l := s.links[c];
    var f := l.outbox[0];
    WithLink(s, c, l.(outbox := l.outbox[1..],
                      up := l.up + BlobFrames(if f.Result? then f.outputs else {}) + [f]))
  }

  /** The connection goes: what the host had not read is gone, and so are its jobs; some of what
      it wrote can still be read. */
  function DoBreak(s: State, c: Conn, keep: nat): State
    requires Enabled(s, Break(c, keep))
  {
    WithLink(s, c, Link(false, [], s.links[c].up[..keep], [], [], []))
  }

  function DoInstall(s: State, c: Conn): State
    requires Enabled(s, Install(c))
  {
    WithReader(WithLink(s, c, Link(true, [], [], [], [], [])), c, Reading)
      .(process := Some(c), sent := s.attempt.kept, attempt := NoAttempt)
  }

  ghost function Next(s: State, step: Step): State
    requires Enabled(s, step)
  {
    match step
    case Start(u) => With(s, u, Begin)
    case Register(u) => DoRegister(s, u)
    case TakeLock(u) => With(s, u, Holding(s.threads[u].c, s.threads[u].r)).(writeLock := Some(u))
    case Claim(u) => DoClaim(s, u)
    case WriteBlob(u, d) => DoWriteBlob(s, u, d)
    case WriteJob(u) => DoWriteJob(s, u)
    case WriteFails(u) =>
      With(s, u, WriteFailed(s.threads[u].c, s.threads[u].r, s.threads[u].needed)).(writeLock := None)
    case Unclaim(u) => With(s, u, Losing(s.threads[u].c, s.threads[u].r)).(sent := s.sent - s.threads[u].needed)
    case Lose(u) => DoLose(s, u)
    case Signal(u, r) => With(s, u, Signalling(s.threads[u].left - {r})).(answers := s.answers[r := Lost])
    case Leave(u) => Without(s, u)
    case Wake(u) => DoWake(s, u)
    case Read(c) => DoRead(s, c)
    case SignalAnswer(c) => WithReader(s, c, Reading).(answers := s.answers[s.readers[c].r := Got(s.readers[c].frame)])
    case ReadEnd(c) => WithReader(s, c, ReaderLosing)
    case ReaderLose(c) => DoReaderLose(s, c)
    case ReaderSignal(c, r) =>
      WithReader(s, c, ReaderSignalling(s.readers[c].left - {r})).(answers := s.answers[r := Lost])
    case ReaderLeave(c) => WithReader(s, c, ReaderDone)
    case HostRead(c) => DoHostRead(s, c)
    case HostCheck(c, k) => DoHostCheck(s, c, k)
    case HostFinish(c, k, ok, outputs) => DoHostFinish(s, c, k, ok, outputs)
    case HostSend(c) => DoHostSend(s, c)
    case Break(c, keep) => DoBreak(s, c, keep)
    case Forget(lost) => s.(cache := s.cache - lost)
    case Ask => s.(attempt := Asking(s.sent))
    case Greet => s.(attempt := Greeted(s.attempt.digests * s.cache))
    case GiveUp => s.(attempt := NoAttempt)
    case Install(c) => DoInstall(s, c)
  }

  function Initial(): State {
    State(None, NoAttempt, map[], {}, None, map[], map[], 0, {}, map[], map[], {})
  }

  // ---------------------------------------------------------------- runs

  ghost predicate IsRun(states: seq<State>, steps: seq<Step>) {
    && |states| == |steps| + 1
    && forall i :: 0 <= i < |steps| ==> Enabled(states[i], steps[i]) && states[i + 1] == Next(states[i], steps[i])
  }
}

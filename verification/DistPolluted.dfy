/** build, `RemoteHost.execute`: how a thread of a lost connection makes the ledger of the next
    one wrong, so that the safety net is needed, and can be needed twice. */
module DistPolluted {
  import opened Dist
  import opened Options
  import opened DistWake
  import opened DistLedger
  import opened DistAnswers
  import opened DistStable
  import opened DistBehind
  import opened DistRuns
  import opened DistThreat

  /** The steps lead from one state to the other. */
  ghost predicate Leads(s: State, steps: seq<Step>, t: State)
    decreases |steps|
  {
    if steps == [] then s == t
    else Enabled(s, steps[0]) && Leads(Next(s, steps[0]), steps[1..], t)
  }

  lemma {:induction false} LeadsOn(s: State, a: seq<Step>, t: State, b: seq<Step>, r: State)
    requires Leads(s, a, t) && Leads(t, b, r)
    ensures Leads(s, a + b, r)
    decreases |a|
  {
    hide Enabled, Next;
    if a == [] {
      assert a + b == b;
    } else {
      assert (a + b)[1..] == a[1..] + b;
      LeadsOn(Next(s, a[0]), a[1..], t, b, r);
    }
  }

  lemma LeadsOne(s: State, step: Step)
    requires Enabled(s, step)
    ensures Leads(s, [step], Next(s, step))
  {
    hide Next, Enabled;
    assert [step][1..] == [];
    assert Leads(Next(s, step), [], Next(s, step));
  }

  lemma LeadsMore(s: State, steps: seq<Step>, t: State, step: Step)
    requires Leads(s, steps, t) && Enabled(t, step)
    ensures Leads(s, steps + [step], Next(t, step))
  {
    hide Next, Enabled;
    LeadsOne(t, step);
    LeadsOn(s, steps, t, [step], Next(t, step));
  }

  lemma {:induction false} LeadsIsRun(s: State, steps: seq<Step>, t: State) returns (states: seq<State>)
    requires Leads(s, steps, t)
    ensures IsRun(states, steps) && states[0] == s && states[|steps|] == t
    decreases |steps|
  {
    hide Enabled, Next;
    if steps == [] {
      states := [s];
    } else {
      var rest := LeadsIsRun(Next(s, steps[0]), steps[1..], t);
      states := [s] + rest;
    }
  }

  function NewLink(): Link { Link(true, [], [], [], [], []) }
  function DeadLink(): Link { Link(false, [], [], [], [], []) }

  /** `s` with a new connection, over which the host was asked for nothing. */
  function Connected(s: State, c: Conn): State {
    s.(process := Some(c), links := s.links[c := NewLink()], readers := s.readers[c := Reading])
  }

  lemma Connects(s: State, c: Conn)
    requires s.process == None && s.attempt == NoAttempt && NobodySignals(s) && s.sent == {}
    requires c !in s.links && c !in s.readers
    ensures Leads(s, [Ask] + [Greet] + [Install(c)], Connected(s, c))
  {
    hide Leads, Next, Enabled;
    var s1, s2 := s.(attempt := Asking({})), s.(attempt := Greeted({}));
    AsksAndGreets(s, s1, s2);
    LeadsOne(s, Ask);
    LeadsMore(s, [Ask], s1, Greet);
    Installs(s, s2, c);
    LeadsMore(s, [Ask] + [Greet], s2, Install(c));
  }

  lemma AsksAndGreets(s: State, s1: State, s2: State)
    requires s.process == None && s.attempt == NoAttempt && NobodySignals(s) && s.sent == {}
    requires s1 == s.(attempt := Asking({})) && s2 == s.(attempt := Greeted({}))
    ensures Enabled(s, Ask) && Next(s, Ask) == s1 && Enabled(s1, Greet) && Next(s1, Greet) == s2
  {
    assert {} * s.cache == {};
  }

  lemma Installs(s: State, s2: State, c: Conn)
    requires s.process == None && s.sent == {} && s.attempt == NoAttempt && c !in s.links && c !in s.readers
    requires s2 == s.(attempt := Greeted({}))
    ensures Enabled(s2, Install(c)) && Next(s2, Install(c)) == Connected(s, c)
  {
  }

  /** The first connection is there and two threads have registered on it. */
  function TwoWait(a: Uid, e: Uid): State {
    State(Some(0), NoAttempt, map[a := 0, e := 1], {}, None, map[a := Registered(0, 0), e := Registered(0, 1)],
          map[], 2, {}, map[0 := Reading], map[0 := NewLink()], {})
  }

  lemma FirstRegister(a: Uid, e: Uid)
    requires a != e
    ensures Leads(Connected(Initial(), 0), [Start(a)] + [Register(a)] + [Start(e)] + [Register(e)], TwoWait(a, e))
  {
    hide Leads;
    var s0 := Connected(Initial(), 0);
    LeadsOne(s0, Start(a));
    var s1 := s0.(threads := map[a := Begin]);
    LeadsMore(s0, [Start(a)], s1, Register(a));
    var s2 := s0.(threads := map[a := Registered(0, 0)], pending := map[a := 0], next := 1);
    assert Next(s1, Register(a)) == s2;
    LeadsMore(s0, [Start(a)] + [Register(a)], s2, Start(e));
    var s3 := s2.(threads := map[a := Registered(0, 0), e := Begin]);
    assert Next(s2, Start(e)) == s3;
    LeadsMore(s0, [Start(a)] + [Register(a)] + [Start(e)], s3, Register(e));
    assert Next(s3, Register(e)) == TwoWait(a, e);
  }

  /** The connection is lost before one of them has the lock; its reader has found that out. */
  function Found(a: Uid, e: Uid): State {
    TwoWait(a, e).(links := map[0 := DeadLink()], readers := map[0 := ReaderLosing])
  }

  lemma IsLost(a: Uid, e: Uid)
    ensures Leads(TwoWait(a, e), [Break(0, 0)] + [ReadEnd(0)], Found(a, e))
  {
    hide Leads, Next, Enabled;
    var s1 := TwoWait(a, e).(links := map[0 := DeadLink()]);
    Breaks(a, e);
    LeadsOne(TwoWait(a, e), Break(0, 0));
    Ends(a, e, s1);
    LeadsMore(TwoWait(a, e), [Break(0, 0)], s1, ReadEnd(0));
  }

  lemma Breaks(a: Uid, e: Uid)
    ensures Enabled(TwoWait(a, e), Break(0, 0))
    ensures Next(TwoWait(a, e), Break(0, 0)) == TwoWait(a, e).(links := map[0 := DeadLink()])
  {
    assert TwoWait(a, e).links[0].up[..0] == [];
  }

  lemma Ends(a: Uid, e: Uid, s: State)
    requires s == TwoWait(a, e).(links := map[0 := DeadLink()])
    ensures Enabled(s, ReadEnd(0)) && Next(s, ReadEnd(0)) == Found(a, e)
  {
  }

  /** The reader has given the connection up, signalled the replies that waited, and left. */
  function Cut(a: Uid, e: Uid): State {
    State(None, NoAttempt, map[], {}, None, map[a := Registered(0, 0), e := Registered(0, 1)],
          map[0 := Lost, 1 := Lost], 2, {}, map[0 := ReaderDone], map[0 := DeadLink()], {})
  }

  /** On the way there, with some replies yet to signal. */
  function Cutting(a: Uid, e: Uid, answers: map<Reply, Answer>, left: set<Reply>): State {
    Cut(a, e).(answers := answers, readers := map[0 := ReaderSignalling(left)])
  }

  lemma IsGivenUp(a: Uid, e: Uid)
    requires a != e
    ensures Leads(Found(a, e), [ReaderLose(0)] + [ReaderSignal(0, 0)] + [ReaderSignal(0, 1)] + [ReaderLeave(0)],
                  Cut(a, e))
  {
    hide Leads, Next, Enabled, Cutting;
    var lost: map<Reply, Answer> := map[0 := Lost];
    var s1, s2 := Cutting(a, e, map[], {0, 1}), Cutting(a, e, lost, {1});
    var s3 := Cutting(a, e, lost[1 := Lost], {});
    Drops(a, e);
    LeadsOne(Found(a, e), ReaderLose(0));
    Signals(a, e);
    LeadsMore(Found(a, e), [ReaderLose(0)], s1, ReaderSignal(0, 0));
    LeadsMore(Found(a, e), [ReaderLose(0)] + [ReaderSignal(0, 0)], s2, ReaderSignal(0, 1));
    Leaves(a, e);
    LeadsMore(Found(a, e), [ReaderLose(0)] + [ReaderSignal(0, 0)] + [ReaderSignal(0, 1)], s3, ReaderLeave(0));
  }

  lemma Drops(a: Uid, e: Uid)
    requires a != e
    ensures Enabled(Found(a, e), ReaderLose(0)) && Next(Found(a, e), ReaderLose(0)) == Cutting(a, e, map[], {0, 1})
  {
    hide LostReplies;
    TwoLost(a, e, Found(a, e));
  }

  lemma TwoLost(a: Uid, e: Uid, s: State)
    requires a != e && s.pending == map[a := 0, e := 1]
    ensures LostReplies(s) == {0, 1}
  {
    assert s.pending[a] in s.pending.Values && s.pending[e] in s.pending.Values;
  }

  lemma Signals(a: Uid, e: Uid)
    ensures Enabled(Cutting(a, e, map[], {0, 1}), ReaderSignal(0, 0))
    ensures Next(Cutting(a, e, map[], {0, 1}), ReaderSignal(0, 0)) == Cutting(a, e, map[0 := Lost], {1})
    ensures Enabled(Cutting(a, e, map[0 := Lost], {1}), ReaderSignal(0, 1))
    ensures Next(Cutting(a, e, map[0 := Lost], {1}), ReaderSignal(0, 1)) == Cutting(a, e, map[0 := Lost][1 := Lost], {})
  {
    assert {0, 1} - {0} == {1} && {1} - {1} == {};
  }

  lemma Leaves(a: Uid, e: Uid)
    ensures Enabled(Cutting(a, e, map[0 := Lost][1 := Lost], {}), ReaderLeave(0))
    ensures Next(Cutting(a, e, map[0 := Lost][1 := Lost], {}), ReaderLeave(0)) == Cut(a, e)
  {
  }

  /** The next connection is there; both threads still hold the old one. */
  function Strays(a: Uid, e: Uid, pc: Pc, sent: set<Digest>, lock: Option<Uid>): State {
    Connected(Cut(a, e), 1).(threads := map[a := pc, e := Registered(0, 1)], sent := sent, writeLock := lock)
  }

  /** The first of them has claimed its blob. */
  function Claimed(a: Uid, e: Uid, d: Digest): State {
    Strays(a, e, Writing(0, 0, {d}, {d}), {d}, Some(a))
  }

  lemma StrayClaims(a: Uid, e: Uid, d: Digest)
    requires a != e && a.blobs == {d}
    ensures Leads(Strays(a, e, Registered(0, 0), {}, None), [TakeLock(a)] + [Claim(a)], Claimed(a, e, d))
  {
    hide Leads;
    var s0 := Strays(a, e, Registered(0, 0), {}, None);
    LeadsOne(s0, TakeLock(a));
    var s1 := Strays(a, e, Holding(0, 0), {}, Some(a));
    assert Next(s0, TakeLock(a)) == s1;
    LeadsMore(s0, [TakeLock(a)], s1, Claim(a));
    assert a.blobs - {} == {d} && {} + a.blobs == {d};
    assert Next(s1, Claim(a)) == Claimed(a, e, d);
  }

  lemma LeadsToClaimed(a: Uid, e: Uid, d: Digest) returns (steps: seq<Step>)
    requires a != e && a.blobs == {d}
    ensures forall x :: x in steps ==> !x.Forget?
    ensures Leads(Initial(), steps, Claimed(a, e, d))
  {
    hide Leads, Connected, TwoWait, Found;
    steps := [Ask] + [Greet] + [Install(0)];
    Connects(Initial(), 0);
    FirstRegister(a, e);
    var more := [Start(a)] + [Register(a)] + [Start(e)] + [Register(e)];
    LeadsOn(Initial(), steps, Connected(Initial(), 0), more, TwoWait(a, e));
    steps := steps + more;
    IsLost(a, e);
    LeadsOn(Initial(), steps, TwoWait(a, e), [Break(0, 0)] + [ReadEnd(0)], Found(a, e));
    steps := steps + ([Break(0, 0)] + [ReadEnd(0)]);
    IsGivenUp(a, e);
    more := [ReaderLose(0)] + [ReaderSignal(0, 0)] + [ReaderSignal(0, 1)] + [ReaderLeave(0)];
    LeadsOn(Initial(), steps, Found(a, e), more, Cut(a, e));
    steps := steps + more;
    more := Reconnects(a, e, d);
    LeadsOn(Initial(), steps, Cut(a, e), more, Claimed(a, e, d));
    steps := steps + more;
  }

  lemma Reconnects(a: Uid, e: Uid, d: Digest) returns (steps: seq<Step>)
    requires a != e && a.blobs == {d}
    ensures forall x :: x in steps ==> !x.Forget?
    ensures Leads(Cut(a, e), steps, Claimed(a, e, d))
  {
    hide Leads;
    steps := [Ask] + [Greet] + [Install(1)];
    Connects(Cut(a, e), 1);
    assert Connected(Cut(a, e), 1) == Strays(a, e, Registered(0, 0), {}, None);
    StrayClaims(a, e, d);
    LeadsOn(Cut(a, e), steps, Strays(a, e, Registered(0, 0), {}, None), [TakeLock(a)] + [Claim(a)], Claimed(a, e, d));
    steps := steps + ([TakeLock(a)] + [Claim(a)]);
  }

  /** Across a reconnect the ledger can be wrong: this state is reached before the write to the
      old connection fails, the new connection is up with nothing in flight, and the ledger names
      a blob that the host does not have. */
  lemma LedgerCanBeWrong(a: Uid, e: Uid, d: Digest) returns (states: seq<State>, steps: seq<Step>)
    requires a != e && a.blobs == {d}
    ensures IsRun(states, steps) && states[0] == Initial() && forall x :: x in steps ==> !x.Forget?
    ensures Line(states[|steps|], 1) && Frames(states[|steps|]) && !Trusted(states[|steps|], 1, a)
  {
    hide Leads, IsRun, Enabled, Next;
    steps := LeadsToClaimed(a, e, d);
    var t := Claimed(a, e, d);
    states := LeadsIsRun(Initial(), steps, t);
    assert d in a.blobs && d in t.sent && !Shipped(t, 1, d);
  }

  // ---------------------------------------------------------------- the answer it draws

  /** The write has failed, and another job is under way on the new connection. */
  function Beside(a: Uid, e: Uid, d: Digest, b: Uid, pc: Pc, lock: Option<Uid>, link: Link): State {
    Strays(a, e, WriteFailed(0, 0, {d}), {d}, lock).(
      threads := map[a := WriteFailed(0, 0, {d}), e := Registered(0, 1), b := pc], pending := map[b := 2], next := 3,
      links := map[0 := DeadLink(), 1 := link])
  }

  ghost predicate Apart(a: Uid, e: Uid, b: Uid) {
    a != e && a != b && e != b
  }

  lemma OtherRegisters(a: Uid, e: Uid, d: Digest, b: Uid)
    requires Apart(a, e, b)
    ensures Leads(Claimed(a, e, d), [WriteFails(a)] + [Start(b)] + [Register(b)],
                  Beside(a, e, d, b, Registered(1, 2), None, NewLink()))
  {
    hide Leads;
    var s0 := Claimed(a, e, d);
    var s1 := Strays(a, e, WriteFailed(0, 0, {d}), {d}, None);
    LeadsOne(s0, WriteFails(a));
    assert Next(s0, WriteFails(a)) == s1;
    LeadsMore(s0, [WriteFails(a)], s1, Start(b));
    var s2 := s1.(threads := map[a := WriteFailed(0, 0, {d}), e := Registered(0, 1), b := Begin]);
    assert Next(s1, Start(b)) == s2;
    LeadsMore(s0, [WriteFails(a)] + [Start(b)], s2, Register(b));
    assert Next(s2, Register(b)) == Beside(a, e, d, b, Registered(1, 2), None, NewLink());
  }

  /** It finds its blob in the ledger and sends only the job. */
  lemma OtherClaims(a: Uid, e: Uid, d: Digest, b: Uid)
    requires Apart(a, e, b) && b.blobs == {d}
    ensures Leads(Beside(a, e, d, b, Registered(1, 2), None, NewLink()), [TakeLock(b)] + [Claim(b)],
                  Beside(a, e, d, b, Writing(1, 2, {}, {}), Some(b), NewLink()))
  {
    hide Leads;
    var s0 := Beside(a, e, d, b, Registered(1, 2), None, NewLink());
    LeadsOne(s0, TakeLock(b));
    var s1 := Beside(a, e, d, b, Holding(1, 2), Some(b), NewLink());
    assert Next(s0, TakeLock(b)) == s1;
    LeadsMore(s0, [TakeLock(b)], s1, Claim(b));
    assert b.blobs - {d} == {} && {d} + {} == {d};
    assert Next(s1, Claim(b)) == Beside(a, e, d, b, Writing(1, 2, {}, {}), Some(b), NewLink());
  }

  lemma OtherWrites(a: Uid, e: Uid, d: Digest, b: Uid)
    requires Apart(a, e, b)
    ensures Leads(Beside(a, e, d, b, Writing(1, 2, {}, {}), Some(b), NewLink()), [WriteJob(b)] + [HostRead(1)],
                  Beside(a, e, d, b, Waiting(1, 2), None, NewLink().(queued := [Job(b, 2)])))
  {
    hide Leads;
    var s0 := Beside(a, e, d, b, Writing(1, 2, {}, {}), Some(b), NewLink());
    LeadsOne(s0, WriteJob(b));
    var s1 := Beside(a, e, d, b, Waiting(1, 2), None, NewLink().(down := [JobDown(Job(b, 2))]));
    assert s0.links[1].down + [JobDown(Job(b, 2))] == [JobDown(Job(b, 2))];
    assert Next(s0, WriteJob(b)) == s1;
    LeadsMore(s0, [WriteJob(b)], s1, HostRead(1));
    assert s1.links[1].down[1..] == [] && s1.links[1].queued + [Job(b, 2)] == [Job(b, 2)];
    assert Next(s1, HostRead(1)) == Beside(a, e, d, b, Waiting(1, 2), None, NewLink().(queued := [Job(b, 2)]));
  }

  /** The host answers that the blob is missing. */
  function Missed(a: Uid, e: Uid, d: Digest, b: Uid): State {
    Beside(a, e, d, b, Waiting(1, 2), None, NewLink().(up := [Missing(b, {d})]))
  }

  lemma HostMisses(a: Uid, e: Uid, d: Digest, b: Uid)
    requires Apart(a, e, b) && b.blobs == {d}
    ensures Leads(Beside(a, e, d, b, Waiting(1, 2), None, NewLink().(queued := [Job(b, 2)])), [HostCheck(1, 0)],
                  Missed(a, e, d, b))
  {
    hide Leads;
    var s0 := Beside(a, e, d, b, Waiting(1, 2), None, NewLink().(queued := [Job(b, 2)]));
    LeadsOne(s0, HostCheck(1, 0));
    assert Removed([Job(b, 2)], 0) == [] && b.blobs - s0.cache == {d};
    assert s0.links[1].up + [Missing(b, {d})] == [Missing(b, {d})];
    assert Next(s0, HostCheck(1, 0)) == Missed(a, e, d, b);
  }

  lemma LeadsToMissed(a: Uid, e: Uid, d: Digest, b: Uid) returns (steps: seq<Step>)
    requires a.blobs == {d} && b.blobs == {d} && Apart(a, e, b)
    ensures Leads(Initial(), steps, Missed(a, e, d, b)) && forall x :: x in steps ==> !x.Forget?
  {
    hide Leads, Strays, Claimed, Beside, Missed;
    steps := LeadsToClaimed(a, e, d);
    OtherRegisters(a, e, d, b);
    var t1 := Beside(a, e, d, b, Registered(1, 2), None, NewLink());
    LeadsOn(Initial(), steps, Claimed(a, e, d), [WriteFails(a)] + [Start(b)] + [Register(b)], t1);
    steps := steps + ([WriteFails(a)] + [Start(b)] + [Register(b)]);
    OtherClaims(a, e, d, b);
    var t2 := Beside(a, e, d, b, Writing(1, 2, {}, {}), Some(b), NewLink());
    LeadsOn(Initial(), steps, t1, [TakeLock(b)] + [Claim(b)], t2);
    steps := steps + ([TakeLock(b)] + [Claim(b)]);
    OtherWrites(a, e, d, b);
    var t3 := Beside(a, e, d, b, Waiting(1, 2), None, NewLink().(queued := [Job(b, 2)]));
    LeadsOn(Initial(), steps, t2, [WriteJob(b)] + [HostRead(1)], t3);
    steps := steps + ([WriteJob(b)] + [HostRead(1)]);
    HostMisses(a, e, d, b);
    LeadsOn(Initial(), steps, t3, [HostCheck(1, 0)], Missed(a, e, d, b));
    steps := steps + [HostCheck(1, 0)];
  }

  /** Then a job that never had to do with the lost connection draws a missing answer, over a
      connection that holds and from a host that has lost nothing. */
  lemma MissingCanBeDrawn(a: Uid, e: Uid, d: Digest, b: Uid) returns (states: seq<State>, steps: seq<Step>)
    requires a.blobs == {d} && b.blobs == {d} && Apart(a, e, b)
    ensures IsRun(states, steps) && states[0] == Initial() && forall x :: x in steps ==> !x.Forget?
    ensures states[|steps|] == Missed(a, e, d, b)
  {
    hide Leads, IsRun, Missed;
    steps := LeadsToMissed(a, e, d, b);
    states := LeadsIsRun(Initial(), steps, Missed(a, e, d, b));
  }

  // ---------------------------------------------------------------- and the one after it

  /** The answer has come to the thread. */
  function Told(a: Uid, e: Uid, d: Digest, b: Uid): State {
    Beside(a, e, d, b, Waiting(1, 2), None, NewLink()).(
      pending := map[], answers := map[0 := Lost, 1 := Lost, 2 := Got(Missing(b, {d}))])
  }

  lemma ReaderTells(a: Uid, e: Uid, d: Digest, b: Uid)
    ensures Leads(Missed(a, e, d, b), [Read(1)] + [SignalAnswer(1)], Told(a, e, d, b))
  {
    hide Leads, Next, Enabled, Missed, Told;
    var s1 := Beside(a, e, d, b, Waiting(1, 2), None, NewLink()).(
      pending := map[], readers := map[0 := ReaderDone, 1 := Popped(2, Missing(b, {d}))]);
    ReaderPops(a, e, d, b, s1);
    LeadsOne(Missed(a, e, d, b), Read(1));
    ReaderSignals(a, e, d, b, s1);
    LeadsMore(Missed(a, e, d, b), [Read(1)], s1, SignalAnswer(1));
  }

  lemma ReaderPops(a: Uid, e: Uid, d: Digest, b: Uid, s: State)
    requires s == Beside(a, e, d, b, Waiting(1, 2), None, NewLink()).(
                    pending := map[], readers := map[0 := ReaderDone, 1 := Popped(2, Missing(b, {d}))])
    ensures Enabled(Missed(a, e, d, b), Read(1)) && Next(Missed(a, e, d, b), Read(1)) == s
  {
    assert Missed(a, e, d, b).links[1].up[1..] == [];
  }

  lemma ReaderSignals(a: Uid, e: Uid, d: Digest, b: Uid, s: State)
    requires s == Beside(a, e, d, b, Waiting(1, 2), None, NewLink()).(
                    pending := map[], readers := map[0 := ReaderDone, 1 := Popped(2, Missing(b, {d}))])
    ensures Enabled(s, SignalAnswer(1)) && Next(s, SignalAnswer(1)) == Told(a, e, d, b)
  {
  }

  /** One retry need not be enough: the second thread of the lost connection can still claim the
      blob, and then the retry draws a missing answer too. From the first answer on the connection
      holds. */
  lemma MissingCanBeDrawnTwice(a: Uid, e: Uid, d: Digest, b: Uid)
    returns (states: seq<State>, steps: seq<Step>, wake: nat, k: nat)
    requires a.blobs == {d} && e.blobs == {d} && b.blobs == {d} && Apart(a, e, b)
    ensures IsRun(states, steps) && states[0] == Initial() && forall x :: x in steps ==> !x.Forget?
    ensures wake < |steps| && states[wake] == Told(a, e, d, b) && steps[wake] == Wake(b)
    ensures forall i :: wake <= i < |steps| ==> Holds(steps[i], 1)
    ensures Enabled(states[|steps|], HostCheck(1, k)) && states[|steps|].links[1].queued[k].uid == b
    ensures d !in states[|steps|].cache
  {
    hide Leads, Missed, Told, Enabled, Next;
    var first := LeadsToMissed(a, e, d, b);
    ReaderTells(a, e, d, b);
    var s := Told(a, e, d, b);
    LeadsOn(Initial(), first, Missed(a, e, d, b), [Read(1)] + [SignalAnswer(1)], s);
    first := first + ([Read(1)] + [SignalAnswer(1)]);
    var before := LeadsIsRun(Initial(), first, s);
    var t, after, more, l := RetryMisses(a, e, d, b, before, first);
    wake, k := |first|, l;
    states, steps := before + after, first + [Wake(b)] + more;
    Joined(before, first, Wake(b), after, more);
  }

  lemma Joined(before: seq<State>, first: seq<Step>, step: Step, after: seq<State>, more: seq<Step>)
    requires IsRun(before, first) && IsRun(after, more)
    requires Enabled(before[|first|], step) && after[0] == Next(before[|first|], step)
    ensures IsRun(before + after, first + [step] + more)
  {
    hide Enabled, Next;
  }

  lemma RetryMisses(a: Uid, e: Uid, d: Digest, b: Uid, before: seq<State>, first: seq<Step>)
    returns (t: State, after: seq<State>, more: seq<Step>, k: nat)
    requires e.blobs == {d} && b.blobs == {d} && Apart(a, e, b)
    requires IsRun(before, first) && before[0] == Initial() && before[|first|] == Told(a, e, d, b)
    requires forall x :: x in first ==> !x.Forget?
    ensures Enabled(Told(a, e, d, b), Wake(b)) && Holds(Wake(b), 1)
    ensures HoldingRun(after, more, 1) && after[0] == Next(Told(a, e, d, b), Wake(b)) && after[|more|] == t
    ensures Checks(t, 1, k, b, 3) && d !in t.cache
  {
    hide IsRun, OnLine, Checks, Told, Next, Enabled, Unthreatened, NeverMisses, Holds, ResultsSafe;
    var s := Told(a, e, d, b);
    ToldIsOnLine(a, e, d, b, before, first);
    ToldIsThreatened(a, e, d, b);
    OneRetrySufficesIff(s, 1, b);
    after, more, k := RunToMissing(Next(s, Wake(b)), 1, b);
    t := after[|more|];
  }

  lemma ToldIsOnLine(a: Uid, e: Uid, d: Digest, b: Uid, before: seq<State>, first: seq<Step>)
    requires Apart(a, e, b) && IsRun(before, first) && before[0] == Initial() && before[|first|] == Told(a, e, d, b)
    requires forall x :: x in first ==> !x.Forget?
    ensures OnLine(Told(a, e, d, b), 1)
  {
    hide OnLine, IsRun;
    UpIsOnLine(before, first, |first|, 1);
  }

  /** The second thread still holds the lost connection, and nobody is about to claim the blob. */
  lemma ToldIsThreatened(a: Uid, e: Uid, d: Digest, b: Uid)
    requires e.blobs == {d} && b.blobs == {d} && Apart(a, e, b)
    ensures Enabled(Told(a, e, d, b), Wake(b)) && Holds(Wake(b), 1) && 1 in Next(Told(a, e, d, b), Wake(b)).links
    ensures Told(a, e, d, b).threads[b].r == 2 && Told(a, e, d, b).answers[2] == Got(Missing(b, {d}))
    ensures Next(Told(a, e, d, b), Wake(b)).next == 3 && !Unthreatened(Next(Told(a, e, d, b), Wake(b)), 1, b)
  {
    var s2 := Next(Told(a, e, d, b), Wake(b));
    assert Stale(s2, e, 1) && d in e.blobs && d in b.blobs && !Shipped(s2, 1, d) && !ToBeClaimed(s2, 1, d);
  }
}

/** build, `RemoteHost.execute`: without any lost connection, a host that loses a blob can draw a
    second missing answer, because a result that named the blob was still to be taken. */
module DistForgotten {
  import opened Dist
  import opened Options
  import opened DistWake
  import opened DistLedger
  import opened DistAnswers
  import opened DistStable
  import opened DistBehind
  import opened DistRuns
  import opened DistThreat
  import opened DistPolluted

  /** Two threads on the first connection. */
  function Here(a: Uid, b: Uid, pa: Pc, pb: Pc, lock: Option<Uid>, sent: set<Digest>, link: Link,
                cache: set<Digest>): State {
    TwoWait(a, b).(threads := map[a := pa, b := pb], writeLock := lock, sent := sent, links := map[0 := link],
                   cache := cache)
  }

  function Done(a: Uid, d: Digest): Up {
    Result(a, {d})
  }

  function JobA(a: Uid): Job { Job(a, 0) }
  function JobB(b: Uid): Job { Job(b, 1) }

  lemma TwoMore(s: State, steps: seq<Step>, t: State, x: Step, t1: State, y: Step, t2: State)
    requires Leads(s, steps, t) && Enabled(t, x) && Next(t, x) == t1 && Enabled(t1, y) && Next(t1, y) == t2
    ensures Leads(s, steps + [x] + [y], t2)
  {
    hide Leads, Next, Enabled;
    LeadsMore(s, steps, t, x);
    LeadsMore(s, steps + [x], t1, y);
  }

  // ---------------------------------------------------------------- the first job runs

  function Claimed1(a: Uid, b: Uid): State {
    Here(a, b, Writing(0, 0, {}, {}), Registered(0, 1), Some(a), {}, NewLink(), {})
  }

  lemma FirstClaims(a: Uid, b: Uid)
    requires a != b && a.blobs == {}
    ensures Enabled(TwoWait(a, b), TakeLock(a))
    ensures var s1 := Next(TwoWait(a, b), TakeLock(a));
            Enabled(s1, Claim(a)) && Next(s1, Claim(a)) == Claimed1(a, b)
  {
    var none: set<Digest> := {};
    assert none - none == none && none + none == none;
    assert Next(TwoWait(a, b), TakeLock(a)) == Here(a, b, Holding(0, 0), Registered(0, 1), Some(a), {}, NewLink(), {});
  }

  function Queued1(a: Uid, b: Uid): State {
    Here(a, b, Waiting(0, 0), Registered(0, 1), None, {}, NewLink().(queued := [JobA(a)]), {})
  }

  lemma FirstQueues(a: Uid, b: Uid)
    requires a != b
    ensures Enabled(Claimed1(a, b), WriteJob(a))
    ensures var s1 := Next(Claimed1(a, b), WriteJob(a));
            Enabled(s1, HostRead(0)) && Next(s1, HostRead(0)) == Queued1(a, b)
  {
    var l := NewLink();
    assert l.down + [JobDown(JobA(a))] == [JobDown(JobA(a))] && [JobDown(JobA(a))][1..] == [];
    assert l.queued + [JobA(a)] == [JobA(a)];
    assert Next(Claimed1(a, b), WriteJob(a))
        == Here(a, b, Waiting(0, 0), Registered(0, 1), None, {}, l.(down := [JobDown(JobA(a))]), {});
  }

  function Ran1(a: Uid, b: Uid, d: Digest): State {
    Here(a, b, Waiting(0, 0), Registered(0, 1), None, {}, NewLink().(outbox := [Done(a, d)]), {d})
  }

  function Running1(a: Uid, b: Uid): State {
    Here(a, b, Waiting(0, 0), Registered(0, 1), None, {}, NewLink().(running := [JobA(a)]), {})
  }

  lemma FirstRuns(a: Uid, b: Uid)
    requires a.blobs == {}
    ensures Enabled(Queued1(a, b), HostCheck(0, 0)) && Next(Queued1(a, b), HostCheck(0, 0)) == Running1(a, b)
  {
    var none: set<Digest> := {};
    assert a.blobs - none == none;
    assert Removed([JobA(a)], 0) == [] && NewLink().running + [JobA(a)] == [JobA(a)];
  }

  lemma FirstFinishes(a: Uid, b: Uid, d: Digest)
    ensures Enabled(Running1(a, b), HostFinish(0, 0, true, {d}))
    ensures Next(Running1(a, b), HostFinish(0, 0, true, {d})) == Ran1(a, b, d)
  {
    var none: set<Digest> := {};
    assert none + {d} == {d} && Removed([JobA(a)], 0) == [] && NewLink().outbox + [Done(a, d)] == [Done(a, d)];
  }

  // ---------------------------------------------------------------- the second is sent

  function Claimed2(a: Uid, b: Uid, d: Digest): State {
    Here(a, b, Waiting(0, 0), Writing(0, 1, {d}, {d}), Some(b), {d}, NewLink().(outbox := [Done(a, d)]), {d})
  }

  lemma SecondClaims(a: Uid, b: Uid, d: Digest)
    requires a != b && b.blobs == {d}
    ensures Enabled(Ran1(a, b, d), TakeLock(b))
    ensures var s1 := Next(Ran1(a, b, d), TakeLock(b));
            Enabled(s1, Claim(b)) && Next(s1, Claim(b)) == Claimed2(a, b, d)
  {
    var none: set<Digest> := {};
    assert b.blobs - none == {d} && none + {d} == {d};
    assert Next(Ran1(a, b, d), TakeLock(b))
        == Here(a, b, Waiting(0, 0), Holding(0, 1), Some(b), {}, NewLink().(outbox := [Done(a, d)]), {d});
  }

  function Written2(a: Uid, b: Uid, d: Digest): State {
    Here(a, b, Waiting(0, 0), Waiting(0, 1), None, {d},
         NewLink().(outbox := [Done(a, d)], down := [BlobDown(d), JobDown(JobB(b))]), {d})
  }

  function Blobbed2(a: Uid, b: Uid, d: Digest): State {
    Here(a, b, Waiting(0, 0), Writing(0, 1, {d}, {}), Some(b), {d},
         NewLink().(outbox := [Done(a, d)], down := [BlobDown(d)]), {d})
  }

  lemma SecondWritesBlob(a: Uid, b: Uid, d: Digest)
    requires a != b
    ensures Enabled(Claimed2(a, b, d), WriteBlob(b, d)) && Next(Claimed2(a, b, d), WriteBlob(b, d)) == Blobbed2(a, b, d)
  {
    assert {d} - {d} == {} && NewLink().down + [BlobDown(d)] == [BlobDown(d)];
  }

  lemma SecondWritesJob(a: Uid, b: Uid, d: Digest)
    requires a != b
    ensures Enabled(Blobbed2(a, b, d), WriteJob(b)) && Next(Blobbed2(a, b, d), WriteJob(b)) == Written2(a, b, d)
  {
    assert [BlobDown(d)] + [JobDown(JobB(b))] == [BlobDown(d), JobDown(JobB(b))];
  }

  function Queued2(a: Uid, b: Uid, d: Digest): State {
    Here(a, b, Waiting(0, 0), Waiting(0, 1), None, {d},
         NewLink().(outbox := [Done(a, d)], queued := [JobB(b)]), {d})
  }

  lemma SecondQueues(a: Uid, b: Uid, d: Digest)
    requires a != b
    ensures Enabled(Written2(a, b, d), HostRead(0))
    ensures var s1 := Next(Written2(a, b, d), HostRead(0));
            Enabled(s1, HostRead(0)) && Next(s1, HostRead(0)) == Queued2(a, b, d)
  {
    var l := NewLink().(outbox := [Done(a, d)]);
    assert [BlobDown(d), JobDown(JobB(b))][1..] == [JobDown(JobB(b))] && [JobDown(JobB(b))][1..] == [];
    assert l.queued + [JobB(b)] == [JobB(b)] && {d} + {d} == {d};
    assert Next(Written2(a, b, d), HostRead(0))
        == Here(a, b, Waiting(0, 0), Waiting(0, 1), None, {d}, l.(down := [JobDown(JobB(b))]), {d});
  }

  // ---------------------------------------------------------------- the host loses the blob

  function Sent(a: Uid, b: Uid, d: Digest, cache: set<Digest>): State {
    Here(a, b, Waiting(0, 0), Waiting(0, 1), None, {d},
         NewLink().(up := [BlobUp(d), Done(a, d)], queued := [JobB(b)]), cache)
  }

  lemma OneBlob(d: Digest)
    ensures BlobFrames({d}) == [BlobUp(d)]
  {
    hide BlobFrames;
    assert |BlobFrames({d})| == 1 && BlobUp(d) in BlobFrames({d});
  }

  lemma HostSendsAndForgets(a: Uid, b: Uid, d: Digest)
    requires a != b
    ensures Enabled(Queued2(a, b, d), HostSend(0)) && Next(Queued2(a, b, d), HostSend(0)) == Sent(a, b, d, {d})
    ensures Enabled(Sent(a, b, d, {d}), Forget({d})) && Next(Sent(a, b, d, {d}), Forget({d})) == Sent(a, b, d, {})
  {
    hide BlobFrames;
    OneBlob(d);
    assert [Done(a, d)][1..] == [] && [] + [BlobUp(d)] + [Done(a, d)] == [BlobUp(d), Done(a, d)];
    assert {d} - {d} == {};
  }

  function Missed2(a: Uid, b: Uid, d: Digest): State {
    Here(a, b, Waiting(0, 0), Waiting(0, 1), None, {d},
         NewLink().(up := [BlobUp(d), Done(a, d), Missing(b, {d})]), {})
  }

  /** What the reader does with the three frames. */
  function Reached(a: Uid, b: Uid, d: Digest, up: seq<Up>, pending: map<Uid, Reply>, answers: map<Reply, Answer>,
                   reader: Reader): State {
    Missed2(a, b, d).(links := map[0 := NewLink().(up := up)], pending := pending, answers := answers,
                      readers := map[0 := reader], local := {d})
  }

  lemma HostMissesAndBlobArrives(a: Uid, b: Uid, d: Digest)
    requires a != b && b.blobs == {d}
    ensures Enabled(Sent(a, b, d, {}), HostCheck(0, 0)) && Next(Sent(a, b, d, {}), HostCheck(0, 0)) == Missed2(a, b, d)
    ensures Enabled(Missed2(a, b, d), Read(0))
    ensures Next(Missed2(a, b, d), Read(0))
         == Reached(a, b, d, [Done(a, d), Missing(b, {d})], map[a := 0, b := 1], map[], Reading)
  {
    assert Removed([JobB(b)], 0) == [] && b.blobs - {} == {d};
    assert [BlobUp(d), Done(a, d)] + [Missing(b, {d})] == [BlobUp(d), Done(a, d), Missing(b, {d})];
    assert [BlobUp(d), Done(a, d), Missing(b, {d})][1..] == [Done(a, d), Missing(b, {d})];
    var none: set<Digest> := {};
    assert none + {d} == {d};
  }

  function Half(a: Uid, b: Uid, d: Digest): State {
    Reached(a, b, d, [Missing(b, {d})], map[b := 1], map[0 := Got(Done(a, d))], Reading)
  }

  function Popped1(a: Uid, b: Uid, d: Digest): State {
    Reached(a, b, d, [Missing(b, {d})], map[b := 1], map[], Popped(0, Done(a, d)))
  }

  lemma FirstIsPopped(a: Uid, b: Uid, d: Digest)
    requires a != b
    ensures var s0 := Reached(a, b, d, [Done(a, d), Missing(b, {d})], map[a := 0, b := 1], map[], Reading);
            Enabled(s0, Read(0)) && Next(s0, Read(0)) == Popped1(a, b, d)
  {
    assert [Done(a, d), Missing(b, {d})][1..] == [Missing(b, {d})] && map[a := 0, b := 1] - {a} == map[b := 1];
  }

  lemma FirstIsTold(a: Uid, b: Uid, d: Digest)
    ensures Enabled(Popped1(a, b, d), SignalAnswer(0)) && Next(Popped1(a, b, d), SignalAnswer(0)) == Half(a, b, d)
  {
  }

  /** Both threads have their answers. */
  function BothTold(a: Uid, b: Uid, d: Digest): State {
    Reached(a, b, d, [], map[], map[0 := Got(Done(a, d)), 1 := Got(Missing(b, {d}))], Reading)
  }

  lemma SecondIsTold(a: Uid, b: Uid, d: Digest)
    requires a != b
    ensures Enabled(Half(a, b, d), Read(0))
    ensures var s1 := Next(Half(a, b, d), Read(0));
            Enabled(s1, SignalAnswer(0)) && Next(s1, SignalAnswer(0)) == BothTold(a, b, d)
  {
    assert [Missing(b, {d})][1..] == [] && map[b := 1] - {b} == map[];
    assert Next(Half(a, b, d), Read(0))
        == Reached(a, b, d, [], map[], map[0 := Got(Done(a, d))], Popped(1, Missing(b, {d})));
  }

  // ---------------------------------------------------------------- the whole run

  lemma LeadsToQueued(a: Uid, b: Uid, d: Digest) returns (steps: seq<Step>)
    requires a != b && a.blobs == {} && b.blobs == {d}
    ensures Leads(Initial(), steps, Queued2(a, b, d)) && forall x :: x in steps ==> !x.Forget?
  {
    hide Leads, Next, Enabled, Connected, TwoWait, Claimed1, Queued1, Ran1, Claimed2, Written2, Queued2, Running1,
      Blobbed2;
    steps := [Ask] + [Greet] + [Install(0)];
    Connects(Initial(), 0);
    FirstRegister(a, b);
    var more := [Start(a)] + [Register(a)] + [Start(b)] + [Register(b)];
    LeadsOn(Initial(), steps, Connected(Initial(), 0), more, TwoWait(a, b));
    steps := steps + more;
    FirstClaims(a, b);
    TwoMore(Initial(), steps, TwoWait(a, b), TakeLock(a), Next(TwoWait(a, b), TakeLock(a)), Claim(a), Claimed1(a, b));
    steps := steps + [TakeLock(a)] + [Claim(a)];
    FirstQueues(a, b);
    TwoMore(Initial(), steps, Claimed1(a, b), WriteJob(a), Next(Claimed1(a, b), WriteJob(a)), HostRead(0),
            Queued1(a, b));
    steps := steps + [WriteJob(a)] + [HostRead(0)];
    FirstRuns(a, b);
    FirstFinishes(a, b, d);
    TwoMore(Initial(), steps, Queued1(a, b), HostCheck(0, 0), Running1(a, b), HostFinish(0, 0, true, {d}),
            Ran1(a, b, d));
    steps := steps + [HostCheck(0, 0)] + [HostFinish(0, 0, true, {d})];
    steps := LeadsOnToQueued(a, b, d, steps);
  }

  lemma LeadsOnToQueued(a: Uid, b: Uid, d: Digest, before: seq<Step>) returns (steps: seq<Step>)
    requires a != b && b.blobs == {d} && Leads(Initial(), before, Ran1(a, b, d))
    requires forall x :: x in before ==> !x.Forget?
    ensures Leads(Initial(), steps, Queued2(a, b, d)) && forall x :: x in steps ==> !x.Forget?
  {
    hide Leads, Next, Enabled, Ran1, Claimed2, Written2, Queued2, Blobbed2;
    steps := before;
    SecondClaims(a, b, d);
    TwoMore(Initial(), steps, Ran1(a, b, d), TakeLock(b), Next(Ran1(a, b, d), TakeLock(b)), Claim(b),
            Claimed2(a, b, d));
    steps := steps + [TakeLock(b)] + [Claim(b)];
    SecondWritesBlob(a, b, d);
    SecondWritesJob(a, b, d);
    TwoMore(Initial(), steps, Claimed2(a, b, d), WriteBlob(b, d), Blobbed2(a, b, d), WriteJob(b), Written2(a, b, d));
    steps := steps + [WriteBlob(b, d)] + [WriteJob(b)];
    SecondQueues(a, b, d);
    TwoMore(Initial(), steps, Written2(a, b, d), HostRead(0), Next(Written2(a, b, d), HostRead(0)), HostRead(0),
            Queued2(a, b, d));
    steps := steps + [HostRead(0)] + [HostRead(0)];
  }

  /** The host sends the result and loses its blob; from then on the connection holds and the host
      keeps what it has. */
  lemma LeadsToTold(a: Uid, b: Uid, d: Digest) returns (before: seq<Step>, after: seq<Step>)
    requires a != b && a.blobs == {} && b.blobs == {d}
    ensures Leads(Initial(), before + [Forget({d})], Sent(a, b, d, {})) && forall x :: x in before ==> !x.Forget?
    ensures Leads(Sent(a, b, d, {}), after, BothTold(a, b, d)) && forall x :: x in after ==> Holds(x, 0)
    ensures after != [] && after[0] == HostCheck(0, 0)
  {
    hide Leads, Next, Enabled, Queued2, Sent, Missed2, Reached, Half, Popped1, BothTold;
    before := LeadsToQueued(a, b, d);
    HostSendsAndForgets(a, b, d);
    TwoMore(Initial(), before, Queued2(a, b, d), HostSend(0), Sent(a, b, d, {d}), Forget({d}), Sent(a, b, d, {}));
    before := before + [HostSend(0)];
    var s := Sent(a, b, d, {});
    var s1 := Reached(a, b, d, [Done(a, d), Missing(b, {d})], map[a := 0, b := 1], map[], Reading);
    HostMissesAndBlobArrives(a, b, d);
    LeadsOne(s, HostCheck(0, 0));
    LeadsMore(s, [HostCheck(0, 0)], Missed2(a, b, d), Read(0));
    after := [HostCheck(0, 0)] + [Read(0)];
    FirstIsPopped(a, b, d);
    FirstIsTold(a, b, d);
    TwoMore(s, after, s1, Read(0), Popped1(a, b, d), SignalAnswer(0), Half(a, b, d));
    after := after + [Read(0)] + [SignalAnswer(0)];
    SecondIsTold(a, b, d);
    TwoMore(s, after, Half(a, b, d), Read(0), Next(Half(a, b, d), Read(0)), SignalAnswer(0), BothTold(a, b, d));
    after := after + [Read(0)] + [SignalAnswer(0)];
  }

  /** The ledger is right for the job, and no thread of an older connection threatens it. */
  ghost predicate SeemsRight(s: State, c: Conn, u: Uid) {
    c in s.links && Trusted(s, c, u) && Unthreatened(s, c, u)
  }

  /** So it is when the missing answer has been dealt with; but a thread has yet to take a result that
      names the blob. */
  lemma ToldIsUnsafe(a: Uid, b: Uid, d: Digest)
    requires a != b && a.blobs == {} && b.blobs == {d}
    ensures Enabled(BothTold(a, b, d), Wake(b)) && SeemsRight(Next(BothTold(a, b, d), Wake(b)), 0, b)
    ensures BothTold(a, b, d).answers[BothTold(a, b, d).threads[b].r] == Got(Missing(b, {d}))
    ensures !ResultsSafe(Next(BothTold(a, b, d), Wake(b)), 0, b) && Next(BothTold(a, b, d), Wake(b)).next == 2
  {
    hide First;
    var s2 := Next(BothTold(a, b, d), Wake(b));
    assert GotIs(s2, a, Done(a, d)) && AtOnce(s2, a, Done(a, d)) && Names(Done(a, d), d) && d in b.blobs;
    assert !Shipped(s2, 0, d);
  }

  lemma ToldIsUp(a: Uid, b: Uid, d: Digest, states: seq<State>, steps: seq<Step>)
    requires IsRun(states, steps) && states[0] == Initial() && states[|steps|] == BothTold(a, b, d)
    ensures OnLine(BothTold(a, b, d), 0)
  {
    hide OnLine, IsRun;
    UpIsOnLine(states, steps, |steps|, 0);
  }

  /** One retry need not be enough even on the only connection there has ever been: the host loses a
      blob once, before the first missing answer, and the retry draws a second one. */
  lemma LostBlobIsMissedTwice(a: Uid, b: Uid, d: Digest)
    returns (states: seq<State>, steps: seq<Step>, lost: nat, wake: nat, k: nat)
    requires a != b && a.blobs == {} && b.blobs == {d}
    ensures IsRun(states, steps) && states[0] == Initial() && lost + 1 < wake < |steps|
    ensures steps[lost] == Forget({d}) && steps[lost + 1] == HostCheck(0, 0) && steps[wake] == Wake(b)
    ensures states[wake] == BothTold(a, b, d) && SeemsRight(states[wake + 1], 0, b)
    ensures forall i :: 0 <= i < lost ==> !steps[i].Forget?
    ensures forall i :: lost < i < |steps| ==> Holds(steps[i], 0)
    ensures Checks(states[|steps|], 0, k, b, 2) && d !in states[|steps|].cache
  {
    hide Leads, Sent, BothTold, Enabled, Next, SeemsRight, ResultsSafe, OnLine, NeverMisses, Checks, IsRun, Holds;
    var before, after := LeadsToTold(a, b, d);
    var s, first := BothTold(a, b, d), before + [Forget({d})] + after;
    LeadsOn(Initial(), before + [Forget({d})], Sent(a, b, d, {}), after, s);
    var states1 := LeadsIsRun(Initial(), first, s);
    ToldIsUp(a, b, d, states1, first);
    ToldIsUnsafe(a, b, d);
    OneRetrySufficesIff(s, 0, b);
    var tail, more, l := RunToMissing(Next(s, Wake(b)), 0, b);
    Joined(states1, first, Wake(b), tail, more);
    RunLengths(states1, first, tail, more);
    states, steps, lost, wake, k := states1 + tail, first + [Wake(b)] + more, |before|, |first|, l;
    assert forall i :: 0 <= i < |after| ==> steps[lost + 1 + i] == after[i] && after[i] in after;
    assert forall i :: 0 <= i < |more| ==> steps[wake + 1 + i] == more[i];
    WakeHolds(b);
  }

  lemma WakeHolds(b: Uid)
    ensures Holds(Wake(b), 0)
  {
  }

  lemma RunLengths(a: seq<State>, x: seq<Step>, b: seq<State>, y: seq<Step>)
    requires IsRun(a, x) && IsRun(b, y)
    ensures |a| == |x| + 1 && |b| == |y| + 1
  {
    hide Enabled, Next;
  }
}

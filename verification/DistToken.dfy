/** build, `RemoteHost` and `ExecService`: whoever waits is about to be answered. */
module DistToken {
  import opened Dist
  import opened Options
  import opened DistWake

  predicate JobDownFor(q: seq<Down>, u: Uid) {
    exists f :: f in q && f.JobDown? && f.job.uid == u
  }

  predicate JobFor(q: seq<Job>, u: Uid) {
    exists j :: j in q && j.uid == u
  }

  predicate AnswerFor(q: seq<Up>, u: Uid) {
    exists f :: f in q && !f.BlobUp? && f.uid == u
  }

  /** Somewhere between the controller's write and its read there is the job or its answer. */
  predicate OnTheWay(l: Link, u: Uid) {
    JobDownFor(l.down, u) || JobFor(l.queued, u) || JobFor(l.running, u) || AnswerFor(l.outbox, u) || AnswerFor(l.up, u)
  }

  predicate WaitsAt(s: State, u: Uid) {
    u in s.pending && u in s.threads && s.threads[u].Waiting? && s.threads[u].c in s.links
    && s.links[s.threads[u].c].alive
  }

  ghost predicate Tokens(s: State) {
    forall u :: WaitsAt(s, u) ==> OnTheWay(s.links[s.threads[u].c], u)
  }

  // ---------------------------------------------------------------- queues

  lemma JobRemoved(q: seq<Job>, k: nat, u: Uid)
    requires k < |q| && JobFor(q, u)
    ensures q[k].uid == u || JobFor(Removed(q, k), u)
  {
    var j :| j in q && j.uid == u;
    var i :| 0 <= i < |q| && q[i] == j;
    if i != k {
      assert Removed(q, k)[if i < k then i else i - 1] == j;
    }
  }

  lemma JobAppended(q: seq<Job>, j: Job, u: Uid)
    ensures JobFor(q, u) || j.uid == u ==> JobFor(q + [j], u)
  {
    if j.uid == u {
      assert j in q + [j];
    } else if JobFor(q, u) {
      var i :| i in q && i.uid == u;
      assert i in q + [j];
    }
  }

  lemma AnswerAppended(q: seq<Up>, more: seq<Up>, u: Uid)
    ensures AnswerFor(q, u) || AnswerFor(more, u) ==> AnswerFor(q + more, u)
  {
    if AnswerFor(q, u) {
      var f :| f in q && !f.BlobUp? && f.uid == u;
      assert f in q + more;
    } else if AnswerFor(more, u) {
      var f :| f in more && !f.BlobUp? && f.uid == u;
      assert f in q + more;
    }
  }

  lemma AnswerAlone(f: Up, u: Uid)
    requires !f.BlobUp? && f.uid == u
    ensures AnswerFor([f], u)
  {
    assert f in [f];
  }

  lemma AnswerTaken(q: seq<Up>, u: Uid)
    requires q != [] && AnswerFor(q, u)
    ensures AnswerFor(q[1..], u) || (!q[0].BlobUp? && q[0].uid == u)
  {
    var f :| f in q && !f.BlobUp? && f.uid == u;
    assert q == [q[0]] + q[1..];
  }

  lemma DownTaken(q: seq<Down>, u: Uid)
    requires q != [] && JobDownFor(q, u)
    ensures JobDownFor(q[1..], u) || (q[0].JobDown? && q[0].job.uid == u)
  {
    var f :| f in q && f.JobDown? && f.job.uid == u;
    assert q == [q[0]] + q[1..];
  }

  lemma DownAppended(q: seq<Down>, f: Down, u: Uid)
    ensures JobDownFor(q, u) || (f.JobDown? && f.job.uid == u) ==> JobDownFor(q + [f], u)
  {
    if f.JobDown? && f.job.uid == u {
      assert f in q + [f];
    } else if JobDownFor(q, u) {
      var g :| g in q && g.JobDown? && g.job.uid == u;
      assert g in q + [f];
    }
  }

  // ---------------------------------------------------------------- the steps

  /** A step on one connection on which nobody's job gets lost. */
  ghost predicate Carries(s: State, s2: State, c: Conn) {
    && c in s.links && c in s2.links && (s2.links[c].alive ==> s.links[c].alive)
    && s2.links == s.links[c := s2.links[c]]
    && (forall u :: WaitsAt(s2, u) ==> WaitsAt(s, u) && s2.threads[u].c == s.threads[u].c)
    && (s2.links[c].alive ==> forall u :: OnTheWay(s.links[c], u) && u in s2.pending ==> OnTheWay(s2.links[c], u))
  }

  lemma CarriesTokens(s: State, s2: State, c: Conn)
    requires Tokens(s) && Carries(s, s2, c)
    ensures Tokens(s2)
  {
    hide OnTheWay;
  }

  /** A step that leaves the connections as they are and lets nobody begin to wait. */
  lemma SameLinksTokens(s: State, s2: State)
    requires Tokens(s) && s2.links == s.links
    requires forall u :: WaitsAt(s2, u) ==> WaitsAt(s, u) && s2.threads[u].c == s.threads[u].c
    ensures Tokens(s2)
  {
    hide OnTheWay;
  }

  lemma HostReadTokens(s: State, c: Conn)
    requires Tokens(s) && Enabled(s, HostRead(c))
    ensures Tokens(Next(s, HostRead(c)))
  {
    hide JobDownFor, JobFor, AnswerFor;
    var s2 := Next(s, HostRead(c));
    var l := s.links[c];
    forall u | OnTheWay(l, u) ensures OnTheWay(s2.links[c], u) {
      if JobDownFor(l.down, u) {
        DownTaken(l.down, u);
      }
      if l.down[0].JobDown? {
        JobAppended(l.queued, l.down[0].job, u);
      }
    }
    CarriesTokens(s, s2, c);
  }

  lemma HostCheckTokens(s: State, c: Conn, k: nat)
    requires Tokens(s) && Enabled(s, HostCheck(c, k))
    ensures Tokens(Next(s, HostCheck(c, k)))
  {
    hide JobDownFor, JobFor, AnswerFor, Removed;
    var s2 := Next(s, HostCheck(c, k));
    var l := s.links[c];
    var job := l.queued[k];
    var answer := Missing(job.uid, job.uid.blobs - s.cache);
    forall u | OnTheWay(l, u) ensures OnTheWay(s2.links[c], u) {
      if JobFor(l.queued, u) {
        JobRemoved(l.queued, k, u);
      }
      JobAppended(l.running, job, u);
      if job.uid == u {
        AnswerAlone(answer, u);
      }
      AnswerAppended(l.up, [answer], u);
    }
    CarriesTokens(s, s2, c);
  }

  lemma HostFinishTokens(s: State, c: Conn, k: nat, ok: bool, outputs: set<Digest>)
    requires Tokens(s) && Enabled(s, HostFinish(c, k, ok, outputs))
    ensures Tokens(Next(s, HostFinish(c, k, ok, outputs)))
  {
    hide JobDownFor, JobFor, AnswerFor, Removed;
    var s2 := Next(s, HostFinish(c, k, ok, outputs));
    var l := s.links[c];
    var job := l.running[k];
    var answer := Result(job.uid, if ok then outputs else {});
    forall u | OnTheWay(l, u) ensures OnTheWay(s2.links[c], u) {
      if JobFor(l.running, u) {
        JobRemoved(l.running, k, u);
      }
      if job.uid == u {
        AnswerAlone(answer, u);
      }
      AnswerAppended(l.up, [answer], u);
      AnswerAppended(l.outbox, [answer], u);
    }
    CarriesTokens(s, s2, c);
  }

  lemma HostSendTokens(s: State, c: Conn)
    requires Tokens(s) && Enabled(s, HostSend(c))
    ensures Tokens(Next(s, HostSend(c)))
  {
    hide JobDownFor, JobFor, AnswerFor, BlobFrames;
    var s2 := Next(s, HostSend(c));
    var l := s.links[c];
    var f := l.outbox[0];
    var frames := l.up + BlobFrames(if f.Result? then f.outputs else {});
    forall u | OnTheWay(l, u) ensures OnTheWay(s2.links[c], u) {
      if AnswerFor(l.outbox, u) {
        AnswerTaken(l.outbox, u);
        if !f.BlobUp? && f.uid == u {
          AnswerAlone(f, u);
        }
      }
      AnswerAppended(frames, [f], u);
      AnswerAppended(l.up, BlobFrames(if f.Result? then f.outputs else {}), u);
    }
    CarriesTokens(s, s2, c);
  }

  lemma ReadTokens(s: State, c: Conn)
    requires Tokens(s) && Enabled(s, Read(c))
    ensures Tokens(Next(s, Read(c)))
  {
    hide JobDownFor, JobFor, AnswerFor;
    var s2 := Next(s, Read(c));
    var l := s.links[c];
    forall u | OnTheWay(l, u) && u in s2.pending ensures OnTheWay(s2.links[c], u) {
      if AnswerFor(l.up, u) {
        AnswerTaken(l.up, u);
      }
    }
    CarriesTokens(s, s2, c);
  }

  lemma WriteTokens(s: State, u: Uid, d: Digest)
    requires Tokens(s) && Enabled(s, WriteBlob(u, d))
    ensures Tokens(Next(s, WriteBlob(u, d)))
  {
    hide JobDownFor, JobFor, AnswerFor;
    var s2 := Next(s, WriteBlob(u, d));
    var c := s.threads[u].c;
    forall v | OnTheWay(s.links[c], v) ensures OnTheWay(s2.links[c], v) {
      DownAppended(s.links[c].down, BlobDown(d), v);
    }
    CarriesTokens(s, s2, c);
  }

  /** Only here does a thread begin to wait, and its job is on the way. */
  lemma WriteJobTokens(s: State, u: Uid)
    requires Tokens(s) && Enabled(s, WriteJob(u))
    ensures Tokens(Next(s, WriteJob(u)))
  {
    hide JobDownFor, JobFor, AnswerFor;
    var s2 := Next(s, WriteJob(u));
    var c := s.threads[u].c;
    var f := JobDown(Job(u, s.threads[u].r));
    forall v | OnTheWay(s.links[c], v) || v == u
      ensures s2.links[c].alive ==> OnTheWay(s2.links[c], v)
    {
      DownAppended(s.links[c].down, f, v);
    }
    forall v | WaitsAt(s2, v) ensures OnTheWay(s2.links[s2.threads[v].c], v) {
      if v != u {
        assert WaitsAt(s, v);
      }
    }
  }

  lemma BreakTokens(s: State, c: Conn, keep: nat)
    requires Tokens(s) && Enabled(s, Break(c, keep))
    ensures Tokens(Next(s, Break(c, keep)))
  {
    hide OnTheWay;
    CarriesTokens(s, Next(s, Break(c, keep)), c);
  }

  lemma InstallTokens(s: State, c: Conn)
    requires Tokens(s) && Inv(s) && Enabled(s, Install(c))
    ensures Tokens(Next(s, Install(c)))
  {
    hide OnTheWay, Own, Pending, HeldApart, NotForgotten, Locked;
    assert Next(s, Install(c)).pending == map[];
  }

  lemma ThreadTokens(s: State, step: Step)
    requires Tokens(s) && Inv(s) && Enabled(s, step)
    requires step.Start? || step.Register? || step.TakeLock? || step.Claim? || step.WriteFails? || step.Unclaim?
          || step.Lose? || step.Signal? || step.Leave? || step.Wake?
    ensures Tokens(Next(s, step))
  {
    hide Tokens, Inv;
    SameLinksTokens(s, Next(s, step));
  }

  lemma ReaderTokens(s: State, step: Step)
    requires Tokens(s) && Enabled(s, step)
    requires step.SignalAnswer? || step.ReadEnd? || step.ReaderLose? || step.ReaderSignal? || step.ReaderLeave?
          || step.Forget? || step.Ask? || step.Greet? || step.GiveUp?
    ensures Tokens(Next(s, step))
  {
    hide Tokens;
    SameLinksTokens(s, Next(s, step));
  }

  /** Every step keeps it. */
  lemma StepTokens(s: State, step: Step)
    requires Tokens(s) && Inv(s) && Enabled(s, step)
    ensures Tokens(Next(s, step))
  {
    hide Inv, Enabled, Next, Tokens;
    match step
    case Read(c) => ReadTokens(s, c);
    case HostRead(c) => HostReadTokens(s, c);
    case HostCheck(c, k) => HostCheckTokens(s, c, k);
    case HostFinish(c, k, ok, outputs) => HostFinishTokens(s, c, k, ok, outputs);
    case HostSend(c) => HostSendTokens(s, c);
    case WriteBlob(u, d) => WriteTokens(s, u, d);
    case WriteJob(u) => WriteJobTokens(s, u);
    case Break(c, keep) => BreakTokens(s, c, keep);
    case Install(c) => InstallTokens(s, c);
    case SignalAnswer(c) => ReaderTokens(s, step);
    case ReadEnd(c) => ReaderTokens(s, step);
    case ReaderLose(c) => ReaderTokens(s, step);
    case ReaderSignal(c, r) => ReaderTokens(s, step);
    case ReaderLeave(c) => ReaderTokens(s, step);
    case Forget(lost) => ReaderTokens(s, step);
    case Ask => ReaderTokens(s, step);
    case Greet => ReaderTokens(s, step);
    case GiveUp => ReaderTokens(s, step);
    case _ => ThreadTokens(s, step);
  }

  // ---------------------------------------------------------------- every reachable state

  lemma {:induction false} RunKeepsInv(states: seq<State>, steps: seq<Step>)
    requires IsRun(states, steps) && states[0] == Initial()
    ensures Inv(states[|steps|]) && Tokens(states[|steps|])
    decreases |steps|
  {
    hide Inv, Tokens, Enabled, Next;
    if |steps| == 0 {
      InitialInv();
      assert Tokens(Initial()) by {
        NobodyWaits();
      }
    } else {
      var k := |steps| - 1;
      assert IsRun(states[..|steps|], steps[..k]);
      RunKeepsInv(states[..|steps|], steps[..k]);
      StepInv(states[k], steps[k]);
      StepTokens(states[k], steps[k]);
    }
  }

  lemma NobodyWaits()
    ensures Tokens(Initial())
  {
  }

  /** In every reachable state a thread whose reply is not signalled has it pending for the
      current connection, or somebody is about to signal it; and nothing is pending without a
      connection. */
  lemma EveryReplyIsCaredFor(states: seq<State>, steps: seq<Step>, u: Uid)
    requires IsRun(states, steps) && states[0] == Initial()
    ensures states[|steps|].process == None ==> states[|steps|].pending == map[]
    ensures u in states[|steps|].threads && NeedsAnswer(states[|steps|].threads[u]) ==> Remembered(states[|steps|], u)
    ensures u in states[|steps|].pending ==> IsPending(states[|steps|], u)
  {
    hide Remembered, IsPending, Own, HeldApart, Locked, IsRun;
    RunKeepsInv(states, steps);
  }
}

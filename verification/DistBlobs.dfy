/** build, `RemoteHost._reader` and `ExecService._job`: blobs are there before what names them. */
module DistBlobs {
  import opened Dist

  /** Every result's blobs are here already or come before it. */
  ghost predicate BlobsFirst(up: seq<Up>, local: set<Digest>) {
    forall i, d :: 0 <= i < |up| && up[i].Result? && d in up[i].outputs ==> d in local || BlobUp(d) in up[..i]
  }

  predicate FrameIn(f: Up, local: set<Digest>) {
    f.Result? ==> f.outputs <= local
  }

  ghost predicate Arrived(s: State) {
    && (forall c :: c in s.links ==> BlobsFirst(s.links[c].up, s.local))
    && (forall c :: c in s.readers && s.readers[c].Popped? ==> FrameIn(s.readers[c].frame, s.local))
    && (forall r :: r in s.answers && s.answers[r].Got? ==> FrameIn(s.answers[r].frame, s.local))
  }

  lemma {:induction false} FirstTaken(up: seq<Up>, local: set<Digest>)
    requires up != [] && BlobsFirst(up, local)
    ensures BlobsFirst(up[1..], if up[0].BlobUp? then local + {up[0].digest} else local)
    ensures FrameIn(up[0], local)
  {
    forall i, d | 0 <= i < |up[1..]| && up[1..][i].Result? && d in up[1..][i].outputs
      ensures d in local || up[0] == BlobUp(d) || BlobUp(d) in up[1..][..i]
    {
      assert up[i + 1] == up[1..][i];
      if d !in local {
        var j :| 0 <= j < |up[..i + 1]| && up[..i + 1][j] == BlobUp(d);
        if j > 0 {
          assert up[1..][..i][j - 1] == BlobUp(d);
        }
      }
    }
  }

  lemma FirstMore(up: seq<Up>, local: set<Digest>, more: set<Digest>)
    requires BlobsFirst(up, local)
    ensures BlobsFirst(up, local + more)
  {
  }

  lemma FirstCut(up: seq<Up>, local: set<Digest>, keep: nat)
    requires keep <= |up| && BlobsFirst(up, local)
    ensures BlobsFirst(up[..keep], local)
  {
    assert forall i :: 0 <= i <= keep ==> up[..keep][..i] == up[..i];
  }

  lemma FirstAppended(up: seq<Up>, local: set<Digest>, f: Up)
    requires BlobsFirst(up, local)
    requires f.Result? ==> forall d :: d in f.outputs ==> BlobUp(d) in up
    ensures BlobsFirst(up + [f], local)
  {
    assert forall i :: 0 <= i <= |up| ==> (up + [f])[..i] == up[..i];
    assert up[..|up|] == up;
  }

  lemma FirstBlobs(up: seq<Up>, local: set<Digest>, more: seq<Up>)
    requires BlobsFirst(up, local) && forall f :: f in more ==> f.BlobUp?
    ensures BlobsFirst(up + more, local)
  {
    var all := up + more;
    assert forall f :: f in all[|up|..] ==> f in more;
    forall i | |up| <= i < |all| ensures !all[i].Result? {
      assert all[i] in all[|up|..];
    }
    assert forall i :: 0 <= i <= |up| ==> all[..i] == up[..i];
  }

  /** A step on one connection's stream. */
  lemma LinkArrived(s: State, s2: State, c: Conn)
    requires Arrived(s) && s2.local == s.local && c in s2.links && s2.links == s.links[c := s2.links[c]]
    requires BlobsFirst(s2.links[c].up, s.local) && s2.readers == s.readers && s2.answers == s.answers
    ensures Arrived(s2)
  {
    hide BlobsFirst;
  }

  lemma ReadArrived(s: State, c: Conn)
    requires Arrived(s) && Enabled(s, Read(c))
    ensures Arrived(Next(s, Read(c)))
  {
    hide BlobsFirst;
    var s2 := Next(s, Read(c));
    FirstTaken(s.links[c].up, s.local);
    forall e | e in s2.links ensures BlobsFirst(s2.links[e].up, s2.local) {
      if e != c {
        FirstMore(s.links[e].up, s.local, s2.local - s.local);
        assert s.local + (s2.local - s.local) == s2.local;
      }
    }
  }

  lemma HostSendArrived(s: State, c: Conn)
    requires Arrived(s) && Enabled(s, HostSend(c))
    ensures Arrived(Next(s, HostSend(c)))
  {
    hide BlobsFirst;
    var l := s.links[c];
    var f := l.outbox[0];
    var blobs := BlobFrames(if f.Result? then f.outputs else {});
    FirstBlobs(l.up, s.local, blobs);
    assert forall d :: BlobUp(d) in blobs ==> BlobUp(d) in l.up + blobs;
    FirstAppended(l.up + blobs, s.local, f);
    LinkArrived(s, Next(s, HostSend(c)), c);
  }

  lemma HostReadArrived(s: State, c: Conn)
    requires Arrived(s) && Enabled(s, HostRead(c))
    ensures Arrived(Next(s, HostRead(c)))
  {
    hide Arrived, BlobsFirst;
    SameUpArrived(s, Next(s, HostRead(c)));
  }

  lemma HostCheckArrived(s: State, c: Conn, k: nat)
    requires Arrived(s) && Enabled(s, HostCheck(c, k))
    ensures Arrived(Next(s, HostCheck(c, k)))
  {
    hide BlobsFirst, Removed;
    var u := s.links[c].queued[k].uid;
    FirstAppended(s.links[c].up, s.local, Missing(u, u.blobs - s.cache));
    LinkArrived(s, Next(s, HostCheck(c, k)), c);
  }

  lemma HostFinishArrived(s: State, c: Conn, k: nat, ok: bool, outputs: set<Digest>)
    requires Arrived(s) && Enabled(s, HostFinish(c, k, ok, outputs))
    ensures Arrived(Next(s, HostFinish(c, k, ok, outputs)))
  {
    hide BlobsFirst, Removed;
    FirstAppended(s.links[c].up, s.local, Result(s.links[c].running[k].uid, {}));
    LinkArrived(s, Next(s, HostFinish(c, k, ok, outputs)), c);
  }

  lemma BreakArrived(s: State, c: Conn, keep: nat)
    requires Arrived(s) && Enabled(s, Break(c, keep))
    ensures Arrived(Next(s, Break(c, keep)))
  {
    hide BlobsFirst;
    FirstCut(s.links[c].up, s.local, keep);
    LinkArrived(s, Next(s, Break(c, keep)), c);
  }

  lemma InstallArrived(s: State, c: Conn)
    requires Arrived(s) && Enabled(s, Install(c))
    ensures Arrived(Next(s, Install(c)))
  {
    assert BlobsFirst([], s.local);
  }

  /** The streams the host writes and the local cache stay. */
  ghost predicate SameUp(s: State, s2: State) {
    && s2.local == s.local && s2.links.Keys == s.links.Keys
    && (forall c :: c in s.links ==> s2.links[c].up == s.links[c].up)
    && (forall c :: c in s2.readers && s2.readers[c].Popped? ==> c in s.readers && s.readers[c] == s2.readers[c])
    && (forall r :: r in s2.answers && s2.answers[r].Got? ==>
          (r in s.answers && s.answers[r] == s2.answers[r])
          || exists c :: c in s.readers && s.readers[c].Popped? && s.readers[c].frame == s2.answers[r].frame)
  }

  lemma SameUpArrived(s: State, s2: State)
    requires Arrived(s) && SameUp(s, s2)
    ensures Arrived(s2)
  {
    hide BlobsFirst;
  }

  lemma ThreadArrived(s: State, step: Step)
    requires Arrived(s) && Enabled(s, step)
    requires step.Start? || step.Register? || step.TakeLock? || step.Claim? || step.WriteFails? || step.Unclaim?
    ensures Arrived(Next(s, step))
  {
    hide Arrived;
    SameUpArrived(s, Next(s, step));
  }

  lemma WritesArrived(s: State, step: Step)
    requires Arrived(s) && Enabled(s, step) && (step.WriteBlob? || step.WriteJob?)
    ensures Arrived(Next(s, step))
  {
    hide Arrived;
    SameUpArrived(s, Next(s, step));
  }

  lemma LosesArrived(s: State, step: Step)
    requires Arrived(s) && Enabled(s, step) && (step.Lose? || step.Signal?)
    ensures Arrived(Next(s, step))
  {
    hide Arrived, LostReplies;
    SameUpArrived(s, Next(s, step));
  }

  lemma WakesArrived(s: State, step: Step)
    requires Arrived(s) && Enabled(s, step) && (step.Leave? || step.Wake?)
    ensures Arrived(Next(s, step))
  {
    hide Arrived;
    SameUpArrived(s, Next(s, step));
  }

  lemma ReaderArrived(s: State, step: Step)
    requires Arrived(s) && Enabled(s, step) && (step.SignalAnswer? || step.ReadEnd?)
    ensures Arrived(Next(s, step))
  {
    hide Arrived;
    SameUpArrived(s, Next(s, step));
  }

  lemma ReaderLosesArrived(s: State, step: Step)
    requires Arrived(s) && Enabled(s, step) && (step.ReaderLose? || step.ReaderSignal? || step.ReaderLeave?)
    ensures Arrived(Next(s, step))
  {
    hide Arrived, LostReplies;
    SameUpArrived(s, Next(s, step));
  }

  lemma WorldArrived(s: State, step: Step)
    requires Arrived(s) && Enabled(s, step) && (step.Forget? || step.Ask? || step.Greet? || step.GiveUp?)
    ensures Arrived(Next(s, step))
  {
    hide Arrived;
    SameUpArrived(s, Next(s, step));
  }

  lemma StepArrived(s: State, step: Step)
    requires Arrived(s) && Enabled(s, step)
    ensures Arrived(Next(s, step))
  {
    hide Arrived, Enabled, Next;
    match step
    case Read(c) => ReadArrived(s, c);
    case HostRead(c) => HostReadArrived(s, c);
    case HostCheck(c, k) => HostCheckArrived(s, c, k);
    case HostFinish(c, k, ok, outputs) => HostFinishArrived(s, c, k, ok, outputs);
    case WriteBlob(u, d) => WritesArrived(s, step);
    case WriteJob(u) => WritesArrived(s, step);
    case Lose(u) => LosesArrived(s, step);
    case Signal(u, r) => LosesArrived(s, step);
    case Leave(u) => WakesArrived(s, step);
    case Wake(u) => WakesArrived(s, step);
    case HostSend(c) => HostSendArrived(s, c);
    case Break(c, keep) => BreakArrived(s, c, keep);
    case Install(c) => InstallArrived(s, c);
    case SignalAnswer(c) => ReaderArrived(s, step);
    case ReadEnd(c) => ReaderArrived(s, step);
    case ReaderLose(c) => ReaderLosesArrived(s, step);
    case ReaderSignal(c, r) => ReaderLosesArrived(s, step);
    case ReaderLeave(c) => ReaderLosesArrived(s, step);
    case Forget(lost) => WorldArrived(s, step);
    case Ask => WorldArrived(s, step);
    case Greet => WorldArrived(s, step);
    case GiveUp => WorldArrived(s, step);
    case _ => ThreadArrived(s, step);
  }

  lemma {:induction false} RunArrived(states: seq<State>, steps: seq<Step>)
    requires IsRun(states, steps) && states[0] == Initial()
    ensures Arrived(states[|steps|])
    decreases |steps|
  {
    hide Enabled, Next;
    if |steps| > 0 {
      var k := |steps| - 1;
      assert IsRun(states[..|steps|], steps[..k]);
      RunArrived(states[..|steps|], steps[..k]);
      StepArrived(states[k], steps[k]);
    }
  }

  /** A thread that wakes to a result finds all the outputs it names in the local cache, so the
      manifest is never refused for a blob that has not come. */
  lemma OutputsAreLocal(states: seq<State>, steps: seq<Step>, u: Uid)
    requires IsRun(states, steps) && states[0] == Initial()
    requires Enabled(states[|steps|], Wake(u))
    ensures var answer := states[|steps|].answers[states[|steps|].threads[u].r];
            answer.Got? && answer.frame.Result? ==> answer.frame.outputs <= states[|steps|].local
  {
    hide IsRun, BlobsFirst;
    RunArrived(states, steps);
  }

  // ---------------------------------------------------------------- what runs

  ghost predicate Running(s: State, c: Conn, j: Job) {
    c in s.links && j in s.links[c].running
  }

  /** The step takes this very job from the host's queue, with all its blobs in the host's cache. */
  predicate Starts(s: State, step: Step, c: Conn, j: Job) {
    && step.HostCheck? && step.c == c && c in s.links
    && step.k < |s.links[c].queued| && s.links[c].queued[step.k] == j && j.uid.blobs <= s.cache
  }

  /** No command is started unless all the blobs of its job are in the host's cache. */
  lemma StartsOnlyWithItsBlobs(s: State, step: Step, c: Conn, j: Job)
    requires Enabled(s, step) && Running(Next(s, step), c, j) && !Running(s, c, j)
    ensures Starts(s, step, c, j)
  {
    if step.HostCheck? {
      CheckStarts(s, step.c, step.k, c, j);
    } else if step.HostFinish? {
      FinishStartsNothing(s, step, c, j);
    } else {
      OthersStartNothing(s, step, c, j);
    }
  }

  lemma CheckStarts(s: State, d: Conn, k: nat, c: Conn, j: Job)
    requires Enabled(s, HostCheck(d, k)) && Running(Next(s, HostCheck(d, k)), c, j) && !Running(s, c, j)
    ensures Starts(s, HostCheck(d, k), c, j)
  {
    hide Removed;
    var blobs := s.links[d].queued[k].uid.blobs;
    NothingMissing(blobs, s.cache);
  }

  lemma NothingMissing(blobs: set<Digest>, cache: set<Digest>)
    ensures blobs - cache == {} <==> blobs <= cache
  {
    if blobs - cache == {} {
      forall d | d in blobs ensures d in cache {
        assert d !in blobs - cache;
      }
    }
  }

  lemma FinishStartsNothing(s: State, step: Step, c: Conn, j: Job)
    requires step.HostFinish? && Enabled(s, step) && Running(Next(s, step), c, j)
    ensures Running(s, c, j)
  {
  }

  lemma OthersStartNothing(s: State, step: Step, c: Conn, j: Job)
    requires !step.HostCheck? && !step.HostFinish? && Enabled(s, step) && Running(Next(s, step), c, j)
    ensures Running(s, c, j)
  {
    hide Enabled, Next;
    if step.Start? || step.Register? || step.TakeLock? || step.Claim? || step.WriteFails? || step.Unclaim?
       || step.Lose? || step.Signal? || step.Leave? || step.Wake? {
      ThreadStartsNothing(s, step);
    } else if step.SignalAnswer? || step.ReadEnd? || step.ReaderLose? || step.ReaderSignal? || step.ReaderLeave?
              || step.Forget? || step.Ask? || step.Greet? || step.GiveUp? {
      ReaderStartsNothing(s, step);
    } else {
      LinkStartsNothing(s, step, c, j);
    }
  }

  lemma ThreadStartsNothing(s: State, step: Step)
    requires Enabled(s, step)
    requires step.Start? || step.Register? || step.TakeLock? || step.Claim? || step.WriteFails? || step.Unclaim?
          || step.Lose? || step.Signal? || step.Leave? || step.Wake?
    ensures Next(s, step).links == s.links
  {
  }

  lemma ReaderStartsNothing(s: State, step: Step)
    requires Enabled(s, step)
    requires step.SignalAnswer? || step.ReadEnd? || step.ReaderLose? || step.ReaderSignal? || step.ReaderLeave?
          || step.Forget? || step.Ask? || step.Greet? || step.GiveUp?
    ensures Next(s, step).links == s.links
  {
  }

  lemma LinkStartsNothing(s: State, step: Step, c: Conn, j: Job)
    requires Enabled(s, step) && Running(Next(s, step), c, j)
    requires step.WriteBlob? || step.WriteJob? || step.Read? || step.HostRead? || step.HostSend? || step.Break?
          || step.Install?
    ensures Running(s, c, j)
  {
    hide Enabled, Next;
    if step.WriteBlob? || step.WriteJob? || step.Read? {
      StreamStartsNothing(s, step, c, j);
    } else {
      HostStartsNothing(s, step, c, j);
    }
  }

  lemma StreamStartsNothing(s: State, step: Step, c: Conn, j: Job)
    requires Enabled(s, step) && Running(Next(s, step), c, j) && (step.WriteBlob? || step.WriteJob? || step.Read?)
    ensures Running(s, c, j)
  {
  }

  lemma HostStartsNothing(s: State, step: Step, c: Conn, j: Job)
    requires Enabled(s, step) && Running(Next(s, step), c, j)
    requires step.HostRead? || step.HostSend? || step.Break? || step.Install?
    ensures Running(s, c, j)
  {
    hide BlobFrames;
  }

  /** The start of the job, with all its blobs in the host's cache. */
  ghost predicate StartedAt(states: seq<State>, steps: seq<Step>, i: nat, c: Conn, j: Job)
    requires i < |steps| && |states| == |steps| + 1
  {
    Starts(states[i], steps[i], c, j)
  }

  /** In every reachable state, each running job was started at some moment of the run with all its
      blobs there; and they are all still there if the host has lost nothing since. */
  lemma {:induction false} RunningHasItsBlobs(states: seq<State>, steps: seq<Step>, k: nat, c: Conn, j: Job)
    returns (i: nat)
    requires IsRun(states, steps) && states[0] == Initial() && k <= |steps| && Running(states[k], c, j)
    ensures i < k && StartedAt(states, steps, i, c, j)
    ensures (forall x :: i <= x < k ==> !steps[x].Forget?) ==> j.uid.blobs <= states[k].cache
    decreases k
  {
    hide Enabled, Next;
    if k == 0 {
      NothingRuns(c, j);
    } else if Running(states[k - 1], c, j) {
      i := RunningHasItsBlobs(states, steps, k - 1, c, j);
      if !steps[k - 1].Forget? {
        CacheGrows(states[k - 1], steps[k - 1]);
      }
    } else {
      i := k - 1;
      StartsOnlyWithItsBlobs(states[k - 1], steps[k - 1], c, j);
      CacheGrows(states[k - 1], steps[k - 1]);
    }
  }

  lemma NothingRuns(c: Conn, j: Job)
    ensures !Running(Initial(), c, j)
  {
  }

  lemma CacheGrows(s: State, step: Step)
    requires Enabled(s, step) && !step.Forget?
    ensures s.cache <= Next(s, step).cache
  {
    hide Enabled, Next;
    if step.HostRead? {
      ReadGrows(s, step.c);
    } else if step.HostFinish? {
      FinishGrows(s, step);
    } else if step.Register? || step.Lose? || step.Wake? || step.WriteBlob? || step.WriteJob? || step.Claim? {
      ThreadLeavesCache(s, step);
    } else if step.Read? || step.ReaderLose? || step.HostCheck? || step.HostSend? || step.Break? || step.Install? {
      LinkLeavesCache(s, step);
    } else {
      OtherLeavesCache(s, step);
    }
  }

  lemma ReadGrows(s: State, c: Conn)
    requires Enabled(s, HostRead(c))
    ensures s.cache <= Next(s, HostRead(c)).cache
  {
  }

  lemma FinishGrows(s: State, step: Step)
    requires step.HostFinish? && Enabled(s, step)
    ensures s.cache <= Next(s, step).cache
  {
    hide Removed;
  }

  lemma ThreadLeavesCache(s: State, step: Step)
    requires Enabled(s, step)
    requires step.Register? || step.Lose? || step.Wake? || step.WriteBlob? || step.WriteJob? || step.Claim?
    ensures Next(s, step).cache == s.cache
  {
    hide LostReplies, Pushed;
  }

  lemma LinkLeavesCache(s: State, step: Step)
    requires Enabled(s, step)
    requires step.Read? || step.ReaderLose? || step.HostCheck? || step.HostSend? || step.Break? || step.Install?
    ensures Next(s, step).cache == s.cache
  {
    hide LostReplies, Removed, BlobFrames;
  }

  lemma OtherLeavesCache(s: State, step: Step)
    requires Enabled(s, step)
    requires step.Start? || step.TakeLock? || step.WriteFails? || step.Unclaim? || step.Signal? || step.Leave?
          || step.SignalAnswer? || step.ReadEnd? || step.ReaderSignal? || step.ReaderLeave?
          || step.Ask? || step.Greet? || step.GiveUp?
    ensures Next(s, step).cache == s.cache
  {
  }
}

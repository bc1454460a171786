/** build, `RemoteHost._connect` and `_lost`: only the current connection can be up. */
module DistBehind {
  import opened Options
  import opened Dist
  import opened DistWake
  import opened DistLedger
  import opened DistStable

  // ---------------------------------------------------------------- older connections are dead

  /** Only the current connection can be up, and whoever gives a connection up knows it is not. */
  ghost predicate DeadBehind(s: State) {
    && (forall e :: e in s.links && s.links[e].alive ==> s.process == Some(e))
    && (forall u :: u in s.threads && GivesUp(s.threads[u]) ==> IsDown(s, s.threads[u].c))
    && (forall e :: e in s.readers && s.readers[e].ReaderLosing? ==> IsDown(s, e))
  }

  predicate GivesUp(pc: Pc) {
    pc.WriteFailed? || pc.Losing?
  }

  predicate IsDown(s: State, e: Conn) {
    e in s.links && !s.links[e].alive
  }

  /** A step that keeps the connection and brings nothing up. */
  ghost predicate NothingRises(s: State, s2: State) {
    && s2.process == s.process && s2.links.Keys == s.links.Keys
    && (forall e :: e in s2.links && s2.links[e].alive ==> s.links[e].alive)
    && (forall u :: u in s2.threads && GivesUp(s2.threads[u]) ==>
          IsDown(s2, s2.threads[u].c)
          || (u in s.threads && GivesUp(s.threads[u]) && s.threads[u].c == s2.threads[u].c))
    && (forall e :: e in s2.readers && s2.readers[e].ReaderLosing? ==>
          IsDown(s2, e) || (e in s.readers && s.readers[e].ReaderLosing?))
  }

  lemma DeadKept(s: State, s2: State)
    requires DeadBehind(s) && NothingRises(s, s2)
    ensures DeadBehind(s2)
  {
  }

  lemma DeadClaims(s: State, step: Step)
    requires DeadBehind(s) && Enabled(s, step)
    requires step.Start? || step.TakeLock? || step.Claim? || step.Signal? || step.Leave?
    ensures DeadBehind(Next(s, step))
  {
    hide DeadBehind;
    DeadKept(s, Next(s, step));
  }

  lemma DeadRegister(s: State, u: Uid)
    requires DeadBehind(s) && Enabled(s, Register(u))
    ensures DeadBehind(Next(s, Register(u)))
  {
    hide DeadBehind;
    DeadKept(s, Next(s, Register(u)));
  }

  lemma DeadWake(s: State, u: Uid)
    requires DeadBehind(s) && Enabled(s, Wake(u))
    ensures DeadBehind(Next(s, Wake(u)))
  {
    hide DeadBehind;
    DeadKept(s, Next(s, Wake(u)));
  }

  lemma DeadWrite(s: State, step: Step)
    requires DeadBehind(s) && Enabled(s, step) && (step.WriteBlob? || step.WriteJob?)
    ensures DeadBehind(Next(s, step))
  {
    hide DeadBehind;
    DeadKept(s, Next(s, step));
  }

  lemma DeadGivesUp(s: State, step: Step)
    requires DeadBehind(s) && Enabled(s, step) && (step.WriteFails? || step.Unclaim?)
    ensures DeadBehind(Next(s, step))
  {
    hide DeadBehind;
    DeadKept(s, Next(s, step));
  }

  lemma DeadRead(s: State, c: Conn)
    requires DeadBehind(s) && Enabled(s, Read(c))
    ensures DeadBehind(Next(s, Read(c)))
  {
    hide DeadBehind;
    DeadKept(s, Next(s, Read(c)));
  }

  lemma DeadSignalAnswer(s: State, c: Conn)
    requires DeadBehind(s) && Enabled(s, SignalAnswer(c))
    ensures DeadBehind(Next(s, SignalAnswer(c)))
  {
    hide DeadBehind;
    DeadKept(s, Next(s, SignalAnswer(c)));
  }

  lemma DeadReaderEnds(s: State, step: Step)
    requires DeadBehind(s) && Enabled(s, step) && (step.ReadEnd? || step.ReaderSignal? || step.ReaderLeave?)
    ensures DeadBehind(Next(s, step))
  {
    hide DeadBehind;
    DeadKept(s, Next(s, step));
  }

  lemma DeadHostRead(s: State, c: Conn)
    requires DeadBehind(s) && Enabled(s, HostRead(c))
    ensures DeadBehind(Next(s, HostRead(c)))
  {
    hide DeadBehind;
    DeadKept(s, Next(s, HostRead(c)));
  }

  lemma DeadHostCheck(s: State, c: Conn, k: nat)
    requires DeadBehind(s) && Enabled(s, HostCheck(c, k))
    ensures DeadBehind(Next(s, HostCheck(c, k)))
  {
    hide DeadBehind, Removed;
    DeadKept(s, Next(s, HostCheck(c, k)));
  }

  lemma DeadHostSends(s: State, step: Step)
    requires DeadBehind(s) && Enabled(s, step) && (step.HostFinish? || step.HostSend?)
    ensures DeadBehind(Next(s, step))
  {
    hide DeadBehind, Removed, BlobFrames;
    DeadKept(s, Next(s, step));
  }

  lemma DeadWorld(s: State, step: Step)
    requires DeadBehind(s) && Enabled(s, step)
    requires step.Break? || step.Forget? || step.Ask? || step.Greet? || step.GiveUp?
    ensures DeadBehind(Next(s, step))
  {
    hide DeadBehind;
    DeadKept(s, Next(s, step));
  }

  lemma DeadLose(s: State, u: Uid)
    requires DeadBehind(s) && Enabled(s, Lose(u))
    ensures DeadBehind(Next(s, Lose(u)))
  {
    hide LostReplies;
  }

  lemma DeadReaderLose(s: State, c: Conn)
    requires DeadBehind(s) && Enabled(s, ReaderLose(c))
    ensures DeadBehind(Next(s, ReaderLose(c)))
  {
    hide LostReplies;
  }

  lemma DeadInstall(s: State, c: Conn)
    requires DeadBehind(s) && Enabled(s, Install(c))
    ensures DeadBehind(Next(s, Install(c)))
  {
  }

  lemma DeadStep(s: State, step: Step)
    requires DeadBehind(s) && Enabled(s, step)
    ensures DeadBehind(Next(s, step))
  {
    hide DeadBehind, Enabled, Next;
    if step.Lose? {
      DeadLose(s, step.u);
    } else if step.ReaderLose? {
      DeadReaderLose(s, step.c);
    } else if step.Install? {
      DeadInstall(s, step.c);
    } else if step.Start? || step.TakeLock? || step.Claim? || step.Signal? || step.Leave? {
      DeadClaims(s, step);
    } else if step.Register? {
      DeadRegister(s, step.u);
    } else if step.Wake? {
      DeadWake(s, step.u);
    } else if step.WriteBlob? || step.WriteJob? {
      DeadWrite(s, step);
    } else if ByThread(step) {
      DeadGivesUp(s, step);
    } else if step.Read? {
      DeadRead(s, step.c);
    } else if step.SignalAnswer? {
      DeadSignalAnswer(s, step.c);
    } else if ByReader(step) {
      DeadReaderEnds(s, step);
    } else if step.HostRead? {
      DeadHostRead(s, step.c);
    } else if step.HostCheck? {
      DeadHostCheck(s, step.c, step.k);
    } else if ByHost(step) {
      DeadHostSends(s, step);
    } else {
      DeadWorld(s, step);
    }
  }

  /** In every reachable state only the current connection can be up; and as long as the host's
      cache loses nothing, all answers are in accord with it. */
  lemma {:induction false} RunKeepsFrames(states: seq<State>, steps: seq<Step>, k: nat)
    requires IsRun(states, steps) && states[0] == Initial() && k <= |steps|
    ensures Inv(states[k]) && DeadBehind(states[k]) && AllNumbered(states[k])
    ensures (forall i :: 0 <= i < k ==> !steps[i].Forget?) ==> Frames(states[k])
    decreases k
  {
    hide Inv, AllNumbered, DeadBehind, Frames, Enabled, Next;
    ReachedInv(states, steps, k);
    if k == 0 {
      NothingUp();
    } else {
      RunKeepsFrames(states, steps, k - 1);
      DeadStep(states[k - 1], steps[k - 1]);
      if forall i :: 0 <= i < k ==> !steps[i].Forget? {
        FramesStep(states[k - 1], steps[k - 1]);
      }
    }
  }

  lemma NothingUp()
    ensures DeadBehind(Initial()) && Frames(Initial())
  {
  }
}

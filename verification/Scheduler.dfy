/** build, `Executor._run` and `_pick`: the scheduler of a build, on this machine and on remote
    hosts, with failing nodes and hosts that come and go. */
module Scheduler {
  import opened Graph
  import opened Schedule
  import BuildGraph

  datatype Worker = Local | Remote(host: nat)
  datatype Job = Job(node: Node, worker: Worker)
  datatype Picked = Nothing | Picked(node: Node, worker: Worker)

  /** What the world does in one turn of the outer loop: the cores host `h` shows to the k-th
      pick, and the futures that are done, with whether their host was lost. */
  datatype Outcome = Outcome(which: nat, lost: bool)
  datatype Turn = Turn(cores: (nat, nat) -> nat, done: seq<Outcome>)

  datatype Exit = Restores | Failed(errors: nat) | Raised(node: Node) | StillGoing

  // ---------------------------------------------------------------- the log of a run

  datatype Event = Started(node: Node, worker: Worker) | Ended(node: Node, ok: bool) | Lost(node: Node)

  /** Nothing starts or ends before all it depends on has ended well, nothing ends twice, and the
      ended nodes are the finished ones, with the result their commands give. */
  ghost predicate Logged(plan: Plan, log: seq<Event>, finished: set<Node>) {
    && (forall i, d :: 0 <= i < |log| && !log[i].Lost? && log[i].node in plan.g && d in plan.g[log[i].node]
          ==> Ended(d, true) in log[..i])
    && (forall i, j :: 0 <= i < j < |log| && log[i].Ended? && log[j].Ended? ==> log[i].node != log[j].node)
    && (forall e :: e in log && e.Ended? ==> e.node in finished && e.ok == (e.node !in plan.fails))
    && (forall n :: n in finished ==> HasEnded(plan, log, n))
  }

  // ---------------------------------------------------------------- what was heard of the workers

  /** A future that is done: the job it was for, and what the world said of it. */
  datatype Heard = Heard(job: Job, outcome: Outcome)

  predicate HostLost(h: Heard) {
    h.outcome.lost && h.job.worker.Remote?
  }

  /** What is logged of it: a lost host is no end. */
  function EventOf(fails: set<Node>, h: Heard): Event {
    if HostLost(h) then Lost(h.job.node) else Ended(h.job.node, h.job.node !in fails)
  }

  function Events(fails: set<Node>, heard: seq<Heard>): seq<Event> {
    if heard == [] then [] else Events(fails, heard[..|heard| - 1]) + [EventOf(fails, heard[|heard| - 1])]
  }

  /** The log without the starts. */
  function Answers(log: seq<Event>): seq<Event> {
    if log == [] then []
    else Answers(log[..|log| - 1]) + if log[|log| - 1].Started? then [] else [log[|log| - 1]]
  }

  ghost predicate WasStarted(log: seq<Event>, j: Job) {
    Started(j.node, j.worker) in log
  }

  /** The log is of what was heard, in order, and all that was heard of had been started. */
  ghost predicate Reported(fails: set<Node>, log: seq<Event>, running: seq<Job>, heard: seq<Heard>) {
    && Answers(log) == Events(fails, heard)
    && (forall h :: h in heard ==> WasStarted(log, h.job))
    && (forall j :: j in running ==> WasStarted(log, j))
  }

  lemma ReportedStart(fails: set<Node>, log: seq<Event>, running: seq<Job>, heard: seq<Heard>, j: Job)
    requires Reported(fails, log, running, heard)
    ensures Reported(fails, log + [Started(j.node, j.worker)], running + [j], heard)
  {
    assert (log + [Started(j.node, j.worker)])[..|log|] == log;
  }

  lemma ReportedAnswer(fails: set<Node>, log: seq<Event>, running: seq<Job>, heard: seq<Heard>, k: nat, o: Outcome)
    requires Reported(fails, log, running, heard) && k < |running|
    ensures Reported(fails, log + [EventOf(fails, Heard(running[k], o))], running[..k] + running[k + 1..],
                     heard + [Heard(running[k], o)])
  {
    var h, rest := Heard(running[k], o), running[..k] + running[k + 1..];
    assert (log + [EventOf(fails, h)])[..|log|] == log && (heard + [h])[..|heard|] == heard;
    assert running[k] in running && WasStarted(log, h.job);
    assert forall j :: j in rest ==> j in running;
    assert forall j :: WasStarted(log, j) ==> WasStarted(log + [EventOf(fails, h)], j);
  }

  /** In each turn the first of the futures that are done are heard, one after the other. */
  ghost predicate Hears(turns: seq<Turn>, heard: seq<Heard>)
    decreases |turns|, 1
  {
    if turns == [] then heard == [] else exists m: nat :: HearsLast(turns, heard, m)
  }

  /** The last `m` are of the last turn. */
  ghost predicate HearsLast(turns: seq<Turn>, heard: seq<Heard>, m: nat)
    requires turns != []
    decreases |turns|, 0
  {
    var before := turns[..|turns| - 1];
    HearsIn(turns[|turns| - 1].done, heard, m) && Hears(before, heard[..|heard| - m])
  }

  ghost predicate HearsIn(done: seq<Outcome>, heard: seq<Heard>, m: nat) {
    && m <= |done| && m <= |heard|
    && forall i :: 0 <= i < m ==> heard[|heard| - m + i].outcome == done[i]
  }

  lemma HearsMore(turns: seq<Turn>, t: nat, before: seq<Heard>, heard: seq<Heard>, m: nat)
    requires t < |turns| && Hears(turns[..t], before) && HearsIn(turns[t].done, heard, m)
    requires before == heard[..|heard| - m]
    ensures Hears(turns[..t + 1], heard)
  {
    assert turns[..t + 1][..t] == turns[..t];
    assert HearsLast(turns[..t + 1], heard, m);
  }

  /** So no node ends because its host was lost. */
  lemma {:induction false} EndedWasHeard(fails: set<Node>, heard: seq<Heard>, e: Event)
    requires e in Events(fails, heard) && e.Ended?
    ensures exists h :: h in heard && h.job.node == e.node && !HostLost(h) && (e.ok <==> e.node !in fails)
    decreases |heard|
  {
    var last := heard[|heard| - 1];
    if e == EventOf(fails, last) {
      assert last in heard;
    } else {
      EndedWasHeard(fails, heard[..|heard| - 1], e);
    }
  }

  lemma {:induction false} AnswersAre(log: seq<Event>, e: Event)
    ensures e in Answers(log) <==> e in log && !e.Started?
    decreases |log|
  {
    if log != [] {
      AnswersAre(log[..|log| - 1], e);
      assert log == log[..|log| - 1] + [log[|log| - 1]];
    }
  }

  /** Every start is on a worker that may run the node. */
  ghost predicate StartedWell(log: seq<Event>, local: set<Node>, hosts: nat) {
    forall e :: e in log && e.Started? && e.worker.Remote? ==> e.node !in local && e.worker.host < hosts
  }

  lemma AnswerStartsNothing(log: seq<Event>, local: set<Node>, hosts: nat, e: Event)
    requires StartedWell(log, local, hosts) && !e.Started?
    ensures StartedWell(log + [e], local, hosts)
  {
  }

  ghost predicate HasEnded(plan: Plan, log: seq<Event>, n: Node) {
    EndOf(plan, n) in log
  }

  function EndOf(plan: Plan, n: Node): Event {
    Ended(n, n !in plan.fails)
  }

  lemma LogGrows(plan: Plan, log: seq<Event>, finished: set<Node>, e: Event)
    requires Logged(plan, log, finished)
    requires !e.Lost? && e.node in plan.g ==> forall d :: d in plan.g[e.node] ==> d in finished && d !in plan.fails
    requires e.Ended? ==> e.node !in finished && e.ok == (e.node !in plan.fails)
    ensures Logged(plan, log + [e], if e.Ended? then finished + {e.node} else finished)
  {
    var all := log + [e];
    assert forall i :: 0 <= i <= |log| ==> all[..i] == log[..i];
    assert log[..|log|] == log;
    forall i, j | 0 <= i < j < |all| && all[i].Ended? && all[j].Ended? ensures all[i].node != all[j].node {
      assert all[i] in log;
    }
  }

  // ---------------------------------------------------------------- workers in use

  function JobsOn(running: seq<Job>, w: Worker): nat {
    if running == [] then 0 else (if running[0].worker == w then 1 else 0) + JobsOn(running[1..], w)
  }

  lemma {:induction false} JobsAppend(a: seq<Job>, b: seq<Job>, w: Worker)
    ensures JobsOn(a + b, w) == JobsOn(a, w) + JobsOn(b, w)
  {
    if a == [] {
      assert a + b == b;
    } else {
      assert (a + b)[1..] == a[1..] + b;
      JobsAppend(a[1..], b, w);
    }
  }

  lemma JobsOnOne(j: Job, w: Worker)
    ensures JobsOn([j], w) == if j.worker == w then 1 else 0
  {
    assert [j][1..] == [];
  }

  lemma JobAdded(running: seq<Job>, j: Job, w: Worker)
    ensures JobsOn(running + [j], w) == JobsOn(running, w) + if j.worker == w then 1 else 0
  {
    JobsAppend(running, [j], w);
    JobsOnOne(j, w);
  }

  lemma JobRemoved(running: seq<Job>, k: nat, w: Worker)
    requires k < |running|
    ensures JobsOn(running, w)
         == JobsOn(running[..k] + running[k + 1..], w) + if running[k].worker == w then 1 else 0
  {
    assert running == running[..k] + ([running[k]] + running[k + 1..]);
    JobsAppend(running[..k], [running[k]] + running[k + 1..], w);
    JobsAppend([running[k]], running[k + 1..], w);
    JobsAppend(running[..k], running[k + 1..], w);
    JobsOnOne(running[k], w);
  }

  function Nodes(running: seq<Job>): set<Node> {
    set j | j in running :: j.node
  }

  ghost predicate Distinct(running: seq<Job>) {
    forall i, j :: 0 <= i < j < |running| ==> running[i].node != running[j].node
  }

  lemma NodesWithout(running: seq<Job>, k: nat)
    requires k < |running| && Distinct(running)
    ensures Nodes(running[..k] + running[k + 1..]) == Nodes(running) - {running[k].node}
    ensures Distinct(running[..k] + running[k + 1..])
  {
    var rest := running[..k] + running[k + 1..];
    forall n | n in Nodes(running) && n != running[k].node ensures n in Nodes(rest) {
      var i :| 0 <= i < |running| && running[i].node == n;
      assert running[i] == rest[if i < k then i else i - 1];
    }
    forall n | n in Nodes(rest) ensures n in Nodes(running) && n != running[k].node {
      var i :| 0 <= i < |rest| && rest[i].node == n;
      assert rest[i] == running[if i < k then i else i + 1];
    }
  }

  lemma NodesWith(running: seq<Job>, j: Job)
    requires Distinct(running) && j.node !in Nodes(running)
    ensures Nodes(running + [j]) == Nodes(running) + {j.node} && Distinct(running + [j])
  {
    var all := running + [j];
    forall n | n in Nodes(running) ensures n in Nodes(all) {
      var i :| 0 <= i < |running| && running[i].node == n;
      assert all[i] == running[i];
    }
    assert all[|running|] == j;
    assert forall i :: 0 <= i < |running| ==> running[i] in running;
  }

  /** What one start does to the bookkeeping. */
  lemma StartKeeps(plan: Plan, p: Progress, running: seq<Job>, log: seq<Event>, at: nat, job: Job)
    requires ValidPlan(plan) && Inv(plan, p) && Logged(plan, log, p.finished)
    requires p.running == Nodes(running) && Distinct(running)
    requires at < |p.ready| && job.node == p.ready[at]
    ensures Inv(plan, Start(p, at)) && Logged(plan, log + [Started(job.node, job.worker)], p.finished)
    ensures Nodes(running + [job]) == Start(p, at).running && Distinct(running + [job])
    ensures forall w :: JobsOn(running + [job], w) == JobsOn(running, w) + if job.worker == w then 1 else 0
  {
    hide Counts, ValidPlan, Nodes, JobsOn, Logged, Distinct, Bad;
    StartKeepsInv(plan, p, at);
    NodesWith(running, job);
    LogGrows(plan, log, p.finished, Started(job.node, job.worker));
    forall w ensures JobsOn(running + [job], w) == JobsOn(running, w) + if job.worker == w then 1 else 0 {
      JobAdded(running, job, w);
    }
  }

  /** What taking the k-th future off the running ones does. */
  lemma PopKeeps(running: seq<Job>, k: nat)
    requires k < |running| && Distinct(running)
    ensures Nodes(running[..k] + running[k + 1..]) == Nodes(running) - {running[k].node}
    ensures Distinct(running[..k] + running[k + 1..])
    ensures forall w :: JobsOn(running[..k] + running[k + 1..], w)
                     == JobsOn(running, w) - if running[k].worker == w then 1 else 0
  {
    hide Distinct, Nodes, JobsOn;
    NodesWithout(running, k);
    forall w ensures JobsOn(running[..k] + running[k + 1..], w)
                  == JobsOn(running, w) - if running[k].worker == w then 1 else 0 {
      JobRemoved(running, k, w);
    }
  }

  /** What the end of a node does, before its consumers are told. */
  lemma EndKeeps(plan: Plan, p: Progress, log: seq<Event>, node: Node)
    requires ValidPlan(plan) && Inv(plan, p) && Logged(plan, log, p.finished) && node in p.running
    ensures node in plan.needed && node in plan.g && node in plan.consumers && node !in p.finished
    ensures InvAt(plan, Complete(plan, p, node), node, plan.consumers[node])
    ensures Logged(plan, log + [EndOf(plan, node)], p.finished + {node})
    ensures forall d :: d in plan.g[node] ==> Ended(d, true) in log + [EndOf(plan, node)]
  {
    hide Counts, Bad, Mirrors, Acyclic, Closed, Reach;
    CompleteKeepsInv(plan, p, node);
    assert forall d :: d in plan.g[node] ==> d in Succeeded(p);
    LogGrows(plan, log, p.finished, EndOf(plan, node));
    forall d | d in plan.g[node] ensures Ended(d, true) in log + [EndOf(plan, node)] {
      assert HasEnded(plan, log, d);
    }
  }

  lemma InNodes(running: seq<Job>, k: nat)
    requires k < |running|
    ensures running[k].node in Nodes(running)
  {
    assert running[k] in running;
  }

  // ---------------------------------------------------------------- the scheduler

  class Runner {
    const plan: Plan
    const local: set<Node>
    const jobs: nat
    const hosts: nat
    const keepGoing: bool
    var ready: seq<Node>
    var running: seq<Job>
    var used: map<Worker, int>
    var remaining: map<Node, nat>
    var errors: set<Node>
    var blocked: set<Node>
    ghost var finished: set<Node>
    ghost var log: seq<Event>
    ghost var heard: seq<Heard>

    ghost function P(): Progress
      reads this
    {
      Progress(ready, Nodes(running), remaining, errors, blocked, finished)
    }

    /** No more nodes run on a worker than it is charged for, nor on this machine than allowed. */
    ghost predicate Slots()
      reads this`running, this`used
    {
      && jobs >= 1 && Distinct(running)
      && (forall w :: Used(w) == JobsOn(running, w))
      && Used(Local) <= jobs
    }

    ghost predicate Valid()
      reads this
    {
      ValidPlan(plan) && Inv(plan, P()) && Slots() && Logged(plan, log, finished) && Calm() && Tells()
    }

    ghost predicate Tells()
      reads this
    {
      Reported(plan.fails, log, running, heard) && StartedWell(log, local, hosts)
    }

    /** Without keep-going no failure is ever looked past. */
    ghost predicate Calm()
      reads this
    {
      keepGoing || (errors == {} && blocked == {})
    }

    /** A `defaultdict(int)`. */
    function Used(w: Worker): int
      reads this`used
    {
      if w in used then used[w] else 0
    }

    function Free(w: Worker, cores: nat -> nat): int
      reads this`used
    {
      match w
      case Local => jobs - Used(Local)
      case Remote(h) => 2 * cores(h) - Used(w)
    }

    predicate Allowed(n: Node, w: Worker) {
      w.Local? || (n !in local && w.host < hosts)
    }

    /** No worker that may run `n` has a free slot. */
    ghost predicate Stuck(n: Node, cores: nat -> nat)
      reads this`used
    {
      forall w :: Allowed(n, w) ==> Free(w, cores) <= 0
    }

    /** `w` is the worker for `n`: the most free slots, this machine before a host, an earlier
        host before a later one. */
    ghost predicate Best(n: Node, w: Worker, cores: nat -> nat)
      reads this`used
    {
      && Allowed(n, w) && Free(w, cores) > 0
      && (forall v :: Allowed(n, v) ==> Free(v, cores) <= Free(w, cores))
      && (w.Remote? ==> Free(Local, cores) < Free(w, cores))
      && (w.Remote? ==> forall h: nat :: h < w.host ==> Free(Remote(h), cores) < Free(w, cores))
    }

    constructor (plan: Plan, local: set<Node>, jobs: int, hosts: nat, keepGoing: bool,
                 ready: seq<Node>, remaining: map<Node, nat>)
      requires ValidPlan(plan) && NoRepeats(ready)
      requires forall n :: n in plan.needed ==> n in remaining && remaining[n] == |plan.g[n]|
      requires forall n :: n in ready <==> n in plan.needed && plan.g[n] == []
      ensures Valid() && errors == {} && finished == {} && log == [] && heard == []
      ensures this.plan == plan && this.keepGoing == keepGoing && this.local == local && this.hosts == hosts
    {
      this.plan, this.local, this.jobs, this.hosts, this.keepGoing :=
        plan, local, if jobs < 1 then 1 else jobs, hosts, keepGoing;
      this.ready, this.running, this.used, this.remaining := ready, [], map[], remaining;
      this.errors, this.blocked := {}, {};
      finished, log, heard := {}, [], [];
      new;
      FreshIsInv(plan, P());
    }

    /** The host with the most free slots, the first of several; no host counts as none free. */
    method BestRemote(cores: nat -> nat) returns (free: int, host: nat)
      ensures hosts == 0 ==> free == 0
      ensures hosts > 0 ==> host < hosts && free == Free(Remote(host), cores)
      ensures forall h: nat :: h < hosts ==> Free(Remote(h), cores) <= free
      ensures forall h: nat :: h < host ==> Free(Remote(h), cores) < free
    {
      free, host := 0, 0;
      for h := 0 to hosts
        invariant h == 0 ==> free == 0 && host == 0
        invariant h > 0 ==> host < h && free == Free(Remote(host), cores)
        invariant forall i: nat :: i < h ==> Free(Remote(i), cores) <= free
        invariant forall i: nat :: i < host ==> Free(Remote(i), cores) < free
      {
        var f := 2 * cores(h) - Used(Remote(h));
        if h == 0 || f > free {
          free, host := f, h;
        }
      }
    }

    /** `_pick`: the first ready node that some worker can take, with its best worker; nothing
        only when no worker can take any. */
    method Pick(cores: nat -> nat) returns (picked: Picked, at: nat)
      requires Slots()
      modifies this`ready
      ensures picked.Nothing? ==> forall n :: n in ready ==>
                JobsOn(running, Local) >= jobs
                && (n !in local ==> forall h: nat :: h < hosts ==> JobsOn(running, Remote(h)) >= 2 * cores(h))
      ensures picked.Picked? && picked.worker.Local? ==> JobsOn(running, Local) < jobs
      ensures picked.Picked? && picked.worker.Local? && picked.node !in local ==>
                forall h: nat :: h < hosts ==>
                  2 * cores(h) - JobsOn(running, Remote(h)) <= jobs - JobsOn(running, Local)
      ensures picked.Picked? && picked.worker.Remote? ==>
                var h := picked.worker.host;
                && picked.node !in local && h < hosts && JobsOn(running, Remote(h)) < 2 * cores(h)
                && jobs - JobsOn(running, Local) < 2 * cores(h) - JobsOn(running, Remote(h))
      ensures picked.Nothing? ==> ready == old(ready) && forall n :: n in ready ==> Stuck(n, cores)
      ensures picked.Picked? ==> at < |old(ready)| && picked.node == old(ready)[at]
      ensures picked.Picked? ==> ready == old(ready)[..at] + old(ready)[at + 1..]
      ensures picked.Picked? ==> Best(picked.node, picked.worker, cores)
      ensures picked.Picked? ==> forall i :: 0 <= i < at ==> Stuck(old(ready)[i], cores)
    {
      hide JobsOn, Distinct, Best, Stuck;
      var localFree := jobs - Used(Local);
      var remoteFree, host := BestRemote(cores);
      for index := 0 to |ready|
        invariant ready == old(ready)
        invariant forall i :: 0 <= i < index ==> Stuck(ready[i], cores)
      {
        var node := ready[index];
        if (node in local || remoteFree <= 0) && localFree <= 0 {
          NoneIsStuck(node, cores, remoteFree);
          continue;
        }
        var worker := if node in local || remoteFree <= 0 || localFree >= remoteFree then Local else Remote(host);
        ChosenIsBest(node, worker, cores, remoteFree, host);
        BestSays(node, worker, cores);
        ready := ready[..index] + ready[index + 1..];
        return Picked(node, worker), index;
      }
      forall n | n in ready
        ensures JobsOn(running, Local) >= jobs
        ensures n !in local ==> forall h: nat :: h < hosts ==> JobsOn(running, Remote(h)) >= 2 * cores(h)
      {
        StuckSays(n, cores);
      }
      return Nothing, 0;
    }

    lemma NoneIsStuck(n: Node, cores: nat -> nat, free: int)
      requires (n in local || free <= 0) && jobs - Used(Local) <= 0
      requires forall h: nat :: h < hosts ==> Free(Remote(h), cores) <= free
      ensures Stuck(n, cores)
    {
    }

    lemma ChosenIsBest(n: Node, w: Worker, cores: nat -> nat, free: int, host: nat)
      requires hosts == 0 ==> free == 0
      requires hosts > 0 ==> host < hosts && free == Free(Remote(host), cores)
      requires forall h: nat :: h < hosts ==> Free(Remote(h), cores) <= free
      requires forall h: nat :: h < host ==> Free(Remote(h), cores) < free
      requires !((n in local || free <= 0) && jobs - Used(Local) <= 0)
      requires w == if n in local || free <= 0 || jobs - Used(Local) >= free then Local else Remote(host)
      ensures Best(n, w, cores)
    {
    }

    lemma BestSays(n: Node, w: Worker, cores: nat -> nat)
      requires Slots() && Best(n, w, cores)
      ensures w.Local? ==> JobsOn(running, Local) < jobs
      ensures w.Local? && n !in local ==>
                forall h: nat :: h < hosts ==>
                  2 * cores(h) - JobsOn(running, Remote(h)) <= jobs - JobsOn(running, Local)
      ensures w.Remote? ==>
                && n !in local && w.host < hosts && JobsOn(running, w) < 2 * cores(w.host)
                && jobs - JobsOn(running, Local) < 2 * cores(w.host) - JobsOn(running, w)
    {
      hide JobsOn, Distinct;
      assert Used(Local) == JobsOn(running, Local);
      forall h: nat | h < hosts && n !in local
        ensures 2 * cores(h) - JobsOn(running, Remote(h)) <= Free(w, cores)
      {
        assert Allowed(n, Remote(h));
      }
    }

    lemma StuckSays(n: Node, cores: nat -> nat)
      requires Slots() && Stuck(n, cores)
      ensures JobsOn(running, Local) >= jobs
      ensures n !in local ==> forall h: nat :: h < hosts ==> JobsOn(running, Remote(h)) >= 2 * cores(h)
    {
      hide JobsOn, Distinct;
      assert Allowed(n, Local);
      forall h: nat | h < hosts && n !in local ensures JobsOn(running, Remote(h)) >= 2 * cores(h) {
        assert Allowed(n, Remote(h));
      }
    }

    /** The inner loop that hands ready nodes out. Afterwards something is running: this machine
        has a slot whenever nothing runs, so the wait for a host to come back is never entered. */
    method Fill(turn: Turn)
      requires Valid() && (ready != [] || running != [])
      modifies this
      ensures Valid() && running != []
      ensures finished == old(finished) && errors == old(errors) && heard == old(heard)
    {
      var k := 0;
      while ready != []
        invariant Valid() && finished == old(finished) && errors == old(errors) && heard == old(heard)
        invariant ready != [] || running != []
        decreases |ready|
      {
        var cores := (h: nat) => turn.cores(k, h);
        k := k + 1;
        var more := StartOne(cores);
        if !more {
          break;
        }
      }
    }

    /** One pick and its submission; charged slots stay within what the worker offers. */
    method StartOne(cores: nat -> nat) returns (more: bool)
      requires Valid() && ready != []
      modifies this
      ensures Valid() && finished == old(finished) && errors == old(errors) && heard == old(heard)
      ensures more ==> running != [] && |ready| < |old(ready)|
      ensures !more ==> ready == old(ready) && running == old(running) && running != []
      ensures more ==> exists j: Job :: running == old(running) + [j] && old(j.node in ready)
                        && log == old(log) + [Started(j.node, j.worker)]
                        && old(Free(j.worker, cores)) >= 1 && HasRoom(j, cores)
    {
      hide Inv, Logged, ValidPlan, JobsOn, Distinct, Nodes, Reported;
      ghost var before := P();
      var picked, at := Pick(cores);
      if picked.Nothing? {
        assert ready[0] in ready;
        NoJobs(Local);
        return false;
      }
      var job := Job(picked.node, picked.worker);
      StartKeeps(plan, before, running, log, at, job);
      ReportedStart(plan.fails, log, running, heard, job);
      used := used[job.worker := Used(job.worker) + 1];
      running := running + [job];
      log := log + [Started(job.node, job.worker)];
      assert P() == Start(before, at);
      more := true;
    }

    /** With this job its worker runs no more than it may, and it is one for it. */
    ghost predicate HasRoom(j: Job, cores: nat -> nat)
      reads this`running
    {
      match j.worker
      case Local => JobsOn(running, Local) <= jobs
      case Remote(h) => j.node !in local && h < hosts && JobsOn(running, Remote(h)) <= 2 * cores(h)
    }

    /** The k-th running future is taken off, and its slot with it. */
    method Pop(k: nat) returns (job: Job)
      requires Slots() && k < |running|
      modifies this`running, this`used
      ensures Slots() && job == old(running)[k]
      ensures running == old(running)[..k] + old(running)[k + 1..]
      ensures Nodes(running) == Nodes(old(running)) - {job.node}
    {
      hide JobsOn, Distinct, Nodes;
      job := running[k];
      PopKeeps(running, k);
      assert forall w :: Used(w) == JobsOn(running, w);
      running := running[..k] + running[k + 1..];
      used := used[job.worker := Used(job.worker) - 1];
      assert forall w :: Used(w) == old(Used(w)) - if job.worker == w then 1 else 0;
    }

    /** One turn of the loop over the consumers of a completed node. */
    method TellOne(node: Node, c: Node, ghost rest: seq<Node>)
      requires ValidPlan(plan) && Slots() && Logged(plan, log, finished) && Calm()
      requires node in plan.needed && node in plan.consumers && c in plan.consumers[node]
      requires InvAt(plan, P(), node, [c] + rest)
      requires c in remaining && remaining[c] > 0 && c in plan.consumers
      requires !keepGoing ==> node !in errors
      modifies this`ready, this`remaining, this`errors, this`blocked
      ensures InvAt(plan, P(), node, rest) && Calm() && Slots() && old(errors) <= errors
      ensures P() == Tell(plan, old(P()), node, c)
      ensures remaining == old(remaining)[c := old(remaining)[c] - 1]
      ensures var bad := node in old(errors) || node in old(blocked) || c in old(blocked);
              && ready == (if old(remaining)[c] == 1 && !bad then old(ready) + [c] else old(ready))
              && errors == (if old(remaining)[c] == 1 && bad then old(errors) + {c} else old(errors))
      ensures !keepGoing ==> node !in errors
    {
      hide InvAt, ValidPlan, Nodes, JobsOn, Logged, Distinct;
      ghost var before := P();
      TellKeepsInv(plan, before, node, c, rest);
      remaining := remaining[c := remaining[c] - 1];
      if node in errors || node in blocked {
        blocked := blocked + {c};
      }
      if remaining[c] == 0 {
        if c in blocked {
          errors := errors + {c};
          var downstream := plan.consumers[c];
          ghost var was := blocked;
          for i := 0 to |downstream|
            invariant blocked == was + set x | x in downstream[..i]
            invariant errors == old(errors) + {c} && ready == old(ready)
            invariant remaining == before.remaining[c := before.remaining[c] - 1]
          {
            blocked := blocked + {downstream[i]};
            assert downstream[..i + 1] == downstream[..i] + [downstream[i]];
          }
          assert downstream[..|downstream|] == downstream;
        } else {
          ready := ready + [c];
        }
      }
      assert P() == Tell(plan, before, node, c);
    }

    /** One done future: its node goes back to the front when the host was lost; otherwise its
        consumers are told, and with keep-going off a failure is raised instead. */
    method Settle(o: Outcome) returns (raised: bool, node: Node)
      requires Valid() && running != []
      modifies this
      ensures !raised ==> Valid()
      ensures raised ==> FailedAt(node) && Tells()
      ensures var k := if o.which < |old(running)| then o.which else 0;
              && running == old(running)[..k] + old(running)[k + 1..] && node == old(running)[k].node
              && heard == old(heard) + [Heard(old(running)[k], o)]
              && if o.lost && old(running)[k].worker.Remote?
                 then !raised && ready == [node] + old(ready) && log == old(log) + [Lost(node)]
                      && finished == old(finished) && errors == old(errors)
                 else log == old(log) + [Ended(node, node !in plan.fails)] && finished == old(finished) + {node}
                      && (raised <==> node in plan.fails && !keepGoing) && (node in plan.fails ==> node in errors)
      ensures old(finished) <= finished && (!o.lost ==> |old(finished)| < |finished|)
    {
      hide InvAt, Inv, ValidPlan, Nodes, JobsOn, Logged, Distinct, Reported, StartedWell;
      ghost var before := P();
      var k := if o.which < |running| then o.which else 0;
      InNodes(running, k);
      ReportedAnswer(plan.fails, log, running, heard, k, o);
      var job := Pop(k);
      node := job.node;
      heard := heard + [Heard(job, o)];
      AnswerStartsNothing(log, local, hosts, EventOf(plan.fails, Heard(job, o)));
      if o.lost && job.worker.Remote? {
        RequeueKeepsInv(plan, before, node);
        LogGrows(plan, log, finished, Lost(node));
        ready := [node] + ready;
        log := log + [Lost(node)];
        assert P() == Requeue(before, node);
        return false, node;
      }
      EndKeeps(plan, before, log, node);
      finished := finished + {node};
      log := log + [EndOf(plan, node)];
      if node in plan.fails {
        errors := errors + {node};
        if !keepGoing {
          return true, node;
        }
      }
      assert P() == Complete(plan, before, node);
      TellAll(node);
      raised := false;
    }

    /** The run was cut short by a failing node all whose dependencies had succeeded. */
    ghost predicate FailedAt(node: Node)
      reads this
    {
      && !keepGoing && node in plan.needed && node in plan.fails && Logged(plan, log, finished)
      && node in plan.g && forall d :: d in plan.g[node] ==> Ended(d, true) in log
    }

    method TellAll(node: Node)
      requires ValidPlan(plan) && Slots() && Logged(plan, log, finished) && Calm()
      requires node in plan.needed && node in plan.consumers
      requires InvAt(plan, P(), node, plan.consumers[node]) && Tells()
      requires !keepGoing ==> node !in errors
      modifies this`ready, this`remaining, this`errors, this`blocked
      ensures Valid() && old(errors) <= errors
    {
      hide InvAt, ValidPlan, Nodes, JobsOn, Logged, Distinct;
      var consumers := plan.consumers[node];
      for i := 0 to |consumers|
        invariant InvAt(plan, P(), node, consumers[i..]) && Calm() && Slots() && old(errors) <= errors
        invariant !keepGoing ==> node !in errors
      {
        assert consumers[i..] == [consumers[i]] + consumers[i + 1..];
        TellKeepsInv(plan, P(), node, consumers[i], consumers[i + 1..]);
        TellOne(node, consumers[i], consumers[i + 1..]);
      }
      assert consumers[|consumers|..] == [];
      AllTold(plan, P(), node);
    }

    /** The futures that are done, one after the other, as long as there are any. */
    method Drain(done: seq<Outcome>) returns (raised: bool, node: Node, ghost m: nat)
      requires Valid() && running != []
      modifies this
      ensures !raised ==> Valid()
      ensures raised ==> FailedAt(node) && Tells()
      ensures old(finished) <= finished
      ensures HearsIn(done, heard, m) && heard[..|heard| - m] == old(heard)
      ensures m < |done| ==> raised || running == []
      ensures done != [] && !done[0].lost ==> |old(finished)| < |finished|
    {
      hide HostLost, Logged, Inv, ValidPlan, JobsOn, Nodes, Distinct, Reported, StartedWell;
      raised, node, m := false, 0, 0;
      for i := 0 to |done|
        invariant Valid() && old(finished) <= finished && (i == 0 ==> running != [] && finished == old(finished))
        invariant i > 0 && !done[0].lost ==> |old(finished)| < |finished|
        invariant HearsIn(done, heard, m) && heard[..|heard| - m] == old(heard)
        invariant m <= i && (m < i ==> running == [])
      {
        if running != [] {
          ghost var was := finished;
          raised, node := Settle(done[i]);
          m := m + 1;
          Larger(old(finished), was, finished);
          if raised {
            return;
          }
        }
      }
    }

    /** `_run`, from the nodes without dependencies to the end, a failure or the end of the
        script of the world. */
    method Loop(turns: seq<Turn>) returns (exit: Exit)
      requires Valid() && heard == []
      modifies this
      ensures Logged(plan, log, finished) && Tells()
      ensures exists t: nat :: t <= |turns| && Hears(turns[..t], heard)
      ensures exit.Raised? ==> FailedAt(exit.node)
      ensures exit.Restores? || exit.Failed? ==> Valid() && (exit.Restores? <==> errors == {})
      ensures exit.Restores? || exit.Failed? ==>
                forall n :: n in plan.needed ==> (n in Succeeded(P()) <==> !Bad(plan, n))
      ensures exit.Restores? ==> plan.fails * plan.needed == {} && finished == plan.needed
      ensures exit.Failed? ==> keepGoing && plan.fails * plan.needed != {}
      ensures (forall t :: t in turns ==> t.done != [] && !t.done[0].lost) && |turns| > |plan.needed| ==>
                !exit.StillGoing?
    {
      hide InvAt, ValidPlan, Nodes, JobsOn, Logged, Distinct, Bad, Hears, HearsIn, Reported, StartedWell;
      HearsNothing();
      assert turns[..0] == [];
      ghost var steady := forall t :: t in turns ==> t.done != [] && !t.done[0].lost;
      var t := 0;
      while ready != [] || running != []
        invariant Valid() && t <= |turns| && Hears(turns[..t], heard)
        invariant steady ==> t <= |finished|
        decreases |turns| - t
      {
        if t == |turns| {
          FinishedIsNeeded(plan, P());
          return StillGoing;
        }
        Fill(turns[t]);
        assert turns[t] in turns;
        ghost var before := heard;
        var raised, node;
        ghost var m;
        raised, node, m := Drain(turns[t].done);
        HearsMore(turns, t, before, heard, m);
        if raised {
          return Raised(node);
        }
        t := t + 1;
      }
      assert Nodes(running) == {} by {
        NoNodes();
      }
      EndIsExact(plan, P());
      EndOfAll(plan, P());
      exit := if errors != {} then Failed(|errors|) else Restores;
    }

  }

  lemma HearsNothing()
    ensures Hears([], [])
  {
  }

  lemma NoJobs(w: Worker)
    ensures JobsOn([], w) == 0
  {
  }

  lemma NoNodes()
    ensures Nodes([]) == {}
  {
  }

  lemma AllTold(plan: Plan, p: Progress, node: Node)
    requires ValidPlan(plan) && InvAt(plan, p, node, [])
    ensures Inv(plan, p)
  {
    hide Acyclic, Closed, Bad, Mirrors;
  }

  lemma Larger(a: set<Node>, b: set<Node>, c: set<Node>)
    requires a <= b <= c
    ensures |a| <= |b| <= |c|
  {
    Smaller(a, b);
    Smaller(b, c);
  }

  lemma Smaller(a: set<Node>, b: set<Node>)
    requires a <= b
    ensures |a| <= |b|
  {
    assert b == a + (b - a);
  }

  lemma FinishedIsNeeded(plan: Plan, p: Progress)
    requires ValidPlan(plan) && Inv(plan, p)
    ensures |p.finished| <= |plan.needed|
  {
    hide Acyclic, Closed, Counts, Causes;
    Smaller(p.finished, plan.needed);
  }

  /** With no failing node needed, the end is the whole closure. */
  lemma EndOfAll(plan: Plan, p: Progress)
    requires ValidPlan(plan) && Inv(plan, p) && p.ready == [] && p.running == {}
    ensures p.errors == {} ==> p.finished == plan.needed
  {
    hide Acyclic, Closed, Bad, Reach, Counts, Mirrors;
    EndIsExact(plan, p);
    if p.errors == {} {
      forall n | n in plan.needed ensures n in p.finished {
        if Bad(plan, n) {
          BadMeansFailure(plan, n);
        }
      }
    }
  }

  // ---------------------------------------------------------------- from the graph to the run

  /** The reverse edges of the nodes in `done`, with multiplicity. */
  ghost predicate Gathered(g: Graph, needed: set<Node>, consumers: map<Node, seq<Node>>, done: set<Node>)
    requires needed <= g.Keys
  {
    && consumers.Keys == needed
    && (forall d, n :: d in needed && n in needed ==>
          Count(consumers[d], n) == if n in done then Count(g[n], d) else 0)
  }

  lemma CountOne(x: Node, y: Node)
    ensures Count([x], y) == if x == y then 1 else 0
  {
    assert [x][1..] == [];
  }

  /** The consumers of every needed node and the number of its dependencies. */
  method Prepare(g: Graph, needed: set<Node>, fails: set<Node>)
    returns (plan: Plan, remaining: map<Node, nat>)
    requires Closed(g) && Acyclic(g) && needed <= g.Keys
    requires forall n, d :: n in needed && d in g[n] ==> d in needed
    ensures ValidPlan(plan) && plan.g == g && plan.needed == needed && plan.fails == fails
    ensures forall n :: n in needed ==> n in remaining && remaining[n] == |g[n]|
  {
    hide Closed, Acyclic, Gathered, Count;
    var consumers: map<Node, seq<Node>> := map n | n in needed :: [];
    remaining := map[];
    var todo := needed;
    ghost var done: set<Node> := {};
    NothingGathered(g, needed, consumers);
    while todo != {}
      invariant todo <= needed && done == needed - todo && Gathered(g, needed, consumers, done)
      invariant forall d, n :: d in consumers && n in consumers[d] ==> n in needed
      invariant remaining.Keys == done
      invariant forall n :: n in remaining ==> remaining[n] == |g[n]|
    {
      var node :| node in todo;
      consumers, remaining := Gather(g, needed, consumers, remaining, done, node);
      todo := todo - {node};
      done := done + {node};
    }
    plan := Plan(g, needed, consumers, fails);
    assert done == needed;
    AllGathered(plan);
  }

  lemma NothingGathered(g: Graph, needed: set<Node>, consumers: map<Node, seq<Node>>)
    requires needed <= g.Keys && consumers.Keys == needed && forall n :: n in consumers ==> consumers[n] == []
    ensures Gathered(g, needed, consumers, {})
  {
  }

  lemma AllGathered(plan: Plan)
    requires Closed(plan.g) && Acyclic(plan.g) && plan.needed <= plan.g.Keys
    requires forall n, d :: n in plan.needed && d in plan.g[n] ==> d in plan.needed
    requires Gathered(plan.g, plan.needed, plan.consumers, plan.needed)
    requires forall d, n :: d in plan.consumers && n in plan.consumers[d] ==> n in plan.needed
    ensures ValidPlan(plan)
  {
    hide Closed, Acyclic, Count;
  }

  /** One needed node: its dependencies are counted and told of it. */
  method Gather(g: Graph, needed: set<Node>, consumers0: map<Node, seq<Node>>, remaining0: map<Node, nat>,
                ghost done: set<Node>, node: Node)
    returns (consumers: map<Node, seq<Node>>, remaining: map<Node, nat>)
    requires needed <= g.Keys && Gathered(g, needed, consumers0, done)
    requires node in needed && node !in done && forall d :: d in g[node] ==> d in needed
    requires forall d, n :: d in consumers0 && n in consumers0[d] ==> n in needed
    ensures Gathered(g, needed, consumers, done + {node})
    ensures forall d, n :: d in consumers && n in consumers[d] ==> n in needed
    ensures remaining == remaining0[node := |g[node]|]
  {
    hide Count, Gathered;
    var deps: seq<Node> := [];
    for k := 0 to |g[node]|
      invariant deps == g[node][..k]
    {
      if g[node][k] in needed {
        deps := deps + [g[node][k]];
      }
    }
    assert deps == g[node];
    GatheredKeys(g, needed, consumers0, done);
    remaining := remaining0[node := |deps|];
    consumers := TellConsumers(needed, consumers0, deps, node);
    CountsGathered(g, needed, consumers0, consumers, done, node);
  }

  /** The node is appended to the consumers of each of its dependencies, once for each time it
      is listed. */
  method TellConsumers(needed: set<Node>, consumers0: map<Node, seq<Node>>, deps: seq<Node>, node: Node)
    returns (consumers: map<Node, seq<Node>>)
    requires consumers0.Keys == needed && forall d :: d in deps ==> d in needed
    ensures consumers.Keys == needed
    ensures forall d, n :: d in needed && n in consumers[d] ==> n in consumers0[d] || n == node
    ensures forall d, n :: d in needed && n != node ==> Count(consumers[d], n) == Count(consumers0[d], n)
    ensures forall d :: d in needed ==> Count(consumers[d], node) == Count(consumers0[d], node) + Count(deps, d)
  {
    hide Count;
    consumers := consumers0;
    CountEmpty(deps);
    for k := 0 to |deps|
      invariant consumers.Keys == needed
      invariant forall d, n :: d in needed && n in consumers[d] ==> n in consumers0[d] || n == node
      invariant forall d, n :: d in needed && n != node ==> Count(consumers[d], n) == Count(consumers0[d], n)
      invariant forall d :: d in needed ==>
                  Count(consumers[d], node) == Count(consumers0[d], node) + Count(deps[..k], d)
    {
      var dep := deps[k];
      CountsGrow(consumers[dep], node);
      CountsTake(deps, k);
      consumers := consumers[dep := consumers[dep] + [node]];
    }
    assert deps[..|deps|] == deps;
  }

  lemma CountsGrow(s: seq<Node>, node: Node)
    ensures forall n :: Count(s + [node], n) == Count(s, n) + if n == node then 1 else 0
  {
    hide Count;
    forall n ensures Count(s + [node], n) == Count(s, n) + if n == node then 1 else 0 {
      CountAppend(s, [node], n);
      CountOne(node, n);
    }
  }

  lemma CountsTake(s: seq<Node>, k: nat)
    requires k < |s|
    ensures forall n :: Count(s[..k + 1], n) == Count(s[..k], n) + if n == s[k] then 1 else 0
  {
    hide Count;
    assert s[..k + 1] == s[..k] + [s[k]];
    CountsGrow(s[..k], s[k]);
  }

  lemma CountsGathered(g: Graph, needed: set<Node>, before: map<Node, seq<Node>>, after: map<Node, seq<Node>>,
                       done: set<Node>, node: Node)
    requires needed <= g.Keys && Gathered(g, needed, before, done) && node in needed && node !in done
    requires after.Keys == needed
    requires forall d, n :: d in needed && n != node ==> Count(after[d], n) == Count(before[d], n)
    requires forall d :: d in needed ==> Count(after[d], node) == Count(before[d], node) + Count(g[node], d)
    ensures Gathered(g, needed, after, done + {node})
  {
    hide Count;
  }

  lemma CountEmpty(deps: seq<Node>)
    ensures forall d :: Count(deps[..0], d) == 0
  {
  }

  lemma GatheredKeys(g: Graph, needed: set<Node>, consumers: map<Node, seq<Node>>, done: set<Node>)
    requires needed <= g.Keys && Gathered(g, needed, consumers, done)
    ensures consumers.Keys == needed
  {
  }

  /** The nodes of a set that wait for nothing, in any order. */
  method FirstReady(g: Graph, needed: set<Node>, remaining: map<Node, nat>) returns (ready: seq<Node>)
    requires needed <= g.Keys && forall n :: n in needed ==> n in remaining && remaining[n] == |g[n]|
    ensures NoRepeats(ready) && forall n :: n in ready <==> n in needed && g[n] == []
  {
    ready := [];
    var todo := needed;
    while todo != {}
      invariant todo <= needed && NoRepeats(ready)
      invariant forall n :: n in ready <==> n in needed - todo && g[n] == []
    {
      var node :| node in todo;
      if remaining[node] == 0 {
        ready := ready + [node];
      }
      todo := todo - {node};
    }
  }

  /** `_run` as a whole: whatever the hosts do and however long, nothing starts before its
      dependencies have ended well and nothing ends twice; and a run that comes to its end has
      built exactly the reachable nodes that no failing node is under. */
  method Run(g: Graph, roots: seq<Node>, fails: set<Node>, local: set<Node>, jobs: int, hosts: nat,
             keepGoing: bool, turns: seq<Turn>) returns (exit: Exit, ghost log: seq<Event>, ghost heard: seq<Heard>)
    requires Closed(g) && Acyclic(g) && forall r :: r in roots ==> r in g
    ensures OrderKept(g, log) && StartedWell(log, local, hosts)
    ensures Answers(log) == Events(fails, heard) && exists t: nat :: t <= |turns| && Hears(turns[..t], heard)
    ensures forall n, ok :: Ended(n, ok) in log ==>
              (ok <==> n !in fails)
              && exists h :: h in heard && h.job.node == n && !HostLost(h) && Started(n, h.job.worker) in log
    ensures exit.Restores? || exit.Failed? ==> forall n ::
              Ended(n, true) in log <==> BuildGraph.ReachedFrom(g, roots, n) && !Doomed(g, fails, n)
    ensures exit.Restores? ==> forall n :: BuildGraph.ReachedFrom(g, roots, n) ==> Ended(n, true) in log
    ensures exit.Restores? ==> forall n :: BuildGraph.ReachedFrom(g, roots, n) ==> n !in fails
    ensures exit.Restores? ==> forall e :: e in log && e.Ended? ==> e.ok
    ensures exit.Failed? ==> keepGoing && exists n :: BuildGraph.ReachedFrom(g, roots, n) && n in fails
    ensures exit.Raised? ==> !keepGoing && exit.node in fails && BuildGraph.ReachedFrom(g, roots, exit.node)
    ensures exit.Raised? && exit.node in g ==> forall d :: d in g[exit.node] ==> Ended(d, true) in log
    ensures (forall t :: t in turns ==> t.done != [] && !t.done[0].lost) && |turns| > |g| ==> !exit.StillGoing?
  {
    hide Closed, Acyclic, Doomed, ValidPlan, Logged, BuildGraph.ReachedFrom, Inv, Hears, HostLost, Answers, Events;
    var needed := BuildGraph.NeededNodes(g, roots);
    var plan, remaining := Prepare(g, needed, fails);
    var ready := FirstReady(g, needed, remaining);
    var runner := new Runner(plan, local, jobs, hosts, keepGoing, ready, remaining);
    exit := runner.Loop(turns);
    Smaller(needed, g.Keys);
    log, heard := runner.log, runner.heard;
    LogOfRun(plan, log, runner.finished);
    forall n, ok | Ended(n, ok) in log
      ensures (ok <==> n !in fails)
           && exists h :: h in heard && h.job.node == n && !HostLost(h) && Started(n, h.job.worker) in log
    {
      AnswersAre(log, Ended(n, ok));
      EndedWasHeard(fails, heard, Ended(n, ok));
    }
    if exit.Restores? || exit.Failed? {
      LogOfEnd(plan, runner.P(), log);
    }
    if exit.Restores? {
      AllEndedWell(plan, log, runner.finished);
    }
  }

  /** No node starts or ends before all its dependencies have ended well, and none ends twice. */
  ghost predicate OrderKept(g: Graph, log: seq<Event>) {
    && (forall i, d :: 0 <= i < |log| && !log[i].Lost? && log[i].node in g && d in g[log[i].node]
          ==> Ended(d, true) in log[..i])
    && (forall i, j :: 0 <= i < j < |log| && log[i].Ended? && log[j].Ended? ==> log[i].node != log[j].node)
  }

  lemma LogOfRun(plan: Plan, log: seq<Event>, finished: set<Node>)
    requires Logged(plan, log, finished)
    ensures OrderKept(plan.g, log)
  {
  }

  lemma AllEndedWell(plan: Plan, log: seq<Event>, finished: set<Node>)
    requires Logged(plan, log, finished) && plan.fails * finished == {}
    ensures forall e :: e in log && e.Ended? ==> e.ok
  {
    forall e | e in log && e.Ended? ensures e.ok {
      assert e.node !in plan.fails * finished;
    }
  }

  lemma LogOfEnd(plan: Plan, p: Progress, log: seq<Event>)
    requires ValidPlan(plan) && Inv(plan, p) && Logged(plan, log, p.finished)
    ensures forall n :: Ended(n, true) in log <==> n in plan.needed && n in Succeeded(p)
  {
    hide Counts, Acyclic, Closed, Bad;
    forall n ensures Ended(n, true) in log <==> n in plan.needed && n in Succeeded(p) {
      if n in Succeeded(p) {
        assert HasEnded(plan, log, n);
      }
    }
  }
}

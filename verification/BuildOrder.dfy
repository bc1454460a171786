/** build, `Executor._run`: the order in which the scheduler ends nodes is one in which a build can
    execute them. */
module BuildOrder {
  import opened Graph
  import opened Artifacts
  import BuildGraph
  import Scheduler
  import Builds

  /** The nodes in the order they ended. */
  function EndedIn(log: seq<Scheduler.Event>): seq<Node> {
    if log == [] then []
    else
      var e := log[|log| - 1];
      EndedIn(log[..|log| - 1]) + if e.Ended? then [e.node] else []
  }

  /** Every node comes after its dependencies, and once. */
  ghost predicate Follows(g: Graph, order: seq<Node>) {
    && (forall i, d :: 0 <= i < |order| && order[i] in g && d in g[order[i]] ==> d in order[..i])
    && (forall i, j :: 0 <= i < j < |order| ==> order[i] != order[j])
  }

  lemma {:induction false} EndsFollow(g: Graph, log: seq<Scheduler.Event>)
    requires Scheduler.OrderKept(g, log) && forall e :: e in log && e.Ended? ==> e.ok
    ensures forall n :: n in EndedIn(log) <==> Scheduler.Ended(n, true) in log
    ensures Follows(g, EndedIn(log))
    decreases |log|
  {
    if log != [] {
      var k := |log| - 1;
      var before, e := log[..k], log[k];
      OrderOfPrefix(g, log);
      EndsFollow(g, before);
      assert log == before + [e];
      assert e.Ended? ==> e == Scheduler.Ended(e.node, true);
      if e.Ended? {
        EndsLater(log);
        OneMoreFollows(g, EndedIn(before), e.node);
      } else {
        assert EndedIn(log) == EndedIn(before);
      }
    }
  }

  lemma OrderOfPrefix(g: Graph, log: seq<Scheduler.Event>)
    requires log != [] && Scheduler.OrderKept(g, log)
    ensures Scheduler.OrderKept(g, log[..|log| - 1])
    ensures var e := log[|log| - 1];
            e.Ended? && e.node in g ==> forall d :: d in g[e.node] ==> Scheduler.Ended(d, true) in log[..|log| - 1]
  {
    var before := log[..|log| - 1];
    assert forall i :: 0 <= i < |before| ==> before[i] == log[i] && before[..i] == log[..i];
  }

  lemma EndsLater(log: seq<Scheduler.Event>)
    requires log != [] && log[|log| - 1].Ended?
    requires forall i, j :: 0 <= i < j < |log| && log[i].Ended? && log[j].Ended? ==> log[i].node != log[j].node
    ensures Scheduler.Ended(log[|log| - 1].node, true) !in log[..|log| - 1]
  {
  }

  lemma OneMoreFollows(g: Graph, order: seq<Node>, n: Node)
    requires Follows(g, order) && n !in order && (n in g ==> forall d :: d in g[n] ==> d in order)
    ensures Follows(g, order + [n])
  {
    var more := order + [n];
    assert forall i :: 0 <= i <= |order| ==> more[..i] == order[..i];
    assert order[..|order|] == order;
  }

  /** A run of the scheduler that goes on to restore the requested nodes has executed exactly the
      needed ones, each once and after its dependencies: its order is one for `Builds.Run`. */
  lemma ScheduleIsRequest(p: Project, roots: seq<Node>, log: seq<Scheduler.Event>, flaky: set<Node>, keepGoing: bool,
                          remote: map<Node, seq<Builds.Try>>)
    requires ValidProject(p) && (forall r :: r in roots ==> r in p.g) && Scheduler.OrderKept(p.g, log)
    requires forall n :: Scheduler.Ended(n, true) in log <==> BuildGraph.ReachedFrom(p.g, roots, n)
    requires forall e :: e in log && e.Ended? ==> e.ok
    ensures Builds.ValidRequest(Builds.Request(p, EndedIn(log), roots, flaky, keepGoing, remote))
    ensures Follows(p.g, EndedIn(log))
    ensures forall n :: n in EndedIn(log) <==> BuildGraph.ReachedFrom(p.g, roots, n)
  {
    hide Acyclic, Reach, Scheduler.OrderKept;
    EndsFollow(p.g, log);
    var q := Builds.Request(p, EndedIn(log), roots, flaky, keepGoing, remote);
    forall r | r in roots ensures r in q.order {
      ReachSelf(p.g, r);
      assert BuildGraph.ReachedFrom(p.g, roots, r);
    }
    forall i | 0 <= i < |q.order| ensures Builds.Ordered(q, i) {
      assert q.order[i] in EndedIn(log);
      assert BuildGraph.ReachedFrom(p.g, roots, q.order[i]);
      NeededInGraph(p, roots, q.order[i]);
    }
  }

  lemma NeededInGraph(p: Project, roots: seq<Node>, n: Node)
    requires ValidProject(p) && (forall r :: r in roots ==> r in p.g) && BuildGraph.ReachedFrom(p.g, roots, n)
    ensures n in p.g
  {
  }

  /** The scheduler's run of a build that goes on to restore, as a request with its order. */
  method Scheduled(p: Project, roots: seq<Node>, local: set<Node>, jobs: int, hosts: nat, keepGoing: bool,
                   turns: seq<Scheduler.Turn>, fails: set<Node>, remote: map<Node, seq<Builds.Try>>)
    returns (restores: bool, ghost q: Builds.Request)
    requires ValidProject(p) && forall r :: r in roots ==> r in p.g
    ensures restores ==> Builds.ValidRequest(q) && Follows(p.g, q.order)
    ensures restores ==> q.p == p && q.roots == roots && q.remote == remote
    ensures restores ==> forall n :: n in q.order <==> BuildGraph.ReachedFrom(p.g, roots, n)
    ensures restores ==> forall n :: n in q.order ==> n !in fails
  {
    hide Acyclic, Reach, Closed, Scheduler.OrderKept, Builds.ValidRequest, Follows, BuildGraph.ReachedFrom;
    var exit;
    ghost var log, heard;
    exit, log, heard := Scheduler.Run(p.g, roots, fails, local, jobs, hosts, keepGoing, turns);
    restores := exit.Restores?;
    q := Builds.Request(p, EndedIn(log), roots, {}, keepGoing, remote);
    if restores {
      ScheduleIsRequest(p, roots, log, {}, keepGoing, remote);
    }
  }
}

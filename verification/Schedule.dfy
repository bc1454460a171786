/** build, `Executor._run`: what the bookkeeping of the scheduler means, on values. */
module Schedule {
  import opened Graph

  // ---------------------------------------------------------------- counting dependencies

  /** How often `x` stands in the list. */
  function Count(s: seq<Node>, x: Node): nat {
    if s == [] then 0 else (if s[0] == x then 1 else 0) + Count(s[1..], x)
  }

  /** How many entries of the list are not finished. */
  function Open(s: seq<Node>, finished: set<Node>): nat {
    if s == [] then 0 else (if s[0] in finished then 0 else 1) + Open(s[1..], finished)
  }

  lemma {:induction false} CountIsMembership(s: seq<Node>, x: Node)
    ensures Count(s, x) > 0 <==> x in s
  {
    if s != [] {
      CountIsMembership(s[1..], x);
    }
  }

  lemma {:induction false} CountAppend(a: seq<Node>, b: seq<Node>, x: Node)
    ensures Count(a + b, x) == Count(a, x) + Count(b, x)
  {
    if a == [] {
      assert a + b == b;
    } else {
      assert (a + b)[1..] == a[1..] + b;
      CountAppend(a[1..], b, x);
    }
  }

  lemma {:induction false} OpenFinishes(s: seq<Node>, finished: set<Node>, x: Node)
    requires x !in finished
    ensures Open(s, finished) == Open(s, finished + {x}) + Count(s, x)
  {
    if s != [] {
      OpenFinishes(s[1..], finished, x);
    }
  }

  lemma {:induction false} OpenZero(s: seq<Node>, finished: set<Node>)
    ensures Open(s, finished) == 0 <==> forall x :: x in s ==> x in finished
  {
    if s != [] {
      OpenZero(s[1..], finished);
    }
  }

  // ---------------------------------------------------------------- plans and progress

  /** The needed nodes, the reverse edges with multiplicity, and the nodes whose commands fail. */
  datatype Plan = Plan(g: Graph, needed: set<Node>, consumers: map<Node, seq<Node>>, fails: set<Node>)

  ghost predicate ValidPlan(plan: Plan) {
    && Closed(plan.g) && Acyclic(plan.g) && plan.needed <= plan.g.Keys
    && (forall n, d :: n in plan.needed && d in plan.g[n] ==> d in plan.needed)
    && (forall d :: d in plan.needed ==> d in plan.consumers && Mirrors(plan, d))
  }

  /** A node stands among the consumers of `d` as often as `d` among its dependencies. */
  ghost predicate Mirrors(plan: Plan, d: Node)
    requires d in plan.consumers && plan.needed <= plan.g.Keys
  {
    && (forall n :: n in plan.needed ==> Count(plan.consumers[d], n) == Count(plan.g[n], d))
    && (forall n :: n in plan.consumers[d] ==> n in plan.needed)
  }

  /** A node that fails or depends, directly or not, on one that fails. */
  ghost predicate Doomed(g: Graph, fails: set<Node>, n: Node) {
    exists f :: f in fails && f in Reach(g, n)
  }

  ghost predicate Bad(plan: Plan, n: Node) {
    Doomed(plan.g, plan.fails, n)
  }

  lemma BadSpreads(plan: Plan, n: Node, d: Node)
    requires ValidPlan(plan) && n in plan.needed && d in plan.g[n] && Bad(plan, d)
    ensures Bad(plan, n)
  {
    hide Reach;
    var f :| f in plan.fails && f in Reach(plan.g, d);
    ReachSuccessor(plan.g, n, d);
    ReachTransitive(plan.g, n, d, f);
  }

  lemma FailingIsBad(plan: Plan, n: Node)
    requires n in plan.g && n in plan.fails
    ensures Bad(plan, n)
  {
    ReachSelf(plan.g, n);
  }

  /** A bad node fails itself or has a bad dependency. */
  lemma BadHasCause(plan: Plan, n: Node)
    requires ValidPlan(plan) && n in plan.needed && Bad(plan, n)
    ensures n in plan.fails || exists d :: d in plan.g[n] && Bad(plan, d)
  {
    hide Reach;
    var f :| f in plan.fails && f in Reach(plan.g, n);
    ReachUnfold(plan.g, n, f);
  }

  /** `finished` are the nodes whose run has been processed, successful or not; `errors` are
      the failed ones and those given up because of a dependency. */
  datatype Progress = Progress(ready: seq<Node>, running: set<Node>, remaining: map<Node, nat>,
                               errors: set<Node>, blocked: set<Node>, finished: set<Node>)

  function Succeeded(p: Progress): set<Node> {
    p.finished - p.errors
  }

  predicate Placed(p: Progress, n: Node) {
    n in p.ready || n in p.running || n in p.finished || n in p.errors
  }

  predicate NoRepeats(s: seq<Node>) {
    forall i, j :: 0 <= i < j < |s| ==> s[i] != s[j]
  }

  /** Counts: what is left open, plus the consumers of the node being processed that have not
      been told yet. */
  ghost predicate Counts(plan: Plan, p: Progress, pending: seq<Node>)
    requires ValidPlan(plan)
  {
    && (forall n :: n in plan.needed ==>
          n in p.remaining && p.remaining[n] == Open(plan.g[n], p.finished) + Count(pending, n))
    && (forall n :: n in plan.needed ==> (p.remaining[n] == 0 <==> Placed(p, n)))
  }

  /** Every node is in at most one place. */
  ghost predicate Places(plan: Plan, p: Progress) {
    && NoRepeats(p.ready)
    && (forall n :: n in p.ready ==> n in plan.needed && n !in p.running && n !in p.finished && n !in p.errors)
    && (forall n :: n in p.running ==> n in plan.needed && n !in p.finished && n !in p.errors)
    && p.finished <= plan.needed && p.errors <= plan.needed && p.blocked <= plan.needed
  }

  /** What has started had only succeeded dependencies; success and failure are as the commands
      decide; errors and blocks have a failing node behind them, and reach every consumer. */
  ghost predicate Causes(plan: Plan, p: Progress, node: Node, pending: seq<Node>)
    requires ValidPlan(plan)
  {
    && (forall n, d :: n in plan.needed && (n in p.ready || n in p.running || n in Succeeded(p)) && d in plan.g[n]
          ==> d in Succeeded(p))
    && (forall n :: n in p.finished ==> (n in p.errors <==> n in plan.fails))
    && (forall n :: n in p.errors || n in p.blocked ==> Bad(plan, n))
    && (forall n, d :: n in plan.needed && d in plan.g[n] && d in p.errors
          ==> n in p.blocked || (d == node && n in pending))
  }

  ghost predicate InvAt(plan: Plan, p: Progress, node: Node, pending: seq<Node>)
    requires ValidPlan(plan)
  {
    Counts(plan, p, pending) && Places(plan, p) && Causes(plan, p, node, pending)
  }

  /** The invariant between two completions. */
  ghost predicate Inv(plan: Plan, p: Progress)
    requires ValidPlan(plan)
  {
    InvAt(plan, p, 0, [])
  }

  // ---------------------------------------------------------------- one completion

  /** One turn of the loop over the consumers of a completed node. */
  function Tell(plan: Plan, p: Progress, node: Node, c: Node): Progress
    requires c in p.remaining && p.remaining[c] > 0 && c in plan.consumers
  {
    var p1 := p.(remaining := p.remaining[c := p.remaining[c] - 1],
                 blocked := if node in p.errors || node in p.blocked then p.blocked + {c} else p.blocked);
    if p1.remaining[c] > 0 then p1
    else if c in p1.blocked then
      p1.(errors := p1.errors + {c}, blocked := p1.blocked + set x | x in plan.consumers[c])
    else p1.(ready := p1.ready + [c])
  }

  lemma TellKeepsCounts(plan: Plan, p: Progress, node: Node, c: Node, rest: seq<Node>)
    requires ValidPlan(plan) && c in plan.needed && InvAt(plan, p, node, [c] + rest)
    ensures c in p.remaining && p.remaining[c] > 0 && !Placed(p, c)
    ensures Counts(plan, Tell(plan, p, node, c), rest)
  {
    hide Bad, Acyclic, Closed, Mirrors, Causes;
    var q := [c] + rest;
    assert q[1..] == rest;
    forall n ensures Count(q, n) == (if n == c then 1 else 0) + Count(rest, n) {
    }
    var r := Tell(plan, p, node, c);
    forall n | n in plan.needed
      ensures n in r.remaining && r.remaining[n] == Open(plan.g[n], r.finished) + Count(rest, n)
      ensures r.remaining[n] == 0 <==> Placed(r, n)
    {
      if n != c {
        assert Placed(r, n) <==> Placed(p, n);
      }
    }
  }

  lemma TellKeepsPlaces(plan: Plan, p: Progress, node: Node, c: Node, rest: seq<Node>)
    requires ValidPlan(plan) && c in plan.needed && InvAt(plan, p, node, [c] + rest)
    requires c in p.remaining && p.remaining[c] > 0 && !Placed(p, c)
    ensures Places(plan, Tell(plan, p, node, c))
  {
    hide Bad, Acyclic, Closed, Causes, Counts;
  }

  lemma TellKeepsCauses(plan: Plan, p: Progress, node: Node, c: Node, rest: seq<Node>)
    requires ValidPlan(plan) && node in plan.needed && c in plan.consumers[node]
    requires c in plan.needed && InvAt(plan, p, node, [c] + rest)
    requires c in p.remaining && p.remaining[c] > 0 && !Placed(p, c)
    requires Counts(plan, Tell(plan, p, node, c), rest)
    ensures Causes(plan, Tell(plan, p, node, c), node, rest)
  {
    hide Bad, Acyclic, Closed, Counts, Reach, Places, Mirrors;
    var r := Tell(plan, p, node, c);
    ConsumerDepends(plan, node, c);
    assert forall n :: n in [c] + rest <==> n == c || n in rest;
    if node in p.errors || node in p.blocked {
      BadSpreads(plan, c, node);
    }
    assert Succeeded(r) == Succeeded(p);
    if r.remaining[c] == 0 {
      NothingPending(plan, r, c, rest);
      forall n | n in plan.needed && c in plan.g[n] ensures n in plan.consumers[c] {
        DependantConsumes(plan, c, n);
      }
      if c in r.blocked {
        BadConsumers(plan, c);
      }
    }
    forall n, d | n in plan.needed && d in plan.g[n] && d in r.errors
      ensures n in r.blocked || (d == node && n in rest)
    {
    }
    forall n | n in r.errors || n in r.blocked ensures Bad(plan, n) {
    }
    forall n, d | n in plan.needed && (n in r.ready || n in r.running || n in Succeeded(r)) && d in plan.g[n]
      ensures d in Succeeded(r)
    {
    }
  }

  lemma BadConsumers(plan: Plan, c: Node)
    requires ValidPlan(plan) && c in plan.needed && Bad(plan, c)
    ensures forall x :: x in plan.consumers[c] ==> Bad(plan, x)
  {
    hide Bad, Reach, Acyclic;
    forall x | x in plan.consumers[c] ensures Bad(plan, x) {
      ConsumerDepends(plan, c, x);
      BadSpreads(plan, x, c);
    }
  }

  lemma ConsumerDepends(plan: Plan, d: Node, n: Node)
    requires ValidPlan(plan) && d in plan.needed && n in plan.consumers[d]
    ensures n in plan.needed && d in plan.g[n]
  {
    assert Mirrors(plan, d);
    CountIsMembership(plan.consumers[d], n);
    CountIsMembership(plan.g[n], d);
  }

  lemma DependantConsumes(plan: Plan, d: Node, n: Node)
    requires ValidPlan(plan) && d in plan.needed && n in plan.needed && d in plan.g[n]
    ensures n in plan.consumers[d]
  {
    assert Mirrors(plan, d);
    CountIsMembership(plan.consumers[d], n);
    CountIsMembership(plan.g[n], d);
  }

  lemma NothingPending(plan: Plan, r: Progress, c: Node, rest: seq<Node>)
    requires ValidPlan(plan) && c in plan.needed && Counts(plan, r, rest) && r.remaining[c] == 0
    ensures c !in rest && forall d :: d in plan.g[c] ==> d in r.finished
  {
    CountIsMembership(rest, c);
    OpenZero(plan.g[c], r.finished);
  }

  lemma TellKeepsInv(plan: Plan, p: Progress, node: Node, c: Node, rest: seq<Node>)
    requires ValidPlan(plan) && node in plan.needed && c in plan.consumers[node]
    requires InvAt(plan, p, node, [c] + rest)
    ensures c in plan.needed && c in plan.consumers && c in p.remaining && p.remaining[c] > 0
    ensures InvAt(plan, Tell(plan, p, node, c), node, rest)
  {
    hide Bad, Acyclic, Closed, Counts, Places, Causes;
    ConsumerDepends(plan, node, c);
    TellKeepsCounts(plan, p, node, c, rest);
    TellKeepsPlaces(plan, p, node, c, rest);
    TellKeepsCauses(plan, p, node, c, rest);
  }

  /** A running node comes back with its result. */
  function Complete(plan: Plan, p: Progress, node: Node): Progress {
    p.(running := p.running - {node}, finished := p.finished + {node},
       errors := if node in plan.fails then p.errors + {node} else p.errors)
  }

  lemma CompleteKeepsCounts(plan: Plan, p: Progress, node: Node)
    requires ValidPlan(plan) && Inv(plan, p) && node in p.running
    ensures Counts(plan, Complete(plan, p, node), plan.consumers[node])
  {
    hide Bad, Acyclic, Closed, Reach, Causes;
    var r := Complete(plan, p, node);
    assert Mirrors(plan, node);
    forall n | n in plan.needed
      ensures r.remaining[n] == Open(plan.g[n], r.finished) + Count(plan.consumers[node], n)
      ensures r.remaining[n] == 0 <==> Placed(r, n)
    {
      OpenFinishes(plan.g[n], p.finished, node);
    }
  }

  lemma CompleteKeepsCauses(plan: Plan, p: Progress, node: Node)
    requires ValidPlan(plan) && Inv(plan, p) && node in p.running
    ensures Causes(plan, Complete(plan, p, node), node, plan.consumers[node])
  {
    hide Bad, Acyclic, Closed, Reach, Counts, Mirrors;
    var r := Complete(plan, p, node);
    assert Succeeded(p) <= Succeeded(r) <= Succeeded(p) + {node};
    if node in plan.fails {
      FailingIsBad(plan, node);
    }
    forall n | n in plan.needed && node in plan.g[n] ensures n in plan.consumers[node] {
      DependantConsumes(plan, node, n);
    }
  }

  lemma CompleteKeepsPlaces(plan: Plan, p: Progress, node: Node)
    requires ValidPlan(plan) && Inv(plan, p) && node in p.running
    ensures Places(plan, Complete(plan, p, node))
  {
    hide Bad, Acyclic, Closed, Reach, Counts, Causes;
  }

  lemma CompleteKeepsInv(plan: Plan, p: Progress, node: Node)
    requires ValidPlan(plan) && Inv(plan, p) && node in p.running
    ensures InvAt(plan, Complete(plan, p, node), node, plan.consumers[node])
  {
    hide Counts, Places, Causes, Acyclic, Closed, Mirrors;
    CompleteKeepsCounts(plan, p, node);
    CompleteKeepsPlaces(plan, p, node);
    CompleteKeepsCauses(plan, p, node);
  }

  /** A ready node is handed to a worker. */
  function Start(p: Progress, i: nat): Progress
    requires i < |p.ready|
  {
    p.(ready := p.ready[..i] + p.ready[i + 1..], running := p.running + {p.ready[i]})
  }

  lemma StartKeepsInv(plan: Plan, p: Progress, i: nat)
    requires ValidPlan(plan) && Inv(plan, p) && i < |p.ready|
    ensures Inv(plan, Start(p, i))
    ensures forall d :: d in plan.g[p.ready[i]] ==> d in Succeeded(p)
  {
    hide Bad, Acyclic, Closed, Reach, Mirrors, Open, Count;
    var n := p.ready[i];
    var rest := p.ready[..i] + p.ready[i + 1..];
    assert forall m :: m in p.ready <==> m in rest || m == n;
    MovedKeepsInv(plan, p, Start(p, i));
  }

  /** Moving nodes between ready and running keeps all but that no node is in both. */
  lemma MovedKeepsInv(plan: Plan, p: Progress, r: Progress)
    requires ValidPlan(plan) && Inv(plan, p)
    requires r == p.(ready := r.ready, running := r.running)
    requires forall m :: m in p.ready || m in p.running <==> m in r.ready || m in r.running
    requires NoRepeats(r.ready) && forall m :: m in r.ready ==> m !in r.running
    ensures Inv(plan, r)
  {
    hide Bad, Acyclic, Closed, Reach, Mirrors, Open, Count;
    assert forall m :: Placed(r, m) <==> Placed(p, m);
    MovedKeepsCounts(plan, p, r);
    assert Places(plan, r);
    assert Causes(plan, r, 0, []) by {
      assert Succeeded(r) == Succeeded(p);
    }
  }

  lemma MovedKeepsCounts(plan: Plan, p: Progress, r: Progress)
    requires ValidPlan(plan) && Counts(plan, p, [])
    requires r == p.(ready := r.ready, running := r.running)
    requires forall m :: Placed(r, m) <==> Placed(p, m)
    ensures Counts(plan, r, [])
  {
    hide Bad, Acyclic, Closed, Reach, Mirrors, Open, Count, Placed;
  }

  /** A running node's host was lost: the node is ready again, before all others. */
  function Requeue(p: Progress, node: Node): Progress {
    p.(ready := [node] + p.ready, running := p.running - {node})
  }

  lemma RequeueKeepsInv(plan: Plan, p: Progress, node: Node)
    requires ValidPlan(plan) && Inv(plan, p) && node in p.running
    ensures Inv(plan, Requeue(p, node))
  {
    hide Bad, Acyclic, Closed, Reach, Mirrors, Open, Count;
    assert forall m :: m in [node] + p.ready <==> m in p.ready || m == node;
    MovedKeepsInv(plan, p, Requeue(p, node));
  }

  /** Before anything has run, the nodes without dependencies are ready. */
  lemma FreshIsInv(plan: Plan, p: Progress)
    requires ValidPlan(plan) && NoRepeats(p.ready)
    requires p.running == p.errors == p.blocked == p.finished == {}
    requires forall n :: n in plan.needed ==> n in p.remaining && p.remaining[n] == |plan.g[n]|
    requires forall n :: n in p.ready <==> n in plan.needed && plan.g[n] == []
    ensures Inv(plan, p)
  {
    hide Bad, Acyclic, Closed, Reach, Mirrors;
    forall n | n in plan.needed ensures Open(plan.g[n], {}) == |plan.g[n]| {
      AllOpen(plan.g[n]);
    }
  }

  lemma {:induction false} AllOpen(s: seq<Node>)
    ensures Open(s, {}) == |s|
  {
    if s != [] {
      AllOpen(s[1..]);
    }
  }

  // ---------------------------------------------------------------- what the end means

  /** With nothing ready and nothing running, exactly the nodes without a failing node among
      themselves and what they depend on have succeeded. */
  lemma EndIsExact(plan: Plan, p: Progress)
    requires ValidPlan(plan) && Inv(plan, p) && p.ready == [] && p.running == {}
    ensures forall n :: n in plan.needed ==> (n in Succeeded(p) <==> !Bad(plan, n))
    ensures p.errors == {} <==> plan.fails * plan.needed == {}
  {
    hide Bad, Reach, Acyclic, Counts;
    forall n | n in plan.needed
      ensures n in Succeeded(p) <==> !Bad(plan, n)
    {
      if n in Succeeded(p) {
        SucceededIsGood(plan, p, n);
      }
      if !Bad(plan, n) {
        GoodSucceeded(plan, p, n);
      }
    }
    if p.errors == {} {
      forall f | f in plan.fails && f in plan.needed ensures false {
        FailingIsBad(plan, f);
        NothingBad(plan, p, f);
      }
    } else {
      var e :| e in p.errors;
      BadMeansFailure(plan, e);
    }
  }

  lemma {:induction false} SucceededIsGood(plan: Plan, p: Progress, n: Node)
    requires ValidPlan(plan) && Inv(plan, p) && n in plan.needed && n in Succeeded(p)
    ensures !Bad(plan, n)
    decreases Reach(plan.g, n)
  {
    hide Bad, Reach, Acyclic, Counts;
    if Bad(plan, n) {
      BadHasCause(plan, n);
      var d :| d in plan.g[n] && Bad(plan, d);
      AcyclicStep(plan.g, n, d);
      SucceededIsGood(plan, p, d);
    }
  }

  lemma {:induction false} GoodSucceeded(plan: Plan, p: Progress, n: Node)
    requires ValidPlan(plan) && Inv(plan, p) && p.ready == [] && p.running == {}
    requires n in plan.needed && !Bad(plan, n)
    ensures n in Succeeded(p)
    decreases Reach(plan.g, n)
  {
    hide Bad, Reach, Acyclic;
    forall d | d in plan.g[n] ensures d in Succeeded(p) {
      if Bad(plan, d) {
        BadSpreads(plan, n, d);
      }
      AcyclicStep(plan.g, n, d);
      GoodSucceeded(plan, p, d);
    }
    OpenZero(plan.g[n], p.finished);
    assert Count([], n) == 0;
    assert Placed(p, n);
  }

  /** If anything bad is needed, an error was recorded. */
  lemma {:induction false} NothingBad(plan: Plan, p: Progress, n: Node)
    requires ValidPlan(plan) && Inv(plan, p) && p.ready == [] && p.running == {}
    requires n in plan.needed && Bad(plan, n)
    ensures p.errors != {}
    decreases Reach(plan.g, n)
  {
    hide Bad, Reach, Acyclic;
    if exists d :: d in plan.g[n] && Bad(plan, d) {
      var d :| d in plan.g[n] && Bad(plan, d);
      AcyclicStep(plan.g, n, d);
      NothingBad(plan, p, d);
    } else {
      BadHasCause(plan, n);
      forall d | d in plan.g[n] ensures d in p.finished {
        GoodSucceeded(plan, p, d);
      }
      OpenZero(plan.g[n], p.finished);
      assert Count([], n) == 0;
      assert Placed(p, n);
    }
  }

  lemma BadMeansFailure(plan: Plan, n: Node)
    requires ValidPlan(plan) && n in plan.needed && Bad(plan, n)
    ensures plan.fails * plan.needed != {}
  {
    hide Reach;
    var f :| f in plan.fails && f in Reach(plan.g, n);
    ClosedSetContainsReach(plan.g, plan.needed, n);
    assert f in plan.fails * plan.needed;
  }
}

/** build, `IncludeScanner._closure`: on files that include each other a later query can miss some
    of what can be reached. */
module IncludeCycles {
  import opened Graph
  import opened Includes

  /** Files 0 and 1 include each other, and then 0 includes 2. */
  function TwoAndOne(): Tree {
    Tree(map[0 := [File(1), File(2)], 1 := [File(0)], 2 := []], {})
  }

  function Only(files: set<Node>): Closure {
    Closure(files, {})
  }

  /** What is cached after the query for file 0: file 1 was walked below it. */
  function AfterFirst(): map<Node, Closure> {
    map[1 := Only({0, 1}), 2 := Only({2}), 0 := Only({0, 1, 2})]
  }

  /** One closure added to another. */
  lemma Adds(a: set<Node>, b: set<Node>, c: set<Node>)
    requires forall x :: x in c <==> x in a || x in b
    ensures Closure(Only(a).files + Only(b).files, Only(a).producers + Only(b).producers) == Only(c)
  {
    assert a + b == c;
  }

  lemma BelowTheFirst()
    ensures Walk(TwoAndOne(), map[], 1, {0}) == (Only({0, 1}), map[1 := Only({0, 1})])
  {
    var t, known: map<Node, Closure> := TwoAndOne(), map[];
    WalkIs(t, known, 1, {0});
    WalkIs(t, known, 0, {0} + {1});
    var rs := t.includes[1];
    assert rs[0..] == rs;
    WalkAllIs(t, known, {0} + {1}, rs, 0, Only({1}));
    Adds({1}, {0}, {0, 1});
    WalkAllIs(t, known, {0} + {1}, rs, 1, Only({0, 1}));
    assert known[1 := Only({0, 1})] == map[1 := Only({0, 1})];
  }

  lemma FirstQuery()
    ensures Walk(TwoAndOne(), map[], 0, {}) == (Only({0, 1, 2}), AfterFirst())
  {
    var t, known: map<Node, Closure> := TwoAndOne(), map[];
    var one, two := map[1 := Only({0, 1})], map[1 := Only({0, 1}), 2 := Only({2})];
    WalkIs(t, known, 0, {});
    assert {} + {0} == {0};
    BelowTheFirst();
    Adds({0}, {0, 1}, {0, 1});
    Adds({0, 1}, {2}, {0, 1, 2});
    var rs := t.includes[0];
    assert rs[0..] == rs;
    WalkAllIs(t, known, {0}, rs, 0, Only({0}));
    WalkIs(t, one, 2, {0});
    WalkAllIs(t, one, {0} + {2}, t.includes[2], 0, Only({2}));
    assert t.includes[2][0..] == t.includes[2];
    assert one[2 := Only({2})] == two;
    WalkAllIs(t, one, {0}, rs, 1, Only({0, 1}));
    WalkAllIs(t, two, {0}, rs, 2, Only({0, 1, 2}));
    assert two[0 := Only({0, 1, 2})] == AfterFirst();
  }

  /** The first query is exact. The next one, for file 1, answers with what was cached below file 0
      and misses file 2, which file 1 reaches through file 0. */
  lemma LaterQueryMisses()
    ensures Walk(TwoAndOne(), map[], 0, {}) == (Only({0, 1, 2}), AfterFirst())
    ensures Walk(TwoAndOne(), AfterFirst(), 1, {}).0 == Only({0, 1})
    ensures Closed(FileGraph(TwoAndOne())) && 2 in Reach(FileGraph(TwoAndOne()), 1)
  {
    FirstQuery();
    WalkIs(TwoAndOne(), AfterFirst(), 1, {});
    var g := FileGraph(TwoAndOne());
    FilesIncluded();
    assert 0 in g[1] && 2 in g[0];
    ReachSelf(g, 0);
    ReachSelf(g, 2);
    ReachSuccessor(g, 1, 0);
    ReachSuccessor(g, 0, 2);
    ReachTransitive(g, 1, 0, 2);
  }

  lemma FilesIncluded()
    ensures FileGraph(TwoAndOne()) == map[0 := [1, 2], 1 := [0], 2 := []]
  {
    var t := TwoAndOne();
    assert Followed([File(1)], {}) == [1] by {
      assert [File(1)][..0] == [];
    }
    assert [File(1), File(2)][..1] == [File(1)] && [File(0)][..0] == [];
    assert Followed(t.includes[0], {}) == [1, 2] && Followed(t.includes[1], {}) == [0];
  }
}

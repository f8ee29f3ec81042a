/** The groups of nodes that run in parallel: a node's group index is the length
    of the longest path into it, and no coarser grouping exists. */
module FlowLevels {
  import opened FlowGraph

  type Groups = seq<set<Node>>

  ghost predicate InSome(groups: Groups, v: Node) {
    exists i :: 0 <= i < |groups| && v in groups[i]
  }

  /** Group i holds exactly the nodes of depth i. */
  ghost predicate ByDepth(flow: Flow, groups: Groups) {
    forall i, v :: 0 <= i < |groups| ==> (v in groups[i] <==> v in flow.nodes && Depth(flow.edges, v, i))
  }

  lemma DepthUnique(edges: seq<Edge>, v: Node, i: nat, j: nat)
    requires Depth(edges, v, i) && Depth(edges, v, j)
    ensures i == j
  {
  }

  /** Levels so far: done are the nodes of smaller depth; the others end a path of
      that many edges. */
  ghost predicate Levelled(flow: Flow, groups: Groups, done: set<Node>) {
    && (forall i, v :: 0 <= i < |groups| && v in groups[i] ==> v in done && Depth(flow.edges, v, i))
    && (forall v <- done :: v in flow.nodes && InSome(groups, v))
    && (forall v <- flow.nodes :: v !in done ==> EndsPath(flow.edges, v, |groups|))
    && (forall i :: 0 <= i < |groups| ==> groups[i] != {})
  }

  /** A node all of whose predecessors are done has the next depth. */
  lemma ReadyDepth(flow: Flow, groups: Groups, done: set<Node>, v: Node)
    requires Levelled(flow, groups, done) && v in flow.nodes && v !in done
    requires forall e <- flow.edges :: e.target == v ==> e.source in done
    ensures Depth(flow.edges, v, |groups|)
  {
    forall m: nat | EndsPath(flow.edges, v, m)
      ensures m <= |groups|
    {
      if m > 0 {
        var u := ShortenPath(flow.edges, v, m - 1);
        assert u in done && InSome(groups, u);
        var i :| 0 <= i < |groups| && u in groups[i];
        assert Depth(flow.edges, u, i);
      }
    }
  }

  /** A node with a predecessor that is not done ends a longer path. */
  lemma {:induction false} WaitingPath(flow: Flow, groups: Groups, done: set<Node>, v: Node)
    requires flow.WellFormed() && Levelled(flow, groups, done)
    requires Pending(flow.edges, done, v) != 0
    ensures EndsPath(flow.edges, v, |groups| + 1)
  {
    var u := PendingEdge(flow.edges, done, v);
    assert u in flow.nodes;
    ExtendPath(flow.edges, u, v, |groups|);
  }

  lemma {:induction false} NextLevel(flow: Flow, groups: Groups, done: set<Node>, level: set<Node>)
    requires flow.WellFormed() && Levelled(flow, groups, done) && level != {}
    requires forall v :: v in level <==> v in flow.nodes && v !in done && Pending(flow.edges, done, v) == 0
    ensures Levelled(flow, groups + [level], done + level)
  {
    hide Pending, Depth, EndsPath;
    var next := groups + [level];
    forall v <- level
      ensures Depth(flow.edges, v, |groups|)
    {
      PendingZero(flow.edges, done, v);
      ReadyDepth(flow, groups, done, v);
    }
    forall v <- done + level
      ensures InSome(next, v)
    {
      if v in level {
        assert v in next[|groups|];
      } else {
        var i :| 0 <= i < |groups| && v in groups[i];
        assert v in next[i];
      }
    }
    forall v <- flow.nodes | v !in done + level
      ensures EndsPath(flow.edges, v, |next|)
    {
      WaitingPath(flow, groups, done, v);
    }
  }

  /** When every waiting node waits for another one, paths into them never end. */
  lemma {:induction false} EndlessPaths(flow: Flow, done: set<Node>, v: Node, m: nat)
    requires flow.WellFormed() && v in flow.nodes && v !in done
    requires forall w <- flow.nodes :: w !in done ==> Pending(flow.edges, done, w) != 0
    ensures EndsPath(flow.edges, v, m)
    decreases m
  {
    if m == 0 {
      SinglePath(flow.edges, v);
    } else {
      var u := PendingEdge(flow.edges, done, v);
      assert u in flow.nodes;
      EndlessPaths(flow, done, u, m - 1);
      ExtendPath(flow.edges, u, v, m - 1);
    }
  }

  /** A node has a depth exactly when it is in some group. */
  ghost predicate CoversDepths(flow: Flow, groups: Groups) {
    forall v: Node, k: nat :: v in flow.nodes && Depth(flow.edges, v, k) ==> k < |groups|
  }

  lemma {:induction false} LevelsDone(flow: Flow, groups: Groups, done: set<Node>)
    requires flow.WellFormed() && Levelled(flow, groups, done)
    requires forall v <- flow.nodes :: v !in done ==> Pending(flow.edges, done, v) != 0
    ensures ByDepth(flow, groups) && CoversDepths(flow, groups)
  {
    hide Pending;
    forall v: Node, k: nat | v in flow.nodes && Depth(flow.edges, v, k)
      ensures k < |groups| && v in groups[k]
    {
      if v !in done {
        EndlessPaths(flow, done, v, k + 1);
      }
      var i :| 0 <= i < |groups| && v in groups[i];
      DepthUnique(flow.edges, v, i, k);
    }
  }

  /** Finds the groups level by level. On a graph with a cycle it stops at the nodes
      that a cycle leads to, which have no longest path. */
  method FindParallelGroups(flow: Flow, sorted: seq<Node>) returns (groups: Groups)
    requires flow.WellFormed() && Distinct(sorted) && forall v :: v in sorted <==> v in flow.nodes
    ensures ByDepth(flow, groups) && CoversDepths(flow, groups)
    ensures forall i :: 0 <= i < |groups| ==> groups[i] != {}
  {
    var inDegree := CountInDegrees(flow);
    var processed: set<Node> := {};
    groups := [];
    StartLevels(flow);
    hide Levelled, Degrees;
    while |processed| < |sorted|
      invariant processed <= Elements(sorted)
      invariant Levelled(flow, groups, processed)
      invariant Degrees(flow, inDegree, processed)
      decreases |sorted| - |processed|
    {
      var level := ReadyLevel(flow, sorted, processed, inDegree);
      if level == {} {
        assert forall v <- flow.nodes :: v !in processed ==> Pending(flow.edges, processed, v) != 0;
        break;
      }
      NextLevel(flow, groups, processed, level);
      groups := groups + [level];
      inDegree := TakeOffLevel(flow, level, processed, inDegree);
      LevelGrows(sorted, processed, level);
      processed := processed + level;
    }
    if |processed| >= |sorted| {
      NoneLeft(flow, sorted, processed);
    }
    LevelsDone(flow, groups, processed);
    LevelledNonEmpty(flow, groups, processed);
  }

  lemma StartLevels(flow: Flow)
    ensures Levelled(flow, [], {})
  {
    forall v <- flow.nodes
      ensures EndsPath(flow.edges, v, 0)
    {
      SinglePath(flow.edges, v);
    }
  }

  lemma LevelledNonEmpty(flow: Flow, groups: Groups, done: set<Node>)
    requires Levelled(flow, groups, done)
    ensures forall i :: 0 <= i < |groups| ==> groups[i] != {}
  {
  }

  lemma NoneLeft(flow: Flow, sorted: seq<Node>, processed: set<Node>)
    requires Distinct(sorted) && forall v :: v in sorted <==> v in flow.nodes
    requires processed <= Elements(sorted) && |processed| >= |sorted|
    ensures forall v <- flow.nodes :: v in processed
  {
    DistinctSize(sorted);
    SubsetSize(processed, Elements(sorted));
  }

  /** The nodes that are ready and not done. */
  method ReadyLevel(flow: Flow, sorted: seq<Node>, processed: set<Node>, inDegree: map<Node, int>)
    returns (level: set<Node>)
    requires forall v :: v in sorted <==> v in flow.nodes
    requires Degrees(flow, inDegree, processed)
    ensures forall v :: v in level <==> v in flow.nodes && v !in processed && Pending(flow.edges, processed, v) == 0
  {
    hide Pending;
    level := set v | v in sorted && inDegree[v] == 0 && v !in processed;
  }

  lemma LevelGrows(sorted: seq<Node>, processed: set<Node>, level: set<Node>)
    requires level != {} && processed !! level
    ensures |processed + level| > |processed|
  {
    assert |processed + level| == |processed| + |level|;
  }

  /** The edges of all nodes of the level are taken off. */
  method TakeOffLevel(flow: Flow, level: set<Node>, processed: set<Node>, degrees: map<Node, int>)
    returns (inDegree: map<Node, int>)
    requires flow.WellFormed() && Degrees(flow, degrees, processed) && processed !! level
    ensures Degrees(flow, inDegree, processed + level)
  {
    hide Pending, Reduced;
    inDegree := degrees;
    var rest, done := level, processed;
    while rest != {}
      invariant rest !! done && done + rest == processed + level
      invariant Degrees(flow, inDegree, done)
      decreases rest
    {
      var n :| n in rest;
      StartReduced(flow, inDegree, done, n);
      for k := 0 to |flow.edges|
        invariant ReducedDegrees(flow, inDegree, k, done, n)
      {
        var e := flow.edges[k];
        ReducedStepAll(flow, k, done, n);
        if e.source == n {
          assert e == Edge(n, e.target);
          inDegree := inDegree[e.target := inDegree[e.target] - 1];
        }
      }
      EndReduced(flow, inDegree, done, n);
      rest, done := rest - {n}, done + {n};
    }
    assert done == processed + level;
  }

  lemma StartReduced(flow: Flow, inDegree: map<Node, int>, done: set<Node>, n: Node)
    requires Degrees(flow, inDegree, done)
    ensures ReducedDegrees(flow, inDegree, 0, done, n)
  {
    hide Reduced, Pending;
    forall v <- flow.nodes
      ensures inDegree[v] == Reduced(flow.edges, 0, done, n, v)
    {
      ReducedEnds(flow.edges, done, n, v);
    }
  }

  lemma EndReduced(flow: Flow, inDegree: map<Node, int>, done: set<Node>, n: Node)
    requires ReducedDegrees(flow, inDegree, |flow.edges|, done, n)
    ensures Degrees(flow, inDegree, done + {n})
  {
    hide Reduced, Pending;
    forall v <- flow.nodes
      ensures inDegree[v] == Pending(flow.edges, done + {n}, v)
    {
      ReducedEnds(flow.edges, done, n, v);
    }
  }

  // ----- What the groups are -----

  /** In a graph without cycles the groups partition the nodes. */
  lemma GroupsPartition(flow: Flow, order: seq<Node>, groups: Groups, v: Node)
    requires flow.WellFormed() && Topological(flow, order) && v in flow.nodes
    requires ByDepth(flow, groups) && CoversDepths(flow, groups)
    ensures exists i :: 0 <= i < |groups| && v in groups[i] && forall j :: 0 <= j < |groups| && v in groups[j] ==> j == i
  {
    var k := DepthExists(flow, order, v);
    assert v in groups[k];
    forall j | 0 <= j < |groups| && v in groups[j]
      ensures j == k
    {
      DepthUnique(flow.edges, v, j, k);
    }
  }

  /** In an order of the nodes no path into order[j] has more than j edges. */
  lemma {:induction false} PathBounded(edges: seq<Edge>, order: seq<Node>, j: nat, m: nat)
    requires Ordered(edges, order) && j < |order| && EndsPath(edges, order[j], m)
    ensures m <= j
    decreases m
  {
    if m > 0 {
      var u := ShortenPath(edges, order[j], m - 1);
      var i :| 0 <= i < j && order[i] == u;
      PathBounded(edges, order, i, m - 1);
    }
  }

  lemma DepthExists(flow: Flow, order: seq<Node>, v: Node) returns (k: nat)
    requires flow.WellFormed() && Topological(flow, order) && v in flow.nodes
    ensures Depth(flow.edges, v, k)
  {
    var j :| 0 <= j < |order| && order[j] == v;
    SinglePath(flow.edges, v);
    k := Deepest(flow.edges, order, j, 0);
  }

  lemma {:induction false} Deepest(edges: seq<Edge>, order: seq<Node>, j: nat, m: nat) returns (k: nat)
    requires Ordered(edges, order) && j < |order| && EndsPath(edges, order[j], m)
    ensures Depth(edges, order[j], k)
    decreases j - m
  {
    PathBounded(edges, order, j, m);
    if l: nat :| l > m && EndsPath(edges, order[j], l) {
      PathBounded(edges, order, j, l);
      k := Deepest(edges, order, j, l);
    } else {
      k := m;
    }
  }

  /** Every edge leads from a group to a later one. */
  ghost predicate RespectsEdges(edges: seq<Edge>, groups: Groups) {
    forall e, j :: e in edges && 0 <= j < |groups| && e.target in groups[j] ==>
      exists i :: 0 <= i < j && e.source in groups[i]
  }

  /** Predecessors are in strictly earlier groups. */
  lemma GroupsRespectEdges(flow: Flow, order: seq<Node>, groups: Groups)
    requires flow.WellFormed() && Topological(flow, order)
    requires ByDepth(flow, groups) && CoversDepths(flow, groups)
    ensures RespectsEdges(flow.edges, groups)
  {
    forall e, j | e in flow.edges && 0 <= j < |groups| && e.target in groups[j]
      ensures exists i :: 0 <= i < j && e.source in groups[i]
    {
      var i := DepthExists(flow, order, e.source);
      assert e == Edge(e.source, e.target);
      ExtendPath(flow.edges, e.source, e.target, i);
      assert e.source in groups[i];
    }
  }

  lemma {:induction false} RankOfPath(edges: seq<Edge>, groups: Groups, v: Node, m: nat, j: nat)
    requires RespectsEdges(edges, groups) && EndsPath(edges, v, m)
    requires j < |groups| && v in groups[j]
    ensures m <= j
    decreases m
  {
    if m > 0 {
      var u := ShortenPath(edges, v, m - 1);
      var i :| 0 <= i < j && u in groups[i];
      RankOfPath(edges, groups, u, m - 1, i);
    }
  }

  /** No grouping that puts every edge's source in a strictly earlier group uses
      fewer groups. */
  lemma FewestGroups(flow: Flow, groups: Groups, other: Groups)
    requires flow.WellFormed() && ByDepth(flow, groups)
    requires forall i :: 0 <= i < |groups| ==> groups[i] != {}
    requires RespectsEdges(flow.edges, other) && forall v <- flow.nodes :: InSome(other, v)
    ensures |groups| <= |other|
  {
    if groups != [] {
      var last := |groups| - 1;
      var v :| v in groups[last];
      assert v in flow.nodes && Depth(flow.edges, v, last);
      assert InSome(other, v);
      var j :| 0 <= j < |other| && v in other[j];
      RankOfPath(flow.edges, other, v, last, j);
    }
  }
}

/** The flow graph: topological sorting and the levels that run in parallel. */
module FlowGraph {
  import opened Common

  type Node = string

  datatype Edge = Edge(source: Node, target: Node)

  /** Node ids in the order of the node dictionary, and the edges. */
  datatype Flow = Flow(nodes: seq<Node>, edges: seq<Edge>) {
    ghost predicate WellFormed() {
      && Distinct(nodes)
      && forall e <- edges :: e.source in nodes && e.target in nodes
    }
  }

  datatype FlowError = CycleError

  ghost predicate Distinct<T(!new)>(s: seq<T>) {
    forall i, j :: 0 <= i < j < |s| ==> s[i] != s[j]
  }

  // ----- Paths -----

  ghost predicate Path(edges: seq<Edge>, p: seq<Node>) {
    p != [] && forall i :: 0 < i < |p| ==> Edge(p[i - 1], p[i]) in edges
  }

  ghost predicate HasCycle(edges: seq<Edge>) {
    exists p :: Path(edges, p) && |p| > 1 && p[0] == Last(p)
  }

  /** Some path of k edges ends at v. */
  ghost predicate EndsPath(edges: seq<Edge>, v: Node, k: nat) {
    exists p :: Path(edges, p) && |p| == k + 1 && Last(p) == v
  }

  /** The longest path into v has k edges. */
  ghost predicate Depth(edges: seq<Edge>, v: Node, k: nat) {
    EndsPath(edges, v, k) && forall m: nat :: EndsPath(edges, v, m) ==> m <= k
  }

  lemma SinglePath(edges: seq<Edge>, v: Node)
    ensures EndsPath(edges, v, 0)
  {
    assert Path(edges, [v]) && Last([v]) == v;
  }

  lemma ExtendPath(edges: seq<Edge>, u: Node, v: Node, k: nat)
    requires EndsPath(edges, u, k) && Edge(u, v) in edges
    ensures EndsPath(edges, v, k + 1)
  {
    var p :| Path(edges, p) && |p| == k + 1 && Last(p) == u;
    assert Path(edges, p + [v]) && Last(p + [v]) == v;
  }

  lemma ShortenPath(edges: seq<Edge>, v: Node, k: nat) returns (u: Node)
    requires EndsPath(edges, v, k + 1)
    ensures Edge(u, v) in edges && EndsPath(edges, u, k)
  {
    var p :| Path(edges, p) && |p| == k + 2 && Last(p) == v;
    u := p[k];
    assert Path(edges, p[..k + 1]) && Last(p[..k + 1]) == u;
  }

  // ----- In-degrees -----

  function Unit(e: Edge, done: set<Node>, v: Node): nat {
    if e.target == v && e.source !in done then 1 else 0
  }

  /** How many of the edges lead to v from a node that is not done. */
  function Pending(edges: seq<Edge>, done: set<Node>, v: Node): nat {
    if edges == [] then 0 else Unit(edges[0], done, v) + Pending(edges[1..], done, v)
  }

  lemma {:induction false} PendingSnoc(edges: seq<Edge>, e: Edge, done: set<Node>, v: Node)
    ensures Pending(edges + [e], done, v) == Pending(edges, done, v) + Unit(e, done, v)
  {
    if edges == [] {
      assert [] + [e] == [e] && [e][1..] == [];
    } else {
      PendingSnoc(edges[1..], e, done, v);
      assert (edges + [e])[1..] == edges[1..] + [e];
    }
  }

  lemma {:induction false} PendingZero(edges: seq<Edge>, done: set<Node>, v: Node)
    ensures Pending(edges, done, v) == 0 <==> forall e <- edges :: e.target == v ==> e.source in done
  {
    if edges != [] {
      PendingZero(edges[1..], done, v);
      assert edges == [edges[0]] + edges[1..];
    }
  }

  lemma PendingEdge(edges: seq<Edge>, done: set<Node>, v: Node) returns (u: Node)
    requires Pending(edges, done, v) > 0
    ensures Edge(u, v) in edges && u !in done
  {
    PendingZero(edges, done, v);
    var e :| e in edges && e.target == v && e.source !in done;
    assert e == Edge(e.source, v);
    u := e.source;
  }

  /** The in-degree of v after the first k edges were taken off for node n. */
  function Reduced(edges: seq<Edge>, k: nat, done: set<Node>, n: Node, v: Node): nat
    requires k <= |edges|
  {
    Pending(edges[..k], done + {n}, v) + Pending(edges[k..], done, v)
  }

  lemma ReducedStep(edges: seq<Edge>, k: nat, done: set<Node>, n: Node, v: Node)
    requires k < |edges| && n !in done
    ensures Reduced(edges, k, done, n, v)
         == Reduced(edges, k + 1, done, n, v) + (if edges[k] == Edge(n, v) then 1 else 0)
  {
    assert edges[..k + 1] == edges[..k] + [edges[k]];
    PendingSnoc(edges[..k], edges[k], done + {n}, v);
    assert edges[k..][0] == edges[k] && edges[k..][1..] == edges[k + 1..];
  }

  lemma {:induction false} ReducedEnds(edges: seq<Edge>, done: set<Node>, n: Node, v: Node)
    ensures Reduced(edges, 0, done, n, v) == Pending(edges, done, v)
    ensures Reduced(edges, |edges|, done, n, v) == Pending(edges, done + {n}, v)
  {
    assert edges[..0] == [] && edges[0..] == edges;
    assert edges[..|edges|] == edges && edges[|edges|..] == [];
  }

  ghost predicate Degrees(flow: Flow, inDegree: map<Node, int>, done: set<Node>) {
    forall v <- flow.nodes :: v in inDegree && inDegree[v] == Pending(flow.edges, done, v)
  }

  ghost predicate ReducedDegrees(flow: Flow, inDegree: map<Node, int>, k: nat, done: set<Node>, n: Node)
    requires k <= |flow.edges|
  {
    forall v <- flow.nodes :: v in inDegree && inDegree[v] == Reduced(flow.edges, k, done, n, v)
  }

  method CountInDegrees(flow: Flow) returns (inDegree: map<Node, int>)
    requires flow.WellFormed()
    ensures Degrees(flow, inDegree, {})
  {
    inDegree := map v | v in flow.nodes :: 0;
    for k := 0 to |flow.edges|
      invariant forall v <- flow.nodes :: v in inDegree && inDegree[v] == Pending(flow.edges[..k], {}, v)
    {
      var e := flow.edges[k];
      forall v | v in flow.nodes
        ensures Pending(flow.edges[..k + 1], {}, v) == Pending(flow.edges[..k], {}, v) + Unit(e, {}, v)
      {
        assert flow.edges[..k + 1] == flow.edges[..k] + [e];
        PendingSnoc(flow.edges[..k], e, {}, v);
      }
      hide Pending;
      inDegree := inDegree[e.target := inDegree[e.target] + 1];
    }
    assert flow.edges[..|flow.edges|] == flow.edges;
  }

  // ----- Topological order -----

  /** Every edge into order[j] comes from a node before it. */
  ghost predicate Ordered(edges: seq<Edge>, order: seq<Node>) {
    forall j :: 0 <= j < |order| ==> forall e <- edges :: e.target == order[j] ==> e.source in order[..j]
  }

  /** A permutation of the nodes with every edge's source before its target. */
  ghost predicate Topological(flow: Flow, order: seq<Node>) {
    && Distinct(order)
    && (forall v :: v in order <==> v in flow.nodes)
    && Ordered(flow.edges, order)
  }

  /** Nodes in the list are those done, in order, then those ready. */
  ghost predicate Sorting(flow: Flow, sorted: seq<Node>, queue: seq<Node>, inDegree: map<Node, int>) {
    && Distinct(sorted + queue)
    && (forall v <- sorted + queue :: v in flow.nodes)
    && Ordered(flow.edges, sorted)
    && (forall v <- flow.nodes :: v in inDegree && (inDegree[v] == 0 <==> v in sorted + queue))
  }

  ghost function Elements<T>(s: seq<T>): set<T> {
    set x | x in s
  }

  // ----- Counting -----

  lemma {:induction false} DistinctSize<T(!new)>(s: seq<T>)
    requires Distinct(s)
    ensures |Elements(s)| == |s|
  {
    if s != [] {
      var init := s[..|s| - 1];
      DistinctSize(init);
      assert s == init + [Last(s)];
      assert Elements(s) == Elements(init) + {Last(s)};
    }
  }

  lemma SubsetSize<T>(a: set<T>, b: set<T>)
    requires a <= b
    ensures |a| <= |b| && (|a| == |b| ==> a == b)
  {
    assert b == a + (b - a);
  }

  /** Distinct nodes are at most as many as all nodes, and all of them when as many. */
  lemma DistinctBounded(s: seq<Node>, nodes: seq<Node>)
    requires Distinct(s) && Distinct(nodes) && forall v <- s :: v in nodes
    ensures |s| <= |nodes|
    ensures |s| == |nodes| <==> forall v <- nodes :: v in s
  {
    DistinctSize(s);
    DistinctSize(nodes);
    SubsetSize(Elements(s), Elements(nodes));
    if forall v <- nodes :: v in s {
      assert Elements(s) == Elements(nodes);
    }
    if |s| == |nodes| {
      assert forall v <- nodes :: v in Elements(nodes);
    }
  }

  // ----- Cycles -----

  ghost predicate HasPredecessor(edges: seq<Edge>, nodes: set<Node>, v: Node) {
    exists u :: u in nodes && Edge(u, v) in edges
  }

  /** Every node of the set has a predecessor in it. */
  ghost predicate SourceFree(edges: seq<Edge>, nodes: set<Node>) {
    forall v <- nodes :: HasPredecessor(edges, nodes, v)
  }

  /** Going back k times from v through nodes of the set. */
  lemma {:induction false} WalkBack(edges: seq<Edge>, nodes: set<Node>, v: Node, k: nat) returns (p: seq<Node>)
    requires v in nodes && SourceFree(edges, nodes)
    ensures Path(edges, p) && |p| == k + 1 && Last(p) == v && forall u <- p :: u in nodes
    decreases k
  {
    if k == 0 {
      p := [v];
    } else {
      assert HasPredecessor(edges, nodes, v);
      var u :| u in nodes && Edge(u, v) in edges;
      var q := WalkBack(edges, nodes, u, k - 1);
      p := q + [v];
    }
  }

  lemma Repeats(s: seq<Node>, nodes: set<Node>) returns (i: nat, j: nat)
    requires |s| > |nodes| && forall u <- s :: u in nodes
    ensures i < j < |s| && s[i] == s[j]
  {
    if Distinct(s) {
      DistinctSize(s);
      SubsetSize(Elements(s), nodes);
    }
    i, j :| 0 <= i < j < |s| && s[i] == s[j];
  }

  /** When every node of a non-empty set has a predecessor in the set, there is a cycle. */
  lemma NoSourceMeansCycle(edges: seq<Edge>, nodes: set<Node>)
    requires nodes != {} && SourceFree(edges, nodes)
    ensures HasCycle(edges)
  {
    var v :| v in nodes;
    var p := WalkBack(edges, nodes, v, |nodes|);
    hide SourceFree;
    var i, j := Repeats(p, nodes);
    var q := p[i..j + 1];
    assert Path(edges, q) && q[0] == Last(q);
  }

  lemma StuckMeansCycle(flow: Flow, done: set<Node>, inDegree: map<Node, int>, v: Node)
    requires flow.WellFormed() && Degrees(flow, inDegree, done)
    requires forall w <- flow.nodes :: w !in done ==> inDegree[w] != 0
    requires v in flow.nodes && v !in done
    ensures HasCycle(flow.edges)
  {
    hide Pending, Path;
    var rest := set w | w in flow.nodes && w !in done;
    forall w <- rest
      ensures HasPredecessor(flow.edges, rest, w)
    {
      var u := PendingEdge(flow.edges, done, w);
      assert u in rest;
    }
    assert v in rest;
    NoSourceMeansCycle(flow.edges, rest);
  }

  /** In an order of all nodes, a path only moves on. */
  lemma {:induction false} PathMovesOn(edges: seq<Edge>, order: seq<Node>, p: seq<Node>, j: nat)
    requires Ordered(edges, order) && Path(edges, p) && |p| > 1
    requires j < |order| && Last(p) == order[j]
    ensures p[0] in order[..j]
  {
    var n := |p|;
    var e := Edge(p[n - 2], p[n - 1]);
    assert e in edges && e.source in order[..j];
    if n > 2 {
      var i :| 0 <= i < j && order[i] == e.source;
      assert Path(edges, p[..n - 1]) && Last(p[..n - 1]) == p[n - 2];
      PathMovesOn(edges, order, p[..n - 1], i);
    }
  }

  lemma OrderedMeansNoCycle(flow: Flow, order: seq<Node>)
    requires flow.WellFormed() && Topological(flow, order)
    ensures !HasCycle(flow.edges)
  {
    if HasCycle(flow.edges) {
      var p :| Path(flow.edges, p) && |p| > 1 && p[0] == Last(p);
      assert Edge(p[|p| - 2], Last(p)) in flow.edges;
      assert Last(p) in order;
      var j :| 0 <= j < |order| && order[j] == Last(p);
      PathMovesOn(flow.edges, order, p, j);
    }
  }

  method TopologicalSort(flow: Flow) returns (r: Result<seq<Node>, FlowError>)
    requires flow.WellFormed()
    ensures r.Ok? ==> Topological(flow, r.value)
    ensures r.Err? <==> flow.nodes == [] || HasCycle(flow.edges)
  {
    var inDegree := CountInDegrees(flow);
    var queue := ReadyNodes(flow, inDegree);
    if |queue| == 0 {
      NothingReady(flow, inDegree);
      return Err(CycleError);
    }
    var sorted: seq<Node> := [];
    assert Elements(sorted) == {};
    while |queue| > 0
      invariant Sorting(flow, sorted, queue, inDegree)
      invariant Degrees(flow, inDegree, Elements(sorted))
      invariant |sorted| + |queue| > 0
      decreases |flow.nodes| - |sorted|
    {
      var n := queue[0];
      assert queue == [n] + queue[1..];
      SortingBounded(flow, sorted, queue, inDegree);
      inDegree, queue := TakeOff(flow, sorted, n, queue[1..], inDegree);
      sorted := sorted + [n];
    }
    Finished(flow, sorted, inDegree);
    if |sorted| != |flow.nodes| {
      return Err(CycleError);
    }
    return Ok(sorted);
  }

  lemma NothingReady(flow: Flow, inDegree: map<Node, int>)
    requires flow.WellFormed() && Degrees(flow, inDegree, {}) && Sorting(flow, [], [], inDegree)
    ensures flow.nodes == [] || HasCycle(flow.edges)
  {
    if flow.nodes != [] {
      var none: seq<Node> := [];
      assert none + none == none;
      StuckMeansCycle(flow, {}, inDegree, flow.nodes[0]);
    }
  }

  lemma SortingBounded(flow: Flow, sorted: seq<Node>, queue: seq<Node>, inDegree: map<Node, int>)
    requires flow.WellFormed() && Sorting(flow, sorted, queue, inDegree)
    ensures |sorted| + |queue| <= |flow.nodes|
  {
    DistinctBounded(sorted + queue, flow.nodes);
  }

  /** Once nothing is ready, all nodes are sorted or the others are stuck on a cycle. */
  lemma Finished(flow: Flow, sorted: seq<Node>, inDegree: map<Node, int>)
    requires flow.WellFormed() && Sorting(flow, sorted, [], inDegree)
    requires Degrees(flow, inDegree, Elements(sorted)) && sorted != []
    ensures |sorted| != |flow.nodes| ==> HasCycle(flow.edges)
    ensures |sorted| == |flow.nodes| ==> Topological(flow, sorted) && !HasCycle(flow.edges) && flow.nodes != []
  {
    assert sorted + [] == sorted;
    DistinctBounded(sorted, flow.nodes);
    if |sorted| != |flow.nodes| {
      var v :| v in flow.nodes && v !in sorted;
      StuckMeansCycle(flow, Elements(sorted), inDegree, v);
    } else {
      OrderedMeansNoCycle(flow, sorted);
    }
  }

  /** Nodes without incoming edges, in dictionary order. */
  method ReadyNodes(flow: Flow, inDegree: map<Node, int>) returns (queue: seq<Node>)
    requires flow.WellFormed() && Degrees(flow, inDegree, {})
    ensures Sorting(flow, [], queue, inDegree)
  {
    hide Distinct, Pending;
    queue := [];
    ReadyAtFirst(flow);
    for i := 0 to |flow.nodes|
      invariant Distinct(queue)
      invariant forall v :: v in queue <==> v in flow.nodes[..i] && inDegree[v] == 0
    {
      NodeIsNew(flow, i);
      if inDegree[flow.nodes[i]] == 0 {
        assert [] + queue == queue && [] + (queue + [flow.nodes[i]]) == queue + [flow.nodes[i]];
        JoinDistinct([], queue, flow.nodes[i]);
        queue := queue + [flow.nodes[i]];
      }
    }
    assert flow.nodes[..|flow.nodes|] == flow.nodes;
    assert [] + queue == queue;
  }

  lemma ReadyAtFirst(flow: Flow)
    ensures Distinct<Node>([]) && flow.nodes[..0] == []
  {
  }

  lemma NodeIsNew(flow: Flow, i: nat)
    requires flow.WellFormed() && i < |flow.nodes|
    ensures flow.nodes[i] !in flow.nodes[..i] && flow.nodes[i] in flow.nodes
    ensures flow.nodes[..i + 1] == flow.nodes[..i] + [flow.nodes[i]]
  {
  }

  /** Node n leaves the queue: its edges are taken off, and new ready nodes join. */
  method TakeOff(flow: Flow, ghost sorted: seq<Node>, n: Node, rest: seq<Node>, degrees: map<Node, int>)
    returns (inDegree: map<Node, int>, queue: seq<Node>)
    requires flow.WellFormed()
    requires Sorting(flow, sorted, [n] + rest, degrees) && Degrees(flow, degrees, Elements(sorted))
    ensures Sorting(flow, sorted + [n], queue, inDegree)
    ensures Degrees(flow, inDegree, Elements(sorted + [n]))
  {
    hide Reduced, Ordered, Distinct, Pending;
    ghost var done := Elements(sorted);
    inDegree, queue := degrees, rest;
    StartTakingOff(flow, sorted, n, rest, degrees);
    for k := 0 to |flow.edges|
      invariant Sorting(flow, sorted + [n], queue, inDegree)
      invariant ReducedDegrees(flow, inDegree, k, done, n)
    {
      var e := flow.edges[k];
      ReducedStepAll(flow, k, done, n);
      if e.source == n {
        assert e == Edge(n, e.target);
        inDegree := inDegree[e.target := inDegree[e.target] - 1];
        if inDegree[e.target] == 0 {
          JoinDistinct(sorted + [n], queue, e.target);
          queue := queue + [e.target];
        }
      }
    }
    assert Elements(sorted + [n]) == done + {n};
    forall v <- flow.nodes
      ensures Reduced(flow.edges, |flow.edges|, done, n, v) == Pending(flow.edges, done + {n}, v)
    {
      ReducedEnds(flow.edges, done, n, v);
    }
  }

  lemma ReducedStepAll(flow: Flow, k: nat, done: set<Node>, n: Node)
    requires k < |flow.edges| && n !in done
    ensures forall v :: Reduced(flow.edges, k, done, n, v)
                     == Reduced(flow.edges, k + 1, done, n, v) + (if flow.edges[k] == Edge(n, v) then 1 else 0)
  {
    forall v
      ensures Reduced(flow.edges, k, done, n, v)
           == Reduced(flow.edges, k + 1, done, n, v) + (if flow.edges[k] == Edge(n, v) then 1 else 0)
    {
      ReducedStep(flow.edges, k, done, n, v);
    }
  }

  lemma JoinDistinct(sorted: seq<Node>, queue: seq<Node>, v: Node)
    requires Distinct(sorted + queue) && v !in sorted + queue
    ensures Distinct(sorted + (queue + [v]))
  {
    assert sorted + (queue + [v]) == (sorted + queue) + [v];
  }

  lemma StartTakingOff(flow: Flow, sorted: seq<Node>, n: Node, rest: seq<Node>, degrees: map<Node, int>)
    requires flow.WellFormed()
    requires Sorting(flow, sorted, [n] + rest, degrees) && Degrees(flow, degrees, Elements(sorted))
    ensures Sorting(flow, sorted + [n], rest, degrees) && n !in Elements(sorted)
    ensures ReducedDegrees(flow, degrees, 0, Elements(sorted), n)
  {
    var done := Elements(sorted);
    assert sorted + ([n] + rest) == (sorted + [n]) + rest;
    var all := sorted + ([n] + rest);
    assert all[|sorted|] == n && forall i :: 0 <= i < |sorted| ==> all[i] == sorted[i];
    assert n in all;
    PendingZero(flow.edges, done, n);
    forall v <- flow.nodes
      ensures Reduced(flow.edges, 0, done, n, v) == Pending(flow.edges, done, v)
    {
      ReducedEnds(flow.edges, done, n, v);
    }
    var next := sorted + [n];
    forall j | 0 <= j < |next|
      ensures forall e <- flow.edges :: e.target == next[j] ==> e.source in next[..j]
    {
      assert next[..j] == sorted[..j];
      assert j == |sorted| ==> sorted[..j] == sorted;
    }
  }
}

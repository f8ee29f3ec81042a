/** Running a flow: each level's nodes bind, run and store in any interleaving
    against shared outputs. Node runners are uninterpreted deterministic functions. */
module FlowRun {
  import opened Common
  import opened FlowGraph
  import opened FlowLevels

  /** known: the node type is registered; bind: resolve and validate the inputs from
      the outputs so far and the global variables, which are set before the first node
      runs; run: run the node. None is an exception. */
  datatype Runner<!I, !V> = Runner(
    known: Node -> bool,
    bind: (Node, map<Node, V>) -> Option<I>,
    run: (Node, I) -> Option<V>)

  /** One node alone, on the given outputs. */
  function Exec<I, V>(r: Runner<I, V>, n: Node, outputs: map<Node, V>): Option<V> {
    if !r.known(n) then None
    else
      match r.bind(n, outputs)
      case None => None
      case Some(input) => r.run(n, input)
  }

  /** The nodes one at a time in the given order. */
  function RunInOrder<I, V>(r: Runner<I, V>, order: seq<Node>): Option<map<Node, V>> {
    if order == [] then Some(map[])
    else
      match RunInOrder(r, order[..|order| - 1])
      case None => None
      case Some(outputs) =>
        match Exec(r, Last(order), outputs)
        case None => None
        case Some(v) => Some(outputs[Last(order) := v])
  }

  // ----- Ancestors -----

  ghost predicate Ancestor(edges: seq<Edge>, u: Node, v: Node) {
    exists p :: Path(edges, p) && |p| > 1 && p[0] == u && Last(p) == v
  }

  ghost predicate AgreeAbove<V>(edges: seq<Edge>, n: Node, a: map<Node, V>, b: map<Node, V>) {
    forall u :: Ancestor(edges, u, n) ==> (u in a <==> u in b) && (u in a ==> a[u] == b[u])
  }

  /** A node's inputs refer to outputs of its ancestors only. */
  ghost predicate ReadsAncestors<I(!new), V(!new)>(r: Runner<I, V>, edges: seq<Edge>) {
    forall n, a, b :: AgreeAbove(edges, n, a, b) ==> r.bind(n, a) == r.bind(n, b)
  }

  lemma AncestorInOrder(flow: Flow, order: seq<Node>, u: Node, j: nat)
    requires flow.WellFormed() && Topological(flow, order) && j < |order|
    requires Ancestor(flow.edges, u, order[j])
    ensures u in order[..j]
  {
    var p :| Path(flow.edges, p) && |p| > 1 && p[0] == u && Last(p) == order[j];
    PathMovesOn(flow.edges, order, p, j);
  }

  // ----- Outputs that explain each other -----

  /** Each output is what its node makes of the outputs of its ancestors. */
  ghost predicate Consistent<I, V>(r: Runner<I, V>, edges: seq<Edge>, outputs: map<Node, V>) {
    forall n <- outputs ::
      && (forall u :: Ancestor(edges, u, n) ==> u in outputs)
      && Exec(r, n, outputs) == Some(outputs[n])
  }

  ghost function Restricted<V>(outputs: map<Node, V>, nodes: seq<Node>): map<Node, V> {
    map n | n in outputs && n in nodes :: outputs[n]
  }

  /** Consistent outputs of all nodes are those of running the nodes in order. */
  lemma {:induction false} ConsistentIsSequential<I(!new), V(!new)>(
    r: Runner<I, V>, flow: Flow, order: seq<Node>, outputs: map<Node, V>, j: nat)
    requires flow.WellFormed() && Topological(flow, order) && j <= |order|
    requires ReadsAncestors(r, flow.edges) && Consistent(r, flow.edges, outputs)
    requires forall n <- order[..j] :: n in outputs
    ensures RunInOrder(r, order[..j]) == Some(Restricted(outputs, order[..j]))
  {
    if j > 0 {
      var n, before := order[j - 1], order[..j - 1];
      assert order[..j][..j - 1] == before && Last(order[..j]) == n && order[..j] == before + [n];
      ConsistentIsSequential(r, flow, order, outputs, j - 1);
      var o := Restricted(outputs, before);
      forall u | Ancestor(flow.edges, u, n)
        ensures (u in o <==> u in outputs) && (u in o ==> o[u] == outputs[u])
      {
        AncestorInOrder(flow, order, u, j - 1);
      }
      assert AgreeAbove(flow.edges, n, o, outputs);
      assert Exec(r, n, o) == Exec(r, n, outputs) == Some(outputs[n]);
      assert Restricted(outputs, order[..j]) == o[n := outputs[n]];
    }
  }

  /** Running in order makes consistent outputs. */
  lemma {:induction false} SequentialIsConsistent<I(!new), V(!new)>(
    r: Runner<I, V>, flow: Flow, order: seq<Node>, j: nat)
    requires flow.WellFormed() && Topological(flow, order) && j <= |order|
    requires ReadsAncestors(r, flow.edges)
    ensures RunInOrder(r, order[..j]).Some? ==>
              var o := RunInOrder(r, order[..j]).value;
              Consistent(r, flow.edges, o) && forall n :: n in o <==> n in order[..j]
  {
    if j > 0 && RunInOrder(r, order[..j]).Some? {
      var n, before := order[j - 1], order[..j - 1];
      assert order[..j][..j - 1] == before && Last(order[..j]) == n && order[..j] == before + [n];
      SequentialIsConsistent(r, flow, order, j - 1);
      var o := RunInOrder(r, before).value;
      forall u | Ancestor(flow.edges, u, n)
        ensures u in o
      {
        AncestorInOrder(flow, order, u, j - 1);
      }
      assert n !in o;
      AddOutput(r, flow.edges, o, n, Exec(r, n, o).value);
    }
  }

  /** An output that no other output's node reads keeps outputs consistent. */
  lemma AddOutput<I(!new), V(!new)>(r: Runner<I, V>, edges: seq<Edge>, o: map<Node, V>, n: Node, v: V)
    requires ReadsAncestors(r, edges) && Consistent(r, edges, o)
    requires n !in o && Exec(r, n, o) == Some(v) && forall u :: Ancestor(edges, u, n) ==> u in o
    ensures Consistent(r, edges, o[n := v])
  {
    var next := o[n := v];
    forall m <- next
      ensures (forall u :: Ancestor(edges, u, m) ==> u in next) && Exec(r, m, next) == Some(next[m])
    {
      assert AgreeAbove(edges, m, o, next);
    }
  }

  /** Two consistent outputs agree where both have one. */
  lemma {:induction false} ConsistentAgree<I(!new), V(!new)>(
    r: Runner<I, V>, flow: Flow, order: seq<Node>, a: map<Node, V>, b: map<Node, V>, j: nat)
    requires flow.WellFormed() && Topological(flow, order) && j <= |order|
    requires ReadsAncestors(r, flow.edges) && Consistent(r, flow.edges, a) && Consistent(r, flow.edges, b)
    ensures forall n <- order[..j] :: n in a && n in b ==> a[n] == b[n]
  {
    if j > 0 {
      ConsistentAgree(r, flow, order, a, b, j - 1);
      var n := order[j - 1];
      assert order[..j] == order[..j - 1] + [n];
      if n in a && n in b {
        forall u | Ancestor(flow.edges, u, n)
          ensures u in a && u in b && a[u] == b[u]
        {
          AncestorInOrder(flow, order, u, j - 1);
        }
        assert AgreeAbove(flow.edges, n, a, b);
      }
    }
  }

  // ----- The step system -----

  datatype Phase<I, V> = Idle | Bound(input: I) | Ran(output: V) | Stored | Failed

  datatype Status = Running | Succeeded | Aborted

  datatype Event = NodeStart(node: Node) | NodeEnd(node: Node) | NodeError(node: Node) | FlowStart | FlowEnd | FlowError

  datatype State<I, V> = State(
    level: nat,
    phases: map<Node, Phase<I, V>>,
    outputs: map<Node, V>,
    events: seq<Event>,
    status: Status)

  function Initial<I, V>(flow: Flow): State<I, V> {
    State(0, map n | n in flow.nodes :: Idle, map[], [FlowStart], Running)
  }

  /** The next step of one node: bind, run or store. */
  function NodeStep<I, V>(r: Runner<I, V>, s: State<I, V>, n: Node): State<I, V>
    requires n in s.phases
  {
    match s.phases[n]
    case Idle =>
      if !r.known(n) then s.(phases := s.phases[n := Failed])
      else (match r.bind(n, s.outputs)
            case None => s.(phases := s.phases[n := Failed], events := s.events + [NodeError(n)])
            case Some(input) => s.(phases := s.phases[n := Bound(input)], events := s.events + [NodeStart(n)]))
    case Bound(input) =>
      (match r.run(n, input)
       case None => s.(phases := s.phases[n := Failed], events := s.events + [NodeError(n)])
       case Some(v) => s.(phases := s.phases[n := Ran(v)]))
    case Ran(v) =>
      s.(phases := s.phases[n := Stored], outputs := s.outputs[n := v], events := s.events + [NodeEnd(n)])
    case Stored => s
    case Failed => s
  }

  predicate LevelStored<I, V>(groups: Groups, s: State<I, V>) {
    s.level < |groups| && forall n <- groups[s.level] :: n in s.phases && s.phases[n].Stored?
  }

  predicate SomeFailed<I, V>(groups: Groups, s: State<I, V>) {
    s.level < |groups| && exists n :: n in groups[s.level] && n in s.phases && s.phases[n].Failed?
  }

  function Advance<I, V>(s: State<I, V>): State<I, V> {
    s.(level := s.level + 1)
  }

  function Finish<I, V>(s: State<I, V>): State<I, V> {
    s.(status := Succeeded, events := s.events + [FlowEnd])
  }

  function Abort<I, V>(s: State<I, V>): State<I, V> {
    s.(status := Aborted, events := s.events + [FlowError])
  }

  /** One step of the engine: a node of the current level moves on (also after a
      sibling has failed), the level ends, the flow ends or it aborts. */
  ghost predicate Next<I, V>(r: Runner<I, V>, groups: Groups, s: State<I, V>, t: State<I, V>) {
    || (s.status != Succeeded && s.level < |groups|
        && exists n :: n in groups[s.level] && n in s.phases && t == NodeStep(r, s, n))
    || (s.status == Running && LevelStored(groups, s) && t == Advance(s))
    || (s.status == Running && s.level == |groups| && t == Finish(s))
    || (s.status == Running && SomeFailed(groups, s) && t == Abort(s))
  }

  /** A run of the engine: its states from the start. */
  ghost predicate IsRun<I, V>(r: Runner<I, V>, flow: Flow, groups: Groups, run: seq<State<I, V>>) {
    && run != [] && run[0] == Initial(flow)
    && forall i :: 0 < i < |run| ==> Next(r, groups, run[i - 1], run[i])
  }

  // ----- The groups -----

  /** The groups partition the nodes and put sources first. */
  ghost predicate GoodGroups(flow: Flow, groups: Groups) {
    && (forall i, v :: 0 <= i < |groups| && v in groups[i] ==> v in flow.nodes)
    && (forall v <- flow.nodes :: InSome(groups, v))
    && (forall i, j, v :: 0 <= i < |groups| && 0 <= j < |groups| && v in groups[i] && v in groups[j] ==> i == j)
    && RespectsEdges(flow.edges, groups)
  }

  lemma ParallelGroupsAreGood(flow: Flow, order: seq<Node>, groups: Groups)
    requires flow.WellFormed() && Topological(flow, order)
    requires ByDepth(flow, groups) && CoversDepths(flow, groups)
    ensures GoodGroups(flow, groups)
  {
    GroupsRespectEdges(flow, order, groups);
    forall v <- flow.nodes
      ensures InSome(groups, v)
    {
      GroupsPartition(flow, order, groups, v);
    }
    forall i, j, v | 0 <= i < |groups| && 0 <= j < |groups| && v in groups[i] && v in groups[j]
      ensures i == j
    {
      DepthUnique(flow.edges, v, i, j);
    }
  }

  /** Ancestors are in strictly earlier groups. */
  lemma {:induction false} AncestorsEarlier(edges: seq<Edge>, groups: Groups, p: seq<Node>, j: nat)
    requires RespectsEdges(edges, groups) && Path(edges, p) && |p| > 1
    requires j < |groups| && Last(p) in groups[j]
    ensures exists i :: 0 <= i < j && p[0] in groups[i]
  {
    var n := |p|;
    var e := Edge(p[n - 2], p[n - 1]);
    assert e in edges;
    var i :| 0 <= i < j && e.source in groups[i];
    if n > 2 {
      assert Path(edges, p[..n - 1]) && Last(p[..n - 1]) == p[n - 2];
      AncestorsEarlier(edges, groups, p[..n - 1], i);
    }
  }
}

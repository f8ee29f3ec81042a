/** The engine: sorts the flow, finds the groups, and runs each group under an
    arbitrary scheduler against its own context. */
module FlowEngine {
  import opened Common
  import opened FlowGraph
  import opened FlowLevels
  import opened FlowRun
  import opened FlowRunLaws

  datatype EngineError = Cycle | NodeFailed

  /** Steps a node may still take. */
  function Work<I, V>(phase: Phase<I, V>): nat {
    match phase
    case Idle => 3
    case Bound(_) => 2
    case Ran(_) => 1
    case Stored => 0
    case Failed => 0
  }

  function TotalWork<I, V>(nodes: seq<Node>, phases: map<Node, Phase<I, V>>): nat {
    if nodes == [] then 0
    else (if nodes[0] in phases then Work(phases[nodes[0]]) else 0) + TotalWork(nodes[1..], phases)
  }

  lemma {:induction false} WorkDecreases<I, V>(nodes: seq<Node>, a: map<Node, Phase<I, V>>, b: map<Node, Phase<I, V>>, n: Node)
    requires a.Keys == b.Keys && n in a && Work(b[n]) < Work(a[n])
    requires forall m <- a :: m != n ==> b[m] == a[m]
    ensures TotalWork(nodes, b) <= TotalWork(nodes, a)
    ensures n in nodes ==> TotalWork(nodes, b) < TotalWork(nodes, a)
  {
    if nodes != [] {
      WorkDecreases(nodes[1..], a, b, n);
    }
  }

  class Engine<I(!new), V(!new)> {
    /** The shared context: outputs, events and the progress of the nodes. */
    var state: State<I, V>
    const runner: Runner<I, V>

    constructor (runner: Runner<I, V>)
      ensures this.runner == runner
    {
      this.runner := runner;
      state := State(0, map[], map[], [], Running);
    }

    /** Runs a flow once. The result does not depend on the scheduler: a flow with
        a cycle is refused, and otherwise the outcome is that of running the nodes
        one at a time in any topological order. */
    method ExecuteFlow(flow: Flow) returns (r: Result<map<Node, V>, EngineError>)
      requires flow.WellFormed() && ReadsAncestors(runner, flow.edges)
      modifies this
      ensures r == Err(Cycle) <==> flow.nodes == [] || HasCycle(flow.edges)
      ensures r.Ok? ==> state.outputs == r.value
                        && forall order :: Topological(flow, order) ==> RunInOrder(runner, order) == Some(r.value)
      ensures r.Ok? ==> forall n :: n in r.value <==> n in flow.nodes
      ensures r.Ok? ==> forall n <- flow.nodes ::
                runner.known(n) && runner.bind(n, r.value).Some?
                && runner.run(n, runner.bind(n, r.value).value) == Some(r.value[n])
      ensures r == Err(NodeFailed) ==> forall order :: Topological(flow, order) ==> RunInOrder(runner, order) == None
      ensures EventsTrue(flow, state)
    {
      hide GoodGroups, ReadsAncestors, Inv, EventsTrue, ByDepth, CoversDepths, Topological, HasCycle, RunInOrder;
      state := Initial(flow);
      EventsStart<I, V>(flow);
      var sorted := TopologicalSort(flow);
      if sorted.Err? {
        state := Abort(state);
        return Err(Cycle);
      }
      TopologicalElements(flow, sorted.value);
      var groups := FindParallelGroups(flow, sorted.value);
      ParallelGroupsAreGood(flow, sorted.value, groups);
      InitialInv(runner, flow, groups);
      var level := 0;
      while level < |groups|
        invariant level <= |groups| && state.level == level && state.status == Running
        invariant Inv(runner, flow, groups, state) && EventsTrue(flow, state)
      {
        var ok := ExecuteNodeGroup(flow, groups, level);
        ghost var before := state;
        if !ok {
          state := Abort(state);
          NextKeeps(runner, flow, groups, before, state);
          AbortedMeansFailed(runner, flow, groups, state);
          return Err(NodeFailed);
        }
        state := Advance(state);
        NextKeeps(runner, flow, groups, before, state);
        level := level + 1;
      }
      ghost var before := state;
      state := Finish(state);
      NextKeeps(runner, flow, groups, before, state);
      SucceededMeansSequential(runner, flow, groups, state);
      OutputsAreAnswers(runner, flow, groups, state);
      return Ok(state.outputs);
    }

    /** Runs the nodes of one group until all are stored or one has failed; any node
        that can move on may be scheduled next. */
    method ExecuteNodeGroup(flow: Flow, groups: Groups, level: nat) returns (ok: bool)
      requires GoodGroups(flow, groups) && ReadsAncestors(runner, flow.edges) && level < |groups|
      requires state.level == level && state.status == Running
      requires Inv(runner, flow, groups, state) && EventsTrue(flow, state)
      modifies this
      ensures state.level == level && state.status == Running
      ensures Inv(runner, flow, groups, state) && EventsTrue(flow, state)
      ensures if ok then LevelStored(groups, state) else SomeFailed(groups, state)
    {
      hide GoodGroups, ReadsAncestors, Inv, EventsTrue, NodeStep, TotalWork;
      var group := groups[level];
      while !LevelStored(groups, state) && !SomeFailed(groups, state)
        invariant state.level == level && state.status == Running
        invariant Inv(runner, flow, groups, state) && EventsTrue(flow, state)
        decreases TotalWork(flow.nodes, state.phases)
      {
        GroupInPhases(runner, flow, groups, state);
        var n :| n in group && !state.phases[n].Stored?;
        assert !state.phases[n].Failed?;
        NodeMoves(runner, flow, groups, state, n);
        state := NodeStep(runner, state, n);
      }
      ok := !SomeFailed(groups, state);
    }
  }

  /** What a run yields: output data and, from some runners, a system output. */
  datatype Produced<D, S> = Produced(data: D, system: Option<S>)

  function Outputs<D, S>(produced: map<Node, Produced<D, S>>): map<Node, D> {
    map n | n in produced :: produced[n].data
  }

  function SystemOutputs<D, S>(produced: map<Node, Produced<D, S>>): map<Node, S> {
    map n | n in produced && produced[n].system.Some? :: produced[n].system.value
  }

  /** The outputs and, beside them, the system outputs: the data of every node, and the
      system output of each node that has one, as in every sequential order. */
  method ExecuteWithSystemOutputs<I(!new), D(!new), S(!new)>(engine: Engine<I, Produced<D, S>>, flow: Flow)
    returns (r: Result<(map<Node, D>, map<Node, S>), EngineError>)
    requires flow.WellFormed() && ReadsAncestors(engine.runner, flow.edges)
    modifies engine
    ensures r == Err(Cycle) <==> flow.nodes == [] || HasCycle(flow.edges)
    ensures r.Ok? ==> (forall n :: n in r.value.0 <==> n in flow.nodes) && forall n <- r.value.1 :: n in flow.nodes
    ensures r.Ok? ==> forall order, n :: Topological(flow, order) && n in flow.nodes ==>
                        var produced := RunInOrder(engine.runner, order);
                        && produced.Some? && n in produced.value
                        && r.value.0[n] == produced.value[n].data
                        && (n in r.value.1 <==> produced.value[n].system.Some?)
                        && (n in r.value.1 ==> produced.value[n].system == Some(r.value.1[n]))
    ensures r == Err(NodeFailed) ==> forall order :: Topological(flow, order) ==> RunInOrder(engine.runner, order) == None
  {
    hide ReadsAncestors, Topological, HasCycle, RunInOrder, EventsTrue;
    var all := engine.ExecuteFlow(flow);
    if all.Err? {
      return Err(all.error);
    }
    return Ok((Outputs(all.value), SystemOutputs(all.value)));
  }

  /** A node that can move on takes a step that keeps the invariants and leaves less to do. */
  lemma NodeMoves<I(!new), V(!new)>(r: Runner<I, V>, flow: Flow, groups: Groups, s: State<I, V>, n: Node)
    requires GoodGroups(flow, groups) && ReadsAncestors(r, flow.edges)
    requires Inv(r, flow, groups, s) && EventsTrue(flow, s) && s.status == Running
    requires s.level < |groups| && n in groups[s.level] && n in s.phases && n in flow.nodes
    requires !s.phases[n].Stored? && !s.phases[n].Failed?
    ensures var t := NodeStep(r, s, n);
            && Inv(r, flow, groups, t) && EventsTrue(flow, t) && t.level == s.level && t.status == s.status
            && TotalWork(flow.nodes, t.phases) < TotalWork(flow.nodes, s.phases)
  {
    hide GoodGroups, ReadsAncestors, Inv, EventsTrue, TotalWork;
    var t := NodeStep(r, s, n);
    StepKeepsFailed(r, groups, s, n);
    assert Next(r, groups, s, t);
    NextKeeps(r, flow, groups, s, t);
    WorkDecreases(flow.nodes, s.phases, t.phases, n);
  }

  lemma EventsStart<I, V>(flow: Flow)
    ensures EventsTrue(flow, Initial<I, V>(flow)) && EventsTrue(flow, Abort(Initial<I, V>(flow)))
  {
    FlowEventKeeps(flow, Initial<I, V>(flow), FlowError);
  }

  lemma TopologicalElements(flow: Flow, order: seq<Node>)
    requires Topological(flow, order)
    ensures Distinct(order) && forall v :: v in order <==> v in flow.nodes
  {
  }

  lemma NextKeeps<I(!new), V(!new)>(r: Runner<I, V>, flow: Flow, groups: Groups, s: State<I, V>, t: State<I, V>)
    requires GoodGroups(flow, groups) && ReadsAncestors(r, flow.edges)
    requires Inv(r, flow, groups, s) && EventsTrue(flow, s) && Next(r, groups, s, t)
    ensures Inv(r, flow, groups, t) && EventsTrue(flow, t)
  {
    NextInv(r, flow, groups, s, t);
    hide GoodGroups, ReadsAncestors, NodesTrue, EventsTrue, Next;
    NextEvents(r, flow, groups, s, t);
  }

  lemma GroupInPhases<I, V>(r: Runner<I, V>, flow: Flow, groups: Groups, s: State<I, V>)
    requires GoodGroups(flow, groups) && Inv(r, flow, groups, s) && s.level < |groups|
    ensures forall n <- groups[s.level] :: n in s.phases && n in flow.nodes
  {
  }

  lemma {:induction false} SucceededMeansSequential<I(!new), V(!new)>(r: Runner<I, V>, flow: Flow, groups: Groups, s: State<I, V>)
    requires flow.WellFormed() && GoodGroups(flow, groups) && ReadsAncestors(r, flow.edges)
    requires Inv(r, flow, groups, s) && s.status == Succeeded
    ensures forall order :: Topological(flow, order) ==> RunInOrder(r, order) == Some(s.outputs)
  {
    hide GoodGroups, ReadsAncestors, Inv, Topological, RunInOrder;
    forall order | Topological(flow, order)
      ensures RunInOrder(r, order) == Some(s.outputs)
    {
      SuccessIsSequential(r, flow, order, groups, s);
    }
  }

  /** In the end every node's output is what its runner makes of the outputs. */
  lemma OutputsAreAnswers<I(!new), V(!new)>(r: Runner<I, V>, flow: Flow, groups: Groups, s: State<I, V>)
    requires GoodGroups(flow, groups) && Inv(r, flow, groups, s) && s.status == Succeeded
    ensures forall n :: n in s.outputs <==> n in flow.nodes
    ensures forall n <- flow.nodes ::
              r.known(n) && r.bind(n, s.outputs).Some? && r.run(n, r.bind(n, s.outputs).value) == Some(s.outputs[n])
  {
    forall n <- flow.nodes
      ensures n in s.phases && s.phases[n].Stored?
    {
      assert InSome(groups, n);
    }
  }

  lemma {:induction false} AbortedMeansFailed<I(!new), V(!new)>(r: Runner<I, V>, flow: Flow, groups: Groups, s: State<I, V>)
    requires flow.WellFormed() && GoodGroups(flow, groups) && ReadsAncestors(r, flow.edges)
    requires Inv(r, flow, groups, s) && SomeFailed(groups, s)
    ensures forall order :: Topological(flow, order) ==> RunInOrder(r, order) == None
  {
    hide GoodGroups, ReadsAncestors, Inv, Topological, RunInOrder;
    var n :| n in groups[s.level] && n in s.phases && s.phases[n].Failed?;
    forall order | Topological(flow, order)
      ensures RunInOrder(r, order) == None
    {
      FailureIsSequential(r, flow, order, groups, s, n);
    }
  }
}

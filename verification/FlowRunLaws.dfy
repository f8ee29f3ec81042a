/** What every run of the engine keeps, whatever the interleaving: success equals
    running the nodes in order, each node runs once after its predecessors, and a
    failure stops later levels. */
module FlowRunLaws {
  import opened Common
  import opened FlowGraph
  import opened FlowLevels
  import opened FlowRun

  // ----- The invariant -----

  /** What a node's phase says about its execution on the current outputs. */
  ghost predicate PhaseTrue<I, V>(r: Runner<I, V>, outputs: map<Node, V>, n: Node, phase: Phase<I, V>) {
    match phase
    case Idle => true
    case Bound(input) => r.known(n) && r.bind(n, outputs) == Some(input)
    case Ran(v) => Exec(r, n, outputs) == Some(v)
    case Stored => n in outputs && Exec(r, n, outputs) == Some(outputs[n])
    case Failed => Exec(r, n, outputs) == None
  }

  ghost predicate NodesTrue<I, V>(r: Runner<I, V>, flow: Flow, s: State<I, V>) {
    && (forall n :: n in s.phases <==> n in flow.nodes)
    && (forall n <- flow.nodes :: n in s.phases && PhaseTrue(r, s.outputs, n, s.phases[n]))
    && (forall n :: n in s.outputs <==> n in s.phases && s.phases[n].Stored?)
  }

  /** Nodes of earlier levels are stored, those of later ones untouched. */
  ghost predicate LevelsTrue<I, V>(groups: Groups, s: State<I, V>) {
    && s.level <= |groups|
    && (forall i, n :: 0 <= i < s.level && n in groups[i] ==> n in s.phases && s.phases[n].Stored?)
    && (forall i, n :: s.level < i < |groups| && n in groups[i] ==> n in s.phases && s.phases[n].Idle?)
  }

  ghost predicate Inv<I, V>(r: Runner<I, V>, flow: Flow, groups: Groups, s: State<I, V>) {
    && NodesTrue(r, flow, s)
    && LevelsTrue(groups, s)
    && (s.status == Succeeded ==> s.level == |groups|)
    && (s.status == Aborted ==> SomeFailed(groups, s))
  }

  lemma InitialInv<I, V>(r: Runner<I, V>, flow: Flow, groups: Groups)
    requires GoodGroups(flow, groups)
    ensures Inv(r, flow, groups, Initial(flow))
  {
  }

  /** A node that has started has none of its ancestors in the current level or later. */
  lemma StartedReadsEarlier<I, V>(flow: Flow, groups: Groups, s: State<I, V>, m: Node, u: Node)
    requires GoodGroups(flow, groups) && LevelsTrue(groups, s)
    requires m in flow.nodes && m in s.phases && Ancestor(flow.edges, u, m)
    requires !s.phases[m].Idle? || (s.level < |groups| && m in groups[s.level])
    ensures exists i :: 0 <= i < s.level && i < |groups| && u in groups[i]
  {
    hide RespectsEdges;
    var p :| Path(flow.edges, p) && |p| > 1 && p[0] == u && Last(p) == m;
    assert InSome(groups, m);
    var j :| 0 <= j < |groups| && m in groups[j];
    AncestorsEarlier(flow.edges, groups, p, j);
  }

  /** Storing an output of the current level changes no started node's execution. */
  lemma StoreKeepsPhase<I(!new), V(!new)>(r: Runner<I, V>, flow: Flow, groups: Groups, s: State<I, V>, n: Node, v: V, m: Node)
    requires GoodGroups(flow, groups) && ReadsAncestors(r, flow.edges) && Inv(r, flow, groups, s)
    requires s.level < |groups| && n in groups[s.level] && n !in s.outputs
    requires m in flow.nodes && m in s.phases && m != n && PhaseTrue(r, s.outputs, m, s.phases[m])
    ensures PhaseTrue(r, s.outputs[n := v], m, s.phases[m])
  {
    if !s.phases[m].Idle? {
      hide NodesTrue, LevelsTrue, PhaseTrue, RespectsEdges;
      StoreInvisible(flow, groups, s, n, v, m);
      PhaseStays(r, flow.edges, s.outputs, s.outputs[n := v], m, s.phases[m]);
    }
  }

  lemma StoreInvisible<I, V>(flow: Flow, groups: Groups, s: State<I, V>, n: Node, v: V, m: Node)
    requires GoodGroups(flow, groups) && LevelsTrue(groups, s)
    requires s.level < |groups| && n in groups[s.level]
    requires m in flow.nodes && m in s.phases
    requires !s.phases[m].Idle? || m in groups[s.level]
    ensures AgreeAbove(flow.edges, m, s.outputs, s.outputs[n := v])
  {
    hide Ancestor, RespectsEdges;
    forall u | Ancestor(flow.edges, u, m)
      ensures u != n
    {
      StartedReadsEarlier(flow, groups, s, m, u);
    }
  }

  lemma PhaseStays<I(!new), V(!new)>(r: Runner<I, V>, edges: seq<Edge>, a: map<Node, V>, b: map<Node, V>, m: Node, phase: Phase<I, V>)
    requires ReadsAncestors(r, edges) && AgreeAbove(edges, m, a, b)
    requires m in a ==> m in b && b[m] == a[m]
    requires PhaseTrue(r, a, m, phase)
    ensures PhaseTrue(r, b, m, phase)
  {
    assert r.bind(m, a) == r.bind(m, b);
  }

  lemma NodeStepPhase<I, V>(r: Runner<I, V>, s: State<I, V>, n: Node)
    requires n in s.phases && PhaseTrue(r, s.outputs, n, s.phases[n])
    requires !s.phases[n].Ran?
    ensures var t := NodeStep(r, s, n);
            && t.outputs == s.outputs && n in t.phases && PhaseTrue(r, t.outputs, n, t.phases[n])
            && t.phases == s.phases[n := t.phases[n]] && (t.phases[n].Stored? <==> s.phases[n].Stored?)
  {
  }

  lemma NodePhase<I, V>(r: Runner<I, V>, flow: Flow, groups: Groups, s: State<I, V>, n: Node)
    requires GoodGroups(flow, groups) && Inv(r, flow, groups, s)
    requires s.level < |groups| && n in groups[s.level] && n in s.phases
    ensures n in flow.nodes && PhaseTrue(r, s.outputs, n, s.phases[n])
  {
    hide PhaseTrue, RespectsEdges;
  }

  lemma NodeStepInv<I(!new), V(!new)>(r: Runner<I, V>, flow: Flow, groups: Groups, s: State<I, V>, n: Node)
    requires GoodGroups(flow, groups) && ReadsAncestors(r, flow.edges) && Inv(r, flow, groups, s)
    requires s.status != Succeeded && s.level < |groups| && n in groups[s.level] && n in s.phases
    ensures Inv(r, flow, groups, NodeStep(r, s, n))
  {
    hide PhaseTrue, RespectsEdges, ReadsAncestors;
    var t := NodeStep(r, s, n);
    NodePhase(r, flow, groups, s, n);
    if s.phases[n].Ran? {
      StoreStepNodes(r, flow, groups, s, n);
    } else {
      NodeStepPhase(r, s, n);
    }
    StepKeepsFailed(r, groups, s, n);
  }

  lemma StepKeepsFailed<I, V>(r: Runner<I, V>, groups: Groups, s: State<I, V>, n: Node)
    requires n in s.phases
    ensures SomeFailed(groups, s) ==> SomeFailed(groups, NodeStep(r, s, n))
    ensures NodeStep(r, s, n).level == s.level && NodeStep(r, s, n).status == s.status
    ensures NodeStep(r, s, n).phases.Keys == s.phases.Keys
    ensures forall m <- s.phases :: m != n ==> NodeStep(r, s, n).phases[m] == s.phases[m]
  {
    if SomeFailed(groups, s) {
      var m :| m in groups[s.level] && m in s.phases && s.phases[m].Failed?;
      assert NodeStep(r, s, n).phases[m].Failed?;
    }
  }

  lemma StoreStepNodes<I(!new), V(!new)>(r: Runner<I, V>, flow: Flow, groups: Groups, s: State<I, V>, n: Node)
    requires GoodGroups(flow, groups) && ReadsAncestors(r, flow.edges) && Inv(r, flow, groups, s)
    requires s.level < |groups| && n in groups[s.level] && n in s.phases && s.phases[n].Ran?
    ensures NodesTrue(r, flow, NodeStep(r, s, n))
  {
    hide RespectsEdges, ReadsAncestors;
    var v := s.phases[n].output;
    var t := NodeStep(r, s, n);
    assert n in flow.nodes;
    StoreInvisible(flow, groups, s, n, v, n);
    ExecStays(r, flow.edges, s.outputs, t.outputs, n);
    forall m | m in flow.nodes
      ensures m in t.phases && PhaseTrue(r, t.outputs, m, t.phases[m])
    {
      if m != n {
        StoreKeepsPhase(r, flow, groups, s, n, v, m);
      }
    }
  }

  lemma ExecStays<I(!new), V(!new)>(r: Runner<I, V>, edges: seq<Edge>, a: map<Node, V>, b: map<Node, V>, n: Node)
    requires ReadsAncestors(r, edges) && AgreeAbove(edges, n, a, b)
    ensures Exec(r, n, a) == Exec(r, n, b)
  {
  }

  /** Every step keeps the invariant. */
  lemma NextInv<I(!new), V(!new)>(r: Runner<I, V>, flow: Flow, groups: Groups, s: State<I, V>, t: State<I, V>)
    requires GoodGroups(flow, groups) && ReadsAncestors(r, flow.edges) && Inv(r, flow, groups, s)
    requires Next(r, groups, s, t)
    ensures Inv(r, flow, groups, t)
  {
    hide RespectsEdges, ReadsAncestors, PhaseTrue;
    if n :| s.status != Succeeded && s.level < |groups| && n in groups[s.level] && n in s.phases && t == NodeStep(r, s, n) {
      NodeStepInv(r, flow, groups, s, n);
    }
  }

  lemma {:induction false} RunInv<I(!new), V(!new)>(r: Runner<I, V>, flow: Flow, groups: Groups, run: seq<State<I, V>>, i: nat)
    requires GoodGroups(flow, groups) && ReadsAncestors(r, flow.edges)
    requires IsRun(r, flow, groups, run) && i < |run|
    ensures Inv(r, flow, groups, run[i])
  {
    hide Inv, GoodGroups, ReadsAncestors, Next;
    if i == 0 {
      InitialInv(r, flow, groups);
    } else {
      RunInv(r, flow, groups, run, i - 1);
      NextInv(r, flow, groups, run[i - 1], run[i]);
    }
  }

  // ----- Outcomes -----

  lemma OutputsConsistent<I(!new), V(!new)>(r: Runner<I, V>, flow: Flow, groups: Groups, s: State<I, V>)
    requires GoodGroups(flow, groups) && Inv(r, flow, groups, s)
    ensures Consistent(r, flow.edges, s.outputs)
  {
    hide RespectsEdges, Ancestor;
    forall n <- s.outputs
      ensures (forall u :: Ancestor(flow.edges, u, n) ==> u in s.outputs) && Exec(r, n, s.outputs) == Some(s.outputs[n])
    {
      assert n in flow.nodes && PhaseTrue(r, s.outputs, n, s.phases[n]);
      forall u | Ancestor(flow.edges, u, n)
        ensures u in s.outputs
      {
        StartedReadsEarlier(flow, groups, s, n, u);
      }
    }
  }

  /** A successful run ends with the outputs of running the nodes one at a time. */
  lemma {:induction false} SuccessIsSequential<I(!new), V(!new)>(r: Runner<I, V>, flow: Flow, order: seq<Node>, groups: Groups, s: State<I, V>)
    requires flow.WellFormed() && Topological(flow, order) && GoodGroups(flow, groups)
    requires ReadsAncestors(r, flow.edges) && Inv(r, flow, groups, s) && s.status == Succeeded
    ensures RunInOrder(r, order) == Some(s.outputs)
  {
    hide RespectsEdges, PhaseTrue, ReadsAncestors;
    OutputsConsistent(r, flow, groups, s);
    forall n <- flow.nodes
      ensures n in s.outputs
    {
      assert InSome(groups, n);
    }
    assert order[..|order|] == order;
    ConsistentIsSequential(r, flow, order, s.outputs, |order|);
    assert Restricted(s.outputs, order) == s.outputs;
  }

  /** If some node has failed, running the nodes one at a time fails too. */
  lemma {:induction false} FailureIsSequential<I(!new), V(!new)>(
    r: Runner<I, V>, flow: Flow, order: seq<Node>, groups: Groups, s: State<I, V>, n: Node)
    requires flow.WellFormed() && Topological(flow, order) && GoodGroups(flow, groups)
    requires ReadsAncestors(r, flow.edges) && Inv(r, flow, groups, s)
    requires n in s.phases && s.phases[n].Failed?
    ensures RunInOrder(r, order) == None
  {
    hide RespectsEdges, Ancestor, RunInOrder, Consistent;
    assert order[..|order|] == order;
    SequentialIsConsistent(r, flow, order, |order|);
    if RunInOrder(r, order).Some? {
      var o := RunInOrder(r, order).value;
      OutputsConsistent(r, flow, groups, s);
      ConsistentAgree(r, flow, order, s.outputs, o, |order|);
      assert n in flow.nodes && PhaseTrue(r, s.outputs, n, s.phases[n]);
      forall u | Ancestor(flow.edges, u, n)
        ensures u in s.outputs && u in o && s.outputs[u] == o[u]
      {
        StartedReadsEarlier(flow, groups, s, n, u);
        assert u in flow.nodes;
      }
      ExecStays(r, flow.edges, s.outputs, o, n);
      ConsistentHolds(r, flow.edges, o, n);
    }
  }

  lemma ConsistentHolds<I, V>(r: Runner<I, V>, edges: seq<Edge>, o: map<Node, V>, n: Node)
    requires Consistent(r, edges, o) && n in o
    ensures Exec(r, n, o) == Some(o[n])
  {
  }

  /** Whatever the interleaving, a run that has ended well has the outputs of the
      sequential run, and one that has aborted had no chance to end well. */
  lemma {:induction false} RunsAreSequential<I(!new), V(!new)>(
    r: Runner<I, V>, flow: Flow, order: seq<Node>, groups: Groups, run: seq<State<I, V>>)
    requires flow.WellFormed() && Topological(flow, order)
    requires ByDepth(flow, groups) && CoversDepths(flow, groups)
    requires ReadsAncestors(r, flow.edges) && IsRun(r, flow, groups, run)
    ensures Last(run).status == Succeeded ==> RunInOrder(r, order) == Some(Last(run).outputs)
    ensures Last(run).status == Aborted ==> RunInOrder(r, order) == None
  {
    hide ByDepth, CoversDepths, ReadsAncestors, GoodGroups, Next, NodesTrue, LevelsTrue, RunInOrder;
    ParallelGroupsAreGood(flow, order, groups);
    RunInv(r, flow, groups, run, |run| - 1);
    var s := Last(run);
    if s.status == Succeeded {
      SuccessIsSequential(r, flow, order, groups, s);
    } else if s.status == Aborted {
      var n :| n in groups[s.level] && n in s.phases && s.phases[n].Failed?;
      FailureIsSequential(r, flow, order, groups, s, n);
    }
  }

  // ----- After a failure -----

  lemma FailedStays<I, V>(r: Runner<I, V>, groups: Groups, s: State<I, V>, t: State<I, V>)
    requires SomeFailed(groups, s) && Next(r, groups, s, t)
    ensures SomeFailed(groups, t) && t.level == s.level && (t.status == s.status || t.status == Aborted)
  {
    if n :| s.level < |groups| && n in groups[s.level] && n in s.phases && t == NodeStep(r, s, n) {
      StepKeepsFailed(r, groups, s, n);
    }
  }

  lemma SuccessIsAtTheEnd<I(!new), V(!new)>(
    r: Runner<I, V>, flow: Flow, groups: Groups, run: seq<State<I, V>>, i: nat)
    requires IsRun(r, flow, groups, run) && i < |run| && run[i].status == Succeeded
    ensures run[i].level == |groups|
  {
    if i > 0 {
      assert Next(r, groups, run[i - 1], run[i]);
    }
  }

  /** Once a node has failed, no later level starts and the flow does not succeed. */
  lemma {:induction false} NoLevelAfterFailure<I(!new), V(!new)>(
    r: Runner<I, V>, flow: Flow, groups: Groups, run: seq<State<I, V>>, i: nat, j: nat)
    requires IsRun(r, flow, groups, run) && i <= j < |run| && SomeFailed(groups, run[i])
    ensures SomeFailed(groups, run[j]) && run[j].level == run[i].level && run[j].status != Succeeded
    decreases j - i
  {
    if run[j].status == Succeeded {
      SuccessIsAtTheEnd(r, flow, groups, run, j);
    }
    hide Next, SomeFailed;
    if i < j {
      NoLevelAfterFailure(r, flow, groups, run, i, j - 1);
      FailedStays(r, groups, run[j - 1], run[j]);
    }
    FailedIsInside(groups, run[j]);
  }

  lemma FailedIsInside<I, V>(groups: Groups, s: State<I, V>)
    ensures SomeFailed(groups, s) ==> s.level < |groups|
  {
  }

  // ----- Each node once, after its predecessors -----

  /** How many starts and ends of n have been announced. */
  ghost predicate CountsTrue<I, V>(events: seq<Event>, n: Node, phase: Phase<I, V>) {
    var starts, ends := multiset(events)[NodeStart(n)], multiset(events)[NodeEnd(n)];
    && starts <= 1
    && (phase.Idle? ==> starts == 0)
    && (phase.Bound? || phase.Ran? || phase.Stored? ==> starts == 1)
    && ends == (if phase.Stored? then 1 else 0)
  }

  /** Before a node starts, all its ancestors have ended; before it ends, it started. */
  ghost predicate WellTimed(edges: seq<Edge>, events: seq<Event>) {
    forall i :: 0 <= i < |events| ==> WellTimedAt(edges, events[..i], events[i])
  }

  ghost predicate WellTimedAt(edges: seq<Edge>, before: seq<Event>, e: Event) {
    && (e.NodeStart? ==> forall u :: Ancestor(edges, u, e.node) ==> NodeEnd(u) in before)
    && (e.NodeEnd? ==> NodeStart(e.node) in before)
  }

  ghost predicate EventsTrue<I, V>(flow: Flow, s: State<I, V>) {
    && (forall n <- flow.nodes :: n in s.phases && CountsTrue(s.events, n, s.phases[n]))
    && WellTimed(flow.edges, s.events)
  }

  lemma WellTimedSnoc(edges: seq<Edge>, events: seq<Event>, e: Event)
    requires WellTimed(edges, events) && WellTimedAt(edges, events, e)
    ensures WellTimed(edges, events + [e])
  {
    hide WellTimedAt;
    var next := events + [e];
    forall i | 0 <= i < |next|
      ensures WellTimedAt(edges, next[..i], next[i])
    {
      assert next[..i] == events[..i];
      assert i == |events| ==> events[..i] == events;
    }
  }

  lemma CountsOther<I, V>(events: seq<Event>, e: Event, n: Node, phase: Phase<I, V>)
    requires CountsTrue(events, n, phase)
    requires e != NodeStart(n) && e != NodeEnd(n)
    ensures CountsTrue(events + [e], n, phase)
  {
  }

  lemma AllAncestorsEnded<I, V>(flow: Flow, groups: Groups, s: State<I, V>, n: Node)
    requires GoodGroups(flow, groups) && LevelsTrue(groups, s) && EventsTrue(flow, s)
    requires s.level < |groups| && n in groups[s.level] && n in s.phases
    ensures forall u :: Ancestor(flow.edges, u, n) ==> NodeEnd(u) in s.events
  {
    hide RespectsEdges, Ancestor, WellTimed;
    forall u | Ancestor(flow.edges, u, n)
      ensures NodeEnd(u) in s.events
    {
      StartedReadsEarlier(flow, groups, s, n, u);
      assert u in flow.nodes && CountsTrue(s.events, u, s.phases[u]);
      assert NodeEnd(u) in multiset(s.events);
    }
  }

  lemma NodeStepEvents<I, V>(r: Runner<I, V>, flow: Flow, groups: Groups, s: State<I, V>, n: Node)
    requires GoodGroups(flow, groups) && LevelsTrue(groups, s) && EventsTrue(flow, s)
    requires s.level < |groups| && n in groups[s.level] && n in s.phases
    ensures EventsTrue(flow, NodeStep(r, s, n))
  {
    AllAncestorsEnded(flow, groups, s, n);
    hide RespectsEdges, Ancestor, WellTimed, LevelsTrue;
    assert n in flow.nodes && CountsTrue(s.events, n, s.phases[n]);
    var t := NodeStep(r, s, n);
    NodeStepCounts(r, s, n);
    StepKeepsFailed(r, groups, s, n);
    hide CountsTrue, NodeStep;
    if t.events != s.events {
      var e := Last(t.events);
      WellTimedSnoc(flow.edges, s.events, e);
      forall m | m in flow.nodes && m != n
        ensures CountsTrue(t.events, m, t.phases[m])
      {
        CountsOther(s.events, e, m, s.phases[m]);
      }
    }
  }

  /** A step of n announces at most one event, about n. */
  lemma NodeStepCounts<I, V>(r: Runner<I, V>, s: State<I, V>, n: Node)
    requires n in s.phases && CountsTrue(s.events, n, s.phases[n])
    ensures var t := NodeStep(r, s, n);
            && n in t.phases && CountsTrue(t.events, n, t.phases[n])
            && (t.events != s.events ==>
                  && t.events != [] && t.events == s.events + [Last(t.events)]
                  && Last(t.events) in {NodeStart(n), NodeEnd(n), NodeError(n)}
                  && (Last(t.events).NodeEnd? ==> NodeStart(n) in s.events))
  {
    assert multiset(s.events)[NodeStart(n)] > 0 ==> NodeStart(n) in multiset(s.events);
  }

  lemma FlowEventKeeps<I, V>(flow: Flow, s: State<I, V>, e: Event)
    requires EventsTrue(flow, s) && (e.FlowEnd? || e.FlowError?)
    ensures EventsTrue(flow, s.(events := s.events + [e]))
  {
    hide WellTimed;
    WellTimedSnoc(flow.edges, s.events, e);
    forall m | m in flow.nodes
      ensures CountsTrue(s.events + [e], m, s.phases[m])
    {
      CountsOther(s.events, e, m, s.phases[m]);
    }
  }

  lemma NextEvents<I(!new), V(!new)>(r: Runner<I, V>, flow: Flow, groups: Groups, s: State<I, V>, t: State<I, V>)
    requires GoodGroups(flow, groups) && LevelsTrue(groups, s) && EventsTrue(flow, s)
    requires Next(r, groups, s, t)
    ensures EventsTrue(flow, t)
  {
    hide GoodGroups, WellTimed, CountsTrue;
    if n :| s.status != Succeeded && s.level < |groups| && n in groups[s.level] && n in s.phases && t == NodeStep(r, s, n) {
      NodeStepEvents(r, flow, groups, s, n);
    } else if t == Finish(s) {
      FlowEventKeeps(flow, s, FlowEnd);
    } else if t == Abort(s) {
      FlowEventKeeps(flow, s, FlowError);
    }
  }

  /** In every run each node starts at most once, ends at most once and only after
      its start, and starts only after all its ancestors have ended; once the flow
      has succeeded, every node has done both exactly once. */
  lemma {:induction false} RunEvents<I(!new), V(!new)>(r: Runner<I, V>, flow: Flow, groups: Groups, run: seq<State<I, V>>, i: nat)
    requires GoodGroups(flow, groups) && ReadsAncestors(r, flow.edges)
    requires IsRun(r, flow, groups, run) && i < |run|
    ensures EventsTrue(flow, run[i])
    ensures run[i].status == Succeeded ==>
              forall n <- flow.nodes :: multiset(run[i].events)[NodeStart(n)] == multiset(run[i].events)[NodeEnd(n)] == 1
  {
    if i == 0 {
    } else {
      RunEvents(r, flow, groups, run, i - 1);
      RunInv(r, flow, groups, run, i - 1);
      hide GoodGroups, EventsTrue, ReadsAncestors;
      NextEvents(r, flow, groups, run[i - 1], run[i]);
    }
    RunInv(r, flow, groups, run, i);
    hide ReadsAncestors, RespectsEdges, WellTimed, Next, NodesTrue;
    if run[i].status == Succeeded {
      forall n <- flow.nodes
        ensures run[i].phases[n].Stored?
      {
        assert InSome(groups, n);
      }
    }
  }
}

/** Step graphs and their execution (orchestrator/workflow.go). */
module Workflow {
  import opened Sequences
  import opened Errors
  import opened Session
  import opened Steps

  /** Where to go after success and after failure; None ends the run. */
  datatype Edges = Edges(success: Option<Step>, failure: Option<Step>)

  /** OnSuccessOrFailure */
  function Always(step: Step): Edges {
    Edges(Some(step), Some(step))
  }

  type Graph = map<Step, Edges>

  /** What each step does to the session. */
  type Semantics = (Step, State) -> StepResult

  datatype Visit = Visit(step: Step, before: State, after: State, error: Outcome)

  /** Every edge leads to a node, and to one of smaller rank. */
  ghost predicate Ranked(graph: Graph, rank: Step -> nat) {
    forall step | step in graph ::
      && (graph[step].success.Some? ==>
          graph[step].success.value in graph && rank(graph[step].success.value) < rank(step))
      && (graph[step].failure.Some? ==>
          graph[step].failure.value in graph && rank(graph[step].failure.value) < rank(step))
  }

  ghost function NextStep(graph: Graph, step: Step, error: Outcome): Option<Step>
    requires step in graph
  {
    if error.None? then graph[step].success else graph[step].failure
  }

  /** The visits of a run from a step on; None when a step panics. */
  ghost function RunFrom(run: Semantics, graph: Graph, rank: Step -> nat, step: Step, s: State): Option<seq<Visit>>
    requires Ranked(graph, rank) && step in graph
    decreases rank(step)
  {
    match run(step, s)
    case Panicked => None
    case Returned(s', error) =>
      var visit := Visit(step, s, s', error);
      match NextStep(graph, step, error)
      case None => Some([visit])
      case Some(next) =>
        match RunFrom(run, graph, rank, next, s')
        case None => None
        case Some(rest) => Some([visit] + rest)
  }

  /** The visits still to come when the next step is known, or that there is none. */
  ghost function RunOn(run: Semantics, graph: Graph, rank: Step -> nat, next: Option<Step>,
                       s: State): Option<seq<Visit>>
    requires Ranked(graph, rank) && (next.Some? ==> next.value in graph)
  {
    if next.None? then Some([]) else RunFrom(run, graph, rank, next.value, s)
  }

  lemma RunOneStep(run: Semantics, graph: Graph, rank: Step -> nat, step: Step, s: State)
    requires Ranked(graph, rank) && step in graph
    requires RunFrom(run, graph, rank, step, s).Some?
    ensures var result := run(step, s);
            && result.Returned?
            && var next := NextStep(graph, step, result.error);
               && (next.Some? ==> next.value in graph && rank(next.value) < rank(step))
               && RunOn(run, graph, rank, next, result.state).Some?
               && RunFrom(run, graph, rank, step, s).value ==
                  [Visit(step, s, result.state, result.error)] + RunOn(run, graph, rank, next, result.state).value
  {
  }

  /** The errors of the visits that failed, in the order of the visits. */
  function ErrorsOf(visits: seq<Visit>): seq<Error> {
    if visits == [] then []
    else
      var rest := ErrorsOf(visits[..|visits| - 1]);
      match visits[|visits| - 1].error
      case None => rest
      case Some(e) => rest + [e]
  }

  lemma {:induction false} ErrorsConcat(a: seq<Visit>, b: seq<Visit>)
    ensures ErrorsOf(a + b) == ErrorsOf(a) + ErrorsOf(b)
  {
    if b == [] {
      assert a + b == a;
    } else {
      assert (a + b)[..|a + b| - 1] == a + b[..|b| - 1];
      ErrorsConcat(a, b[..|b| - 1]);
    }
  }

  lemma {:induction false} ErrorsAre(visits: seq<Visit>)
    ensures forall e :: e in ErrorsOf(visits) <==> exists n | 0 <= n < |visits| :: visits[n].error == Some(e)
  {
    if visits != [] {
      var last := |visits| - 1;
      ErrorsAre(visits[..last]);
      forall e ensures e in ErrorsOf(visits) <==> exists n | 0 <= n < |visits| :: visits[n].error == Some(e) {
        if e in ErrorsOf(visits[..last]) {
          var n :| 0 <= n < last && visits[..last][n].error == Some(e);
          assert visits[n].error == Some(e);
        }
        if n :| 0 <= n < |visits| && visits[n].error == Some(e) {
          assert n < last ==> visits[..last][n].error == Some(e);
        }
      }
    }
  }

  /** The bit of the exit code that tells of a failure of the step. */
  function StepBit(step: Step): bv8 {
    match step
    case LockForBackup => 4
    case UnlockAfterBackup(_) => 8
    case UnlockAfterRestore => 8
    case CleanUp => 16
    case _ => 1
  }

  lemma StepErrorBit(w: World, step: Step, s: State)
    ensures var result := RunStep(w, step, s);
            result.Returned? && result.error.Some? ==> Bit(result.error.value) == StepBit(step)
  {
  }

  ghost predicate SomeFailedWith(visits: seq<Visit>, bit: bv8) {
    exists n | 0 <= n < |visits| :: visits[n].error.Some? && StepBit(visits[n].step) == bit
  }

  lemma BitsOfVisits(w: World, graph: Graph, visits: seq<Visit>, bit: bv8)
    requires Linked(StepsIn(w), graph, visits)
    ensures SomeBit(ErrorsOf(visits), bit) <==> SomeFailedWith(visits, bit)
  {
    ErrorsAre(visits);
    forall n | 0 <= n < |visits| && visits[n].error.Some?
      ensures Bit(visits[n].error.value) == StepBit(visits[n].step) && visits[n].error.value in ErrorsOf(visits)
    {
      StepErrorBit(w, visits[n].step, visits[n].before);
      assert StepsIn(w)(visits[n].step, visits[n].before) == Returned(visits[n].after, visits[n].error);
    }
  }

  /** The steps whose failures have a bit of their own. */
  const LockSteps: set<Step> := {LockForBackup}
  const UnlockSteps: set<Step> := {UnlockAfterBackup(false), UnlockAfterBackup(true), UnlockAfterRestore}
  const CleanUpSteps: set<Step> := {CleanUp}

  ghost predicate SomeFailed(visits: seq<Visit>, steps: set<Step>) {
    exists n | 0 <= n < |visits| :: visits[n].error.Some? && visits[n].step in steps
  }

  ghost predicate SomeOtherFailed(visits: seq<Visit>, steps: set<Step>) {
    exists n | 0 <= n < |visits| :: visits[n].error.Some? && visits[n].step !in steps
  }

  lemma StepBitsMean(visits: seq<Visit>)
    ensures SomeFailedWith(visits, 1) <==> SomeOtherFailed(visits, LockSteps + UnlockSteps + CleanUpSteps)
    ensures SomeFailedWith(visits, 4) <==> SomeFailed(visits, LockSteps)
    ensures SomeFailedWith(visits, 8) <==> SomeFailed(visits, UnlockSteps)
    ensures SomeFailedWith(visits, 16) <==> SomeFailed(visits, CleanUpSteps)
  {
    forall step: Step
      ensures StepBit(step) == 1 <==> step !in LockSteps + UnlockSteps + CleanUpSteps
      ensures StepBit(step) == 4 <==> step in LockSteps
      ensures StepBit(step) == 8 <==> step in UnlockSteps
      ensures StepBit(step) == 16 <==> step in CleanUpSteps
    {
    }
  }

  /** Over every run of every step graph, the exit code tells which classes of steps failed. */
  lemma RunExitCode(w: World, graph: Graph, visits: seq<Visit>)
    requires Linked(StepsIn(w), graph, visits)
    ensures ExitCode(ErrorsOf(visits)) == 0 <==> forall n | 0 <= n < |visits| :: visits[n].error.None?
    ensures ExitCode(ErrorsOf(visits)) & 1 == 1 <==>
            SomeOtherFailed(visits, LockSteps + UnlockSteps + CleanUpSteps)
    ensures ExitCode(ErrorsOf(visits)) & 4 == 4 <==> SomeFailed(visits, LockSteps)
    ensures ExitCode(ErrorsOf(visits)) & 8 == 8 <==> SomeFailed(visits, UnlockSteps)
    ensures ExitCode(ErrorsOf(visits)) & 16 == 16 <==> SomeFailed(visits, CleanUpSteps)
  {
    ExitCodeBits(ErrorsOf(visits));
    BitsMean(ErrorsOf(visits));
    BitsOfVisits(w, graph, visits, 1);
    BitsOfVisits(w, graph, visits, 4);
    BitsOfVisits(w, graph, visits, 8);
    BitsOfVisits(w, graph, visits, 16);
    StepBitsMean(visits);
    NoErrors(visits);
  }

  lemma NoErrors(visits: seq<Visit>)
    ensures ErrorsOf(visits) == [] <==> forall n | 0 <= n < |visits| :: visits[n].error.None?
  {
    ErrorsAre(visits);
    if n :| 0 <= n < |visits| && visits[n].error.Some? {
      assert visits[n].error.value in ErrorsOf(visits);
    }
    if ErrorsOf(visits) != [] {
      assert ErrorsOf(visits)[0] in ErrorsOf(visits);
    }
  }

  /** All visits of a run are those done and those still to come from the given step and session. */
  ghost predicate Remains(run: Semantics, graph: Graph, rank: Step -> nat, all: seq<Visit>, done: seq<Visit>,
                          next: Option<Step>, s: State)
    requires Ranked(graph, rank)
  {
    && (next.Some? ==> next.value in graph)
    && RunOn(run, graph, rank, next, s).Some?
    && all == done + RunOn(run, graph, rank, next, s).value
    && (done != [] ==> s == done[|done| - 1].after)
  }

  lemma RemainsStart(run: Semantics, graph: Graph, rank: Step -> nat, step: Step, s: State)
    requires Ranked(graph, rank) && step in graph && RunFrom(run, graph, rank, step, s).Some?
    ensures var all := RunFrom(run, graph, rank, step, s).value;
            all != [] && Remains(run, graph, rank, all, [], Some(step), s)
  {
  }

  lemma RemainsEnd(run: Semantics, graph: Graph, rank: Step -> nat, all: seq<Visit>, done: seq<Visit>, s: State)
    requires Ranked(graph, rank) && Remains(run, graph, rank, all, done, None, s) && all != []
    ensures done == all && s == all[|all| - 1].after
  {
  }

  lemma RemainsStep(run: Semantics, graph: Graph, rank: Step -> nat, all: seq<Visit>, done: seq<Visit>, step: Step,
                    s: State)
    requires Ranked(graph, rank) && Remains(run, graph, rank, all, done, Some(step), s)
    ensures var result := run(step, s);
            && result.Returned?
            && var next := NextStep(graph, step, result.error);
               && Remains(run, graph, rank, all, done + [Visit(step, s, result.state, result.error)], next,
                          result.state)
               && (next.Some? ==> rank(next.value) < rank(step))
  {
    RunOneStep(run, graph, rank, step, s);
  }

  /** Consecutive visits are joined by the edge the error selects, the session is passed on, and the last visit has no
      next step. */
  ghost predicate Linked(run: Semantics, graph: Graph, visits: seq<Visit>)
  {
    && |visits| > 0
    && (forall n | 0 <= n < |visits| ::
          visits[n].step in graph &&
          run(visits[n].step, visits[n].before) == Returned(visits[n].after, visits[n].error))
    && (forall n | 0 < n < |visits| ::
          visits[n].before == visits[n - 1].after &&
          NextStep(graph, visits[n - 1].step, visits[n - 1].error) == Some(visits[n].step))
    && NextStep(graph, visits[|visits| - 1].step, visits[|visits| - 1].error) == None
  }

  lemma {:induction false} RunIsLinked(run: Semantics, graph: Graph, rank: Step -> nat, step: Step, s: State)
    requires Ranked(graph, rank) && step in graph
    ensures RunFrom(run, graph, rank, step, s).Some? ==>
              var visits := RunFrom(run, graph, rank, step, s).value;
              Linked(run, graph, visits) && visits[0].step == step && visits[0].before == s
    decreases rank(step)
  {
    var result := run(step, s);
    if result.Returned? {
      var next := NextStep(graph, step, result.error);
      if next.Some? {
        RunIsLinked(run, graph, rank, next.value, result.state);
      }
    }
  }

  /** Ranks fall along the visits. */
  lemma {:induction false} RanksFall(run: Semantics, graph: Graph, rank: Step -> nat, visits: seq<Visit>, m: nat,
                                     n: nat)
    requires Ranked(graph, rank) && Linked(run, graph, visits) && m < n < |visits|
    ensures rank(visits[n].step) < rank(visits[m].step)
    decreases n
  {
    assert NextStep(graph, visits[n - 1].step, visits[n - 1].error) == Some(visits[n].step);
    if m < n - 1 {
      RanksFall(run, graph, rank, visits, m, n - 1);
    }
  }

  ghost function StepsOf(visits: seq<Visit>): set<Step> {
    set n | 0 <= n < |visits| :: visits[n].step
  }

  lemma {:induction false} StepsCount(visits: seq<Visit>)
    requires forall m, n | 0 <= m < n < |visits| :: visits[m].step != visits[n].step
    ensures |StepsOf(visits)| == |visits|
  {
    if visits == [] {
      assert StepsOf(visits) == {};
    } else {
      var n := |visits| - 1;
      StepsCount(visits[..n]);
      assert StepsOf(visits) == StepsOf(visits[..n]) + {visits[n].step};
      assert visits[n].step !in StepsOf(visits[..n]);
    }
  }

  /** On any graph whose edges stay in the graph and that admits a rank, a run that does not panic in a step visits each
      node at most once. */
  lemma VisitsOnce(run: Semantics, graph: Graph, rank: Step -> nat, step: Step, s: State)
    requires Ranked(graph, rank) && step in graph
    requires RunFrom(run, graph, rank, step, s).Some?
    ensures var visits := RunFrom(run, graph, rank, step, s).value;
            && (forall m, n | 0 <= m < n < |visits| :: visits[m].step != visits[n].step)
            && (forall n | 0 <= n < |visits| :: visits[n].step in graph)
            && |visits| <= |graph|
  {
    var visits := RunFrom(run, graph, rank, step, s).value;
    RunIsLinked(run, graph, rank, step, s);
    forall m, n | 0 <= m < n < |visits| ensures visits[m].step != visits[n].step {
      RanksFall(run, graph, rank, visits, m, n);
    }
    StepsCount(visits);
    SubsetSize(StepsOf(visits), graph.Keys);
  }

  /** A run from the step does not panic and leaves the session as given; clean says whether it returns no error. */
  ghost predicate Ends(run: Semantics, graph: Graph, rank: Step -> nat, step: Step, s: State, end: State, clean: bool)
    requires Ranked(graph, rank) && step in graph
  {
    var visits := RunFrom(run, graph, rank, step, s);
    && visits.Some? && |visits.value| > 0
    && visits.value[|visits.value| - 1].after == end
    && (clean <==> ErrorsOf(visits.value) == [])
  }

  lemma EndsHere(run: Semantics, graph: Graph, rank: Step -> nat, step: Step, s: State, s': State, error: Outcome)
    requires Ranked(graph, rank) && step in graph
    requires run(step, s) == Returned(s', error) && NextStep(graph, step, error) == None
    ensures Ends(run, graph, rank, step, s, s', error.None?)
  {
    ErrorsOfOne(Visit(step, s, s', error));
  }

  lemma ErrorsOfOne(visit: Visit)
    ensures ErrorsOf([visit]) == [] <==> visit.error.None?
  {
    assert [visit][..0] == [];
  }

  lemma EndsAfter(run: Semantics, graph: Graph, rank: Step -> nat, step: Step, s: State, s': State, error: Outcome,
                  next: Step, end: State, clean: bool)
    requires Ranked(graph, rank) && step in graph && next in graph
    requires run(step, s) == Returned(s', error) && NextStep(graph, step, error) == Some(next)
    requires Ends(run, graph, rank, next, s', end, clean)
    ensures Ends(run, graph, rank, step, s, end, clean && error.None?)
  {
    var rest := RunFrom(run, graph, rank, next, s').value;
    var visit := Visit(step, s, s', error);
    assert RunFrom(run, graph, rank, step, s) == Some([visit] + rest);
    ErrorsConcat([visit], rest);
    ErrorsOfOne(visit);
  }

  // ---------------------------------------------------------------------------------------------
  // The objects

  class Node {
    const step: Step
    var successStep: Option<Step>
    var failStep: Option<Step>

    constructor (step: Step)
      ensures this.step == step && successStep == None && failStep == None
    {
      this.step, successStep, failStep := step, None, None;
    }

    method OnSuccess(step: Step)
      modifies this`successStep
      ensures successStep == Some(step)
    {
      successStep := Some(step);
    }

    method OnFailure(step: Step)
      modifies this`failStep
      ensures failStep == Some(step)
    {
      failStep := Some(step);
    }
  }

  function PlannedGraph(steps: set<Step>, edges: Step -> Edges): Graph {
    map step | step in steps :: edges(step)
  }

  ghost predicate Falls(steps: set<Step>, edges: Step -> Edges, rank: Step -> nat, step: Step) {
    && (edges(step).success.Some? ==>
        edges(step).success.value in steps && rank(edges(step).success.value) < rank(step))
    && (edges(step).failure.Some? ==>
        edges(step).failure.value in steps && rank(edges(step).failure.value) < rank(step))
  }

  lemma PlanIsRanked(steps: set<Step>, edges: Step -> Edges, rank: Step -> nat)
    requires forall step | step in steps :: Falls(steps, edges, rank, step)
    ensures Ranked(PlannedGraph(steps, edges), rank)
  {
    forall step | step in steps
      ensures Falls(steps, edges, rank, step) && PlannedGraph(steps, edges)[step] == edges(step)
    {
    }
  }

  lemma PlanOneMore(steps: seq<Step>, edges: Step -> Edges, i: nat)
    requires i < |steps| && NoDuplicates(steps)
    ensures PlannedGraph(Elements(steps[..i + 1]), edges) ==
            PlannedGraph(Elements(steps[..i]), edges)[steps[i] := edges(steps[i])]
    ensures steps[i] !in PlannedGraph(Elements(steps[..i]), edges)
  {
    assert steps[..i + 1] == steps[..i] + [steps[i]];
  }

  /** The run of one step, as one more visit. */
  method RunVisit(w: World, session: SessionObject, step: Step, ghost graph: Graph, ghost rank: Step -> nat,
                  ghost all: seq<Visit>, ghost done: seq<Visit>)
    returns (error: Outcome, ghost done': seq<Visit>)
    requires Possible(w) && Ranked(graph, rank)
    requires Remains(StepsIn(w), graph, rank, all, done, Some(step), session.state)
    modifies session
    ensures step in graph
    ensures var next := NextStep(graph, step, error);
            && Remains(StepsIn(w), graph, rank, all, done', next, session.state)
            && (next.Some? ==> rank(next.value) < rank(step))
    ensures ErrorsOf(done') == ErrorsOf(done) + if error.Some? then [error.value] else []
  {
    RemainsStep(StepsIn(w), graph, rank, all, done, step, session.state);
    ghost var before := session.state;
    error := session.Run(w, step);
    done' := done + [Visit(step, before, session.state, error)];
  }

  class WorkflowObject {
    var startingNode: Node?
    var nodes: seq<Node>

    constructor ()
      ensures nodes == [] && startingNode == null
    {
      startingNode, nodes := null, [];
    }

    /** The nodes as a graph; of several nodes for one step the first counts. */
    ghost function GraphOf(nodes: seq<Node>): Graph
      reads nodes
    {
      if nodes == [] then map[]
      else
        var graph, last := GraphOf(nodes[..|nodes| - 1]), nodes[|nodes| - 1];
        if last.step in graph then graph else graph[last.step := Edges(last.successStep, last.failStep)]
    }

    ghost function Graph(): Graph
      reads this, nodes
    {
      GraphOf(nodes)
    }

    method Add(step: Step) returns (node: Node)
      modifies this`nodes
      ensures fresh(node) && node.step == step && node.successStep == None && node.failStep == None
      ensures nodes == old(nodes) + [node]
    {
      node := new Node(step);
      nodes := nodes + [node];
    }

    ghost predicate Starts(step: Step)
      reads this, nodes, if startingNode == null then {} else {startingNode}
    {
      startingNode != null && StandsAt(startingNode, Some(step))
    }

    /** Add, followed by the edges the node is given. */
    method Connect(step: Step, edges: Edges) returns (node: Node)
      requires step !in Graph()
      modifies this`nodes
      ensures fresh(node) && node.step == step && Edges(node.successStep, node.failStep) == edges
      ensures Graph() == old(Graph())[step := edges]
    {
      node := Add(step);
      if edges.success.Some? {
        node.OnSuccess(edges.success.value);
      }
      if edges.failure.Some? {
        node.OnFailure(edges.failure.value);
      }
      assert nodes[..|nodes| - 1] == old(nodes);
    }

    /** The starting node and those of the first i steps are there. */
    ghost predicate Built(steps: seq<Step>, edges: Step -> Edges, i: nat)
      requires 0 < i <= |steps|
      reads this, nodes, if startingNode == null then {} else {startingNode}
    {
      Starts(steps[0]) && Graph() == PlannedGraph(Elements(steps[..i]), edges)
    }

    method ConnectFirst(steps: seq<Step>, edges: Step -> Edges)
      requires nodes == [] && |steps| > 0
      modifies this
      ensures Built(steps, edges, 1)
    {
      startingNode := Connect(steps[0], edges(steps[0]));
      assert PlannedGraph(Elements(steps[..1]), edges) == map[steps[0] := edges(steps[0])];
    }

    method ConnectNext(steps: seq<Step>, edges: Step -> Edges, i: nat)
      requires 0 < i < |steps| && NoDuplicates(steps) && Built(steps, edges, i)
      modifies this`nodes
      ensures Built(steps, edges, i + 1)
    {
      PlanOneMore(steps, edges, i);
      var _ := Connect(steps[i], edges(steps[i]));
    }

    /** Adds a node with its edges for each step in turn, beginning with the starting node. */
    method Build(steps: seq<Step>, edges: Step -> Edges)
      requires nodes == [] && |steps| > 0 && NoDuplicates(steps)
      modifies this
      ensures Starts(steps[0]) && Graph() == PlannedGraph(Elements(steps), edges)
    {
      ConnectFirst(steps, edges);
      for i := 1 to |steps|
        invariant Built(steps, edges, i)
      {
        ConnectNext(steps, edges, i);
      }
      assert steps[..|steps|] == steps;
    }

    /** findNode: the first node of the step; it panics when there is none, so the caller must know there is one. */
    method FindNode(step: Step) returns (node: Node)
      requires step in Graph()
      ensures node in nodes && node.step == step && Graph()[step] == Edges(node.successStep, node.failStep)
    {
      var i := 0;
      assert nodes[..|nodes|] == nodes;
      while i < |nodes| && nodes[i].step != step
        invariant i <= |nodes| && step !in GraphOf(nodes[..i])
      {
        assert nodes[..i + 1][..i] == nodes[..i];
        i := i + 1;
      }
      assert nodes[..i + 1][..i] == nodes[..i];
      Extends(i + 1, step);
      return nodes[i];
    }

    /** Later nodes do not change the edges of a step already found. */
    lemma {:induction false} Extends(i: nat, step: Step)
      requires i <= |nodes| && step in GraphOf(nodes[..i])
      ensures step in Graph() && Graph()[step] == GraphOf(nodes[..i])[step]
      decreases |nodes| - i
    {
      if i == |nodes| {
        assert nodes[..i] == nodes;
      } else {
        assert nodes[..i + 1][..i] == nodes[..i];
        Extends(i + 1, step);
      }
    }

    /** The node the loop stands at, seen as a step of the graph. */
    ghost predicate StandsAt(node: Node?, step: Option<Step>)
      reads this, nodes, if node == null then {} else {node}
    {
      if node == null then step == None
      else step == Some(node.step) && node.step in Graph() &&
           Graph()[node.step] == Edges(node.successStep, node.failStep)
    }

    /** Run: visits the nodes along the edges and collects the errors. */
    method Run(w: World, ghost rank: Step -> nat, session: SessionObject)
      returns (errors: seq<Error>, ghost visits: seq<Visit>)
      requires Possible(w) && Ranked(Graph(), rank)
      requires startingNode != null && StandsAt(startingNode, Some(startingNode.step))
      requires RunFrom(StepsIn(w), Graph(), rank, startingNode.step, session.state).Some?
      modifies session
      ensures RunFrom(StepsIn(w), Graph(), rank, startingNode.step, old(session.state)) == Some(visits)
      ensures errors == ErrorsOf(visits)
      ensures |visits| > 0 && session.state == visits[|visits| - 1].after
    {
      ghost var all := RunFrom(StepsIn(w), Graph(), rank, startingNode.step, session.state).value;
      RemainsStart(StepsIn(w), Graph(), rank, startingNode.step, session.state);
      errors, visits := VisitAll(w, rank, session, all);
    }

    method VisitAll(w: World, ghost rank: Step -> nat, session: SessionObject, ghost all: seq<Visit>)
      returns (errors: seq<Error>, ghost visits: seq<Visit>)
      requires Possible(w) && Ranked(Graph(), rank)
      requires startingNode != null && StandsAt(startingNode, Some(startingNode.step))
      requires all != [] && Remains(StepsIn(w), Graph(), rank, all, [], Some(startingNode.step), session.state)
      modifies session
      ensures visits == all && errors == ErrorsOf(all) && session.state == all[|all| - 1].after
    {
      errors, visits := [], [];
      var current: Node? := startingNode;
      ghost var step := Some(startingNode.step);
      while current != null
        invariant StandsAt(current, step)
        invariant Remains(StepsIn(w), Graph(), rank, all, visits, step, session.state)
        invariant errors == ErrorsOf(visits)
        decreases if step.None? then 0 else rank(step.value) + 1
      {
        var error;
        error, current, step, visits := VisitNode(w, rank, session, current, all, visits);
        errors := if error.Some? then errors + [error.value] else errors;
      }
      RemainsEnd(StepsIn(w), Graph(), rank, all, visits, session.state);
    }

    /** One turn of the loop: run the step of the node and find the node to go to. */
    method VisitNode(w: World, ghost rank: Step -> nat, session: SessionObject, current: Node,
                     ghost all: seq<Visit>, ghost done: seq<Visit>)
      returns (error: Outcome, next: Node?, ghost step: Option<Step>, ghost done': seq<Visit>)
      requires Possible(w) && StandsAt(current, Some(current.step)) && Ranked(Graph(), rank)
      requires Remains(StepsIn(w), Graph(), rank, all, done, Some(current.step), session.state)
      modifies session
      ensures StandsAt(next, step) && Remains(StepsIn(w), Graph(), rank, all, done', step, session.state)
      ensures ErrorsOf(done') == ErrorsOf(done) + if error.Some? then [error.value] else []
      ensures step.Some? ==> rank(step.value) < rank(current.step)
    {
      error, done' := RunVisit(w, session, current.step, Graph(), rank, all, done);
      step := NextStep(Graph(), current.step, error);
      if error.Some? {
        next := Follow(current.failStep);
      } else {
        next := Follow(current.successStep);
      }
    }

    /** nil for no step, the node of the step otherwise. */
    method Follow(step: Option<Step>) returns (node: Node?)
      requires step.Some? ==> step.value in Graph()
      ensures StandsAt(node, step)
    {
      if step.None? {
        return null;
      }
      node := FindNode(step.value);
    }
  }

  /** A new session and the run of a workflow in it. */
  method RunInNewSession(w: World, workflow: WorkflowObject, ghost start: Step, ghost graph: Graph,
                         ghost rank: Step -> nat,
                         ghost visits: seq<Visit>) returns (errors: seq<Error>, end: State)
    requires Possible(w) && workflow.Starts(start) && workflow.Graph() == graph
    requires Ranked(graph, rank) && start in graph &&
             RunFrom(StepsIn(w), graph, rank, start, Initial(w)) == Some(visits)
    ensures errors == ErrorsOf(visits) && |visits| > 0 && end == visits[|visits| - 1].after
  {
    var session := new SessionObject(w);
    ghost var visited;
    errors, visited := workflow.Run(w, rank, session);
    end := session.state;
  }
}

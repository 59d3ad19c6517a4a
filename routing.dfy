/** The two routing functions and the graph that `build_graph` wires:
    worker, an optional tools node, evaluator, with START leading to the
    worker and the evaluator leading either back to the worker or to END. */
module Routing {
  import opened Messages

  const ToolsLabel: string := "tools"
  const EvaluatorLabel: string := "evaluator"
  const WorkerLabel: string := "worker"
  const EndLabel: string := "END"

  /** Whether a message asks for tools: only AI messages carry tool calls. */
  predicate RequestsTools(m: Message) {
    m.AI? && |m.toolCalls| > 0
  }

  /** `worker_router`: "tools" exactly when the last message carries tool
      calls, "evaluator" otherwise. */
  function WorkerRouter(s: State): (next: string)
    requires |s.messages| > 0
    ensures next == ToolsLabel <==> RequestsTools(Last(s.messages))
    ensures next == EvaluatorLabel <==> !RequestsTools(Last(s.messages))
  {
    if RequestsTools(s.messages[|s.messages| - 1]) then ToolsLabel else EvaluatorLabel
  }

  /** `route_based_on_evaluation`: "END" exactly when the criteria are met
      or user input is needed, "worker" otherwise. */
  function RouteBasedOnEvaluation(s: State): (next: string)
    ensures next == EndLabel <==> s.successCriteriaMet || s.userInputNeeded
    ensures next == WorkerLabel <==> !(s.successCriteriaMet || s.userInputNeeded)
  {
    if s.successCriteriaMet || s.userInputNeeded then EndLabel else WorkerLabel
  }

  datatype Node = StartNode | WorkerNode | ToolsNode | EvaluatorNode | EndNode

  /** The two routing functions a conditional edge can use. */
  datatype Router = ByToolCalls | ByEvaluation

  /** A conditional edge: a router and the node each of its labels leads to. */
  datatype Branch = Branch(router: Router, targets: map<string, Node>)

  /** A compiled graph: the added nodes, the fixed edges (each source here
      has at most one), and the conditional edges. */
  datatype Graph = Graph(nodes: set<Node>, edges: map<Node, Node>, branches: map<Node, Branch>)

  /** The label a router picks in a state. */
  function Route(r: Router, s: State): string
    requires r == ByToolCalls ==> |s.messages| > 0
  {
    match r
    case ByToolCalls => WorkerRouter(s)
    case ByEvaluation => RouteBasedOnEvaluation(s)
  }

  /** The graph `build_graph` compiles, given whether any tool exists. */
  function Topology(hasTools: bool): Graph {
    var evaluatorBranch := Branch(ByEvaluation, map[WorkerLabel := WorkerNode, EndLabel := EndNode]);
    if hasTools then
      Graph({WorkerNode, ToolsNode, EvaluatorNode},
            map[ToolsNode := WorkerNode, StartNode := WorkerNode],
            map[WorkerNode := Branch(ByToolCalls, map[ToolsLabel := ToolsNode, EvaluatorLabel := EvaluatorNode]),
                EvaluatorNode := evaluatorBranch])
    else
      Graph({WorkerNode, EvaluatorNode},
            map[WorkerNode := EvaluatorNode, StartNode := WorkerNode],
            map[EvaluatorNode := evaluatorBranch])
  }

  /** A graph that `build_graph` can produce. */
  predicate Built(g: Graph) {
    g == Topology(ToolsNode in g.nodes)
  }

  /** The nodes an edge out of `n` can lead to. */
  function Successors(g: Graph, n: Node): set<Node> {
    if n in g.branches then g.branches[n].targets.Values
    else if n in g.edges then {g.edges[n]}
    else {}
  }

  /** The shape of the compiled graph: the tools node exists exactly when
      tools do; START leads to the worker; without tools the worker always
      leads to the evaluator; with tools the worker branches and the tools
      node always returns to the worker; the evaluator leads to the worker
      or to END. */
  lemma TopologyShape(hasTools: bool)
    ensures Built(Topology(hasTools))
    ensures Topology(hasTools).nodes <= {WorkerNode, ToolsNode, EvaluatorNode}
    ensures ToolsNode in Topology(hasTools).nodes <==> hasTools
    ensures StartNode in Topology(hasTools).edges && Topology(hasTools).edges[StartNode] == WorkerNode
    ensures Successors(Topology(hasTools), StartNode) == {WorkerNode}
    ensures Successors(Topology(hasTools), EvaluatorNode) == {WorkerNode, EndNode}
    ensures !hasTools ==> Successors(Topology(hasTools), WorkerNode) == {EvaluatorNode}
    ensures hasTools ==> Successors(Topology(hasTools), WorkerNode) == {ToolsNode, EvaluatorNode}
    ensures hasTools ==> Successors(Topology(hasTools), ToolsNode) == {WorkerNode}
  {
    var g := Topology(hasTools);
    var evaluatorTargets := map[WorkerLabel := WorkerNode, EndLabel := EndNode];
    assert WorkerLabel in evaluatorTargets && EndLabel in evaluatorTargets;
    assert evaluatorTargets.Values == {WorkerNode, EndNode};
    if hasTools {
      var workerTargets := map[ToolsLabel := ToolsNode, EvaluatorLabel := EvaluatorNode];
      assert ToolsLabel in workerTargets && EvaluatorLabel in workerTargets;
      assert workerTargets.Values == {ToolsNode, EvaluatorNode};
    }
  }

  /** The node that follows `at` once `at` has run and produced state `s`. */
  function Next(g: Graph, at: Node, s: State): (n: Node)
    requires Built(g) && at in g.nodes
    requires at == WorkerNode ==> |s.messages| > 0
    ensures n == EndNode || n in g.nodes
    ensures n == EndNode <==> at == EvaluatorNode && (s.successCriteriaMet || s.userInputNeeded)
    ensures at == WorkerNode ==> (n == ToolsNode <==> ToolsNode in g.nodes && RequestsTools(Last(s.messages)))
    ensures at == WorkerNode ==> (n == EvaluatorNode <==> !(ToolsNode in g.nodes && RequestsTools(Last(s.messages))))
    ensures at == ToolsNode ==> n == WorkerNode
    ensures at == EvaluatorNode ==> (n == WorkerNode <==> !(s.successCriteriaMet || s.userInputNeeded))
  {
    TopologyShape(ToolsNode in g.nodes);
    if at in g.branches then
      var b := g.branches[at];
      var choice := Route(b.router, s);
      assert choice in b.targets;
      b.targets[choice]
    else
      g.edges[at]
  }

  /** The node chosen is always one an edge out of `at` leads to. */
  lemma NextFollowsEdge(g: Graph, at: Node, s: State)
    requires Built(g) && at in g.nodes
    requires at == WorkerNode ==> |s.messages| > 0
    ensures Next(g, at, s) in Successors(g, at)
  {
    TopologyShape(ToolsNode in g.nodes);
  }

  /** After a step that leaves no tool call pending, the worker always
      hands over to the evaluator, with or without tools. */
  lemma WorkerWithoutToolCallsGoesToEvaluator(g: Graph, s: State)
    requires Built(g) && |s.messages| > 0 && !RequestsTools(Last(s.messages))
    ensures Next(g, WorkerNode, s) == EvaluatorNode
  {
    TopologyShape(ToolsNode in g.nodes);
  }
}

/** One invocation of the compiled graph: starting at the worker, run the
    node the graph's edges select, merge its update into the state, and
    repeat until END, a failing tool node, or the recursion limit. */
module GraphRun {
  import opened Messages
  import opened Routing
  import W = WorkerStep
  import E = EvaluatorStep

  /** The calls the graph makes into code outside the model: the clock
      (indexed by the number of node executions so far), the worker model,
      the tool node and the evaluator model. */
  datatype Capabilities = Capabilities(
    clock: nat -> string,
    workerLlm: seq<Message> -> Result<Reply>,
    toolNode: seq<Message> -> Result<seq<ToolOutput>>,
    evaluatorLlm: seq<Message> -> Result<Verdict>)

  /** The fixed prose of the two prompts. */
  datatype Texts = Texts(worker: W.WorkerText, evaluator: E.EvaluatorText)

  /** A finished run: the final state and the nodes executed, in order. */
  datatype Outcome = Outcome(state: State, trace: seq<Node>)

  /** Stands for the text of the framework's error when a run exhausts its
      node-execution budget; the framework's exact wording is not modelled. */
  const RecursionLimitError: string := "GraphRecursionError"

  /** The messages the tool node appends for its outputs. */
  function ToolMessages(outs: seq<ToolOutput>): (ms: seq<Message>)
    ensures |ms| == |outs|
    ensures forall i :: 0 <= i < |ms| ==> ms[i] == ToolResult(outs[i].content, outs[i].toolCallId)
  {
    seq(|outs|, i requires 0 <= i < |outs| => ToolResult(outs[i].content, outs[i].toolCallId))
  }

  /** `s'` grew from `s` by appending messages; the criterion is untouched. */
  predicate Extends(s: State, s': State) {
    && |s.messages| <= |s'.messages|
    && s'.messages[..|s.messages|] == s.messages
    && s'.successCriteria == s.successCriteria
  }

  /** Running one node and merging its update. Only the tool node can
      raise: the worker and the evaluator catch their own failures. START
      and END are markers that run nothing. */
  function Step(t: Texts, caps: Capabilities, s: State, at: Node, tick: nat): (r: Result<State>)
    ensures r.Err? ==> at == ToolsNode
    ensures r.Ok? ==> Extends(s, r.value) && NoSystem(r.value.messages[|s.messages|..])
    ensures r.Ok? && at == WorkerNode ==> |r.value.messages| == |s.messages| + 1
    ensures r.Ok? && at != EvaluatorNode ==>
      && r.value.feedbackOnWork == s.feedbackOnWork
      && r.value.successCriteriaMet == s.successCriteriaMet
      && r.value.userInputNeeded == s.userInputNeeded
  {
    match at
    case WorkerNode =>
      Ok(Merge(s, W.WorkerUpdate(t.worker, s, caps.clock(tick), caps.workerLlm)))
    case ToolsNode =>
      (match caps.toolNode(s.messages)
       case Ok(outs) => Ok(Merge(s, MessagesOnly(ToolMessages(outs))))
       case Err(e) => Err(e))
    case EvaluatorNode =>
      Ok(Merge(s, E.EvaluatorUpdate(t.evaluator, s, caps.evaluatorLlm)))
    case StartNode =>
      assert s.messages[..|s.messages|] == s.messages;
      Ok(s)
    case EndNode =>
      assert s.messages[..|s.messages|] == s.messages;
      Ok(s)
  }

  /** What running a node (in a state, as the given execution) yields:
      the state with the node's update merged in, or the exception. */
  type NodeRunner = (State, Node, nat) -> Result<State>

  /** The guarantees of the node functions that a run relies on: only the
      tool node raises; every node only appends messages, none of them a
      system message; the worker appends exactly one; only the evaluator
      writes the verdict keys. */
  ghost predicate Lawful(run: NodeRunner) {
    && (forall s, at, tick :: run(s, at, tick).Err? ==> at == ToolsNode)
    && (forall s, at, tick :: run(s, at, tick).Ok? ==>
          Extends(s, run(s, at, tick).value) && NoSystem(run(s, at, tick).value.messages[|s.messages|..]))
    && (forall s, tick :: run(s, WorkerNode, tick).Ok? ==>
          |run(s, WorkerNode, tick).value.messages| == |s.messages| + 1)
    && (forall s, at, tick :: at != EvaluatorNode && run(s, at, tick).Ok? ==>
          && run(s, at, tick).value.feedbackOnWork == s.feedbackOnWork
          && run(s, at, tick).value.successCriteriaMet == s.successCriteriaMet
          && run(s, at, tick).value.userInputNeeded == s.userInputNeeded)
  }

  /** The node functions of the compiled graph, which keep those
      guarantees. */
  function Runner(t: Texts, caps: Capabilities): (run: NodeRunner)
    ensures Lawful(run)
  {
    (s: State, at: Node, tick: nat) => Step(t, caps, s, at, tick)
  }

  /** A run result with `prefix` put in front of its trace. */
  function Within(prefix: seq<Node>, r: Result<Outcome>): Result<Outcome> {
    match r
    case Ok(o) => Ok(Outcome(o.state, prefix + o.trace))
    case Err(e) => Err(e)
  }

  /** The run from node `at` in state `s` with `fuel` node executions
      left; `tick` counts the executions so far. */
  function Run(g: Graph, run: NodeRunner, s: State, at: Node, fuel: nat, tick: nat): Result<Outcome>
    requires Built(g) && Lawful(run) && (at == EndNode || at in g.nodes)
    decreases fuel
  {
    TopologyShape(ToolsNode in g.nodes);
    if at == EndNode then Ok(Outcome(s, []))
    else if fuel == 0 then Err(RecursionLimitError)
    else match run(s, at, tick)
      case Err(e) => Err(e)
      case Ok(s') => Within([at], Run(g, run, s', Next(g, at, s'), fuel - 1, tick + 1))
  }

  /** A run executes at most `fuel` nodes, starting with `at`, and a run
      that finishes ends after the evaluator, in a state where the criteria
      are met or user input is needed. */
  lemma {:induction false} RunStopsOnlyOnVerdict(g: Graph, run: NodeRunner, s: State, at: Node, fuel: nat, tick: nat)
    requires Built(g) && Lawful(run) && (at == EndNode || at in g.nodes)
    requires Run(g, run, s, at, fuel, tick).Ok?
    ensures var o := Run(g, run, s, at, fuel, tick).value;
      && |o.trace| <= fuel
      && (at == EndNode <==> o.trace == [])
      && (at != EndNode ==> o.trace[0] == at && Last(o.trace) == EvaluatorNode)
      && (at != EndNode ==> o.state.successCriteriaMet || o.state.userInputNeeded)
    decreases fuel
  {
    if at != EndNode {
      var s' := run(s, at, tick).value;
      RunStopsOnlyOnVerdict(g, run, s', Next(g, at, s'), fuel - 1, tick + 1);
    }
  }

  /** Growing by appending is transitive. */
  lemma ExtendsTrans(s: State, s': State, s'': State)
    requires Extends(s, s') && Extends(s', s'')
    ensures Extends(s, s'')
  {
    assert s''.messages[..|s.messages|] == s''.messages[..|s'.messages|][..|s.messages|];
  }

  /** Appending messages free of system messages keeps a list free of them. */
  lemma NoSystemGrow(s: State, s': State)
    requires Extends(s, s') && NoSystem(s.messages) && NoSystem(s'.messages[|s.messages|..])
    ensures NoSystem(s'.messages)
  {
    forall i | 0 <= i < |s'.messages|
      ensures !s'.messages[i].System?
    {
      if i < |s.messages| {
        assert s'.messages[i] == s'.messages[..|s.messages|][i];
      } else {
        assert s'.messages[i] == s'.messages[|s.messages|..][i - |s.messages|];
      }
    }
  }

  /** A run only appends to the conversation and keeps the success
      criterion. */
  lemma {:induction false} RunAppendsOnly(g: Graph, run: NodeRunner, s: State, at: Node, fuel: nat, tick: nat)
    requires Built(g) && Lawful(run) && (at == EndNode || at in g.nodes)
    requires Run(g, run, s, at, fuel, tick).Ok?
    ensures Extends(s, Run(g, run, s, at, fuel, tick).value.state)
    decreases fuel
  {
    if at == EndNode {
      assert s.messages[..|s.messages|] == s.messages;
    } else {
      var s' := run(s, at, tick).value;
      var next := Next(g, at, s');
      RunAppendsOnly(g, run, s', next, fuel - 1, tick + 1);
      ExtendsTrans(s, s', Run(g, run, s', next, fuel - 1, tick + 1).value.state);
    }
  }

  /** A run never puts a system message into the conversation. */
  lemma {:induction false} RunAddsNoSystem(g: Graph, run: NodeRunner, s: State, at: Node, fuel: nat, tick: nat)
    requires Built(g) && Lawful(run) && (at == EndNode || at in g.nodes)
    requires Run(g, run, s, at, fuel, tick).Ok? && NoSystem(s.messages)
    ensures NoSystem(Run(g, run, s, at, fuel, tick).value.state.messages)
    decreases fuel
  {
    if at != EndNode {
      var s' := run(s, at, tick).value;
      NoSystemGrow(s, s');
      RunAddsNoSystem(g, run, s', Next(g, at, s'), fuel - 1, tick + 1);
    }
  }

  /** The executed nodes form a path through the compiled graph. */
  lemma {:induction false} RunFollowsGraph(g: Graph, run: NodeRunner, s: State, at: Node, fuel: nat, tick: nat)
    requires Built(g) && Lawful(run) && (at == EndNode || at in g.nodes)
    requires Run(g, run, s, at, fuel, tick).Ok?
    ensures var tr := Run(g, run, s, at, fuel, tick).value.trace;
      && (forall i :: 0 <= i < |tr| ==> tr[i] in g.nodes)
      && (forall i :: 0 <= i < |tr| - 1 ==> tr[i + 1] in Successors(g, tr[i]))
    decreases fuel
  {
    if at != EndNode {
      var s' := run(s, at, tick).value;
      var next := Next(g, at, s');
      NextFollowsEdge(g, at, s');
      RunFollowsGraph(g, run, s', next, fuel - 1, tick + 1);
      RunStopsOnlyOnVerdict(g, run, s', next, fuel - 1, tick + 1);
    }
  }

  /** Without tools the tool node is never run: two executions that differ
      only in the tool node give the same run, whose trace never names it. */
  lemma {:induction false} RunIgnoresToolNode(run: NodeRunner, run': NodeRunner, s: State, at: Node, fuel: nat, tick: nat)
    requires Lawful(run) && Lawful(run') && (at == EndNode || at in Topology(false).nodes)
    requires forall s, at, tick :: at != ToolsNode ==> run(s, at, tick) == run'(s, at, tick)
    ensures Run(Topology(false), run, s, at, fuel, tick) == Run(Topology(false), run', s, at, fuel, tick)
    ensures Run(Topology(false), run, s, at, fuel, tick).Ok? ==> ToolsNode !in Run(Topology(false), run, s, at, fuel, tick).value.trace
    decreases fuel
  {
    var g := Topology(false);
    TopologyShape(false);
    if at != EndNode && fuel > 0 {
      var s' := run(s, at, tick).value;
      RunIgnoresToolNode(run, run', s', Next(g, at, s'), fuel - 1, tick + 1);
    }
    if Run(g, run, s, at, fuel, tick).Ok? {
      RunFollowsGraph(g, run, s, at, fuel, tick);
    }
  }

  /** `build_graph` without tools: whatever the tool node would do, the
      graph's runs are the same. */
  lemma NoToolsNoToolNode(t: Texts, caps: Capabilities, other: seq<Message> -> Result<seq<ToolOutput>>, init: State, limit: nat)
    ensures Run(Topology(false), Runner(t, caps), init, WorkerNode, limit, 0)
         == Run(Topology(false), Runner(t, caps.(toolNode := other)), init, WorkerNode, limit, 0)
    ensures Run(Topology(false), Runner(t, caps), init, WorkerNode, limit, 0).Ok? ==>
      ToolsNode !in Run(Topology(false), Runner(t, caps), init, WorkerNode, limit, 0).value.trace
  {
    TopologyShape(false);
    RunIgnoresToolNode(Runner(t, caps), Runner(t, caps.(toolNode := other)), init, WorkerNode, limit, 0);
  }

  /** If the evaluator never approves and never asks for input, a run
      never finishes: it ends in the recursion limit or a tool failure. */
  lemma {:induction false} RunWithoutApprovalFails(g: Graph, run: NodeRunner, s: State, at: Node, fuel: nat, tick: nat)
    requires Built(g) && Lawful(run) && at in g.nodes
    requires at != WorkerNode ==> |s.messages| > 0
    requires forall s: State, tick: nat :: |s.messages| > 0 && run(s, EvaluatorNode, tick).Ok? ==>
      !run(s, EvaluatorNode, tick).value.successCriteriaMet && !run(s, EvaluatorNode, tick).value.userInputNeeded
    ensures Run(g, run, s, at, fuel, tick).Err?
    decreases fuel
  {
    TopologyShape(ToolsNode in g.nodes);
    if fuel > 0 && run(s, at, tick).Ok? {
      var s' := run(s, at, tick).value;
      var next := Next(g, at, s');
      assert next != EndNode;
      RunWithoutApprovalFails(g, run, s', next, fuel - 1, tick + 1);
    }
  }

  /** An evaluator model that always answers, never approving and never
      asking for input, drives the graph into the recursion limit or a tool
      failure. */
  lemma RejectingEvaluatorNeverFinishes(g: Graph, t: Texts, caps: Capabilities, init: State, limit: nat)
    requires Built(g)
    requires forall ms :: caps.evaluatorLlm(ms).Ok?
    requires forall ms :: !caps.evaluatorLlm(ms).value.successCriteriaMet && !caps.evaluatorLlm(ms).value.userInputNeeded
    ensures Run(g, Runner(t, caps), init, WorkerNode, limit, 0).Err?
  {
    TopologyShape(ToolsNode in g.nodes);
    var run := Runner(t, caps);
    forall s: State, tick: nat | |s.messages| > 0 && run(s, EvaluatorNode, tick).Ok?
      ensures !run(s, EvaluatorNode, tick).value.successCriteriaMet && !run(s, EvaluatorNode, tick).value.userInputNeeded
    {
      var v := caps.evaluatorLlm(E.EvaluatorMessages(t.evaluator, s));
      assert run(s, EvaluatorNode, tick) == Ok(Merge(s, E.EvaluatorUpdate(t.evaluator, s, caps.evaluatorLlm)));
    }
    RunWithoutApprovalFails(g, run, init, WorkerNode, limit, 0);
  }

  /** The state the evaluator leaves: its last message is the verdict's
      feedback message, or the fail-closed error message with the verdict
      keys set to "not met, input needed"; either way it carries the
      stored feedback. */
  predicate EndsWithVerdict(s: State) {
    && |s.messages| > 0 && s.feedbackOnWork.Some?
    && (|| Last(s.messages) == AI(E.FeedbackPrefix + s.feedbackOnWork.value, [])
        || (&& Last(s.messages) == AI(E.EvaluatorErrorPrefix + s.feedbackOnWork.value, [])
            && !s.successCriteriaMet && s.userInputNeeded))
  }

  /** The evaluator node always leaves such a state. */
  lemma EvaluatorEndsWithVerdict(t: Texts, caps: Capabilities)
    ensures forall s: State, tick: nat :: EndsWithVerdict(Runner(t, caps)(s, EvaluatorNode, tick).value)
  {
    forall s: State, tick: nat
      ensures EndsWithVerdict(Runner(t, caps)(s, EvaluatorNode, tick).value)
    {
      var u := E.EvaluatorUpdate(t.evaluator, s, caps.evaluatorLlm);
      var s' := Merge(s, u);
      assert Runner(t, caps)(s, EvaluatorNode, tick) == Ok(s');
      assert Last(s'.messages) == u.messages[0];
    }
  }

  /** A finished run ends with the evaluator's message, provided every
      evaluator step leaves one. */
  lemma {:induction false} RunEndsWithVerdict(g: Graph, run: NodeRunner, s: State, at: Node, fuel: nat, tick: nat)
    requires Built(g) && Lawful(run) && at in g.nodes
    requires forall s: State, tick: nat :: run(s, EvaluatorNode, tick).Ok? ==> EndsWithVerdict(run(s, EvaluatorNode, tick).value)
    requires Run(g, run, s, at, fuel, tick).Ok?
    ensures EndsWithVerdict(Run(g, run, s, at, fuel, tick).value.state)
    decreases fuel
  {
    var s' := run(s, at, tick).value;
    var next := Next(g, at, s');
    if next != EndNode {
      RunEndsWithVerdict(g, run, s', next, fuel - 1, tick + 1);
    }
  }

  /** One node run and merged, as the loop does it. */
  method ExecuteNode(t: Texts, caps: Capabilities, s: State, at: Node, tick: nat) returns (r: Result<State>)
    requires at == WorkerNode || at == ToolsNode || at == EvaluatorNode
    ensures r == Step(t, caps, s, at, tick)
  {
    if at == WorkerNode {
      var u := W.Worker(t.worker, s, caps.clock(tick), caps.workerLlm);
      r := Ok(Merge(s, u));
    } else if at == ToolsNode {
      var outputs := caps.toolNode(s.messages);
      if outputs.Err? {
        return Err(outputs.error);
      }
      r := Ok(Merge(s, MessagesOnly(ToolMessages(outputs.value))));
    } else {
      var u := E.Evaluator(t.evaluator, s, caps.evaluatorLlm);
      r := Ok(Merge(s, u));
    }
  }

  /** One unfolding of `Run` past a node that ran. */
  lemma RunUnfold(g: Graph, run: NodeRunner, s: State, at: Node, fuel: nat, tick: nat)
    requires Built(g) && Lawful(run) && at in g.nodes && fuel > 0
    ensures run(s, at, tick).Err? ==> Run(g, run, s, at, fuel, tick) == Err(run(s, at, tick).error)
    ensures run(s, at, tick).Ok? ==>
      var s' := run(s, at, tick).value;
      Run(g, run, s, at, fuel, tick) == Within([at], Run(g, run, s', Next(g, at, s'), fuel - 1, tick + 1))
  {
    TopologyShape(ToolsNode in g.nodes);
  }

  lemma RunAtEnd(g: Graph, run: NodeRunner, s: State, fuel: nat, tick: nat, trace: seq<Node>)
    requires Built(g) && Lawful(run)
    ensures Within(trace, Run(g, run, s, EndNode, fuel, tick)) == Ok(Outcome(s, trace))
  {
    assert trace + [] == trace;
  }

  lemma RunOutOfFuel(g: Graph, run: NodeRunner, s: State, at: Node, tick: nat, trace: seq<Node>)
    requires Built(g) && Lawful(run) && at in g.nodes
    ensures Within(trace, Run(g, run, s, at, 0, tick)) == Err(RecursionLimitError)
  {
  }

  /** One turn of the execution loop, in terms of the run still ahead. */
  lemma DriveStep(g: Graph, run: NodeRunner, s: State, at: Node, fuel: nat, tick: nat, trace: seq<Node>)
    requires Built(g) && Lawful(run) && at in g.nodes && fuel > 0
    ensures run(s, at, tick).Err? ==> Within(trace, Run(g, run, s, at, fuel, tick)) == Err(run(s, at, tick).error)
    ensures run(s, at, tick).Ok? ==>
      var s' := run(s, at, tick).value;
      Within(trace, Run(g, run, s, at, fuel, tick)) == Within(trace + [at], Run(g, run, s', Next(g, at, s'), fuel - 1, tick + 1))
  {
    RunUnfold(g, run, s, at, fuel, tick);
    if run(s, at, tick).Ok? {
      var s' := run(s, at, tick).value;
      WithinWithin(trace, [at], Run(g, run, s', Next(g, at, s'), fuel - 1, tick + 1));
    }
  }

  lemma WithinWithin(a: seq<Node>, b: seq<Node>, r: Result<Outcome>)
    ensures Within(a, Within(b, r)) == Within(a + b, r)
  {
    if r.Ok? {
      assert a + (b + r.value.trace) == (a + b) + r.value.trace;
    }
  }

  lemma WithinEmpty(r: Result<Outcome>)
    ensures Within([], r) == r
  {
    if r.Ok? {
      assert [] + r.value.trace == r.value.trace;
    }
  }

  lemma StartLeadsToWorker(g: Graph)
    requires Built(g)
    ensures StartNode in g.edges && g.edges[StartNode] == WorkerNode && WorkerNode in g.nodes
  {
    TopologyShape(ToolsNode in g.nodes);
  }

  /** The graph's execution loop, from START, with at most `limit` node
      executions: run the current node, merge its update, follow the
      edges. */
  method Drive(g: Graph, run: NodeRunner, init: State, limit: nat) returns (r: Result<Outcome>)
    requires Built(g) && Lawful(run)
    ensures r == Run(g, run, init, WorkerNode, limit, 0)
  {
    StartLeadsToWorker(g);
    var state := init;
    var node := g.edges[StartNode];
    var steps: nat := 0;
    var trace: seq<Node> := [];
    ghost var total := Run(g, run, init, WorkerNode, limit, 0);
    WithinEmpty(total);
    while node != EndNode
      invariant steps <= limit
      invariant node == EndNode || node in g.nodes
      invariant total == Within(trace, Run(g, run, state, node, limit - steps, steps))
      decreases limit - steps
    {
      if steps == limit {
        RunOutOfFuel(g, run, state, node, steps, trace);
        return Err(RecursionLimitError);
      }
      DriveStep(g, run, state, node, limit - steps, steps, trace);
      var outcome := run(state, node, steps);
      if outcome.Err? {
        return Err(outcome.error);
      }
      state := outcome.value;
      var next := Next(g, node, state);
      trace := trace + [node];
      node := next;
      steps := steps + 1;
    }
    RunAtEnd(g, run, state, limit - steps, steps, trace);
    r := Ok(Outcome(state, trace));
  }

  /** `ainvoke` on the compiled graph with its own node functions. */
  method RunGraph(g: Graph, t: Texts, caps: Capabilities, init: State, limit: nat) returns (r: Result<Outcome>)
    requires Built(g)
    ensures r == Run(g, Runner(t, caps), init, WorkerNode, limit, 0)
  {
    r := Drive(g, Runner(t, caps), init, limit);
  }
}

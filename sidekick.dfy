/** The `Sidekick` object: setup collects tools, prepares the two models
    and builds the graph; `run_superstep` seeds a state, runs the graph
    and turns the result into chat history; cleanup drops the browser and
    marks the object unready. */
module Agent {
  import opened Messages
  import opened Routing
  import opened GraphRun
  import opened Transcript
  import W = WorkerStep
  import E = EvaluatorStep

  /** A tool the worker model may call, known by its name. */
  datatype Tool = Tool(name: string)

  /** An opaque handle on an external object (browser, Playwright). */
  datatype Handle = Handle(id: nat)

  /** What `playwright_tools` returns: the browser tools and the two
      handles, which are absent when it caught its own failure. */
  datatype BrowserSession = BrowserSession(tools: seq<Tool>, browser: Option<Handle>, playwright: Option<Handle>)

  /** The worker model: plain, or with the tool list bound to it. */
  datatype WorkerModel = Plain | BoundTo(tools: seq<Tool>)

  /** The node-execution cap of one run. */
  const RecursionLimit: nat := 100

  /** The criterion used when the caller gives none. */
  const DefaultCriteria: string := "The answer should be clear and accurate"

  const NotInitialised: string := "Sidekick not properly initialized"
  const SuperstepErrorPrefix: string := "Error in run_superstep: "
  const ErrorIntro: string := "I encountered an error: "

  /** `str(e)` of the `TimeoutError` raised by the five-minute wait. */
  const TimeoutText: string := []

  /** The prose of both prompts, as written in the class. */
  const SourceTexts: Texts := Texts(W.SourceWorkerText, E.SourceEvaluatorText)

  /** The state a superstep starts from: the user's message alone, the
      given criterion or the default one, no feedback, both flags down. */
  function InitialState(message: string, criteria: string): (s: State)
    ensures s.messages == [Human(message)] && NoSystem(s.messages)
    ensures s.successCriteria == if criteria == [] then DefaultCriteria else criteria
    ensures s.successCriteria != []
    ensures s.feedbackOnWork.None? && !s.successCriteriaMet && !s.userInputNeeded
  {
    State([Human(message)], if criteria == [] then DefaultCriteria else criteria, None, false, false)
  }

  /** The history returned when anything in a superstep raises. */
  function ErrorHistory(history: seq<Turn>, message: string, error: string): (h: seq<Turn>)
    ensures |h| == |history| + 2 && h[..|history|] == history
    ensures h[|history|] == Turn(User, message)
    ensures h[|history| + 1] == Turn(Assistant, ErrorIntro + (SuperstepErrorPrefix + error))
  {
    history + [Turn(User, message), Turn(Assistant, ErrorIntro + (SuperstepErrorPrefix + error))]
  }

  /** `run_superstep` on an object with readiness `ready` and graph
      `graph` whose node functions are `run`: the prior history is always
      kept as a prefix and followed by the user's turn; a failure (not set
      up, timeout, a raising tool node, the recursion limit) adds exactly
      one error turn; a finished run adds the last answer and the last
      feedback found. */
  function Superstep(ready: bool, graph: Option<Graph>, run: NodeRunner, message: string,
                     criteria: string, history: seq<Turn>, timedOut: bool): (h: seq<Turn>)
    requires Lawful(run) && (ready ==> graph.Some? && Built(graph.value))
    ensures |history| + 1 <= |h| <= |history| + 3
    ensures h[..|history|] == history && h[|history|] == Turn(User, message)
    ensures forall i :: |history| < i < |h| ==> h[i].role == Assistant
    ensures !ready ==> h == history + [Turn(User, message), Turn(Assistant, ErrorIntro + (SuperstepErrorPrefix + NotInitialised))]
    ensures ready && timedOut ==> h == history + [Turn(User, message), Turn(Assistant, ErrorIntro + SuperstepErrorPrefix)]
    ensures ready && !timedOut && Run(graph.value, run, InitialState(message, criteria), WorkerNode, RecursionLimit, 0).Err? ==>
      var e := Run(graph.value, run, InitialState(message, criteria), WorkerNode, RecursionLimit, 0).error;
      h == history + [Turn(User, message), Turn(Assistant, ErrorIntro + (SuperstepErrorPrefix + e))]
    ensures ready && !timedOut && Run(graph.value, run, InitialState(message, criteria), WorkerNode, RecursionLimit, 0).Ok? ==>
      h == ResponseHistory(history, message, Run(graph.value, run, InitialState(message, criteria), WorkerNode, RecursionLimit, 0).value.state.messages)
  {
    if !ready then ErrorHistory(history, message, NotInitialised)
    else if timedOut then
      assert SuperstepErrorPrefix + TimeoutText == SuperstepErrorPrefix;
      ErrorHistory(history, message, TimeoutText)
    else
      StartLeadsToWorker(graph.value);
      match Run(graph.value, run, InitialState(message, criteria), WorkerNode, RecursionLimit, 0)
      case Err(e) => ErrorHistory(history, message, e)
      case Ok(o) => ResponseHistory(history, message, o.state.messages)
  }

  /** The feedback prefix starts with the marker the scan looks for. */
  lemma FeedbackPrefixHasMarker()
    ensures StartsWith(E.FeedbackPrefix, FeedbackMarker)
  {
    assert E.FeedbackPrefix[..|FeedbackMarker|] == FeedbackMarker;
  }

  /** The evaluator's verdict message is always reported as feedback. */
  lemma VerdictIsFeedback(feedback: string)
    ensures IsFeedback(AI(E.FeedbackPrefix + feedback, []))
    ensures !IsAnswer(AI(E.FeedbackPrefix + feedback, []))
  {
    FeedbackPrefixHasMarker();
    VerdictMessageIsFeedback(E.FeedbackPrefix, feedback);
  }

  /** The fail-closed evaluator message is never reported as an answer,
      whatever the error. */
  lemma FailClosedNeverAnswer(error: string)
    ensures !IsAnswer(E.FailClosed(error).messages[0])
  {
    assert E.EvaluatorErrorPrefix[..|EvaluatorTag|] == EvaluatorTag;
    EvaluatorPrefixedNeverAnswer(E.EvaluatorErrorPrefix, E.EvaluatorFailurePrefix + error);
  }

  /** A finished run ends with the evaluator's message, and when that is
      a verdict, the last history entry is the verdict's feedback. */
  lemma {:induction false} FinishedRunShowsVerdict(g: Graph, run: NodeRunner, message: string, criteria: string, history: seq<Turn>)
    requires Built(g) && Lawful(run)
    requires forall s: State, tick: nat :: run(s, EvaluatorNode, tick).Ok? ==> EndsWithVerdict(run(s, EvaluatorNode, tick).value)
    requires Run(g, run, InitialState(message, criteria), WorkerNode, RecursionLimit, 0).Ok?
    ensures var final := Run(g, run, InitialState(message, criteria), WorkerNode, RecursionLimit, 0).value.state;
      && EndsWithVerdict(final)
      && (Last(final.messages) == AI(E.FeedbackPrefix + final.feedbackOnWork.value, []) ==>
            Last(Superstep(true, Some(g), run, message, criteria, history, false)) == Turn(Assistant, E.FeedbackPrefix + final.feedbackOnWork.value))
  {
    var init := InitialState(message, criteria);
    StartLeadsToWorker(g);
    RunEndsWithVerdict(g, run, init, WorkerNode, RecursionLimit, 0);
    var final := Run(g, run, init, WorkerNode, RecursionLimit, 0).value.state;
    var m := Last(final.messages);
    if m == AI(E.FeedbackPrefix + final.feedbackOnWork.value, []) {
      VerdictIsFeedback(final.feedbackOnWork.value);
      LastFeedbackComesLast(history, message, final.messages);
      assert Superstep(true, Some(g), run, message, criteria, history, false) == ResponseHistory(history, message, final.messages);
    }
  }

  /** The same for the object's own node functions, whose evaluator always
      leaves a verdict or a fail-closed error. */
  lemma SuperstepShowsVerdict(g: Graph, texts: Texts, caps: Capabilities, message: string, criteria: string, history: seq<Turn>)
    requires Built(g)
    requires Run(g, Runner(texts, caps), InitialState(message, criteria), WorkerNode, RecursionLimit, 0).Ok?
    ensures var final := Run(g, Runner(texts, caps), InitialState(message, criteria), WorkerNode, RecursionLimit, 0).value.state;
      && EndsWithVerdict(final)
      && (Last(final.messages) == AI(E.FeedbackPrefix + final.feedbackOnWork.value, []) ==>
            Last(Superstep(true, Some(g), Runner(texts, caps), message, criteria, history, false)) == Turn(Assistant, E.FeedbackPrefix + final.feedbackOnWork.value))
  {
    EvaluatorEndsWithVerdict(texts, caps);
    FinishedRunShowsVerdict(g, Runner(texts, caps), message, criteria, history);
  }

  /** The caller-visible fields of a `Sidekick`. */
  datatype View = View(tools: seq<Tool>, browser: Option<Handle>, playwright: Option<Handle>,
                       workerModel: Option<WorkerModel>, evaluatorReady: bool, graph: Option<Graph>,
                       setupComplete: bool)

  /** What cleanup leaves: no browser, no Playwright, not set up. */
  function AfterCleanup(v: View): (v': View)
    ensures v'.browser.None? && v'.playwright.None? && !v'.setupComplete
    ensures v'.tools == v.tools && v'.workerModel == v.workerModel && v'.graph == v.graph
    ensures v'.evaluatorReady == v.evaluatorReady
  {
    v.(browser := None, playwright := None, setupComplete := false)
  }

  /** Cleaning up twice is the same as cleaning up once. */
  lemma CleanupIdempotent(v: View)
    ensures AfterCleanup(AfterCleanup(v)) == AfterCleanup(v)
  {
  }

  class Sidekick {
    var tools: seq<Tool>
    var browser: Option<Handle>
    var playwright: Option<Handle>
    var workerModel: Option<WorkerModel>
    var evaluatorReady: bool
    var graph: Option<Graph>
    var setupComplete: bool
    var texts: Texts

    /** A set-up object has both models and the graph built for its tools. */
    ghost predicate Valid()
      reads this
    {
      setupComplete ==>
        && graph == Some(Topology(|tools| > 0))
        && workerModel == Some(if |tools| > 0 then BoundTo(tools) else Plain)
        && evaluatorReady
    }

    function Snapshot(): View
      reads this
    {
      View(tools, browser, playwright, workerModel, evaluatorReady, graph, setupComplete)
    }

    /** A fresh object, not set up, whose prompts use `texts` (the
        class's own wording is `SourceTexts`). */
    constructor (texts: Texts)
      ensures Valid() && !setupComplete
      ensures tools == [] && browser.None? && playwright.None?
      ensures workerModel.None? && !evaluatorReady && graph.None?
      ensures this.texts == texts
    {
      tools := [];
      browser := None;
      playwright := None;
      workerModel := None;
      evaluatorReady := false;
      graph := None;
      setupComplete := false;
      this.texts := texts;
    }

    /** `build_graph`: the nodes, edges and conditional edges for the
        current tools, added one by one. */
    method BuildGraph()
      modifies this
      ensures graph == Some(Topology(|tools| > 0))
      ensures tools == old(tools) && browser == old(browser) && playwright == old(playwright)
      ensures workerModel == old(workerModel) && evaluatorReady == old(evaluatorReady)
      ensures setupComplete == old(setupComplete) && texts == old(texts)
    {
      var nodes: set<Node> := {WorkerNode};
      if |tools| > 0 {
        nodes := nodes + {ToolsNode};
      }
      nodes := nodes + {EvaluatorNode};
      var edges: map<Node, Node> := map[];
      var branches: map<Node, Branch> := map[];
      if |tools| > 0 {
        branches := branches[WorkerNode := Branch(ByToolCalls, map[ToolsLabel := ToolsNode, EvaluatorLabel := EvaluatorNode])];
        edges := edges[ToolsNode := WorkerNode];
      } else {
        edges := edges[WorkerNode := EvaluatorNode];
      }
      branches := branches[EvaluatorNode := Branch(ByEvaluation, map[WorkerLabel := WorkerNode, EndLabel := EndNode])];
      edges := edges[StartNode := WorkerNode];
      assert Graph(nodes, edges, branches) == Topology(|tools| > 0);
      graph := Some(Graph(nodes, edges, branches));
    }

    /** `setup`: a failing tool provider contributes no tools and setup
        goes on; a failing model construction aborts setup, leaving the
        object not set up; otherwise the graph is built and the object is
        set up. */
    method Setup(browserTools: Result<BrowserSession>, otherTools: Result<seq<Tool>>,
                 workerLlm: Result<()>, evaluatorLlm: Result<()>) returns (r: Result<()>)
      modifies this
      ensures tools == old(tools)
        + (if browserTools.Ok? then browserTools.value.tools else [])
        + (if otherTools.Ok? then otherTools.value else [])
      ensures browser == (if browserTools.Ok? then browserTools.value.browser else old(browser))
      ensures playwright == (if browserTools.Ok? then browserTools.value.playwright else old(playwright))
      ensures r.Ok? <==> workerLlm.Ok? && evaluatorLlm.Ok?
      ensures workerLlm.Err? ==> r == Err(workerLlm.error) && workerModel == old(workerModel)
      ensures workerLlm.Ok? ==> workerModel == Some(if |tools| > 0 then BoundTo(tools) else Plain)
      ensures workerLlm.Ok? && evaluatorLlm.Err? ==> r == Err(evaluatorLlm.error)
      ensures r.Ok? ==> evaluatorReady && graph == Some(Topology(|tools| > 0))
      ensures r.Err? ==> evaluatorReady == old(evaluatorReady) && graph == old(graph)
      ensures setupComplete <==> r.Ok?
      ensures texts == old(texts)
      ensures Valid()
    {
      match browserTools {
        case Ok(session) =>
          browser := session.browser;
          playwright := session.playwright;
          tools := tools + session.tools;
        case Err(_) =>
      }
      match otherTools {
        case Ok(more) =>
          tools := tools + more;
        case Err(_) =>
      }
      if workerLlm.Err? {
        setupComplete := false;
        return Err(workerLlm.error);
      }
      if |tools| > 0 {
        workerModel := Some(BoundTo(tools));
      } else {
        workerModel := Some(Plain);
      }
      if evaluatorLlm.Err? {
        setupComplete := false;
        return Err(evaluatorLlm.error);
      }
      evaluatorReady := true;
      BuildGraph();
      setupComplete := true;
      r := Ok(());
    }

    /** `cleanup`: the browser and Playwright handles are dropped and the
        object is no longer set up; nothing else changes. */
    method Cleanup()
      modifies this
      ensures Snapshot() == AfterCleanup(old(Snapshot()))
      ensures texts == old(texts)
      ensures Valid()
    {
      browser := None;
      playwright := None;
      setupComplete := false;
    }

    /** `run_superstep`, with the five-minute wait's outcome given by
        `timedOut` and the models, clock and tool node by `caps`. */
    method RunSuperstep(message: string, successCriteria: string, history: seq<Turn>, caps: Capabilities, timedOut: bool)
      returns (h: seq<Turn>)
      requires Valid()
      ensures h == Superstep(setupComplete, graph, Runner(texts, caps), message, successCriteria, history, timedOut)
    {
      if !setupComplete {
        return ErrorHistory(history, message, NotInitialised);
      }
      var state := InitialState(message, successCriteria);
      if timedOut {
        return ErrorHistory(history, message, TimeoutText);
      }
      var result := RunGraph(graph.value, texts, caps, state, RecursionLimit);
      match result
      case Err(e) =>
        h := ErrorHistory(history, message, e);
      case Ok(o) =>
        h := BuildResponse(history, message, o.state.messages);
    }
  }
}

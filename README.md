# Sidekick agent loop, modelled in Dafny

This project models the control loop of the "Sidekick" personal assistant
(`langgraph_implementation/personal_assistant.py`): a LangGraph state graph
in which a *worker* model answers the user, may call tools through a *tools*
node, and hands each answer to an *evaluator* model that either accepts it,
asks for user input, or sends it back to the worker with feedback.

The model covers:

- the graph state (`State`) and the evaluator's verdict (`EvaluatorOutput`),
  with the framework's `add_messages` merge written out as an append
  (`messages.dfy`, module `Messages`);
- the worker node: its system prompt, the replacement of the first system
  message (or the prepending of one) on an array copy of the conversation,
  and its one-message update, including the `"Error in worker: "` answer
  when the model raises (`worker.dfy`, module `WorkerStep`);
- `format_conversation` as a loop proved against a rendering function, the
  evaluator's request, and the evaluator's update, which fails closed
  (`evaluator.dfy`, module `EvaluatorStep`);
- the two routers and the topology `build_graph` wires, with and without
  tools (`routing.dfy`, module `Routing`);
- one graph invocation as a WORKER/TOOLS/EVALUATOR/END state machine with
  an explicit node-execution budget of 100 (`graph_run.dfy`, module
  `GraphRun`);
- the scan of the final messages for the last answer and the last
  evaluator feedback, and the history `run_superstep` returns
  (`transcript.dfy`, module `Transcript`);
- the `Sidekick` object: `setup`, `build_graph`, `run_superstep` and
  `cleanup` over its fields (`sidekick.dfy`, module `Agent`).

The worker model, the evaluator model, the tool node and the clock are
capabilities passed in as functions (`GraphRun.Capabilities`); a raised
exception is an `Err` carrying the text of `str(e)`. The graph's runtime is
modelled generically over node functions (`GraphRun.NodeRunner`): the
properties of a run are proved for every node runner that keeps the
guarantees `GraphRun.Lawful` states, and `GraphRun.Runner` shows that the
class's own node functions keep them.

## Model

| member | source | states |
|---|---|---|
| `Messages.Merge` | langgraph_implementation/personal_assistant.py:25-30 | merging an update appends its messages after the old ones, keeps the criterion, overwrites each other key the update carries and keeps the rest |
| `WorkerStep.WorkerSystemPrompt` | langgraph_implementation/personal_assistant.py:110-132 | the prompt starts with the fixed brief; the rejection paragraph is added exactly when `feedback_on_work` is non-empty, and then contains that feedback |
| `WorkerStep.FirstSystem` | langgraph_implementation/personal_assistant.py:137-141 | finds the first system message: it is one, no earlier message is, and there is none exactly when the list has no system message |
| `WorkerStep.WithSystemPrompt` | langgraph_implementation/personal_assistant.py:134-144 | with a system message, the first one is replaced at its index and every other message and the length are unchanged; without one, the prompt is prepended and the rest follows unchanged |
| `WorkerStep.SystemPromptCount` | langgraph_implementation/personal_assistant.py:134-144 | the prepared list holds as many system messages as the input, and exactly one when the input had none |
| `WorkerStep.WorkerUpdate` | langgraph_implementation/personal_assistant.py:146-152 | the update holds exactly one AI message and no other key: the model's reply with its tool calls, or `"Error in worker: "` plus the error with no tool calls |
| `WorkerStep.WorkerPromptOneSystem` | langgraph_implementation/personal_assistant.py:134-144 | on a state without system messages the worker model sees exactly one, the fresh prompt, at index 0 |
| `WorkerStep.Worker` | langgraph_implementation/personal_assistant.py:108-152 | the loop over an array copy of the messages, stopped at the first system message, yields exactly the update `WorkerUpdate` specifies |
| `EvaluatorStep.Conversation` | langgraph_implementation/personal_assistant.py:165 | the rendering starts with the header `"Conversation history:\n\n"` |
| `EvaluatorStep.LinesAppend` | langgraph_implementation/personal_assistant.py:166-171 | rendering distributes over concatenation: each message contributes its own line, in order |
| `EvaluatorStep.Visible` | langgraph_implementation/personal_assistant.py:166-171 | keeps exactly the human and AI messages of its input (a message is kept iff it is one of them), is never longer, and is the input itself when every message is human or AI |
| `EvaluatorStep.ConversationSkipsHidden` | langgraph_implementation/personal_assistant.py:166-171 | system and tool-result messages contribute nothing: rendering a list equals rendering its human and AI messages |
| `EvaluatorStep.ConversationOfOne` | langgraph_implementation/personal_assistant.py:167-171 | a single message renders as the header followed by its own line (`"User: "`, or `"Assistant: "` with `"[Tool usage]"` for empty content) |
| `EvaluatorStep.FormatConversation` | langgraph_implementation/personal_assistant.py:163-172 | the accumulating loop returns exactly the rendering `Conversation` of the messages |
| `EvaluatorStep.EvaluatorRequest` | langgraph_implementation/personal_assistant.py:183-204 | the request starts with the fixed text around the conversation, contains the conversation, and gets the prior-feedback paragraph, holding the feedback, exactly when there is feedback |
| `EvaluatorStep.EvaluatorUpdate` | langgraph_implementation/personal_assistant.py:174-227 | on a verdict: one message `"Evaluator Feedback: " + feedback`, the feedback stored, both flags copied; on an empty state or a raising model: a message starting `"Evaluator Error: "`, criteria not met, user input needed |
| `EvaluatorStep.Evaluator` | langgraph_implementation/personal_assistant.py:174-227 | the node computes exactly the update `EvaluatorUpdate` specifies |
| `Routing.WorkerRouter` | langgraph_implementation/personal_assistant.py:154-161 | `"tools"` exactly when the last message has tool calls, `"evaluator"` exactly when it has none |
| `Routing.RouteBasedOnEvaluation` | langgraph_implementation/personal_assistant.py:229-234 | `"END"` exactly when the criteria are met or user input is needed, `"worker"` exactly otherwise |
| `Routing.TopologyShape` | langgraph_implementation/personal_assistant.py:242-265 | the tools node exists exactly when tools do; START leads to the worker; without tools the worker leads only to the evaluator; with tools the worker branches to tools or evaluator and tools lead back to the worker; the evaluator leads to the worker or END |
| `Routing.Next` | langgraph_implementation/personal_assistant.py:249-265 | the next node is END or a node of the graph; after the worker it is the tools node exactly when tools exist and the last message has tool calls, and the evaluator otherwise; after the tools node it is the worker; after the evaluator it is END exactly when the criteria are met or user input is needed, and the worker otherwise |
| `Routing.NextFollowsEdge` | langgraph_implementation/personal_assistant.py:249-265 | the next node is always one that an edge out of the current node leads to |
| `Routing.WorkerWithoutToolCallsGoesToEvaluator` | langgraph_implementation/personal_assistant.py:249-258 | with or without tools, a worker answer without tool calls is handed to the evaluator |
| `GraphRun.ToolMessages` | langgraph_implementation/personal_assistant.py:245 | one tool-result message per tool output, with its content and call id, in order |
| `GraphRun.Step` | langgraph_implementation/personal_assistant.py:243-246 | only the tool node can raise; every node only appends messages, none of them a system message; the worker appends exactly one; only the evaluator changes feedback and flags |
| `GraphRun.Runner` | langgraph_implementation/personal_assistant.py:243-246 | the class's node functions keep the guarantees (`Lawful`) every run relies on |
| `GraphRun.RunStopsOnlyOnVerdict` | langgraph_implementation/personal_assistant.py:229-234 | a finished run executed at most the budget of nodes, started at its first node, ended right after the evaluator, in a state where the criteria are met or user input is needed |
| `GraphRun.RunAppendsOnly` | langgraph_implementation/personal_assistant.py:26 | a run only appends to the conversation and keeps the success criterion |
| `GraphRun.RunAddsNoSystem` | langgraph_implementation/personal_assistant.py:134-144 | a run never puts a system message into the state: the worker's system prompt stays in its private copy |
| `GraphRun.RunFollowsGraph` | langgraph_implementation/personal_assistant.py:249-265 | the executed nodes are nodes of the graph and each is a successor of the previous one |
| `GraphRun.RunIgnoresToolNode` | langgraph_implementation/personal_assistant.py:244-258 | on the graph without tools, node runners differing only in the tool node give the same run, whose trace never names the tools node |
| `GraphRun.NoToolsNoToolNode` | langgraph_implementation/personal_assistant.py:244-258 | without tools, whatever the tool node would do, an invocation is the same and never executes it |
| `GraphRun.RunWithoutApprovalFails` | langgraph_implementation/personal_assistant.py:229-234 | if every evaluation neither approves nor asks for input, a run never finishes: it ends in the recursion limit or a tool failure |
| `GraphRun.RejectingEvaluatorNeverFinishes` | langgraph_implementation/personal_assistant.py:229-234 | an evaluator model that always answers "not met, no input needed" drives every invocation into an error |
| `GraphRun.EvaluatorEndsWithVerdict` | langgraph_implementation/personal_assistant.py:211-227 | after the evaluator the last message is `"Evaluator Feedback: " + f` or, with "not met, input needed", `"Evaluator Error: " + f`, where `f` is the stored feedback |
| `GraphRun.RunEndsWithVerdict` | langgraph_implementation/personal_assistant.py:229-234 | a finished run ends in such a state |
| `GraphRun.ExecuteNode` | langgraph_implementation/personal_assistant.py:243-246 | running the worker, tool or evaluator method and merging its update gives exactly `Step` |
| `GraphRun.Drive` | langgraph_implementation/personal_assistant.py:299-302 | the execution loop from START with a budget of node executions returns exactly the run `Run` defines |
| `GraphRun.RunGraph` | langgraph_implementation/personal_assistant.py:299-302 | invoking the compiled graph with the class's node functions returns exactly `Run` with `Runner` |
| `Transcript.LastKeptAt` | langgraph_implementation/personal_assistant.py:311-316 | the index of the last message a classifier selects: selected, none later selected, none at all exactly when no message is selected |
| `Transcript.LastKept` | langgraph_implementation/personal_assistant.py:311-316 | the content of the last selected message, and none exactly when no message is selected |
| `Transcript.ResponseHistory` | langgraph_implementation/personal_assistant.py:318-325 | the prior history is a prefix, followed by the user turn, then the last answer if one was found, then the last feedback if one was found; the length grows by one plus one per class found |
| `Transcript.LastFeedbackComesLast` | langgraph_implementation/personal_assistant.py:311-323 | when the final message is feedback, it is the last history entry |
| `Transcript.BuildResponse` | langgraph_implementation/personal_assistant.py:305-325 | the scan loop and the appends return exactly `ResponseHistory` |
| `Transcript.ClassesDisjoint` | langgraph_implementation/personal_assistant.py:313-315 | no message is both an answer and feedback |
| `Transcript.VerdictMessageIsFeedback` | langgraph_implementation/personal_assistant.py:313 | a message starting with the feedback marker is feedback and not an answer |
| `Transcript.EvaluatorPrefixedNeverAnswer` | langgraph_implementation/personal_assistant.py:315 | a message starting with `"Evaluator"` is never an answer, and without the marker not feedback either |
| `Transcript.IgnoredMessagesInvisible` | langgraph_implementation/personal_assistant.py:311-316 | a message the classifier rejects does not change what the scan reports |
| `Transcript.KeptMessageWins` | langgraph_implementation/personal_assistant.py:311-316 | a later selected message replaces what the scan reports |
| `Agent.InitialState` | langgraph_implementation/personal_assistant.py:289-295 | the run starts from the user's message alone, the given criterion or the default one when it is empty, no feedback, both flags false |
| `Agent.ErrorHistory` | langgraph_implementation/personal_assistant.py:327-333 | the prior history followed by exactly the user turn and `"I encountered an error: Error in run_superstep: "` plus the error |
| `Agent.Superstep` | langgraph_implementation/personal_assistant.py:275-333 | the prior history is always a prefix, followed by the user turn, then 0 to 2 assistant turns; not set up, a timeout or a failed run give exactly the error history; a finished run gives the scanned history |
| `Agent.FeedbackPrefixHasMarker` | langgraph_implementation/personal_assistant.py:313 | the evaluator's `"Evaluator Feedback: "` prefix starts with the marker the scan looks for |
| `Agent.VerdictIsFeedback` | langgraph_implementation/personal_assistant.py:313-316 | the evaluator's verdict message is always reported as feedback, never as the answer |
| `Agent.FailClosedNeverAnswer` | langgraph_implementation/personal_assistant.py:315 | the fail-closed `"Evaluator Error: "` message is never reported as the answer |
| `Agent.FinishedRunShowsVerdict` | langgraph_implementation/personal_assistant.py:308-325 | a finished run ends with the evaluator's message, and when it is a verdict the last history entry is that verdict's feedback |
| `Agent.SuperstepShowsVerdict` | langgraph_implementation/personal_assistant.py:308-325 | the same for the class's own node functions |
| `Agent.AfterCleanup` | langgraph_implementation/personal_assistant.py:343-346 | cleanup leaves no browser, no Playwright and the object not set up, and keeps tools, both models and graph |
| `Agent.CleanupIdempotent` | langgraph_implementation/personal_assistant.py:335-347 | cleaning up twice lands in the same state as once |
| `Agent.Sidekick.constructor` | langgraph_implementation/personal_assistant.py:38-48 | a new object has no tools, handles, models or graph and is not set up |
| `Agent.Sidekick.BuildGraph` | langgraph_implementation/personal_assistant.py:236-273 | the nodes and edges added one by one form exactly `Topology` for the current tools; nothing else changes |
| `Agent.Sidekick.Setup` | langgraph_implementation/personal_assistant.py:50-106 | the browser handles become what the browser provider returned (absent when it caught its own failure); a raising tool provider adds no tools and setup goes on; a failing model construction returns its error, leaves the object not set up and the graph unchanged; otherwise the worker model is bound exactly when there are tools, the graph is built for them and the object is set up |
| `Agent.Sidekick.Cleanup` | langgraph_implementation/personal_assistant.py:335-347 | the object's fields become exactly `AfterCleanup` of the old ones |
| `Agent.Sidekick.RunSuperstep` | langgraph_implementation/personal_assistant.py:275-333 | returns exactly `Superstep` for the object's readiness, graph and node functions |

## Left out

- `app.py` (the web interface) and `langgraph_implementation/personal_assistant_tools.py` (browser launch, push notifications, file, search, Wikipedia and Python tools, `cleanup_browser`): all I/O and foreign libraries. Tool execution is one opaque capability per call; `cleanup_browser` and its swallowed exception are not modelled.
- The model calls (`ChatOpenAI`, `bind_tools`, `with_structured_output`): the worker and evaluator models are functions from messages to `Ok`/`Err`. Which tools are bound is recorded (`WorkerModel`), but the answers are not tied to it.
- `datetime.now()`: the timestamp is the capability `clock`, indexed by the number of node executions so far; its format is not modelled.
- `uuid` and the `MemorySaver` checkpointer under a fixed `thread_id`: every superstep starts from the fresh initial state; messages that the checkpointer would carry over from earlier supersteps are not modelled.
- The recursion limit is a budget of 100 node executions. Whether the framework honours `recursion_limit` when it is nested under `"configurable"` is framework behaviour outside this code, so the effective limit may differ. The limit error's text is the framework's own and version-dependent; `GraphRun.RecursionLimitError` only stands for it.
- `asyncio.wait_for` with its 300-second timeout: the outcome is the parameter `timedOut`, which leads to the exception branch with the empty text of a `TimeoutError`.
- The `ToolNode` internals (which calls it runs, how it reports tool errors): it is one capability that returns tool outputs or raises.
- The `add_messages` replacement of messages by ID and list-valued message content: messages are always appended and content is a string.
- Graph compilation errors and the `print` logging, including the Windows event-loop policy.
- The prompt wording is passed as records (`WorkerStep.WorkerText`, `EvaluatorStep.EvaluatorText`); the class's own wording is `WorkerStep.SourceWorkerText`, `EvaluatorStep.SourceEvaluatorText` and `Agent.SourceTexts`, which a `Sidekick` receives through its constructor instead of holding it as literals.
- `GraphRun.Drive` runs the node functions as values; that these are the `Worker`, `Evaluator` and tool-node methods is stated separately by `GraphRun.ExecuteNode`.
- `Agent.Sidekick.RunSuperstep`: the worker model and evaluator model used by a run come from the `caps` parameter rather than from the object's model fields.

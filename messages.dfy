/** The data model shared by every node of the agent graph: the typed
    message list, the graph state, the partial-state updates that nodes
    return, and the framework's merge of an update into the state. */
module Messages {

  datatype Option<T> = None | Some(value: T)

  /** A capability call that either returns a value or raises; the error
      carries the exception's text (`str(e)`). */
  datatype Result<T> = Ok(value: T) | Err(error: string)

  /** One tool invocation requested by the worker model. */
  datatype ToolCall = ToolCall(id: string, name: string, args: string)

  /** The four message classes the graph state holds: `HumanMessage`,
      `AIMessage` (with its `tool_calls`), `SystemMessage` and the tool
      node's `ToolMessage`. */
  datatype Message =
    | Human(content: string)
    | AI(content: string, toolCalls: seq<ToolCall>)
    | System(content: string)
    | ToolResult(content: string, toolCallId: string)

  /** What the worker model answers: text and possibly tool calls. */
  datatype Reply = Reply(content: string, toolCalls: seq<ToolCall>)

  /** What the tool node produces for one executed tool call. */
  datatype ToolOutput = ToolOutput(content: string, toolCallId: string)

  /** `EvaluatorOutput`: the evaluator model's structured verdict. */
  datatype Verdict = Verdict(feedback: string, successCriteriaMet: bool, userInputNeeded: bool)

  /** `State`: the record threaded through one graph run. */
  datatype State = State(
    messages: seq<Message>,
    successCriteria: string,
    feedbackOnWork: Option<string>,
    successCriteriaMet: bool,
    userInputNeeded: bool)

  /** The dictionary a node returns: new messages, and for each other key
      either a new value or `None` when the key is absent. */
  datatype Update = Update(
    messages: seq<Message>,
    feedbackOnWork: Option<string>,
    successCriteriaMet: Option<bool>,
    userInputNeeded: Option<bool>)

  /** An update that only carries messages. */
  function MessagesOnly(ms: seq<Message>): Update {
    Update(ms, None, None, None)
  }

  function Last<T>(s: seq<T>): T
    requires |s| > 0
  {
    s[|s| - 1]
  }

  /** The framework's merge of a node's update: the `messages` channel is
      reduced by appending, every other key present in the update
      overwrites the state's value, and absent keys keep theirs. */
  function Merge(s: State, u: Update): (r: State)
    ensures |r.messages| == |s.messages| + |u.messages|
    ensures r.messages[..|s.messages|] == s.messages && r.messages[|s.messages|..] == u.messages
    ensures r.successCriteria == s.successCriteria
    ensures u.feedbackOnWork.Some? ==> r.feedbackOnWork == u.feedbackOnWork
    ensures u.feedbackOnWork.None? ==> r.feedbackOnWork == s.feedbackOnWork
    ensures r.successCriteriaMet == if u.successCriteriaMet.Some? then u.successCriteriaMet.value else s.successCriteriaMet
    ensures r.userInputNeeded == if u.userInputNeeded.Some? then u.userInputNeeded.value else s.userInputNeeded
  {
    State(
      s.messages + u.messages,
      s.successCriteria,
      if u.feedbackOnWork.Some? then u.feedbackOnWork else s.feedbackOnWork,
      match u.successCriteriaMet case Some(b) => b case None => s.successCriteriaMet,
      match u.userInputNeeded case Some(b) => b case None => s.userInputNeeded)
  }

  /** The graph state never holds a system message: the worker only puts
      one into its private copy of the list. */
  predicate NoSystem(ms: seq<Message>) {
    forall i :: 0 <= i < |ms| ==> !ms[i].System?
  }

  /** Python's `s.startswith(p)`. */
  predicate StartsWith(s: string, p: string) {
    |p| <= |s| && s[..|p|] == p
  }

  /** Python's `t in s` on strings. */
  predicate Contains(s: string, t: string)
    decreases |s|
  {
    StartsWith(s, t) || (|s| > 0 && Contains(s[1..], t))
  }

  lemma StartsWithAppend(a: string, b: string, p: string)
    requires StartsWith(a, p)
    ensures StartsWith(a + b, p)
  {
    assert (a + b)[..|p|] == a[..|p|];
  }

  /** A piece of a concatenation is contained in it. */
  lemma {:induction false} ContainsMiddle(a: string, b: string, c: string)
    ensures Contains(a + b + c, b)
    decreases |a|
  {
    if |a| == 0 {
      assert a + b + c == b + c;
      StartsWithAppend(b, c, b);
    } else {
      assert (a + b + c)[1..] == a[1..] + b + c;
      ContainsMiddle(a[1..], b, c);
    }
  }
}

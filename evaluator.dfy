/** The evaluator node: it renders the conversation for the evaluator
    model, asks for a structured verdict, and turns it into an update. Any
    failure fails closed: criteria not met, user input needed. */
module EvaluatorStep {
  import opened Messages
  import WorkerStep

  const ConversationHeader: string := "Conversation history:\n\n"
  const UserTag: string := "User: "
  const AssistantTag: string := "Assistant: "
  const Newline: string := "\n"
  const ToolUsagePlaceholder: string := "[Tool usage]"
  const FeedbackPrefix: string := "Evaluator Feedback: "
  const EvaluatorErrorPrefix: string := "Evaluator Error: "
  const EvaluatorFailurePrefix: string := "Error in evaluator: "

  /** The text of the `IndexError` raised when the state holds no message. */
  const EmptyListError: string := "list index out of range"

  /** The fixed prose of the evaluator's two prompt messages. */
  datatype EvaluatorText = EvaluatorText(
    instruction: string,        // the whole system message
    requestIntro: string,       // the request, before the conversation
    criteriaHeading: string,    // between the conversation and the criterion
    responseHeading: string,    // between the criterion and the last response
    requestOutro: string,       // after the last response
    priorFeedbackIntro: string, // the prior-feedback paragraph, before the feedback
    repeatedMistakes: string)   // the prior-feedback paragraph, after the feedback

  /** The evaluator prompt's wording in `Sidekick.evaluator`. */
  const SourceEvaluatorText: EvaluatorText := EvaluatorText(
    "You are an evaluator that determines if a task has been completed successfully by an Assistant.\n"
    + "Assess the Assistant's last response based on the given criteria. Respond with your feedback, and with your decision on whether the success criteria has been met,\n"
    + "and whether more input is needed from the user.",
    "You are evaluating a conversation between the User and Assistant. You decide what action to take based on the last response from the Assistant.\n"
    + "\n"
    + "The entire conversation with the assistant, with the user's original request and all replies, is:\n",
    "\n\nThe success criteria for this assignment is:\n",
    "\n\nAnd the final response from the Assistant that you are evaluating is:\n",
    "\n\nRespond with your feedback, and decide if the success criteria is met by this response.\n"
    + "Also, decide if more user input is required, either because the assistant has a question, needs clarification, or seems to be stuck and unable to answer without help.\n"
    + "\n"
    + "The Assistant has access to various tools including file management, web browsing, Python execution, and search.\n"
    + "If the Assistant says they have completed a task using tools, you should generally trust them unless the response is clearly inadequate.\n"
    + "Overall you should give the Assistant the benefit of the doubt if they say they've done something. But you should reject if you feel that more work should go into this.\n",
    "\nAlso, note that in a prior attempt from the Assistant, you provided this feedback: ",
    "If you're seeing the Assistant repeating the same mistakes, then consider responding that user input is required.")

  /** The line one message contributes to the rendered conversation. */
  function Line(m: Message): (line: string)
  {
    match m
    case Human(c) => UserTag + c + Newline
    case AI(c, _) => AssistantTag + (if c == [] then ToolUsagePlaceholder else c) + Newline
    case System(_) => []
    case ToolResult(_, _) => []
  }

  /** The lines of a message list, in order. */
  function Lines(ms: seq<Message>): string
    decreases |ms|
  {
    if |ms| == 0 then [] else Lines(ms[..|ms| - 1]) + Line(ms[|ms| - 1])
  }

  /** The rendered conversation that `format_conversation` returns. */
  function Conversation(ms: seq<Message>): (r: string)
    ensures StartsWith(r, ConversationHeader)
  {
    StartsWithAppend(ConversationHeader, Lines(ms), ConversationHeader);
    ConversationHeader + Lines(ms)
  }

  /** Rendering distributes over concatenation: each message contributes
      its own line, in order. */
  lemma {:induction false} LinesAppend(a: seq<Message>, b: seq<Message>)
    ensures Lines(a + b) == Lines(a) + Lines(b)
    decreases |b|
  {
    if |b| == 0 {
      assert a + b == a;
    } else {
      var b' := b[..|b| - 1];
      assert (a + b)[..|a + b| - 1] == a + b';
      LinesAppend(a, b');
    }
  }

  /** The messages that appear in the rendering: human and AI ones. */
  function Visible(ms: seq<Message>): (r: seq<Message>)
    ensures forall i :: 0 <= i < |r| ==> r[i].Human? || r[i].AI?
    ensures |r| <= |ms|
    ensures forall m :: m in r <==> m in ms && (m.Human? || m.AI?)
    ensures (forall i :: 0 <= i < |ms| ==> ms[i].Human? || ms[i].AI?) ==> r == ms
    decreases |ms|
  {
    if ms == [] then []
    else if Last(ms).Human? || Last(ms).AI? then Visible(ms[..|ms| - 1]) + [Last(ms)]
    else Visible(ms[..|ms| - 1])
  }

  /** System and tool-result messages are skipped: rendering a list is the
      same as rendering only its human and AI messages. */
  lemma {:induction false} ConversationSkipsHidden(ms: seq<Message>)
    ensures Conversation(ms) == Conversation(Visible(ms))
    ensures Lines(ms) == Lines(Visible(ms))
    decreases |ms|
  {
    if ms != [] {
      var init := ms[..|ms| - 1];
      ConversationSkipsHidden(init);
      if Last(ms).Human? || Last(ms).AI? {
        var v := Visible(init) + [Last(ms)];
        assert v[..|v| - 1] == Visible(init);
      }
    }
  }

  /** Rendering of a single message after the header, for human and AI
      messages one line each. */
  lemma ConversationOfOne(m: Message)
    ensures Conversation([m]) == ConversationHeader + Line(m)
  {
    assert [m][..0] == [];
    assert Lines([m]) == Lines([]) + Line(m);
  }

  lemma LinesStep(ms: seq<Message>, i: nat)
    requires i < |ms|
    ensures Lines(ms[..i + 1]) == Lines(ms[..i]) + Line(ms[i])
  {
    assert ms[..i + 1][..i] == ms[..i];
  }

  /** Appending the next message's line extends the rendering by one
      message. */
  lemma AppendLine(conversation: string, ms: seq<Message>, i: nat, line: string)
    requires i < |ms| && conversation == ConversationHeader + Lines(ms[..i]) && line == Line(ms[i])
    ensures conversation + line == ConversationHeader + Lines(ms[..i + 1])
  {
    LinesStep(ms, i);
  }

  /** `format_conversation`: the header followed by one line per human or
      AI message, accumulated in a loop. */
  method FormatConversation(messages: seq<Message>) returns (conversation: string)
    ensures conversation == Conversation(messages)
  {
    conversation := ConversationHeader;
    for i := 0 to |messages|
      invariant conversation == ConversationHeader + Lines(messages[..i])
    {
      var message := messages[i];
      var line: string := [];
      if message.Human? {
        line := UserTag + message.content + Newline;
      } else if message.AI? {
        var text := if message.content != [] then message.content else ToolUsagePlaceholder;
        line := AssistantTag + text + Newline;
      }
      assert line == Line(message);
      AppendLine(conversation, messages, i, line);
      conversation := conversation + line;
    }
    assert messages[..|messages|] == messages;
  }

  /** The evaluator's request without the prior-feedback paragraph. */
  function BaseRequest(t: EvaluatorText, conversation: string, criteria: string, lastResponse: string): string {
    t.requestIntro + conversation + (t.criteriaHeading + criteria + t.responseHeading + lastResponse + t.requestOutro)
  }

  /** The user-turn prompt for the evaluator. The prior-feedback paragraph,
      holding the stored feedback, is added exactly when there is feedback. */
  function EvaluatorRequest(t: EvaluatorText, conversation: string, criteria: string, lastResponse: string, feedback: Option<string>): (r: string)
    ensures StartsWith(r, BaseRequest(t, conversation, criteria, lastResponse))
    ensures r == BaseRequest(t, conversation, criteria, lastResponse) <==> !WorkerStep.HasFeedback(feedback)
    ensures Contains(r, conversation)
    ensures WorkerStep.HasFeedback(feedback) ==> Contains(r, feedback.value)
  {
    var tail := t.criteriaHeading + criteria + t.responseHeading + lastResponse + t.requestOutro;
    var base := BaseRequest(t, conversation, criteria, lastResponse);
    ContainsMiddle(t.requestIntro, conversation, tail);
    if WorkerStep.HasFeedback(feedback) then
      var note := t.priorFeedbackIntro + feedback.value + Newline + t.repeatedMistakes;
      assert |note| > 0;
      assert (base + note)[..|base|] == base;
      ContainsMiddle(base + t.priorFeedbackIntro, feedback.value, Newline + t.repeatedMistakes);
      assert base + note == base + t.priorFeedbackIntro + feedback.value + (Newline + t.repeatedMistakes);
      ContainsPrefix(base, note, conversation);
      base + note
    else
      assert base[..|base|] == base;
      base
  }

  lemma {:induction false} ContainsPrefix(a: string, b: string, t: string)
    requires Contains(a, t)
    ensures Contains(a + b, t)
    decreases |a|
  {
    if StartsWith(a, t) {
      StartsWithAppend(a, b, t);
    } else {
      assert (a + b)[1..] == a[1..] + b;
      ContainsPrefix(a[1..], b, t);
    }
  }

  /** The two messages sent to the evaluator model for a non-empty state. */
  function EvaluatorMessages(t: EvaluatorText, s: State): seq<Message>
    requires |s.messages| > 0
  {
    [System(t.instruction),
     Human(EvaluatorRequest(t, Conversation(s.messages), s.successCriteria, Last(s.messages).content, s.feedbackOnWork))]
  }

  /** The update of a failed evaluation: not met, user input needed. */
  function FailClosed(error: string): Update {
    var feedback := EvaluatorFailurePrefix + error;
    Update([AI(EvaluatorErrorPrefix + feedback, [])], Some(feedback), Some(false), Some(true))
  }

  /** The evaluator node's update. On a verdict it appends one feedback
      message and copies the verdict; on any failure it fails closed. */
  function EvaluatorUpdate(t: EvaluatorText, s: State, llm: seq<Message> -> Result<Verdict>): (u: Update)
    ensures |u.messages| == 1 && u.messages[0].AI? && u.messages[0].toolCalls == []
    ensures u.feedbackOnWork.Some? && u.successCriteriaMet.Some? && u.userInputNeeded.Some?
    ensures |s.messages| > 0 && llm(EvaluatorMessages(t, s)).Ok? ==>
      var v := llm(EvaluatorMessages(t, s)).value;
      && u.messages[0].content == FeedbackPrefix + v.feedback
      && u.feedbackOnWork == Some(v.feedback)
      && u.successCriteriaMet == Some(v.successCriteriaMet)
      && u.userInputNeeded == Some(v.userInputNeeded)
    ensures |s.messages| == 0 || llm(EvaluatorMessages(t, s)).Err? ==>
      && StartsWith(u.messages[0].content, EvaluatorErrorPrefix)
      && u.successCriteriaMet == Some(false)
      && u.userInputNeeded == Some(true)
  {
    if |s.messages| == 0 then
      StartsWithAppend(EvaluatorErrorPrefix, EvaluatorFailurePrefix + EmptyListError, EvaluatorErrorPrefix);
      FailClosed(EmptyListError)
    else match llm(EvaluatorMessages(t, s))
      case Ok(v) =>
        Update([AI(FeedbackPrefix + v.feedback, [])], Some(v.feedback), Some(v.successCriteriaMet), Some(v.userInputNeeded))
      case Err(e) =>
        StartsWithAppend(EvaluatorErrorPrefix, EvaluatorFailurePrefix + e, EvaluatorErrorPrefix);
        FailClosed(e)
  }

  /** The evaluator node. */
  method Evaluator(t: EvaluatorText, s: State, llm: seq<Message> -> Result<Verdict>) returns (u: Update)
    ensures u == EvaluatorUpdate(t, s, llm)
  {
    if |s.messages| == 0 {
      u := FailClosed(EmptyListError);
      return;
    }
    var lastResponse := s.messages[|s.messages| - 1].content;
    var conversation := FormatConversation(s.messages);
    var request := EvaluatorRequest(t, conversation, s.successCriteria, lastResponse, s.feedbackOnWork);
    var outcome := llm([System(t.instruction), Human(request)]);
    match outcome
    case Ok(v) =>
      u := Update([AI(FeedbackPrefix + v.feedback, [])], Some(v.feedback), Some(v.successCriteriaMet), Some(v.userInputNeeded));
    case Err(e) =>
      u := FailClosed(e);
  }
}

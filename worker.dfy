/** The worker node: it builds the worker's system prompt, puts it into a
    private copy of the conversation (replacing the first system message or
    prepending one), asks the worker model, and returns a one-message
    update. A failing model call becomes an error-text answer. */
module WorkerStep {
  import opened Messages

  const WorkerErrorPrefix := "Error in worker: "

  /** Python truthiness of `state.get("feedback_on_work")`: present and
      non-empty. */
  predicate HasFeedback(feedback: Option<string>) {
    feedback.Some? && feedback.value != ""
  }

  /** The fixed prose of the worker's system prompt, around the three
      values filled into it. */
  datatype WorkerText = WorkerText(
    intro: string,            // before the timestamp
    criteriaHeading: string,  // between the timestamp and the success criterion
    outro: string,            // after the criterion: the reply conventions
    rejectionIntro: string,   // the rejection paragraph, before the feedback
    rejectionOutro: string)   // the rejection paragraph, after the feedback

  /** The worker prompt's wording in `Sidekick.worker`. */
  const SourceWorkerText: WorkerText := WorkerText(
    "You are a helpful assistant that can use tools to complete tasks.\n"
    + "You keep working on a task until either you have a question or clarification for the user, or the success criteria is met.\n"
    + "You have access to various tools to help you, including tools to browse the internet, manage files, run Python code, and search for information.\n"
    + "When using the Python tool, remember to include print() statements if you want to see output.\n"
    + "The current date and time is ",
    "\n\nThis is the success criteria:\n",
    "\n\nYou should reply either with a question for the user about this assignment, or with your final response.\n"
    + "If you have a question for the user, you need to reply by clearly stating your question. An example might be:\n"
    + "\n"
    + "Question: Please clarify whether you want a summary or a detailed answer\n"
    + "\n"
    + "If you've finished, reply with the final answer, and don't ask a question; simply reply with the answer.\n",
    "\nPreviously you thought you completed the assignment, but your reply was rejected because the success criteria was not met.\n"
    + "Here is the feedback on why this was rejected:\n",
    "\nWith this feedback, please continue the assignment, ensuring that you meet the success criteria or have a question for the user.")

  /** The fixed part of the worker's system prompt, with the timestamp and
      the success criterion filled in. */
  function WorkerBrief(t: WorkerText, now: string, criteria: string): string {
    t.intro + now + t.criteriaHeading + criteria + t.outro
  }

  /** The paragraph that tells the worker its previous answer was rejected. */
  function RejectionNote(t: WorkerText, feedback: string): string {
    t.rejectionIntro + feedback + t.rejectionOutro
  }

  /** The worker's system prompt. The rejection paragraph, holding the
      evaluator's feedback, is appended exactly when there is feedback. */
  function WorkerSystemPrompt(t: WorkerText, now: string, criteria: string, feedback: Option<string>): (p: string)
    ensures StartsWith(p, WorkerBrief(t, now, criteria))
    ensures p == WorkerBrief(t, now, criteria) <==> !HasFeedback(feedback)
    ensures HasFeedback(feedback) ==> Contains(p, feedback.value)
  {
    var brief := WorkerBrief(t, now, criteria);
    if HasFeedback(feedback) then
      var note := RejectionNote(t, feedback.value);
      assert |note| > 0;
      assert (brief + note)[..|brief|] == brief;
      ContainsMiddle(brief + t.rejectionIntro, feedback.value, t.rejectionOutro);
      assert brief + note == brief + t.rejectionIntro + feedback.value + t.rejectionOutro;
      brief + note
    else
      assert brief[..|brief|] == brief;
      brief
  }

  /** The index of the first system message, if any. */
  function FirstSystem(ms: seq<Message>): (k: Option<nat>)
    ensures k.Some? ==> k.value < |ms| && ms[k.value].System?
    ensures k.Some? ==> forall j :: 0 <= j < k.value ==> !ms[j].System?
    ensures k.None? <==> NoSystem(ms)
    decreases |ms|
  {
    if ms == [] then None
    else if ms[0].System? then Some(0)
    else match FirstSystem(ms[1..])
      case None => None
      case Some(k) => Some(k + 1)
  }

  /** The message list the worker model is called with: the first system
      message replaced in place by the prompt, or, when there is none, the
      prompt prepended. */
  function WithSystemPrompt(ms: seq<Message>, prompt: string): (r: seq<Message>)
    ensures FirstSystem(ms).Some? ==>
      var k := FirstSystem(ms).value;
      |r| == |ms| && r[k] == System(prompt) && forall j :: 0 <= j < |ms| && j != k ==> r[j] == ms[j]
    ensures FirstSystem(ms).None? ==> |r| == |ms| + 1 && r[0] == System(prompt) && r[1..] == ms
  {
    match FirstSystem(ms)
    case Some(k) => ms[k := System(prompt)]
    case None => [System(prompt)] + ms
  }

  /** The number of system messages in a list. */
  function CountSystem(ms: seq<Message>): nat
    decreases |ms|
  {
    if ms == [] then 0 else (if ms[0].System? then 1 else 0) + CountSystem(ms[1..])
  }

  lemma {:induction false} CountSystemZero(ms: seq<Message>)
    ensures CountSystem(ms) == 0 <==> NoSystem(ms)
    decreases |ms|
  {
    if ms != [] {
      CountSystemZero(ms[1..]);
      assert forall i :: 1 <= i < |ms| ==> ms[i] == ms[1..][i - 1];
    }
  }

  lemma {:induction false} CountSystemReplace(ms: seq<Message>, k: nat, m: Message)
    requires k < |ms| && ms[k].System? && m.System?
    ensures CountSystem(ms[k := m]) == CountSystem(ms)
    decreases k
  {
    if k > 0 {
      assert ms[k := m][1..] == ms[1..][k - 1 := m];
      CountSystemReplace(ms[1..], k - 1, m);
    } else {
      assert ms[k := m][1..] == ms[1..];
    }
  }

  /** Prompt preparation never adds a second system message: the result
      holds exactly as many as the input, but at least one. */
  lemma SystemPromptCount(ms: seq<Message>, prompt: string)
    ensures CountSystem(WithSystemPrompt(ms, prompt)) == if NoSystem(ms) then 1 else CountSystem(ms)
  {
    var r := WithSystemPrompt(ms, prompt);
    match FirstSystem(ms)
    case Some(k) =>
      CountSystemReplace(ms, k, System(prompt));
      CountSystemZero(ms);
    case None =>
      assert r[1..] == ms;
      CountSystemZero(ms);
  }

  /** The messages the worker model sees for state `s` at time `now`. */
  function WorkerPrompt(t: WorkerText, s: State, now: string): seq<Message> {
    WithSystemPrompt(s.messages, WorkerSystemPrompt(t, now, s.successCriteria, s.feedbackOnWork))
  }

  /** The message the worker returns for a model outcome. */
  function WorkerReply(outcome: Result<Reply>): Message {
    match outcome
    case Ok(reply) => AI(reply.content, reply.toolCalls)
    case Err(e) => AI(WorkerErrorPrefix + e, [])
  }

  /** The worker node's update: one AI message and no other key. A failed
      model call yields the error text with no tool calls. */
  function WorkerUpdate(t: WorkerText, s: State, now: string, llm: seq<Message> -> Result<Reply>): (u: Update)
    ensures |u.messages| == 1 && u.messages[0].AI?
    ensures u.feedbackOnWork.None? && u.successCriteriaMet.None? && u.userInputNeeded.None?
    ensures llm(WorkerPrompt(t, s, now)).Ok? ==>
      var reply := llm(WorkerPrompt(t, s, now)).value;
      u.messages[0].content == reply.content && u.messages[0].toolCalls == reply.toolCalls
    ensures llm(WorkerPrompt(t, s, now)).Err? ==>
      u.messages[0].content == WorkerErrorPrefix + llm(WorkerPrompt(t, s, now)).error && u.messages[0].toolCalls == []
  {
    MessagesOnly([WorkerReply(llm(WorkerPrompt(t, s, now)))])
  }

  /** If the state holds no system message, the worker model always sees
      exactly one, the fresh prompt, at the front. */
  lemma WorkerPromptOneSystem(t: WorkerText, s: State, now: string)
    requires NoSystem(s.messages)
    ensures CountSystem(WorkerPrompt(t, s, now)) == 1
    ensures WorkerPrompt(t, s, now)[0] == System(WorkerSystemPrompt(t, now, s.successCriteria, s.feedbackOnWork))
  {
    SystemPromptCount(s.messages, WorkerSystemPrompt(t, now, s.successCriteria, s.feedbackOnWork));
  }

  /** The worker node. The conversation is copied into a fresh array, the
      first system message of the copy is overwritten (or the prompt is
      prepended), and the model is called on the copy. */
  method Worker(t: WorkerText, s: State, now: string, llm: seq<Message> -> Result<Reply>) returns (u: Update)
    ensures u == WorkerUpdate(t, s, now, llm)
  {
    var systemMessage := WorkerSystemPrompt(t, now, s.successCriteria, s.feedbackOnWork);
    var foundSystemMessage := false;
    var n := |s.messages|;
    var messages := new Message[n](i requires 0 <= i < n => s.messages[i]);
    var i := 0;
    while i < n
      invariant 0 <= i <= n
      invariant messages[..] == s.messages
      invariant forall j :: 0 <= j < i ==> !s.messages[j].System?
    {
      if messages[i].System? {
        messages[i] := System(systemMessage);
        foundSystemMessage := true;
        break;
      }
      i := i + 1;
    }
    var prompt := messages[..];
    if !foundSystemMessage {
      prompt := [System(systemMessage)] + prompt;
    }
    assert prompt == WithSystemPrompt(s.messages, systemMessage);
    var outcome := llm(prompt);
    match outcome
    case Ok(reply) =>
      u := MessagesOnly([AI(reply.content, reply.toolCalls)]);
    case Err(e) =>
      u := MessagesOnly([AI(WorkerErrorPrefix + e, [])]);
  }
}

/** What `run_superstep` shows its caller: the prior chat history, the
    user's message, then the last answer and the last evaluator feedback
    found in the final graph state. The two classes are tested
    differently: feedback by containment of a marker, answers by the
    absence of that marker and of an "Evaluator" prefix, so an evaluator
    error message belongs to neither. */
module Transcript {
  import opened Messages

  const FeedbackMarker: string := "Evaluator Feedback:"
  const EvaluatorTag: string := "Evaluator"

  /** The `role` of a chat-history entry. */
  datatype Role = User | Assistant

  /** One chat-history entry: `{"role": …, "content": …}`. */
  datatype Turn = Turn(role: Role, content: string)

  /** An AI message the scan reports as evaluator feedback. */
  predicate IsFeedback(m: Message) {
    m.AI? && m.content != [] && Contains(m.content, FeedbackMarker)
  }

  /** An AI message the scan reports as the assistant's answer. */
  predicate IsAnswer(m: Message) {
    m.AI? && m.content != [] && !Contains(m.content, FeedbackMarker) && !StartsWith(m.content, EvaluatorTag)
  }

  /** The index of the last message of `ms` that `keep` selects. */
  function LastKeptAt(ms: seq<Message>, keep: Message -> bool): (k: Option<nat>)
    ensures k.None? <==> forall i :: 0 <= i < |ms| ==> !keep(ms[i])
    ensures k.Some? ==> k.value < |ms| && keep(ms[k.value]) && forall j :: k.value < j < |ms| ==> !keep(ms[j])
    decreases |ms|
  {
    if ms == [] then None
    else if keep(Last(ms)) then Some(|ms| - 1)
    else
      assert forall i :: 0 <= i < |ms| - 1 ==> ms[..|ms| - 1][i] == ms[i];
      LastKeptAt(ms[..|ms| - 1], keep)
  }

  /** The content of the last message of `ms` that `keep` selects. */
  function LastKept(ms: seq<Message>, keep: Message -> bool): (r: Option<string>)
    ensures r.None? <==> forall i :: 0 <= i < |ms| ==> !keep(ms[i])
    ensures r.Some? ==> exists k :: 0 <= k < |ms| && keep(ms[k]) && ms[k].content == r.value &&
                                    forall j :: k < j < |ms| ==> !keep(ms[j])
  {
    match LastKeptAt(ms, keep)
    case None => None
    case Some(k) => Some(ms[k].content)
  }

  /** An optional assistant entry. */
  function AssistantTurn(content: Option<string>): seq<Turn> {
    match content
    case None => []
    case Some(c) => [Turn(Assistant, c)]
  }

  /** The history returned after a run whose final messages are `result`. */
  function ResponseHistory(history: seq<Turn>, message: string, result: seq<Message>): (h: seq<Turn>)
    ensures |history| + 1 <= |h| <= |history| + 3
    ensures h[..|history|] == history && h[|history|] == Turn(User, message)
    ensures forall i :: |history| < i < |h| ==> h[i].role == Assistant
    ensures |h| == |history| + 1 <==> LastKept(result, IsAnswer).None? && LastKept(result, IsFeedback).None?
    ensures var a, f := LastKept(result, IsAnswer), LastKept(result, IsFeedback);
      && |h| == |history| + 1 + (if a.Some? then 1 else 0) + (if f.Some? then 1 else 0)
      && (a.Some? ==> h[|history| + 1] == Turn(Assistant, a.value))
      && (f.Some? ==> Last(h) == Turn(Assistant, f.value))
  {
    history + [Turn(User, message)] + AssistantTurn(LastKept(result, IsAnswer)) + AssistantTurn(LastKept(result, IsFeedback))
  }

  /** A history built from messages that end in feedback ends with that
      feedback. */
  lemma LastFeedbackComesLast(history: seq<Turn>, message: string, result: seq<Message>)
    requires result != [] && IsFeedback(Last(result))
    ensures Last(ResponseHistory(history, message, result)) == Turn(Assistant, Last(result).content)
  {
    assert LastKept(result, IsFeedback) == Some(Last(result).content);
  }

  /** The scan and the history building of `run_superstep`: one pass over
      the messages remembering the last answer and the last feedback, then
      the appends. */
  method BuildResponse(history: seq<Turn>, message: string, result: seq<Message>) returns (h: seq<Turn>)
    ensures h == ResponseHistory(history, message, result)
  {
    var answer: Option<string> := None;
    var feedback: Option<string> := None;
    for i := 0 to |result|
      invariant answer == LastKept(result[..i], IsAnswer)
      invariant feedback == LastKept(result[..i], IsFeedback)
    {
      var msg := result[i];
      assert result[..i + 1][..i] == result[..i];
      if msg.AI? {
        if msg.content != [] && Contains(msg.content, FeedbackMarker) {
          feedback := Some(msg.content);
        } else if msg.content != [] && !StartsWith(msg.content, EvaluatorTag) {
          answer := Some(msg.content);
        }
      }
    }
    assert result[..|result|] == result;
    h := history + [Turn(User, message)];
    if answer.Some? {
      h := h + [Turn(Assistant, answer.value)];
    }
    if feedback.Some? {
      h := h + [Turn(Assistant, feedback.value)];
    }
  }

  /** No message is both an answer and feedback. */
  lemma ClassesDisjoint(m: Message)
    ensures !(IsAnswer(m) && IsFeedback(m))
  {
  }

  /** The evaluator's verdict message, which starts with the marker, is
      always feedback, never an answer. */
  lemma VerdictMessageIsFeedback(prefix: string, feedback: string)
    requires StartsWith(prefix, FeedbackMarker)
    ensures IsFeedback(AI(prefix + feedback, []))
    ensures !IsAnswer(AI(prefix + feedback, []))
  {
    StartsWithAppend(prefix, feedback, FeedbackMarker);
  }

  /** A message starting with "Evaluator" is never an answer; unless it
      contains the marker it is not feedback either. */
  lemma EvaluatorPrefixedNeverAnswer(prefix: string, rest: string)
    requires StartsWith(prefix, EvaluatorTag)
    ensures !IsAnswer(AI(prefix + rest, []))
    ensures !Contains(prefix + rest, FeedbackMarker) ==> !IsFeedback(AI(prefix + rest, []))
  {
    StartsWithAppend(prefix, rest, EvaluatorTag);
  }

  /** Messages the scan ignores leave the reported answer and feedback
      unchanged wherever they stand. */
  lemma {:induction false} IgnoredMessagesInvisible(ms: seq<Message>, m: Message, keep: Message -> bool)
    requires !keep(m)
    ensures LastKept(ms + [m], keep) == LastKept(ms, keep)
  {
    assert (ms + [m])[..|ms|] == ms;
  }

  /** The reported value is that of the latest kept message: appending a
      kept message replaces it. */
  lemma {:induction false} KeptMessageWins(ms: seq<Message>, m: Message, keep: Message -> bool)
    requires keep(m)
    ensures LastKept(ms + [m], keep) == Some(m.content)
  {
  }
}

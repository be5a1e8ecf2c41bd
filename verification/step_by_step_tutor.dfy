/**
 * The step-by-step tutor agent: guides the learner through a problem,
 * records which step its reply is on and how the learner is doing, and
 * hands back to the question presenter once the learner has got it, or to
 * the welcomer when they want something else.
 */
module StepByStepTutorAgent {
  import opened Optional
  import opened Strings
  import opened Patterns
  import opened Tutoring
  import Roles

  /** Learner phrases that say the problem is done. */
  const CompletionPhrases: seq<string> :=
    ["got it", "i understand", "that makes sense", "i see", "oh okay", "next problem", "another problem"]

  /** Phrases in the tutor's own reply that announce the hand-back. */
  const ResponseIndicators: seq<string> :=
    ["excellent", "great job", "you've got it", "perfect", "colleague", "question presenter"]

  /** Learner phrases that ask to change topic; the tutor also accepts a different problem type. */
  const ResetPhrases: seq<string> :=
    ["different topic", "change subject", "start over", "new topic", "different problem type"]

  /** Learner phrases read as progress. */
  const PositiveIndicators: seq<string> :=
    ["yes", "got it", "understand", "makes sense", "i see", "okay"]

  /** Learner phrases read as trouble. */
  const NegativeIndicators: seq<string> :=
    ["no", "don't understand", "confused", "lost", "don't get it"]

  /** The prompts `getTutoringSteps` offers for an equation in x. */
  const AlgebraicSteps: seq<string> := [
    "Let's identify what we're solving for",
    "What operations do we see in the equation?",
    "How can we isolate the variable?",
    "Let's work through this step by step"]

  /** The prompts `getTutoringSteps` offers for a plain calculation. */
  const ArithmeticSteps: seq<string> := [
    "Let's break this down into smaller parts",
    "What operation should we do first?",
    "Can you try this part?",
    "Now let's put it all together"]

  /** The prompts `getTutoringSteps` offers for anything else. */
  const WordProblemSteps: seq<string> := [
    "Let's read the problem carefully",
    "What information are we given?",
    "What are we trying to find?",
    "How can we set up the equation?"]

  /**
   * `shouldTransitionToQuestionPresenter`: a completion phrase in the
   * lower-cased message or an indicator phrase in the lower-cased reply.
   */
  function ShouldTransitionToQuestionPresenter(message: string, response: string): (r: bool)
    ensures r <==>
      || (exists k :: 0 <= k < |CompletionPhrases| && Includes(Lower(message), CompletionPhrases[k]))
      || (exists k :: 0 <= k < |ResponseIndicators| && Includes(Lower(response), ResponseIndicators[k]))
  {
    AnyIncluded(Lower(message), CompletionPhrases) || AnyIncluded(Lower(response), ResponseIndicators)
  }

  /** `shouldTransitionToWelcomer`: the lower-cased message holds a reset phrase. */
  function ShouldTransitionToWelcomer(message: string): (r: bool)
    ensures r <==> exists k :: 0 <= k < |ResetPhrases| && Includes(Lower(message), ResetPhrases[k])
  {
    AnyIncluded(Lower(message), ResetPhrases)
  }

  /** A step-pattern match never reads "guidance": it starts with one of the keywords. */
  lemma StepAtIsNotGuidance(s: string, i: nat)
    ensures StepAt(s, i) != Some("guidance")
  {
    if StepAt(s, i).Some? {
      assert i < |s|;
      var first := LowerChar(s[i]);
      assert first == 's' || first == 'f' || first == 't' || first == 'n' by {
        if KeywordAt(s, i, "step") { assert Lower(s[i..i + 4])[0] == first; }
        else if KeywordAt(s, i, "first") { assert Lower(s[i..i + 5])[0] == first; }
        else if KeywordAt(s, i, "second") { assert Lower(s[i..i + 6])[0] == first; }
        else if KeywordAt(s, i, "third") { assert Lower(s[i..i + 5])[0] == first; }
        else if KeywordAt(s, i, "next") { assert Lower(s[i..i + 4])[0] == first; }
        else { assert Lower(s[i..i + 7])[0] == first; }
      }
      assert StepAt(s, i).value[0] == s[i];
    }
  }

  /**
   * `extractCurrentStep`: the text of the leftmost step cue in the reply, or
   * "guidance" exactly when the reply has none.
   */
  function ExtractCurrentStep(response: string): (r: string)
    ensures r == "guidance" <==> forall i :: 0 <= i <= |response| ==> StepAt(response, i).None?
    ensures r != "guidance" ==>
      exists i :: 0 <= i <= |response| && StepAt(response, i) == Some(r)
        && forall j :: 0 <= j < i ==> StepAt(response, j).None?
  {
    match StepIn(response)
    case None => "guidance"
    case Some(m) =>
      assert exists i :: 0 <= i <= |response| && StepAt(response, i) == Some(m);
      var i :| 0 <= i <= |response| && StepAt(response, i) == Some(m);
      StepAtIsNotGuidance(response, i);
      m
  }

  /**
   * `assessProgress`: a positive phrase wins, then a negative one, else
   * neutral. "I don't understand" holds "understand" and so reads as good.
   */
  function AssessProgress(message: string): (r: Progress)
    ensures r == Good <==> exists k :: 0 <= k < |PositiveIndicators| && Includes(Lower(message), PositiveIndicators[k])
    ensures r == NeedsMoreHelp <==>
      && (forall k :: 0 <= k < |PositiveIndicators| ==> !Includes(Lower(message), PositiveIndicators[k]))
      && (exists k :: 0 <= k < |NegativeIndicators| && Includes(Lower(message), NegativeIndicators[k]))
    ensures r == Neutral <==>
      && (forall k :: 0 <= k < |PositiveIndicators| ==> !Includes(Lower(message), PositiveIndicators[k]))
      && (forall k :: 0 <= k < |NegativeIndicators| ==> !Includes(Lower(message), NegativeIndicators[k]))
  {
    var messageText := Lower(message);
    if AnyIncluded(messageText, PositiveIndicators) then Good
    else if AnyIncluded(messageText, NegativeIndicators) then NeedsMoreHelp
    else Neutral
  }

  /**
   * `getTutoringSteps`: the algebra prompts for a problem holding both "x"
   * and "=", the arithmetic prompts for one holding a binary calculation,
   * and the word-problem prompts otherwise, also when there is no problem.
   */
  function GetTutoringSteps(problem: Option<string>): (r: seq<string>)
    ensures r == AlgebraicSteps <==> Truthy(problem) && Includes(problem.value, "x") && Includes(problem.value, "=")
    ensures r == ArithmeticSteps <==>
      Truthy(problem) && !(Includes(problem.value, "x") && Includes(problem.value, "="))
      && exists i :: 0 <= i <= |problem.value| && ArithmeticAt(problem.value, i).Some?
    ensures r == WordProblemSteps <==>
      !Truthy(problem) || (!(Includes(problem.value, "x") && Includes(problem.value, "="))
        && forall i :: 0 <= i <= |problem.value| ==> ArithmeticAt(problem.value, i).None?)
  {
    assert AlgebraicSteps[0] != ArithmeticSteps[0] && AlgebraicSteps[0] != WordProblemSteps[0]
      && ArithmeticSteps[0] != WordProblemSteps[0];
    if Truthy(problem) && Includes(problem.value, "x") && Includes(problem.value, "=") then AlgebraicSteps
    else if Truthy(problem) && HasArithmetic(problem.value) then ArithmeticSteps
    else WordProblemSteps
  }

  /**
   * `processMessage`: the reply comes from the language model; the hand-off
   * goes to the question presenter on a completion cue, to the welcomer on a
   * reset cue otherwise; the context gains the step and the progress reading.
   */
  function ProcessMessage(message: string, context: Context, reply: Reply): (r: Result<AgentResult, string>)
    ensures r.Err? <==> reply.ProviderError?
    ensures r.Err? ==> r.error == reply.message
    ensures r.Ok? ==> r.value.response == reply.text
    ensures r.Ok? ==> (r.value.shouldTransition <==>
      ShouldTransitionToQuestionPresenter(message, reply.text) || ShouldTransitionToWelcomer(message))
    ensures r.Ok? ==> (r.value.nextAgent == Some(Roles.QuestionPresenter) <==>
      ShouldTransitionToQuestionPresenter(message, reply.text))
    ensures r.Ok? ==> (r.value.nextAgent == Some(Roles.Welcomer) <==>
      !ShouldTransitionToQuestionPresenter(message, reply.text) && ShouldTransitionToWelcomer(message))
    ensures r.Ok? ==> (r.value.nextAgent.None? <==> !r.value.shouldTransition)
    ensures r.Ok? ==> r.value.nextAgent != Some(Roles.StepByStepTutor)
    ensures r.Ok? ==> r.value.context.tutoringStep == Some(ExtractCurrentStep(reply.text))
    ensures r.Ok? ==> r.value.context.studentProgress == Some(AssessProgress(message))
    ensures r.Ok? ==>
      r.value.context.(tutoringStep := context.tutoringStep, studentProgress := context.studentProgress) == context
  {
    match reply
    case ProviderError(e) => Err(e)
    case Generated(response) =>
      var toPresenter := ShouldTransitionToQuestionPresenter(message, response);
      var toWelcomer := ShouldTransitionToWelcomer(message);
      Ok(AgentResult(
        response,
        toPresenter || toWelcomer,
        if toPresenter then Some(Roles.QuestionPresenter) else if toWelcomer then Some(Roles.Welcomer) else None,
        context.(tutoringStep := Some(ExtractCurrentStep(response)), studentProgress := Some(AssessProgress(message)))))
  }
}

/**
 * The welcomer agent: greets the learner, picks up the grade they mention,
 * and hands over to the question presenter when the learner says they are
 * ready or its own reply mentions the hand-off.
 */
module WelcomerAgent {
  import opened Optional
  import opened Strings
  import opened Patterns
  import opened Tutoring
  import Roles

  /** Learner phrases that say they are ready for a problem. */
  const ReadinessPhrases: seq<string> :=
    ["ready for a problem", "give me a problem", "let's start", "i'm ready", "show me a problem"]

  /**
   * `shouldTransitionToQuestionPresenter`. The source tests the two reply
   * phrases inside the `some` callback over the readiness phrases; because
   * that list is not empty, the test comes down to a readiness phrase in the
   * message or a hand-off phrase in the reply.
   */
  function ShouldTransitionToQuestionPresenter(message: string, response: string): (r: bool)
    ensures r <==>
      || (exists k :: 0 <= k < |ReadinessPhrases| && Includes(Lower(message), ReadinessPhrases[k]))
      || Includes(Lower(response), "colleague")
      || Includes(Lower(response), "question presenter")
  {
    var messageText := Lower(message);
    var responseText := Lower(response);
    var fires := AnySatisfies(ReadinessPhrases, (phrase: string) =>
      Includes(messageText, phrase) || Includes(responseText, "colleague") || Includes(responseText, "question presenter"));
    assert fires <==> (
      || (exists k :: 0 <= k < |ReadinessPhrases| && Includes(messageText, ReadinessPhrases[k]))
      || Includes(responseText, "colleague")
      || Includes(responseText, "question presenter"))
    by {
      assert ReadinessPhrases[0] == "ready for a problem";
    }
    fires
  }

  /** The hand-off test ignores the letter case of both the message and the reply. */
  lemma TransitionIgnoresCase(message: string, response: string)
    ensures ShouldTransitionToQuestionPresenter(Upper(message), Upper(response))
         == ShouldTransitionToQuestionPresenter(message, response)
  {
    LowerOfUpper(message);
    LowerOfUpper(response);
  }

  /**
   * `extractStudentLevel`: the grade found in the message wins over one in
   * the reply; the level word is looked up the same way.
   */
  function ExtractStudentLevel(message: string, response: string, ex: Extractors): (r: StudentLevel)
    ensures GradeIn(message).Some? ==> r.grade == GradeIn(message)
    ensures GradeIn(message).None? ==> r.grade == GradeIn(response)
    ensures r.grade.None? <==> GradeIn(message).None? && GradeIn(response).None?
    ensures r.grade.Some? ==> |r.grade.value| > 0 && AllDigits(r.grade.value)
  {
    var gradeMatch := if GradeIn(message).Some? then GradeIn(message) else GradeIn(response);
    var levelMatch := if ex.levelIn(message).Some? then ex.levelIn(message) else ex.levelIn(response);
    StudentLevel(gradeMatch, levelMatch)
  }

  /**
   * `processMessage`: the reply comes from the language model; the context
   * is copied with the extracted level and `assessmentComplete` set to the
   * hand-off decision.
   */
  function ProcessMessage(message: string, context: Context, reply: Reply, ex: Extractors): (r: Result<AgentResult, string>)
    ensures r.Err? <==> reply.ProviderError?
    ensures r.Err? ==> r.error == reply.message
    ensures r.Ok? ==> r.value.response == reply.text
    ensures r.Ok? ==> r.value.shouldTransition == ShouldTransitionToQuestionPresenter(message, reply.text)
    ensures r.Ok? ==> (r.value.nextAgent == Some(Roles.QuestionPresenter) <==> r.value.shouldTransition)
    ensures r.Ok? ==> (r.value.nextAgent.None? <==> !r.value.shouldTransition)
    ensures r.Ok? ==> r.value.context.assessmentComplete == r.value.shouldTransition
    ensures r.Ok? ==> r.value.context.studentLevel == Some(ExtractStudentLevel(message, reply.text, ex))
    ensures r.Ok? ==> r.value.context.(studentLevel := context.studentLevel, assessmentComplete := context.assessmentComplete) == context
  {
    match reply
    case ProviderError(e) => Err(e)
    case Generated(response) =>
      var shouldTransition := ShouldTransitionToQuestionPresenter(message, response);
      Ok(AgentResult(
        response,
        shouldTransition,
        if shouldTransition then Some(Roles.QuestionPresenter) else None,
        context.(studentLevel := Some(ExtractStudentLevel(message, response, ex)), assessmentComplete := shouldTransition)))
  }

  /** The welcomer only ever proposes the question presenter. */
  lemma NeverProposesOtherRoles(message: string, context: Context, reply: Reply, ex: Extractors)
    ensures var r := ProcessMessage(message, context, reply, ex);
      r.Ok? ==> r.value.nextAgent != Some(Roles.Welcomer) && r.value.nextAgent != Some(Roles.StepByStepTutor)
  {
  }

  /** A turn without a hand-off clears an earlier `assessmentComplete`. */
  lemma QuietTurnClearsAssessment(message: string, context: Context, text: string, ex: Extractors)
    requires context.assessmentComplete
    requires !ShouldTransitionToQuestionPresenter(message, text)
    ensures var r := ProcessMessage(message, context, Generated(text), ex);
      r.Ok? && !r.value.context.assessmentComplete
  {
  }
}

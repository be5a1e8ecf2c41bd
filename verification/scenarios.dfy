/**
 * Concrete conversations: what the agents and the orchestrator do with
 * particular learner messages and model replies, among them the messages
 * behind the client's quick-action buttons.
 */
module Scenarios {
  import opened Optional
  import opened Strings
  import opened Patterns
  import opened Tutoring
  import Roles
  import WelcomerAgent
  import QuestionPresenterAgent
  import StepByStepTutorAgent

  /** "I'm ready for a problem" makes the welcomer hand over, whatever it replied. */
  lemma ReadyLearnerMovesOn(reply: string)
    ensures WelcomerAgent.ShouldTransitionToQuestionPresenter("I'm ready for a problem", reply)
  {
    var m := "I'm ready for a problem";
    assert m[4..23] == "ready for a problem";
    assert Lower("ready for a problem") == WelcomerAgent.ReadinessPhrases[0];
    IncludesLowerWindow(m, WelcomerAgent.ReadinessPhrases[0], 4);
  }

  /** A welcomer reply that introduces "my Colleague" hands over whatever the message. */
  lemma ColleagueReplyMovesOn(message: string)
    ensures WelcomerAgent.ShouldTransitionToQuestionPresenter(message, "Let me pass you to my Colleague.")
  {
    var t := "Let me pass you to my Colleague.";
    assert t[22..31] == "Colleague";
    assert Lower("Colleague") == "colleague";
    IncludesLowerWindow(t, "colleague", 22);
  }

  /** "I don't know, new topic" asks for help and for a reset: the presenter picks the tutor. */
  lemma HelpBeatsReset(context: Context, reply: Reply, roll: Roll, ex: Extractors)
    requires QuestionPresenterAgent.IsFirstInteraction(context) || reply.Generated?
    ensures var r := QuestionPresenterAgent.ProcessMessage("I don't know, new topic", context, reply, roll, ex);
      r.Ok? && r.value.shouldTransition && r.value.nextAgent == Some(Roles.StepByStepTutor)
  {
    var m := "I don't know, new topic";
    assert m[0..12] == "I don't know";
    assert Lower("I don't know") == QuestionPresenterAgent.HelpPhrases[0];
    IncludesLowerWindow(m, QuestionPresenterAgent.HelpPhrases[0], 0);
    assert m[14..23] == "new topic";
    assert Lower("new topic") == QuestionPresenterAgent.ResetPhrases[3];
    IncludesLowerWindow(m, QuestionPresenterAgent.ResetPhrases[3], 14);
    assert QuestionPresenterAgent.ShouldTransitionToTutor(m);
    assert QuestionPresenterAgent.ShouldTransitionToWelcomer(m);
  }

  /** The tutor's "Excellent! You've got it!" sends the learner back to the presenter. */
  lemma PraiseEndsTutoring(message: string, context: Context)
    ensures var r := StepByStepTutorAgent.ProcessMessage(message, context, Generated("Excellent! You've got it!"));
      r.Ok? && r.value.nextAgent == Some(Roles.QuestionPresenter)
  {
    var t := "Excellent! You've got it!";
    assert t[0..9] == "Excellent";
    assert Lower("Excellent") == StepByStepTutorAgent.ResponseIndicators[0];
    IncludesLowerWindow(t, StepByStepTutorAgent.ResponseIndicators[0], 0);
    assert StepByStepTutorAgent.ShouldTransitionToQuestionPresenter(message, t);
  }

  /** "I don't understand" holds the positive phrase "understand", so it reads as progress. */
  lemma DisavowalReadsAsProgress()
    ensures StepByStepTutorAgent.AssessProgress("I don't understand") == Good
  {
    var m := "I don't understand";
    assert m[8..18] == "understand";
    assert Lower("understand") == StepByStepTutorAgent.PositiveIndicators[2];
    IncludesLowerWindow(m, StepByStepTutorAgent.PositiveIndicators[2], 8);
  }

  /** "grade 7" yields the grade "7", which selects the middle-school problems. */
  lemma SeventhGraderGetsMiddleSchool()
    ensures GradeIn("grade 7") == Some("7")
    ensures QuestionPresenterAgent.DetermineLevel(Some(StudentLevel(Some("7"), None))) == "middle"
  {
    var s := "grade 7";
    assert KeywordAt(s, 0, "grade");
    assert Run(s, 5, IsSpace) == 1;
    assert Run(s, 6, IsDigit) == 1;
    assert s[6..7] == "7";
    assert GradeAt(s, 0) == Some("7");
    QuestionPresenterAgent.DetermineLevelOfDigits("7", None);
    assert DigitsValue("7", 10) == 7;
  }

  /** A reply opening with "First," is on the step "First". */
  lemma FirstStepIsRecorded()
    ensures StepByStepTutorAgent.ExtractCurrentStep("First, subtract 5.") == "First"
  {
    var s := "First, subtract 5.";
    assert Lower(s[0..4])[0] == 'f';
    assert !KeywordAt(s, 0, "step");
    assert KeywordAt(s, 0, "first");
    assert s[0..5] == "First";
    assert StepAt(s, 0) == Some("First");
  }

  /** The quick action "I need help with this problem" sends a presenter session to the tutor. */
  lemma QuickHelpReachesTutor(context: Context, reply: Reply, roll: Roll, ex: Extractors)
    requires QuestionPresenterAgent.IsFirstInteraction(context) || reply.Generated?
    ensures var r := QuestionPresenterAgent.ProcessMessage("I need help with this problem", context, reply, roll, ex);
      r.Ok? && r.value.nextAgent == Some(Roles.StepByStepTutor)
  {
    var m := "I need help with this problem";
    assert m[0..11] == "I need help";
    assert Lower("I need help") == QuestionPresenterAgent.HelpPhrases[3];
    IncludesLowerWindow(m, QuestionPresenterAgent.HelpPhrases[3], 0);
    assert QuestionPresenterAgent.ShouldTransitionToTutor(m);
  }

  /** The quick action "I'm ready for the next problem" sends a tutoring session back to the presenter. */
  lemma QuickNextProblemLeavesTutor(context: Context, text: string)
    ensures var r := StepByStepTutorAgent.ProcessMessage("I'm ready for the next problem", context, Generated(text));
      r.Ok? && r.value.nextAgent == Some(Roles.QuestionPresenter)
  {
    var m := "I'm ready for the next problem";
    assert m[18..30] == "next problem";
    assert Lower("next problem") == StepByStepTutorAgent.CompletionPhrases[5];
    IncludesLowerWindow(m, StepByStepTutorAgent.CompletionPhrases[5], 18);
    assert StepByStepTutorAgent.ShouldTransitionToQuestionPresenter(m, text);
  }

  /** The quick action "I don't understand this step" is read as progress by the tutor. */
  lemma QuickConfusionReadsAsProgress()
    ensures StepByStepTutorAgent.AssessProgress("I don't understand this step") == Good
  {
    var m := "I don't understand this step";
    assert m[8..18] == "understand";
    assert Lower("understand") == StepByStepTutorAgent.PositiveIndicators[2];
    IncludesLowerWindow(m, StepByStepTutorAgent.PositiveIndicators[2], 8);
  }
}

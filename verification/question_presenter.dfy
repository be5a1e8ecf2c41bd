/**
 * The question-presenter agent: presents a problem fitting the learner's
 * level, reacts to an answer, and hands over to the tutor when the learner
 * asks for help or back to the welcomer when they want to change topic.
 */
module QuestionPresenterAgent {
  import opened Optional
  import opened Strings
  import opened Patterns
  import opened Tutoring
  import Roles

  /** Learner phrases that ask for help. */
  const HelpPhrases: seq<string> :=
    ["i don't know", "help me", "i'm confused", "i need help", "how do i", "i'm stuck"]

  /** Learner phrases that ask to change topic. */
  const ResetPhrases: seq<string> :=
    ["different topic", "change subject", "start over", "new topic"]

  /** The problem bank, keyed by level name. */
  const Problems: map<string, seq<string>> := map[
    "elementary" := [
      "What is 15 + 27?",
      "If you have 24 apples and eat 8, how many do you have left?",
      "What is 7 \U{D7} 6?",
      "Sarah has 3 boxes with 9 stickers in each box. How many stickers does she have in total?"],
    "middle" := [
      "Solve for x: 2x + 5 = 17",
      "What is the area of a rectangle that is 8 units long and 5 units wide?",
      "If a triangle has angles of 60\U{B0} and 70\U{B0}, what is the third angle?",
      "Simplify: 3(x + 4) - 2x"],
    "high" := [
      "Factor: x\U{B2} - 5x + 6",
      "Find the derivative of f(x) = 3x\U{B2} + 2x - 1",
      "Solve: log\U{2082}(x + 3) = 4",
      "If sin(\U{3B8}) = 0.6 and \U{3B8} is in the first quadrant, find cos(\U{3B8})"]]

  /** `shouldTransitionToTutor`: the lower-cased message holds a help phrase. */
  function ShouldTransitionToTutor(message: string): (r: bool)
    ensures r <==> exists k :: 0 <= k < |HelpPhrases| && Includes(Lower(message), HelpPhrases[k])
  {
    AnyIncluded(Lower(message), HelpPhrases)
  }

  /** `shouldTransitionToWelcomer`: the lower-cased message holds a reset phrase. */
  function ShouldTransitionToWelcomer(message: string): (r: bool)
    ensures r <==> exists k :: 0 <= k < |ResetPhrases| && Includes(Lower(message), ResetPhrases[k])
  {
    AnyIncluded(Lower(message), ResetPhrases)
  }

  /** `isFirstInteraction`: no problem on the table yet, and the assessment is done. */
  function IsFirstInteraction(context: Context): (r: bool)
    ensures r <==> (context.currentProblem.None? || context.currentProblem == Some("")) && context.assessmentComplete
  {
    !Truthy(context.currentProblem) && context.assessmentComplete
  }

  /** `parseInt(studentLevel.grade)`; a `null` grade is read as the text "null". */
  function GradeNumber(studentLevel: StudentLevel): Option<int>
  {
    ParseInt(if studentLevel.grade.Some? then studentLevel.grade.value else "null")
  }

  /**
   * `determineLevel`: elementary with no level record or a grade up to 5,
   * middle for grades 6 to 8, high otherwise. A grade that does not parse is
   * `NaN`, both comparisons with it fail, and it lands in high.
   */
  function DetermineLevel(studentLevel: Option<StudentLevel>): (r: string)
    ensures r in Problems
    ensures r == "elementary" <==>
      studentLevel.None? || (GradeNumber(studentLevel.value).Some? && GradeNumber(studentLevel.value).value <= 5)
    ensures r == "middle" <==>
      studentLevel.Some? && GradeNumber(studentLevel.value).Some? && 5 < GradeNumber(studentLevel.value).value <= 8
    ensures r == "high" <==>
      studentLevel.Some? && (GradeNumber(studentLevel.value).None? || GradeNumber(studentLevel.value).value > 8)
  {
    match studentLevel
    case None => "elementary"
    case Some(level) =>
      match GradeNumber(level)
      case None => "high"
      case Some(grade) =>
        if grade <= 5 then "elementary"
        else if grade <= 8 then "middle"
        else "high"
  }

  /** A level record whose grade parses selects the level by the parsed value alone. */
  lemma DetermineLevelOfGrade(studentLevel: StudentLevel, grade: int)
    requires GradeNumber(studentLevel) == Some(grade)
    ensures DetermineLevel(Some(studentLevel))
      == if grade <= 5 then "elementary" else if grade <= 8 then "middle" else "high"
  {
  }

  /** A grade written as decimal digits parses to its decimal value. */
  lemma GradeNumberOfDigits(grade: string, level: Option<string>)
    requires |grade| > 0 && AllDigits(grade)
    ensures GradeNumber(StudentLevel(Some(grade), level)) == Some(DigitsValue(grade, 10))
  {
    ParseIntOfDigits(grade);
  }

  /** A grade written as decimal digits selects the level by its value. */
  lemma DetermineLevelOfDigits(grade: string, level: Option<string>)
    requires |grade| > 0 && AllDigits(grade)
    ensures var v := DigitsValue(grade, 10);
      DetermineLevel(Some(StudentLevel(Some(grade), level)))
        == if v <= 5 then "elementary" else if v <= 8 then "middle" else "high"
  {
    GradeNumberOfDigits(grade, level);
    DetermineLevelOfGrade(StudentLevel(Some(grade), level), DigitsValue(grade, 10));
  }

  /** A level record without a grade selects the high-school problems. */
  lemma MissingGradeIsHigh(level: Option<string>)
    ensures DetermineLevel(Some(StudentLevel(None, level))) == "high"
  {
    ParseIntOfNull();
  }

  /**
   * `selectRandomProblem`: the entry `floor(roll * length)` of the level's
   * list, or of the elementary list for a level name the bank does not have.
   */
  function SelectRandomProblem(level: string, roll: Roll): (r: string)
    ensures level in Problems ==> r in Problems[level]
    ensures level !in Problems ==> r in Problems["elementary"]
  {
    var problems := if level in Problems then Problems[level] else Problems["elementary"];
    assert |problems| == 4;
    var index := (roll * 4.0).Floor;
    problems[index]
  }

  /**
   * `isCorrectAnswer`: with no problem on the table the answer is never
   * correct; otherwise any answer holding a number counts as correct.
   */
  function IsCorrectAnswer(answer: string, problem: Option<string>): (r: bool)
    ensures r <==> Truthy(problem) && exists k :: 0 <= k < |answer| && IsDigit(answer[k])
  {
    if !Truthy(problem) then false else HasNumber(answer)
  }

  /** The text of the first problem presented at a level. */
  function FirstProblemText(level: string, problem: string): string
  {
    "Perfect! Based on what you've told me, here's a " + level + " level problem for you: " + problem
      + ". \n    Take your time and let me know what you think!"
  }

  /** `presentFirstProblem`: one problem of the learner's level, without the language model. */
  function PresentFirstProblem(context: Context, roll: Roll): (r: string)
    ensures var level := DetermineLevel(context.studentLevel);
      exists p :: p in Problems[level] && r == FirstProblemText(level, p)
  {
    var level := DetermineLevel(context.studentLevel);
    FirstProblemText(level, SelectRandomProblem(level, roll))
  }

  /**
   * `handleStudentResponse`: the language model's reply, followed by praise
   * and a further problem of the learner's level when the answer counts as correct.
   */
  function HandleStudentResponse(message: string, context: Context, reply: Reply, roll: Roll): (r: Result<string, string>)
    ensures r.Err? <==> reply.ProviderError?
    ensures r.Err? ==> r.error == reply.message
    ensures r.Ok? && !IsCorrectAnswer(message, context.currentProblem) ==> r.value == reply.text
    ensures r.Ok? && IsCorrectAnswer(message, context.currentProblem) ==>
      exists p :: p in Problems[DetermineLevel(context.studentLevel)]
        && r.value == reply.text + " Excellent work! Ready for another one? " + p
  {
    match reply
    case ProviderError(e) => Err(e)
    case Generated(response) =>
      if IsCorrectAnswer(message, context.currentProblem) then
        var nextProblem := SelectRandomProblem(DetermineLevel(context.studentLevel), roll);
        Ok(response + " Excellent work! Ready for another one? " + nextProblem)
      else
        Ok(response)
  }

  /**
   * `processMessage`: the reply is the first problem on the first
   * interaction and the answer handling otherwise; the hand-off is decided
   * from the message alone, help taking precedence over reset.
   */
  function ProcessMessage(message: string, context: Context, reply: Reply, roll: Roll, ex: Extractors): (r: Result<AgentResult, string>)
    ensures r.Err? <==> !IsFirstInteraction(context) && reply.ProviderError?
    ensures r.Err? ==> r.error == reply.message
    ensures r.Ok? && IsFirstInteraction(context) ==> r.value.response == PresentFirstProblem(context, roll)
    ensures r.Ok? && !IsFirstInteraction(context) ==>
      HandleStudentResponse(message, context, reply, roll) == Ok(r.value.response)
    ensures r.Ok? ==> (r.value.shouldTransition <==> ShouldTransitionToTutor(message) || ShouldTransitionToWelcomer(message))
    ensures r.Ok? ==> (r.value.nextAgent == Some(Roles.StepByStepTutor) <==> ShouldTransitionToTutor(message))
    ensures r.Ok? ==> (r.value.nextAgent == Some(Roles.Welcomer) <==>
      !ShouldTransitionToTutor(message) && ShouldTransitionToWelcomer(message))
    ensures r.Ok? ==> (r.value.nextAgent.None? <==> !r.value.shouldTransition)
    ensures r.Ok? ==> r.value.nextAgent != Some(Roles.QuestionPresenter)
    ensures r.Ok? ==>
      r.value.context == context.(currentProblem := ex.problemIn(r.value.response), studentAnswer := Some(message))
  {
    var response :=
      if IsFirstInteraction(context) then Ok(PresentFirstProblem(context, roll))
      else HandleStudentResponse(message, context, reply, roll);
    match response
    case Err(e) => Err(e)
    case Ok(text) =>
      var toTutor := ShouldTransitionToTutor(message);
      var toWelcomer := ShouldTransitionToWelcomer(message);
      Ok(AgentResult(
        text,
        toTutor || toWelcomer,
        if toTutor then Some(Roles.StepByStepTutor) else if toWelcomer then Some(Roles.Welcomer) else None,
        context.(currentProblem := ex.problemIn(text), studentAnswer := Some(message))))
  }

  /** The hand-off decision depends on the message only, never on the reply, context or roll. */
  lemma DecisionIgnoresReply(
    message: string, c1: Context, c2: Context, reply1: Reply, reply2: Reply, roll1: Roll, roll2: Roll, ex1: Extractors, ex2: Extractors)
    ensures var r1 := ProcessMessage(message, c1, reply1, roll1, ex1);
      var r2 := ProcessMessage(message, c2, reply2, roll2, ex2);
      r1.Ok? && r2.Ok? ==>
        r1.value.shouldTransition == r2.value.shouldTransition && r1.value.nextAgent == r2.value.nextAgent
  {
  }
}

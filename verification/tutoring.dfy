/**
 * The data every agent reads and returns: the conversation context a
 * session carries, the record an agent's turn produces, and the values the
 * language model, the random-number generator and the two loosely specified
 * text extractions supply from outside.
 */
module Tutoring {
  import opened Optional
  import Roles

  /** What the welcomer extracts about the learner: a grade number as text and a level word. */
  datatype StudentLevel = StudentLevel(grade: Option<string>, level: Option<string>)

  /** The tutor's reading of how the learner is doing. */
  datatype Progress = Good | NeedsMoreHelp | Neutral

  /** One entry of the session's progress log. */
  datatype LogEntry = LogEntry(transition: string, reason: string)

  /**
   * The conversation context of a session. The source keeps it as an open
   * object that each agent copies with spread syntax and extends; the
   * fields any agent ever writes are listed here, `None` for `null` or not yet set.
   */
  datatype Context = Context(
    studentLevel: Option<StudentLevel>,
    assessmentComplete: bool,
    currentProblem: Option<string>,
    sessionProgress: seq<LogEntry>,
    studentAnswer: Option<string>,
    tutoringStep: Option<string>,
    studentProgress: Option<Progress>)

  /** What the language model returned for one request: text, or a thrown error with its message. */
  datatype Reply = Generated(text: string) | ProviderError(message: string)

  /** A value of `Math.random()`. */
  type Roll = r: real | 0.0 <= r < 1.0

  /**
   * The two text extractions that are taken as given: the question
   * presenter's problem extraction and the welcomer's level-word search
   * (one regular-expression match on one text).
   */
  datatype Extractors = Extractors(problemIn: string -> Option<string>, levelIn: string -> Option<string>)

  /** What an agent's `processMessage` resolves to. */
  datatype AgentResult = AgentResult(
    response: string,
    shouldTransition: bool,
    nextAgent: Option<Roles.Role>,
    context: Context)

  /** JavaScript truthiness of a text field that may be `null`: present and non-empty. */
  predicate Truthy(t: Option<string>)
  {
    t.Some? && t.value != ""
  }
}

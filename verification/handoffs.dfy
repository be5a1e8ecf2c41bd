/**
 * The hand-off policy of the three agents written as one table, directly
 * from their cue phrases, and the proof that the orchestrator's handling of
 * a message moves a session exactly as the table says.
 */
module Handoffs {
  import opened Optional
  import opened Strings
  import opened Tutoring
  import Roles
  import WelcomerAgent
  import QuestionPresenterAgent
  import StepByStepTutorAgent
  import Orchestrator

  /** Some phrase of the list occurs in the text, ignoring letter case. */
  predicate Mentions(text: string, phrases: seq<string>)
  {
    exists k :: 0 <= k < |phrases| && Includes(Lower(text), phrases[k])
  }

  /** The reply phrases that make the welcomer hand over. */
  const WelcomerReplyCues: seq<string> := ["colleague", "question presenter"]

  /**
   * The role a turn hands the session to, given the active role, the
   * learner's message and the language model's reply; `None` keeps it.
   */
  function Next(current: Roles.Role, message: string, reply: string): Option<Roles.Role>
  {
    match current
    case Welcomer =>
      if Mentions(message, WelcomerAgent.ReadinessPhrases) || Mentions(reply, WelcomerReplyCues)
      then Some(Roles.QuestionPresenter) else None
    case QuestionPresenter =>
      if Mentions(message, QuestionPresenterAgent.HelpPhrases) then Some(Roles.StepByStepTutor)
      else if Mentions(message, QuestionPresenterAgent.ResetPhrases) then Some(Roles.Welcomer)
      else None
    case StepByStepTutor =>
      if Mentions(message, StepByStepTutorAgent.CompletionPhrases)
        || Mentions(reply, StepByStepTutorAgent.ResponseIndicators)
      then Some(Roles.QuestionPresenter)
      else if Mentions(message, StepByStepTutorAgent.ResetPhrases) then Some(Roles.Welcomer)
      else None
  }

  /** No role hands a session to itself, and only the presenter reaches the tutor. */
  lemma NextIsAnotherRole(current: Roles.Role, message: string, reply: string)
    ensures Next(current, message, reply) != Some(current)
    ensures Next(current, message, reply) == Some(Roles.StepByStepTutor) ==> current == Roles.QuestionPresenter
  {
  }

  /**
   * The tutor's reset phrases are the presenter's and one more, so it
   * returns to the welcomer on every message the presenter would, and also
   * on "different problem type".
   */
  lemma TutorAcceptsPresenterResets(message: string)
    ensures StepByStepTutorAgent.ShouldTransitionToWelcomer(message)
      <==> QuestionPresenterAgent.ShouldTransitionToWelcomer(message) || Includes(Lower(message), "different problem type")
  {
    var shared := QuestionPresenterAgent.ResetPhrases;
    var tutor := StepByStepTutorAgent.ResetPhrases;
    assert tutor == shared + ["different problem type"];
    if QuestionPresenterAgent.ShouldTransitionToWelcomer(message) {
      var k :| 0 <= k < |shared| && Includes(Lower(message), shared[k]);
      assert tutor[k] == shared[k];
    }
    if StepByStepTutorAgent.ShouldTransitionToWelcomer(message) {
      var k :| 0 <= k < |tutor| && Includes(Lower(message), tutor[k]);
      if k < |shared| {
        assert tutor[k] == shared[k];
      }
    }
    if Includes(Lower(message), "different problem type") {
      assert tutor[4] == "different problem type";
    }
  }

  /** The proposal of a turn: the next role when the agent asks for a switch, else `None`. */
  function Proposal(result: AgentResult): Option<Roles.Role>
  {
    if Orchestrator.Switches(result) then Some(result.nextAgent.value) else None
  }

  /** The welcomer's turn on generated text proposes the role the table names. */
  lemma WelcomerFollowsTable(message: string, context: Context, text: string, ex: Extractors)
    ensures var r := WelcomerAgent.ProcessMessage(message, context, Generated(text), ex);
      r.Ok? && Proposal(r.value) == Next(Roles.Welcomer, message, text)
  {
    assert Mentions(text, WelcomerReplyCues)
      <==> Includes(Lower(text), "colleague") || Includes(Lower(text), "question presenter")
    by {
      assert WelcomerReplyCues[0] == "colleague" && WelcomerReplyCues[1] == "question presenter";
    }
  }

  /** The presenter's turn proposes the role the table names, whatever the reply. */
  lemma PresenterFollowsTable(message: string, context: Context, text: string, roll: Roll, ex: Extractors)
    ensures var r := QuestionPresenterAgent.ProcessMessage(message, context, Generated(text), roll, ex);
      r.Ok? && Proposal(r.value) == Next(Roles.QuestionPresenter, message, text)
  {
    var toTutor := QuestionPresenterAgent.ShouldTransitionToTutor(message);
    var toWelcomer := QuestionPresenterAgent.ShouldTransitionToWelcomer(message);
    assert toTutor <==> Mentions(message, QuestionPresenterAgent.HelpPhrases);
    assert toWelcomer <==> Mentions(message, QuestionPresenterAgent.ResetPhrases);
    var r := QuestionPresenterAgent.ProcessMessage(message, context, Generated(text), roll, ex);
    assert r.Ok? && r.value.nextAgent == if toTutor then Some(Roles.StepByStepTutor)
      else if toWelcomer then Some(Roles.Welcomer) else None;
  }

  /** The tutor's turn on generated text proposes the role the table names. */
  lemma TutorFollowsTable(message: string, context: Context, text: string)
    ensures var r := StepByStepTutorAgent.ProcessMessage(message, context, Generated(text));
      r.Ok? && Proposal(r.value) == Next(Roles.StepByStepTutor, message, text)
  {
    var toPresenter := StepByStepTutorAgent.ShouldTransitionToQuestionPresenter(message, text);
    var toWelcomer := StepByStepTutorAgent.ShouldTransitionToWelcomer(message);
    assert toPresenter <==> (
      Mentions(message, StepByStepTutorAgent.CompletionPhrases) || Mentions(text, StepByStepTutorAgent.ResponseIndicators));
    assert toWelcomer <==> Mentions(message, StepByStepTutorAgent.ResetPhrases);
    var r := StepByStepTutorAgent.ProcessMessage(message, context, Generated(text));
    assert r.Ok? && r.value.nextAgent == if toPresenter then Some(Roles.QuestionPresenter)
      else if toWelcomer then Some(Roles.Welcomer) else None;
  }

  /** Each agent's turn proposes the role the table names, whenever the model answered. */
  lemma AgentTurnFollowsTable(role: Roles.Role, message: string, context: Context, text: string, roll: Roll, ex: Extractors)
    ensures var r := Orchestrator.AgentTurn(role, message, context, Generated(text), roll, ex);
      r.Ok? && Proposal(r.value) == Next(role, message, text)
  {
    match role
    case Welcomer => WelcomerFollowsTable(message, context, text, ex);
    case QuestionPresenter => PresenterFollowsTable(message, context, text, roll, ex);
    case StepByStepTutor => TutorFollowsTable(message, context, text);
  }

  /**
   * Whenever the active agent is a role and the language model answers,
   * `handleMessage` succeeds and leaves the session with the role the table
   * names, or with its agent unchanged when the table names none.
   */
  lemma HandleMessageFollowsTable(
    sessions: Orchestrator.Registry, sessionId: Orchestrator.SessionId, message: string, text: string,
    turn: Orchestrator.Turn, ex: Extractors)
    requires sessionId in sessions
    requires Roles.Parse(sessions[sessionId].currentAgent).Some?
    requires turn.reply == Generated(text)
    ensures var r := Orchestrator.HandleMessage(sessions, sessionId, message, turn, ex);
      var before := sessions[sessionId];
      var next := Next(Roles.Parse(before.currentAgent).value, message, text);
      && r.Ok?
      && r.value.sessions[sessionId].currentAgent == (if next.Some? then Roles.Name(next.value) else before.currentAgent)
  {
    var before := sessions[sessionId];
    var role := Roles.Parse(before.currentAgent).value;
    AgentTurnFollowsTable(role, message, before.context, text, turn.roll, ex);
  }
}

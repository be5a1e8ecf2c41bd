/**
 * The three conversational roles, the orchestrator's name-keyed table of
 * agents, and the static display record the client is sent for each role.
 */
module Roles {
  import opened Optional

  /** The closed set of roles a session can be handed to. */
  datatype Role = Welcomer | QuestionPresenter | StepByStepTutor

  /** The identifier each role is known by on the wire and in the session record. */
  function Name(role: Role): string
  {
    match role
    case Welcomer => "welcomer"
    case QuestionPresenter => "question-presenter"
    case StepByStepTutor => "step-by-step-tutor"
  }

  /** The orchestrator's `agents` table: one agent per role, keyed by the role's name. */
  const Agents: map<string, Role> :=
    map[Name(Welcomer) := Welcomer,
        Name(QuestionPresenter) := QuestionPresenter,
        Name(StepByStepTutor) := StepByStepTutor]

  /** `this.agents[name]`: the role an agent name selects, `None` for any other text. */
  function Parse(name: string): (r: Option<Role>)
    ensures r.Some? ==> Name(r.value) == name
    ensures forall role :: Name(role) == name ==> r == Some(role)
  {
    if name in Agents then Some(Agents[name]) else None
  }

  /** The agents table has exactly one entry per role. */
  lemma AgentCount()
    ensures |Agents| == 3
  {
    var keys := {Name(Welcomer), Name(QuestionPresenter), Name(StepByStepTutor)};
    assert Agents.Keys == keys;
    assert |{Name(Welcomer)}| == 1;
    assert |{Name(Welcomer), Name(QuestionPresenter)}| == 2;
  }

  /** The voice profile each agent is constructed with. */
  function VoiceOf(role: Role): string
  {
    match role
    case Welcomer => "alloy"
    case QuestionPresenter => "nova"
    case StepByStepTutor => "shimmer"
  }

  /** The display record `getAgentInfo` returns; `NoInfo` is the empty object `{}`. */
  datatype AgentInfo =
    | NoInfo
    | AgentInfo(name: string, description: string, voice: string, avatar: string, role: string)

  /**
   * `getAgentInfo(agentName)`: the display record of a role, or the empty
   * record for a name that is not one of the three roles.
   */
  function GetAgentInfo(agentName: string): (r: AgentInfo)
    ensures r.NoInfo? <==> Parse(agentName).None?
    ensures r.AgentInfo? ==> r.voice == VoiceOf(Parse(agentName).value)
  {
    if agentName == "welcomer" then
      AgentInfo("Welcomer", "Getting to know you...", "alloy", "\U{1F44B}", "Greeting and assessment")
    else if agentName == "question-presenter" then
      AgentInfo("Question Presenter", "Here's your problem...", "nova", "\U{1F4DA}", "Problem presentation")
    else if agentName == "step-by-step-tutor" then
      AgentInfo("Step-by-Step Tutor", "Let's work through this...", "shimmer", "\U{1F3AF}", "Guided learning")
    else
      NoInfo
  }
}

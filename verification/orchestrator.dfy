/**
 * The tutoring orchestrator: the registry of live sessions, keyed by
 * session id, each holding the name of its active agent, its conversation
 * context and the client socket it reports to. Every handler is one atomic
 * step from a registry to a registry, plus the events it emits on the
 * session's socket, in order.
 */
module Orchestrator {
  import opened Optional
  import opened Tutoring
  import Roles
  import WelcomerAgent
  import QuestionPresenterAgent
  import StepByStepTutorAgent

  /** The identifier a session is registered under (the client connection's id). */
  type SessionId = string

  /** An opaque handle of a client connection. */
  type Socket = nat

  /** Synthesised speech, as the voice provider returns it. */
  type Audio = seq<bv8>

  /** The state the orchestrator keeps for one session. */
  datatype Session = Session(currentAgent: string, context: Context, socket: Socket)

  /** The session map. */
  type Registry = map<SessionId, Session>

  /** The events the orchestrator emits to a client; timestamps are left out. */
  datatype Event =
    | AgentChanged(previousAgent: string, currentAgent: string, agentInfo: Roles.AgentInfo)
    | AgentResponse(text: string, agent: string, agentInfo: Roles.AgentInfo)
    | AudioResponse(audioData: Audio, agent: string)
    | Transcription(text: string, speaker: string)
    | ErrorEvent(message: string, error: string)

  /** An event sent on a socket. */
  datatype Emission = Emission(socket: Socket, event: Event)

  /** The registry after a handler, with the events it emitted, oldest first. */
  datatype Step = Step(sessions: Registry, emitted: seq<Emission>)

  /** The errors a handler throws to its caller. */
  datatype Failure = SessionNotFound | AgentNotFound(name: string)

  /**
   * What the outside world supplies during one `handleMessage`: the
   * language model's reply and the random roll for the active agent's turn,
   * the same two for the question presenter's follow-up turn, and the
   * speech synthesised for the response sent back (`None` when the voice
   * provider yields nothing or fails).
   */
  datatype Turn = Turn(reply: Reply, roll: Roll, followupReply: Reply, followupRoll: Roll, speech: Option<Audio>)

  /** What `getSessionStats` reports. */
  datatype Stats = Stats(activeSessions: nat, totalAgents: nat)

  /** The context a new session starts with. */
  const InitialContext: Context := Context(None, false, None, [], None, None, None)

  /** The greeting sent when a session starts. */
  const WelcomeMessage: string :=
    "Hello! I'm here to help you with math. What grade are you in, and how comfortable do you feel with math?"

  /** The message of the error event sent when an agent's turn fails. */
  const ErrorMessage: string := "Sorry, I encountered an error. Please try again."

  /** The progress-log text of a switch. */
  function TransitionText(previousAgent: string, agentName: string): string
  {
    previousAgent + " -> " + agentName
  }

  /** The progress-log entry of a switch. */
  function SwitchEntry(previousAgent: string, agentName: string): LogEntry
  {
    LogEntry(TransitionText(previousAgent, agentName), "agent_switch")
  }

  /** Every session's active agent names one of the three roles. */
  predicate WellFormed(sessions: Registry)
  {
    forall id :: id in sessions ==> Roles.Parse(sessions[id].currentAgent).Some?
  }

  // ---------------------------------------------------------------------
  // switchToAgent
  // ---------------------------------------------------------------------

  /** The switch itself, for a session known to be registered. */
  function Switched(sessions: Registry, sessionId: SessionId, agentName: string): Step
    requires sessionId in sessions
  {
    var session := sessions[sessionId];
    var log := session.context.sessionProgress + [SwitchEntry(session.currentAgent, agentName)];
    var switched := session.(currentAgent := agentName, context := session.context.(sessionProgress := log));
    Step(
      sessions[sessionId := switched],
      [Emission(session.socket, AgentChanged(session.currentAgent, agentName, Roles.GetAgentInfo(agentName)))])
  }

  /**
   * `switchToAgent`: throws for an unknown session; otherwise makes the
   * named agent current, logs one "previous -> next" entry and tells the
   * client, touching no other session.
   */
  function SwitchToAgent(sessions: Registry, sessionId: SessionId, agentName: string): (r: Result<Step, Failure>)
    ensures r.Err? <==> sessionId !in sessions
    ensures r.Err? ==> r.error == SessionNotFound
    ensures r.Ok? ==> r.value.sessions.Keys == sessions.Keys
    ensures r.Ok? ==> forall id :: id in sessions && id != sessionId ==> r.value.sessions[id] == sessions[id]
    ensures r.Ok? ==> var before := sessions[sessionId]; var after := r.value.sessions[sessionId];
      && after.currentAgent == agentName
      && after.socket == before.socket
      && after.context.(sessionProgress := before.context.sessionProgress) == before.context
      && after.context.sessionProgress
         == before.context.sessionProgress + [LogEntry(before.currentAgent + " -> " + agentName, "agent_switch")]
    ensures r.Ok? ==>
      r.value.emitted == [Emission(sessions[sessionId].socket,
        AgentChanged(sessions[sessionId].currentAgent, agentName, Roles.GetAgentInfo(agentName)))]
  {
    if sessionId !in sessions then Err(SessionNotFound) else Ok(Switched(sessions, sessionId, agentName))
  }

  // ---------------------------------------------------------------------
  // sendResponse
  // ---------------------------------------------------------------------

  /**
   * `sendResponse`: nothing for an unknown session; otherwise the text
   * response, the synthesised speech when the agent exists and the voice
   * provider produced some, and the transcription, in that order.
   */
  function SendResponse(sessions: Registry, sessionId: SessionId, response: string, agentName: string, speech: Option<Audio>): (r: seq<Emission>)
    ensures sessionId !in sessions ==> r == []
    ensures sessionId in sessions ==> var socket := sessions[sessionId].socket;
      && 2 <= |r| <= 3
      && r[0] == Emission(socket, AgentResponse(response, agentName, Roles.GetAgentInfo(agentName)))
      && r[|r| - 1] == Emission(socket, Transcription(response, agentName))
      && (|r| == 3 <==> speech.Some? && Roles.Parse(agentName).Some?)
      && (|r| == 3 ==> r[1] == Emission(socket, AudioResponse(speech.value, agentName)))
      && forall e :: e in r ==> e.socket == socket
  {
    if sessionId !in sessions then []
    else
      var socket := sessions[sessionId].socket;
      var audio :=
        if Roles.Parse(agentName).Some? && speech.Some? then [Emission(socket, AudioResponse(speech.value, agentName))]
        else [];
      [Emission(socket, AgentResponse(response, agentName, Roles.GetAgentInfo(agentName)))]
        + audio
        + [Emission(socket, Transcription(response, agentName))]
  }

  /** A response is sent as exactly one text event, the first. */
  lemma SendResponseSendsOneText(sessions: Registry, sessionId: SessionId, response: string, agentName: string, speech: Option<Audio>)
    ensures var r := SendResponse(sessions, sessionId, response, agentName, speech);
      forall k :: 0 <= k < |r| && r[k].event.AgentResponse? ==> k == 0
  {
  }

  // ---------------------------------------------------------------------
  // startSession
  // ---------------------------------------------------------------------

  /**
   * `startSession`: registers a fresh session under the id, replacing any
   * session already there, switches it to the welcomer (which logs
   * "welcomer -> welcomer") and sends the greeting.
   */
  function StartSession(sessions: Registry, sessionId: SessionId, socket: Socket, speech: Option<Audio>): (r: Step)
    ensures r.sessions.Keys == sessions.Keys + {sessionId}
    ensures forall id :: id in sessions && id != sessionId ==> r.sessions[id] == sessions[id]
    ensures r.sessions[sessionId].currentAgent == "welcomer"
    ensures r.sessions[sessionId].socket == socket
    ensures var context := r.sessions[sessionId].context;
      && !context.assessmentComplete
      && context.studentLevel.None?
      && context.currentProblem.None?
      && context.sessionProgress == [LogEntry("welcomer -> welcomer", "agent_switch")]
    ensures 3 <= |r.emitted| <= 4
    ensures forall e :: e in r.emitted ==> e.socket == socket
    ensures r.emitted[0].event == AgentChanged("welcomer", "welcomer", Roles.GetAgentInfo("welcomer"))
    ensures r.emitted[1].event == AgentResponse(WelcomeMessage, "welcomer", Roles.GetAgentInfo("welcomer"))
    ensures r.emitted[|r.emitted| - 1].event == Transcription(WelcomeMessage, "welcomer")
  {
    var created := Session(Roles.Name(Roles.Welcomer), InitialContext, socket);
    var switched := Switched(sessions[sessionId := created], sessionId, Roles.Name(Roles.Welcomer));
    assert TransitionText("welcomer", "welcomer") == "welcomer -> welcomer";
    Step(
      switched.sessions,
      switched.emitted + SendResponse(switched.sessions, sessionId, WelcomeMessage, Roles.Name(Roles.Welcomer), speech))
  }

  // ---------------------------------------------------------------------
  // handleMessage
  // ---------------------------------------------------------------------

  /** `agent.processMessage(message, context)` for the agent of a role. */
  function AgentTurn(role: Roles.Role, message: string, context: Context, reply: Reply, roll: Roll, ex: Extractors): (r: Result<AgentResult, string>)
    ensures r.Err? ==> reply.ProviderError? && r.error == reply.message
    ensures reply.Generated? ==> r.Ok?
    ensures role != Roles.QuestionPresenter ==> (r.Err? <==> reply.ProviderError?)
    ensures r.Ok? ==> r.value.context.sessionProgress == context.sessionProgress
    ensures r.Ok? ==> (r.value.nextAgent.Some? <==> r.value.shouldTransition)
    ensures r.Ok? ==> r.value.nextAgent != Some(role)
  {
    match role
    case Welcomer => WelcomerAgent.ProcessMessage(message, context, reply, ex)
    case QuestionPresenter => QuestionPresenterAgent.ProcessMessage(message, context, reply, roll, ex)
    case StepByStepTutor => StepByStepTutorAgent.ProcessMessage(message, context, reply)
  }

  /** The agent's result asks for a switch: the orchestrator tests both fields. */
  predicate Switches(result: AgentResult)
  {
    result.shouldTransition && result.nextAgent.Some?
  }

  /** The switch goes to the question presenter after the assessment: it presents at once. */
  predicate PresentsAtOnce(result: AgentResult)
  {
    Switches(result) && result.nextAgent.value == Roles.QuestionPresenter && result.context.assessmentComplete
  }

  /**
   * The registry after a successful agent turn: the agent's context is
   * stored, and the session switches when the agent asks for it.
   */
  function AfterTurnSessions(sessions: Registry, sessionId: SessionId, result: AgentResult): (r: Registry)
    requires sessionId in sessions
    ensures r.Keys == sessions.Keys
    ensures forall id :: id in sessions && id != sessionId ==> r[id] == sessions[id]
    ensures r[sessionId].socket == sessions[sessionId].socket
    ensures var before := sessions[sessionId]; var after := r[sessionId];
      && after.currentAgent == (if Switches(result) then Roles.Name(result.nextAgent.value) else before.currentAgent)
      && after.context.(sessionProgress := result.context.sessionProgress) == result.context
      && after.context.sessionProgress == result.context.sessionProgress
           + (if Switches(result) then [SwitchEntry(before.currentAgent, after.currentAgent)] else [])
  {
    var session := sessions[sessionId];
    var stored := sessions[sessionId := session.(context := result.context)];
    if Switches(result) then Switched(stored, sessionId, Roles.Name(result.nextAgent.value)).sessions else stored
  }

  /**
   * The events of a successful agent turn, in order: the agent change when
   * there is a switch, then one reply. After a hand-off to the question
   * presenter with the assessment complete, that reply is the presenter's
   * answer to an empty message (or the error of its failed turn), not the
   * agent's own reply; the presenter's context is dropped.
   */
  function AfterTurnEvents(sessions: Registry, sessionId: SessionId, result: AgentResult, turn: Turn, ex: Extractors): (r: seq<Emission>)
    requires sessionId in sessions
    ensures 2 <= |r| <= 4
    ensures forall k :: 1 <= k < |r| ==> !r[k].event.AgentChanged?
    ensures r[|r| - 1].event.Transcription? || r[|r| - 1].event.ErrorEvent?
  {
    var session := sessions[sessionId];
    var after := AfterTurnSessions(sessions, sessionId, result);
    var agentName := after[sessionId].currentAgent;
    var changed :=
      if Switches(result) then [Emission(session.socket, AgentChanged(session.currentAgent, agentName, Roles.GetAgentInfo(agentName)))]
      else [];
    if PresentsAtOnce(result) then
      match QuestionPresenterAgent.ProcessMessage("", after[sessionId].context, turn.followupReply, turn.followupRoll, ex)
      case Err(e) => changed + [Emission(session.socket, ErrorEvent(ErrorMessage, e))]
      case Ok(followup) => changed + SendResponse(after, sessionId, followup.response, agentName, turn.speech)
    else
      changed + SendResponse(after, sessionId, result.response, agentName, turn.speech)
  }

  /** Every event of a turn goes to the session's own socket. */
  lemma AfterTurnEventsOnSocket(sessions: Registry, sessionId: SessionId, result: AgentResult, turn: Turn, ex: Extractors)
    requires sessionId in sessions
    ensures forall e :: e in AfterTurnEvents(sessions, sessionId, result, turn, ex) ==> e.socket == sessions[sessionId].socket
  {
    var after := AfterTurnSessions(sessions, sessionId, result);
    assert after[sessionId].socket == sessions[sessionId].socket;
  }

  /** The agent change opens a turn's events exactly when the turn switches agents, naming the old and new agent. */
  lemma SwitchIsAnnouncedFirst(sessions: Registry, sessionId: SessionId, result: AgentResult, turn: Turn, ex: Extractors)
    requires sessionId in sessions
    ensures var events := AfterTurnEvents(sessions, sessionId, result, turn, ex);
      var agent := AfterTurnSessions(sessions, sessionId, result)[sessionId].currentAgent;
      && |events| >= 2
      && (events[0].event.AgentChanged? <==> Switches(result))
      && (Switches(result) ==>
            events[0].event == AgentChanged(sessions[sessionId].currentAgent, agent, Roles.GetAgentInfo(agent)))
  {
  }

  /**
   * Unless the presenter follows up at once, a turn sends the agent's own
   * reply exactly once, under the name of the agent now active, right after
   * any agent change, and ends with its transcription.
   */
  lemma DirectReplyIsSent(sessions: Registry, sessionId: SessionId, result: AgentResult, turn: Turn, ex: Extractors)
    requires sessionId in sessions
    requires !PresentsAtOnce(result)
    ensures var events := AfterTurnEvents(sessions, sessionId, result, turn, ex);
      var agent := AfterTurnSessions(sessions, sessionId, result)[sessionId].currentAgent;
      var first := if Switches(result) then 1 else 0;
      && first < |events|
      && events[first].event == AgentResponse(result.response, agent, Roles.GetAgentInfo(agent))
      && events[|events| - 1].event == Transcription(result.response, agent)
      && forall k :: 0 <= k < |events| && events[k].event.AgentResponse? ==> k == first
  {
    var after := AfterTurnSessions(sessions, sessionId, result);
    var agent := after[sessionId].currentAgent;
    var socket := sessions[sessionId].socket;
    var changed :=
      if Switches(result) then [Emission(socket, AgentChanged(sessions[sessionId].currentAgent, agent, Roles.GetAgentInfo(agent)))]
      else [];
    var sent := SendResponse(after, sessionId, result.response, agent, turn.speech);
    var events := AfterTurnEvents(sessions, sessionId, result, turn, ex);
    assert events == changed + sent;
    SendResponseSendsOneText(after, sessionId, result.response, agent, turn.speech);
    forall k | 0 <= k < |events| && events[k].event.AgentResponse?
      ensures k == |changed|
    {
      assert k >= |changed| ==> events[k] == sent[k - |changed|];
    }
  }

  /**
   * When the presenter's follow-up turn fails, the agent change is followed
   * by one error event with the failure's message, and no reply is sent.
   */
  lemma FollowupFailureIsReported(sessions: Registry, sessionId: SessionId, result: AgentResult, turn: Turn, ex: Extractors)
    requires sessionId in sessions
    requires PresentsAtOnce(result)
    requires QuestionPresenterAgent.ProcessMessage(
      "", AfterTurnSessions(sessions, sessionId, result)[sessionId].context, turn.followupReply, turn.followupRoll, ex).Err?
    ensures var events := AfterTurnEvents(sessions, sessionId, result, turn, ex);
      && |events| == 2
      && events[0].event.AgentChanged?
      && events[1] == Emission(sessions[sessionId].socket, ErrorEvent(ErrorMessage, turn.followupReply.message))
  {
  }

  /** What follows a successful agent turn. */
  function AfterTurn(sessions: Registry, sessionId: SessionId, result: AgentResult, turn: Turn, ex: Extractors): Step
    requires sessionId in sessions
  {
    Step(AfterTurnSessions(sessions, sessionId, result), AfterTurnEvents(sessions, sessionId, result, turn, ex))
  }

  /**
   * `handleMessage`: throws for an unknown session or agent; otherwise runs
   * the active agent's turn. A failed turn emits exactly one error event and
   * leaves the registry as it was; a successful one continues as `AfterTurn`.
   */
  function HandleMessage(sessions: Registry, sessionId: SessionId, message: string, turn: Turn, ex: Extractors): (r: Result<Step, Failure>)
    ensures sessionId !in sessions ==> r == Err(SessionNotFound)
    ensures r.Err? <==> sessionId !in sessions || Roles.Parse(sessions[sessionId].currentAgent).None?
    ensures r.Ok? ==> r.value.sessions.Keys == sessions.Keys
    ensures r.Ok? ==> forall id :: id in sessions && id != sessionId ==> r.value.sessions[id] == sessions[id]
    ensures r.Ok? ==> forall e :: e in r.value.emitted ==> e.socket == sessions[sessionId].socket
    ensures r.Ok? ==> var before := sessions[sessionId];
      match AgentTurn(Roles.Parse(before.currentAgent).value, message, before.context, turn.reply, turn.roll, ex)
      case Err(e) => r.value == Step(sessions, [Emission(before.socket, ErrorEvent(ErrorMessage, e))])
      case Ok(result) => r.value == AfterTurn(sessions, sessionId, result, turn, ex)
  {
    if sessionId !in sessions then Err(SessionNotFound)
    else
      var session := sessions[sessionId];
      match Roles.Parse(session.currentAgent)
      case None => Err(AgentNotFound(session.currentAgent))
      case Some(role) =>
        match AgentTurn(role, message, session.context, turn.reply, turn.roll, ex)
        case Err(e) => Ok(Step(sessions, [Emission(session.socket, ErrorEvent(ErrorMessage, e))]))
        case Ok(result) =>
          AfterTurnEventsOnSocket(sessions, sessionId, result, turn, ex);
          Ok(AfterTurn(sessions, sessionId, result, turn, ex))
  }

  // ---------------------------------------------------------------------
  // endSession and the read-only queries
  // ---------------------------------------------------------------------

  /** `endSession`: forgets the session if there is one; every other session stays as it was. */
  function EndSession(sessions: Registry, sessionId: SessionId): (r: Registry)
    ensures sessionId !in r
    ensures forall id :: id != sessionId ==> (id in r <==> id in sessions)
    ensures forall id :: id in r ==> r[id] == sessions[id]
    ensures sessionId !in sessions ==> r == sessions
  {
    sessions - {sessionId}
  }

  /** `getSessionStats`: the number of live sessions and of agents. */
  function GetSessionStats(sessions: Registry): (r: Stats)
    ensures r.activeSessions == |sessions|
    ensures r.totalAgents == 3
  {
    Roles.AgentCount();
    Stats(|sessions|, |Roles.Agents|)
  }

  // ---------------------------------------------------------------------
  // Properties over whole runs of the handlers
  // ---------------------------------------------------------------------

  /** Starting a session keeps every active agent one of the roles. */
  lemma StartSessionKeepsWellFormed(sessions: Registry, sessionId: SessionId, socket: Socket, speech: Option<Audio>)
    requires WellFormed(sessions)
    ensures WellFormed(StartSession(sessions, sessionId, socket, speech).sessions)
  {
    var r := StartSession(sessions, sessionId, socket, speech);
    forall id | id in r.sessions
      ensures Roles.Parse(r.sessions[id].currentAgent).Some?
    {
      if id == sessionId {
        assert Roles.Parse(r.sessions[id].currentAgent) == Some(Roles.Welcomer);
      }
    }
  }

  /** Starting a session adds one to the count unless the id was already registered. */
  lemma StartSessionCount(sessions: Registry, sessionId: SessionId, socket: Socket, speech: Option<Audio>)
    ensures |StartSession(sessions, sessionId, socket, speech).sessions|
      == if sessionId in sessions then |sessions| else |sessions| + 1
  {
    var keys := StartSession(sessions, sessionId, socket, speech).sessions.Keys;
    if sessionId in sessions {
      assert keys == sessions.Keys;
    } else {
      assert keys == sessions.Keys + {sessionId};
      assert |keys| == |sessions.Keys| + |{sessionId}|;
    }
  }

  /** Switching a session to one of the roles keeps every active agent one of the roles. */
  lemma SwitchToRoleKeepsWellFormed(sessions: Registry, sessionId: SessionId, role: Roles.Role)
    requires WellFormed(sessions)
    ensures var r := SwitchToAgent(sessions, sessionId, Roles.Name(role));
      r.Ok? ==> WellFormed(r.value.sessions)
  {
    var r := SwitchToAgent(sessions, sessionId, Roles.Name(role));
    if r.Ok? {
      forall id | id in r.value.sessions
        ensures Roles.Parse(r.value.sessions[id].currentAgent).Some?
      {
        if id == sessionId {
          assert Roles.Parse(r.value.sessions[id].currentAgent) == Some(role);
        }
      }
    }
  }

  /**
   * `switchToAgent` accepts any name; switching to one that is not a role
   * leaves a session whose next message fails with "agent not found".
   */
  lemma SwitchToUnknownAgentStrandsSession(
    sessions: Registry, sessionId: SessionId, agentName: string, message: string, turn: Turn, ex: Extractors)
    requires sessionId in sessions
    requires Roles.Parse(agentName).None?
    ensures var switched := SwitchToAgent(sessions, sessionId, agentName);
      && switched.Ok?
      && HandleMessage(switched.value.sessions, sessionId, message, turn, ex) == Err(AgentNotFound(agentName))
  {
  }

  /**
   * In a registry whose active agents are all roles, `handleMessage` fails
   * only for an unknown session, and keeps every active agent a role.
   */
  lemma HandleMessageKeepsWellFormed(sessions: Registry, sessionId: SessionId, message: string, turn: Turn, ex: Extractors)
    requires WellFormed(sessions)
    ensures var r := HandleMessage(sessions, sessionId, message, turn, ex);
      && (r.Err? ==> r.error == SessionNotFound)
      && (r.Ok? ==> WellFormed(r.value.sessions))
  {
    var r := HandleMessage(sessions, sessionId, message, turn, ex);
    if r.Ok? {
      var before := sessions[sessionId];
      var role := Roles.Parse(before.currentAgent).value;
      match AgentTurn(role, message, before.context, turn.reply, turn.roll, ex)
      case Err(_) =>
      case Ok(result) =>
        var after := AfterTurnSessions(sessions, sessionId, result);
        assert r.value.sessions == after;
        forall id | id in after
          ensures Roles.Parse(after[id].currentAgent).Some?
        {
          if id == sessionId && Switches(result) {
            assert Roles.Parse(after[id].currentAgent) == Some(result.nextAgent.value);
          }
        }
    }
  }

  /**
   * The progress log records exactly the changes of active agent: a turn
   * that keeps the agent leaves the log as it was, and a turn that changes
   * it appends one "previous -> next" entry.
   */
  lemma HandleMessageLogsChanges(sessions: Registry, sessionId: SessionId, message: string, turn: Turn, ex: Extractors)
    requires sessionId in sessions
    ensures var r := HandleMessage(sessions, sessionId, message, turn, ex);
      r.Ok? ==>
        var before := sessions[sessionId];
        var after := r.value.sessions[sessionId];
        if after.currentAgent == before.currentAgent then
          after.context.sessionProgress == before.context.sessionProgress
        else
          after.context.sessionProgress
            == before.context.sessionProgress + [SwitchEntry(before.currentAgent, after.currentAgent)]
  {
    var r := HandleMessage(sessions, sessionId, message, turn, ex);
    if r.Ok? {
      var before := sessions[sessionId];
      var role := Roles.Parse(before.currentAgent).value;
      match AgentTurn(role, message, before.context, turn.reply, turn.roll, ex)
      case Err(_) =>
      case Ok(result) =>
        var after := AfterTurnSessions(sessions, sessionId, result);
        assert r.value.sessions == after;
        if Switches(result) {
          assert result.nextAgent.value != role;
          assert Roles.Parse(Roles.Name(result.nextAgent.value)) == Some(result.nextAgent.value);
          assert after[sessionId].currentAgent != before.currentAgent;
        }
    }
  }

  /**
   * A language-model failure in a turn that needs the model leaves the
   * registry as it was and sends the one error event.
   */
  lemma FailedTurnChangesNothing(sessions: Registry, sessionId: SessionId, message: string, turn: Turn, ex: Extractors)
    requires sessionId in sessions
    requires Roles.Parse(sessions[sessionId].currentAgent).Some?
    requires turn.reply.ProviderError?
    requires Roles.Parse(sessions[sessionId].currentAgent).value != Roles.QuestionPresenter
      || !QuestionPresenterAgent.IsFirstInteraction(sessions[sessionId].context)
    ensures var r := HandleMessage(sessions, sessionId, message, turn, ex);
      && r.Ok?
      && r.value.sessions == sessions
      && r.value.emitted == [Emission(sessions[sessionId].socket, ErrorEvent(ErrorMessage, turn.reply.message))]
  {
  }

  /**
   * After a hand-off to the presenter with the assessment complete, when the
   * presenter's follow-up turn succeeds, the agent change is followed by the
   * follow-up reply, and that is the only text response of the turn: the
   * original agent's reply is never sent.
   */
  lemma FollowupReplyIsSent(sessions: Registry, sessionId: SessionId, result: AgentResult, turn: Turn, ex: Extractors)
    requires sessionId in sessions
    requires PresentsAtOnce(result)
    requires QuestionPresenterAgent.ProcessMessage(
      "", AfterTurnSessions(sessions, sessionId, result)[sessionId].context, turn.followupReply, turn.followupRoll, ex).Ok?
    ensures var events := AfterTurnEvents(sessions, sessionId, result, turn, ex);
      var presenter := Roles.Name(Roles.QuestionPresenter);
      var followup := QuestionPresenterAgent.ProcessMessage(
        "", AfterTurnSessions(sessions, sessionId, result)[sessionId].context, turn.followupReply, turn.followupRoll, ex).value;
      && 3 <= |events| <= 4
      && events[0].event == AgentChanged(sessions[sessionId].currentAgent, presenter, Roles.GetAgentInfo(presenter))
      && events[1].event == AgentResponse(followup.response, presenter, Roles.GetAgentInfo(presenter))
      && events[|events| - 1].event == Transcription(followup.response, presenter)
      && (forall k :: 0 <= k < |events| && events[k].event.AgentResponse? ==> k == 1)
      && forall k :: 1 <= k < |events| && (events[k].event.AgentResponse? || events[k].event.Transcription?) ==>
           events[k].event.text == followup.response
  {
    var after := AfterTurnSessions(sessions, sessionId, result);
    var presenter := Roles.Name(Roles.QuestionPresenter);
    assert after[sessionId].currentAgent == presenter;
    var followup := QuestionPresenterAgent.ProcessMessage("", after[sessionId].context, turn.followupReply, turn.followupRoll, ex).value;
    var sent := SendResponse(after, sessionId, followup.response, presenter, turn.speech);
    var socket := sessions[sessionId].socket;
    var changed := [Emission(socket, AgentChanged(sessions[sessionId].currentAgent, presenter, Roles.GetAgentInfo(presenter)))];
    var events := AfterTurnEvents(sessions, sessionId, result, turn, ex);
    assert events == changed + sent;
    SendResponseSendsOneText(after, sessionId, followup.response, presenter, turn.speech);
    forall k | 0 <= k < |events| && events[k].event.AgentResponse?
      ensures k == 1
    {
      assert k > 0 ==> events[k] == sent[k - 1];
    }
  }

  /**
   * When the welcomer hands over before any problem was set, the client is
   * told of the change and then sent, as the presenter's, a first problem of
   * the level the welcomer just extracted; the welcomer's own reply is not sent.
   */
  lemma WelcomerHandoffPresentsProblem(sessions: Registry, sessionId: SessionId, message: string, text: string, turn: Turn, ex: Extractors)
    requires sessionId in sessions
    requires sessions[sessionId].currentAgent == Roles.Name(Roles.Welcomer)
    requires !Truthy(sessions[sessionId].context.currentProblem)
    requires turn.reply == Generated(text)
    requires WelcomerAgent.ShouldTransitionToQuestionPresenter(message, text)
    ensures var r := HandleMessage(sessions, sessionId, message, turn, ex);
      var presenter := Roles.Name(Roles.QuestionPresenter);
      var level := QuestionPresenterAgent.DetermineLevel(Some(WelcomerAgent.ExtractStudentLevel(message, text, ex)));
      && r.Ok?
      && r.value.sessions[sessionId].currentAgent == presenter
      && |r.value.emitted| >= 2
      && r.value.emitted[0].event == AgentChanged(Roles.Name(Roles.Welcomer), presenter, Roles.GetAgentInfo(presenter))
      && r.value.emitted[1].event.AgentResponse?
      && r.value.emitted[1].event.agent == presenter
      && exists p :: p in QuestionPresenterAgent.Problems[level]
           && r.value.emitted[1].event.text == QuestionPresenterAgent.FirstProblemText(level, p)
  {
    var before := sessions[sessionId];
    assert Roles.Parse(before.currentAgent) == Some(Roles.Welcomer);
    var result := WelcomerAgent.ProcessMessage(message, before.context, turn.reply, ex).value;
    assert PresentsAtOnce(result);
    var after := AfterTurnSessions(sessions, sessionId, result);
    assert QuestionPresenterAgent.IsFirstInteraction(after[sessionId].context);
    FollowupReplyIsSent(sessions, sessionId, result, turn, ex);
  }

  /** Ending a session twice is the same as ending it once. */
  lemma EndSessionIdempotent(sessions: Registry, sessionId: SessionId)
    ensures EndSession(EndSession(sessions, sessionId), sessionId) == EndSession(sessions, sessionId)
  {
  }

  /** Ending a session keeps every remaining active agent a role, and lowers the count by one if it was there. */
  lemma EndSessionKeepsWellFormed(sessions: Registry, sessionId: SessionId)
    requires WellFormed(sessions)
    ensures WellFormed(EndSession(sessions, sessionId))
    ensures GetSessionStats(EndSession(sessions, sessionId)).activeSessions
      == if sessionId in sessions then |sessions| - 1 else |sessions|
  {
    var r := EndSession(sessions, sessionId);
    if sessionId in sessions {
      assert r.Keys == sessions.Keys - {sessionId};
    }
  }

  /** A session started and then ended leaves the other sessions exactly as they were. */
  lemma StartThenEndRestoresOthers(sessions: Registry, sessionId: SessionId, socket: Socket, speech: Option<Audio>)
    requires sessionId !in sessions
    ensures EndSession(StartSession(sessions, sessionId, socket, speech).sessions, sessionId) == sessions
  {
    var r := EndSession(StartSession(sessions, sessionId, socket, speech).sessions, sessionId);
    assert r.Keys == sessions.Keys;
  }
}

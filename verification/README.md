# Role-switching math tutor: a Dafny model

This project models the server side of a voice-enabled math tutor. One learner session moves between three conversational agents:

- the **welcomer** greets the learner and picks up their grade;
- the **question presenter** sets a problem of the learner's level and reacts to answers;
- the **step-by-step tutor** guides the learner through a problem.

The **orchestrator** keeps a registry of sessions. Each session records its active agent, its conversation context and the client socket it reports to. The orchestrator routes every learner message to the active agent. When the agent asks for a hand-off, the orchestrator switches the session and logs the switch. It then sends the reply, as text, optional speech and a transcription, on the session's socket.

The model is functional:

- Each orchestrator handler is one atomic step. It takes a registry (a Dafny `map`) to a new registry plus the sequence of events emitted on sockets, oldest first.
- Each agent's `processMessage` is a pure function of:
  - the message and the context;
  - the language model's reply (`Reply`: generated text, or a provider error carrying its message);
  - for the presenter, the value of `Math.random()` (`Roll`, a real in [0, 1)).
- Speech synthesis is an `Option` of bytes.
- Two loosely specified regular-expression extractions are parameters (`Extractors`):
  - the presenter's problem extraction;
  - the level word of the welcomer's level extraction.

The cue tests follow the code closely:

- `toLowerCase` is ASCII case folding.
- `includes` is contiguous-substring search (`Strings.Includes`).
- The grade, step, arithmetic and number regular expressions are matchers with JavaScript's leftmost-match semantics.
- `\s` is the JavaScript white-space and line-terminator set.
- `parseInt` covers leading white space, sign, the `0x` prefix, and `NaN` (as `None`).

Files, one module each:

- `optional.dfy`: `Option` and `Result`.
- `strings.dfy`: case folding, substring search, `parseInt`.
- `patterns.dfy`: the regular expressions.
- `roles.dfy`: the three roles, the agents table and `getAgentInfo`.
- `tutoring.dfy`: the context, the agent result and the outside inputs.
- `welcomer.dfy`, `question_presenter.dfy`, `step_by_step_tutor.dfy`: the agents.
- `orchestrator.dfy`: the session registry and its handlers.
- `handoffs.dfy`: the whole hand-off policy as one table, proved to be what the orchestrator does.
- `progress_indicator.dfy`: the client's progress bar.
- `scenarios.dfy`: concrete conversations, including the client's quick-action messages.

## Model

| member | source | states |
|---|---|---|
| Strings.Includes | server/agents/welcomer.js:54-61 | `includes` holds exactly when the phrase occurs as a contiguous piece of the text |
| Strings.LowerOfUpper | server/agents/welcomer.js:54-55 | under ASCII case folding, lower-casing after upper-casing equals lower-casing, so case-insensitive tests ignore the ASCII letter case of their input |
| Strings.IncludesLowerWindow | server/agents/step-by-step-tutor.js:102-106 | a phrase that matches some window of the text, letter case aside, is included in the lower-cased text |
| Strings.ParseIntOfDigits | server/agents/question-presenter.js:130 | `parseInt` of a nonempty decimal digit string is its decimal value |
| Strings.ParseIntOfNull | server/agents/question-presenter.js:130 | `parseInt` of a `null` grade (read as the text "null") is `NaN` |
| Strings.RunCoversAll | server/agents/welcomer.js:65 | a run of characters of a class reaches the end of a text whose rest is all of that class |
| Patterns.GradeIn | server/agents/welcomer.js:65-68 | the grade pattern's capture is `None` exactly when no position matches; otherwise it is a nonempty digit string captured at the leftmost matching position |
| Patterns.StepIn | server/agents/step-by-step-tutor.js:123-124 | the step pattern's match is `None` exactly when no position matches; otherwise it is the match at the leftmost matching position |
| Patterns.HasArithmetic | server/agents/step-by-step-tutor.js:186 | the digits-operator-digits test holds exactly when some position starts such a calculation |
| Patterns.HasNumber | server/agents/question-presenter.js:152-153 | the number pattern finds a match exactly when the text holds a decimal digit |
| Roles.Parse | server/orchestrator.js:8-12 | the agents table finds a role exactly for that role's name, and for no other text |
| Roles.AgentCount | server/orchestrator.js:8-12 | the agents table has exactly three entries |
| Roles.GetAgentInfo | server/orchestrator.js:201-227 | the display record is empty exactly for names that are not one of the three roles; its voice is the role's voice |
| WelcomerAgent.ShouldTransitionToQuestionPresenter | server/agents/welcomer.js:45-62 | the welcomer hands over exactly when the lower-cased message holds one of the five readiness phrases, or the lower-cased reply holds "colleague" or "question presenter" |
| WelcomerAgent.TransitionIgnoresCase | server/agents/welcomer.js:54-55 | upper-casing the ASCII letters of the message and the reply does not change the hand-off decision |
| WelcomerAgent.ExtractStudentLevel | server/agents/welcomer.js:64-75 | a grade found in the message wins over one in the reply; the grade is `null` exactly when neither holds one; a found grade is all digits |
| WelcomerAgent.ProcessMessage | server/agents/welcomer.js:27-43 | fails exactly when the model fails. Otherwise: the reply is the model's text; the next agent is the presenter exactly when the hand-off fires, else none; `assessmentComplete` equals the hand-off flag; the level is overwritten; every other context field is kept |
| WelcomerAgent.NeverProposesOtherRoles | server/agents/welcomer.js:36 | the welcomer never proposes itself or the tutor |
| WelcomerAgent.QuietTurnClearsAssessment | server/agents/welcomer.js:40 | a turn without a hand-off resets an earlier `assessmentComplete` to false |
| QuestionPresenterAgent.ShouldTransitionToTutor | server/agents/question-presenter.js:103-114 | holds exactly when the lower-cased message holds one of the six help phrases |
| QuestionPresenterAgent.ShouldTransitionToWelcomer | server/agents/question-presenter.js:116-125 | holds exactly when the lower-cased message holds one of the four reset phrases |
| QuestionPresenterAgent.IsFirstInteraction | server/agents/question-presenter.js:79-81 | holds exactly when no problem is set (`null` or empty) and the assessment is complete |
| QuestionPresenterAgent.DetermineLevel | server/agents/question-presenter.js:127-134 | the level is a key of the problem bank. Elementary: no level record, or a parsed grade up to 5. Middle: a parsed grade of 6 to 8. High: a grade above 8 or one that does not parse |
| QuestionPresenterAgent.DetermineLevelOfGrade | server/agents/question-presenter.js:130-133 | once the grade parses, the level depends on the parsed value alone: up to 5 elementary, 6 to 8 middle, above 8 high |
| QuestionPresenterAgent.GradeNumberOfDigits | server/agents/question-presenter.js:130 | a grade written in decimal digits parses to its decimal value |
| QuestionPresenterAgent.DetermineLevelOfDigits | server/agents/question-presenter.js:127-134 | a grade written in digits selects the level by its decimal value |
| QuestionPresenterAgent.MissingGradeIsHigh | server/agents/question-presenter.js:130-133 | a level record with a `null` grade selects the high-school problems |
| QuestionPresenterAgent.SelectRandomProblem | server/agents/question-presenter.js:136-139 | the problem is one of the level's list, or of the elementary list for a level the bank lacks |
| QuestionPresenterAgent.IsCorrectAnswer | server/agents/question-presenter.js:147-159 | never correct without a problem; otherwise correct exactly when the answer holds a digit |
| QuestionPresenterAgent.PresentFirstProblem | server/agents/question-presenter.js:83-89 | the first-problem text names the learner's level and presents one problem of that level's list |
| QuestionPresenterAgent.HandleStudentResponse | server/agents/question-presenter.js:91-101 | fails exactly when the model fails. Otherwise it gives the model's text, followed by praise and a further problem of the learner's level exactly when the answer counts as correct |
| QuestionPresenterAgent.ProcessMessage | server/agents/question-presenter.js:54-77 | fails only when the model is needed (not a first interaction) and fails. Otherwise: the hand-off fires on a help or reset phrase; help wins over reset; the presenter never proposes itself; the context changes only in the current problem and the learner's answer |
| QuestionPresenterAgent.DecisionIgnoresReply | server/agents/question-presenter.js:63-70 | the hand-off decision depends only on the message, never on the reply, the context or the roll |
| StepByStepTutorAgent.ShouldTransitionToQuestionPresenter | server/agents/step-by-step-tutor.js:82-107 | holds exactly when the lower-cased message holds one of the seven completion phrases or the lower-cased reply holds one of the six indicator phrases |
| StepByStepTutorAgent.ShouldTransitionToWelcomer | server/agents/step-by-step-tutor.js:109-119 | holds exactly when the lower-cased message holds one of the five reset phrases, including "different problem type" |
| StepByStepTutorAgent.StepAtIsNotGuidance | server/agents/step-by-step-tutor.js:123-125 | no match of the step pattern reads "guidance", so the fallback cannot be confused with a match |
| StepByStepTutorAgent.ExtractCurrentStep | server/agents/step-by-step-tutor.js:121-126 | the step is "guidance" exactly when the reply has no step cue; otherwise it is the text of the leftmost cue |
| StepByStepTutorAgent.AssessProgress | server/agents/step-by-step-tutor.js:128-155 | good exactly when a positive phrase occurs; needs more help exactly when no positive phrase occurs but a negative one does; neutral exactly when neither occurs |
| StepByStepTutorAgent.GetTutoringSteps | server/agents/step-by-step-tutor.js:158-191 | algebra prompts exactly for a problem holding "x" and "="; arithmetic prompts exactly for another problem holding a binary calculation; word-problem prompts otherwise, including a missing problem |
| StepByStepTutorAgent.ProcessMessage | server/agents/step-by-step-tutor.js:34-51 | fails exactly when the model fails. Otherwise: the hand-off goes to the presenter on a completion cue, else to the welcomer on a reset cue; the tutor never proposes itself; the context changes only in the step and the progress reading |
| Orchestrator.SwitchToAgent | server/orchestrator.js:51-75 | throws exactly for an unknown session. Otherwise it sets the agent, appends exactly one "previous -> next" log entry with reason "agent_switch", changes no other context field and no other session, and emits exactly one agent-changed event |
| Orchestrator.SendResponse | server/orchestrator.js:150-189 | nothing for an unknown session. Otherwise two or three events on the session's socket: the text response first and the transcription (same text, the agent as speaker) last, with speech between exactly when the agent exists and speech was produced |
| Orchestrator.SendResponseSendsOneText | server/orchestrator.js:157-188 | a response goes out as exactly one text event, the first of its events |
| Orchestrator.StartSession | server/orchestrator.js:17-49 | the id is registered, replacing any earlier session, and no other session changes. The new session: welcomer active; assessment not complete; no level or problem; a log of exactly "welcomer -> welcomer"; the agent change, the greeting and its transcription sent on its socket |
| Orchestrator.AgentTurn | server/orchestrator.js:88-90 | an agent's turn fails only on a model failure and always succeeds on generated text; it never touches the progress log, proposes a next agent exactly when it asks for a hand-off, and never proposes its own role |
| Orchestrator.AfterTurnSessions | server/orchestrator.js:91-97 | after a successful turn the session holds the agent's context. It switches to the proposed agent exactly when a hand-off is asked for and a next agent named, logging the switch; other sessions are untouched |
| Orchestrator.SwitchIsAnnouncedFirst | server/orchestrator.js:95-96 | a turn's events open with the agent change exactly when the turn switches agents, naming the previous and the new agent |
| Orchestrator.DirectReplyIsSent | server/orchestrator.js:108-109 | unless the presenter follows up at once, the agent's own reply is sent exactly once, under the name of the agent now active, right after any agent change, and the events end with its transcription |
| Orchestrator.FollowupFailureIsReported | server/orchestrator.js:99-116 | when the presenter's follow-up turn fails, the agent change is followed by one error event with the failure's message, and no reply is sent |
| Orchestrator.AfterTurnEvents | server/orchestrator.js:95-116 | a successful turn emits two to four events; only the first may announce an agent change, and the last is a transcription or the follow-up's error. Its order and contents are stated by SwitchIsAnnouncedFirst, DirectReplyIsSent, FollowupReplyIsSent and FollowupFailureIsReported |
| Orchestrator.AfterTurnEventsOnSocket | server/orchestrator.js:95-112 | every event of a turn goes to the session's own socket |
| Orchestrator.HandleMessage | server/orchestrator.js:77-118 | throws exactly for an unknown session or an active agent that is not a role. A failed turn leaves the registry unchanged and emits exactly one error event; a successful one continues as above; no other session changes |
| Orchestrator.EndSession | server/orchestrator.js:229-249 | the id is gone, every other session is unchanged, and an absent id changes nothing |
| Orchestrator.GetSessionStats | server/orchestrator.js:260-265 | reports the number of registered sessions and three agents |
| Orchestrator.StartSessionKeepsWellFormed | server/orchestrator.js:17-34 | starting a session keeps every active agent one of the roles |
| Orchestrator.StartSessionCount | server/orchestrator.js:31 | starting a session adds one to the count unless the id was already registered |
| Orchestrator.SwitchToRoleKeepsWellFormed | server/orchestrator.js:51-58 | switching to a role's name keeps every active agent one of the roles |
| Orchestrator.SwitchToUnknownAgentStrandsSession | server/orchestrator.js:51-58 | switching to a name that is not a role succeeds, and the session's next message then fails with "agent not found" |
| Orchestrator.HandleMessageKeepsWellFormed | server/orchestrator.js:77-97 | while every active agent is a role, handling a message fails only for an unknown session and keeps every active agent a role |
| Orchestrator.HandleMessageLogsChanges | server/orchestrator.js:91-97 | the progress log records exactly the changes of active agent: an unchanged agent leaves the log as it was, a change appends one "previous -> next" entry |
| Orchestrator.FailedTurnChangesNothing | server/orchestrator.js:110-116 | a model failure in a turn that needs the model leaves the registry unchanged and emits only the error event with the failure's message |
| Orchestrator.FollowupReplyIsSent | server/orchestrator.js:99-105 | after a hand-off to the presenter with the assessment complete and a successful follow-up turn, the agent change is followed by the follow-up reply, and that is the turn's only text response: the last event is the follow-up's transcription, and every text or transcription event after the change carries the follow-up reply: the original reply is never sent |
| Orchestrator.WelcomerHandoffPresentsProblem | server/orchestrator.js:95-105 | when the welcomer hands over before any problem is set, the agent change is followed by a first problem of the learner's extracted level, sent as the presenter's |
| Orchestrator.EndSessionIdempotent | server/orchestrator.js:229-249 | ending a session twice is the same as ending it once |
| Orchestrator.EndSessionKeepsWellFormed | server/orchestrator.js:229-249 | ending a session keeps every remaining active agent a role and lowers the count by one exactly when the id was registered |
| Orchestrator.StartThenEndRestoresOthers | server/orchestrator.js:17-49 | starting a new session and ending it gives back the registry as it was |
| Handoffs.NextIsAnotherRole | server/orchestrator.js:93-97 | by the hand-off table, no role hands a session to itself, and only the presenter reaches the tutor |
| Handoffs.TutorAcceptsPresenterResets | server/agents/step-by-step-tutor.js:109-119 | the tutor returns to the welcomer exactly on the presenter's reset phrases or on "different problem type" |
| Handoffs.WelcomerFollowsTable | server/agents/welcomer.js:27-62 | the welcomer's turn on generated text proposes the role the hand-off table names |
| Handoffs.PresenterFollowsTable | server/agents/question-presenter.js:63-70 | the presenter's turn proposes the role the hand-off table names, whatever the reply |
| Handoffs.TutorFollowsTable | server/agents/step-by-step-tutor.js:37-44 | the tutor's turn on generated text proposes the role the hand-off table names |
| Handoffs.AgentTurnFollowsTable | server/orchestrator.js:88-94 | every agent's turn on generated text proposes exactly the role the hand-off table names |
| Handoffs.HandleMessageFollowsTable | server/orchestrator.js:77-97 | whenever the active agent is a role and the model answers, handling a message succeeds and leaves the session with the role the table names, or unchanged when it names none |
| ProgressIndicator.GetStepClass | client/src/components/ProgressIndicator.js:10-18 | a step is active exactly when it is the current agent; it is completed exactly when it is not current, the current agent is a step, and the step does not occur at or after the current agent's place (so an unknown step id counts as completed); every other step is plain |
| ProgressIndicator.FindIndex | client/src/components/ProgressIndicator.js:13-14 | the index is the first place holding the id, or -1 exactly when no step has it |
| ProgressIndicator.StepsAreRoleNames | client/src/components/ProgressIndicator.js:4-8 | the progress steps are the three role names, in order welcomer, presenter, tutor |
| ProgressIndicator.StepClassOfRole | client/src/components/ProgressIndicator.js:10-18 | with a role current, its step is active, earlier steps are completed, later steps are plain |
| ProgressIndicator.ExactlyOneActive | client/src/components/ProgressIndicator.js:10-11 | with a role current, exactly one step is active |
| ProgressIndicator.UnknownAgentMarksNothing | client/src/components/ProgressIndicator.js:13-17 | with no current agent or an unknown one, no step is active or completed |
| Scenarios.ReadyLearnerMovesOn | server/agents/welcomer.js:45-62 | "I'm ready for a problem" makes the welcomer hand over, whatever it replied |
| Scenarios.ColleagueReplyMovesOn | server/agents/welcomer.js:57-61 | a welcomer reply mentioning a "Colleague" hands over whatever the message |
| Scenarios.HelpBeatsReset | server/agents/question-presenter.js:63-70 | "I don't know, new topic" fires both cues, and the presenter picks the tutor |
| Scenarios.PraiseEndsTutoring | server/agents/step-by-step-tutor.js:93-106 | the tutor's "Excellent! You've got it!" hands back to the presenter |
| Scenarios.DisavowalReadsAsProgress | server/agents/step-by-step-tutor.js:128-149 | "I don't understand" holds "understand" and reads as good progress |
| Scenarios.SeventhGraderGetsMiddleSchool | server/agents/question-presenter.js:127-134 | "grade 7" yields the grade "7", which selects the middle-school problems |
| Scenarios.FirstStepIsRecorded | server/agents/step-by-step-tutor.js:121-126 | a reply opening with "First," is on the step "First" |
| Scenarios.QuickHelpReachesTutor | client/src/components/QuickActions.js:5 | the quick action "I need help with this problem" sends a presenter session to the tutor |
| Scenarios.QuickNextProblemLeavesTutor | client/src/components/QuickActions.js:6 | the quick action "I'm ready for the next problem" sends a tutoring session back to the presenter |
| Scenarios.QuickConfusionReadsAsProgress | client/src/components/QuickActions.js:8 | the quick action "I don't understand this step" reads as good progress to the tutor |

## Left out

- Audio and voice are not modelled as streams. This covers the microphone stream, `setupAudioHandling`, `handleAudio`, the voice provider's speech-to-text and `playAudio`. Speech synthesis is kept only as an optional input that yields the `audio-response` event; a synthesis failure is the same as no speech.
- Language-model calls, `generateTutoringResponse` and `buildTutoringPrompt` are not modelled: the model's reply or its error is an input. The same holds for the agents' instruction texts and voice settings, apart from each agent's voice name.
- `extractCurrentProblem` and the level-word half of `extractStudentLevel` are inputs (`Extractors`); their lazy regular expressions are not reproduced.
- Timestamps, the session start time and durations are dropped. So is the log entry `endSession` pushes just before removing the session: nothing can read it afterwards.
- `getSessionInfo` and `getAllActiveSessions` are plain reads of the registry and are not modelled.
- The unused `level` parameter of `getTutoringSteps` and the unused `context` parameter of `assessProgress` are dropped.
- `toLowerCase` folds ASCII letters only; no other Unicode case mapping is modelled. Strings are sequences of Unicode scalar values, not of UTF-16 code units.
- Strings.LowerOfUpper: holds for ASCII folding only. In JavaScript, `"ı".toUpperCase().toLowerCase()` is `"i"` while `"ı".toLowerCase()` stays `"ı"` (U+0131), so the JavaScript fold does not satisfy it.
- WelcomerAgent.TransitionIgnoresCase: holds for ASCII folding only. In JavaScript the message `"ı'm ready"` (U+0131) does not hand over, but its upper-cased form `"I'M READY"` does.
- Orchestrator.HandleMessage: the agents table (and the same lookups in `sendResponse` and `getAgentInfo`) is modelled as exactly the three role names. In the source, a name inherited by every JavaScript object (such as "toString") would also be found.
- Messages are always text; a non-string message from the transport is not modelled.
- Handlers are atomic steps. Interleaving of concurrent asynchronous handlers is not modelled.
- The transport wiring in server/index.js is not part of this model, and neither is the client UI apart from the progress indicator and the quick-action texts.

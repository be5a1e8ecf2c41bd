/**
 * The client's progress bar: the three roles as ordered steps, each shown
 * as active, completed or plain relative to the session's current agent.
 */
module ProgressIndicator {
  import opened Optional
  import Roles

  /** The step ids of the progress bar, in the order the roles are met. */
  const Steps: seq<string> := ["welcomer", "question-presenter", "step-by-step-tutor"]

  /** The place of each role on the progress bar. */
  function Position(role: Roles.Role): nat
  {
    match role
    case Welcomer => 0
    case QuestionPresenter => 1
    case StepByStepTutor => 2
  }

  /** The step ids are the role names, each at its role's place. */
  lemma StepsAreRoleNames(role: Roles.Role)
    ensures Position(role) < |Steps| && Steps[Position(role)] == Roles.Name(role)
  {
  }

  /**
   * `findIndex(step => step.id === id)`: the first place holding `id`, or
   * -1 when no step does (always so for a `null` id).
   */
  function FindIndex(ids: seq<string>, id: Option<string>): (r: int)
    ensures -1 <= r < |ids|
    ensures r == -1 <==> forall k :: 0 <= k < |ids| ==> Some(ids[k]) != id
    ensures r >= 0 ==> Some(ids[r]) == id && forall k :: 0 <= k < r ==> Some(ids[k]) != id
    decreases |ids|
  {
    if |ids| == 0 then -1
    else if Some(ids[0]) == id then 0
    else
      var k := FindIndex(ids[1..], id);
      assert forall j :: 1 <= j < |ids| ==> ids[j] == ids[1..][j - 1];
      if k == -1 then -1 else k + 1
  }

  /**
   * `getStepClass(stepId)`: "active" for the current agent's step,
   * "completed" for a step placed before it, and "" otherwise.
   */
  function GetStepClass(stepId: string, currentAgent: Option<string>): (r: string)
    ensures r == "active" <==> Some(stepId) == currentAgent
    ensures r == "completed" <==>
      && Some(stepId) != currentAgent
      && exists k :: 0 <= k < |Steps| && Some(Steps[k]) == currentAgent
           && forall j :: k <= j < |Steps| ==> Steps[j] != stepId
    ensures r == "" || r == "active" || r == "completed"
  {
    if Some(stepId) == currentAgent then "active"
    else if FindIndex(Steps, currentAgent) > FindIndex(Steps, Some(stepId)) then "completed"
    else ""
  }

  /** The step ids are pairwise different. */
  lemma StepsDistinct()
    ensures forall j, k :: 0 <= j < k < |Steps| ==> Steps[j] != Steps[k]
  {
    assert Steps[0][0] == 'w' && Steps[1][0] == 'q' && Steps[2][0] == 's';
  }

  /**
   * With a role as current agent, the steps before it are completed, its own
   * step is active, and the steps after it are plain.
   */
  lemma StepClassOfRole(role: Roles.Role, k: nat)
    requires k < |Steps|
    ensures GetStepClass(Steps[k], Some(Roles.Name(role)))
      == if k == Position(role) then "active" else if k < Position(role) then "completed" else ""
  {
    StepsDistinct();
    StepsAreRoleNames(role);
    assert FindIndex(Steps, Some(Roles.Name(role))) == Position(role);
    assert FindIndex(Steps, Some(Steps[k])) == k;
  }

  /** With a role as current agent, exactly one step is active. */
  lemma ExactlyOneActive(role: Roles.Role)
    ensures exists k :: 0 <= k < |Steps| && GetStepClass(Steps[k], Some(Roles.Name(role))) == "active"
    ensures forall j, k ::
      0 <= j < |Steps| && 0 <= k < |Steps|
      && GetStepClass(Steps[j], Some(Roles.Name(role))) == "active"
      && GetStepClass(Steps[k], Some(Roles.Name(role))) == "active"
      ==> j == k
  {
    StepClassOfRole(role, Position(role));
    forall j | 0 <= j < |Steps| && GetStepClass(Steps[j], Some(Roles.Name(role))) == "active"
      ensures j == Position(role)
    {
      StepClassOfRole(role, j);
    }
  }

  /** With no current agent, or one that is not a step, no step is active or completed. */
  lemma UnknownAgentMarksNothing(currentAgent: Option<string>, k: nat)
    requires currentAgent.None? || currentAgent.value !in Steps
    requires k < |Steps|
    ensures GetStepClass(Steps[k], currentAgent) == ""
  {
    assert FindIndex(Steps, currentAgent) == -1;
  }
}

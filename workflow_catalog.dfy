/**
 * The compiled-in workflow table: an ordered list of steps per request type, the map from a
 * step's status to a request status, and the lookups over them.
 */
module WorkflowCatalog {
  import opened Wrappers

  datatype Step = Step(id: string, name: string, description: string, status: string)

  datatype Workflow = Workflow(requestType: string, steps: seq<Step>, defaultStep: string, assignedRole: string)

  const CarBookingWorkflow := Workflow(
    "CAR_BOOKING",
    [ Step("SUBMITTED", "Submitted", "Request submitted by user", "SUBMITTED"),
      Step("AUTO_BOOKED", "Auto-Booked", "System automatically assigned vehicle", "BOOKED"),
      Step("FLEET_REVIEW", "Fleet Review", "Fleet team reviewing booking", "IN_REVIEW"),
      Step("COMPLETED", "Completed", "Trip completed", "COMPLETED") ],
    "SUBMITTED", "FLEET_ADMIN")

  const ITWorkflow := Workflow(
    "IT",
    [ Step("SUBMITTED", "Submitted", "Request submitted by user", "SUBMITTED"),
      Step("TRIAGE", "Triage", "IT admin reviewing and prioritizing", "IN_REVIEW"),
      Step("IN_PROGRESS", "In Progress", "IT team working on request", "IN_PROGRESS"),
      Step("COMPLETED", "Completed", "Request resolved", "COMPLETED") ],
    "SUBMITTED", "IT_ADMIN")

  const OnboardingWorkflow := Workflow(
    "ONBOARDING",
    [ Step("SUBMITTED", "Submitted", "Onboarding request submitted by Lead/Head", "SUBMITTED"),
      Step("HR_REVIEW", "HR Review", "HR team reviewing request", "IN_REVIEW"),
      Step("IT_SETUP", "IT Setup", "IT setting up accounts and devices", "IN_PROGRESS"),
      Step("COMPLETED", "Completed", "Onboarding completed", "COMPLETED") ],
    "SUBMITTED", "HR_ADMIN")

  /** The request statuses the status-patch endpoint accepts. */
  const ValidStatuses: seq<string> :=
    ["PENDING", "APPROVED", "IN_PROGRESS", "COMPLETED", "REJECTED", "BOOKED", "CANCELLED"]

  /** The step-status to request-status table. */
  const StatusMap: map<string, string> := map[
    "SUBMITTED" := "PENDING",
    "IN_REVIEW" := "APPROVED",
    "IN_PROGRESS" := "IN_PROGRESS",
    "COMPLETED" := "COMPLETED",
    "BOOKED" := "BOOKED",
    "AUTO_BOOKED" := "BOOKED",
    "FLEET_REVIEW" := "APPROVED",
    "TRIAGE" := "APPROVED",
    "HR_REVIEW" := "APPROVED",
    "IT_SETUP" := "IN_PROGRESS"
  ]

  /** The request types that have a workflow. */
  predicate HasWorkflow(requestType: string) {
    requestType == "CAR_BOOKING" || requestType == "IT" || requestType == "ONBOARDING"
  }

  ghost predicate StepIdsDistinct(steps: seq<Step>) {
    forall i, j :: 0 <= i < j < |steps| ==> steps[i].id != steps[j].id
  }

  /** `getWorkflow`: the table entry, or `null` for a type without one. */
  function GetWorkflow(requestType: string): (w: Option<Workflow>)
    ensures w.Some? <==> HasWorkflow(requestType)
    ensures w.Some? ==> w.value.requestType == requestType && |w.value.steps| == 4
    ensures w.Some? ==> w.value.steps[0].id == w.value.defaultStep == "SUBMITTED"
    ensures w.Some? ==> w.value.steps[3].id == "COMPLETED" && StepIdsDistinct(w.value.steps)
  {
    if requestType == "CAR_BOOKING" then Some(CarBookingWorkflow)
    else if requestType == "IT" then Some(ITWorkflow)
    else if requestType == "ONBOARDING" then Some(OnboardingWorkflow)
    else None
  }

  /** The steps of a type's workflow, empty for a type without one. */
  function StepsOf(requestType: string): seq<Step> {
    match GetWorkflow(requestType)
    case Some(w) => w.steps
    case None => []
  }

  /** `steps.findIndex(s => s.id === id)`: the first matching index, or -1. */
  function FindStepIndex(steps: seq<Step>, id: string): (i: int)
    ensures -1 <= i < |steps|
    ensures i == -1 <==> forall k :: 0 <= k < |steps| ==> steps[k].id != id
    ensures 0 <= i ==> steps[i].id == id && forall k :: 0 <= k < i ==> steps[k].id != id
  {
    if |steps| == 0 then -1
    else if steps[0].id == id then 0
    else
      var j := FindStepIndex(steps[1..], id);
      if j == -1 then -1 else j + 1
  }

  /** `getNextStep`: the step after `currentStep`, or `null`. */
  function GetNextStep(requestType: string, currentStep: string): (r: Option<Step>)
    ensures r.Some? <==>
      exists i :: 0 <= i < |StepsOf(requestType)| - 1 && StepsOf(requestType)[i].id == currentStep
    ensures forall i :: 0 <= i < |StepsOf(requestType)| - 1 && StepsOf(requestType)[i].id == currentStep ==>
      r == Some(StepsOf(requestType)[i + 1])
  {
    match GetWorkflow(requestType)
    case None => None
    case Some(w) =>
      var i := FindStepIndex(w.steps, currentStep);
      if i == -1 || i == |w.steps| - 1 then None
      else
        assert 0 <= i < |StepsOf(requestType)| - 1 && StepsOf(requestType)[i].id == currentStep;
        Some(w.steps[i + 1])
  }

  /** `mapWorkflowStatusToRequestStatus`: unmapped values pass through unchanged. */
  function MapWorkflowStatusToRequestStatus(stepStatus: string): (r: string)
    ensures stepStatus in StatusMap ==> r == StatusMap[stepStatus]
    ensures stepStatus !in StatusMap ==> r == stepStatus
  {
    if stepStatus in StatusMap then StatusMap[stepStatus] else stepStatus
  }

  /** `workflow.steps.find(s => s.id === stepId)`. */
  function FindStep(requestType: string, stepId: string): (r: Option<Step>)
    ensures r.Some? <==> exists k :: 0 <= k < |StepsOf(requestType)| && StepsOf(requestType)[k].id == stepId
    ensures r.Some? ==> r.value in StepsOf(requestType) && r.value.id == stepId
  {
    var steps := StepsOf(requestType);
    var i := FindStepIndex(steps, stepId);
    if i == -1 then None else Some(steps[i])
  }

  /** The canonical request status of a defined step of a workflow. */
  ghost predicate IsCanonicalStatusOf(requestType: string, stepId: string, status: string) {
    exists k :: 0 <= k < |StepsOf(requestType)| && StepsOf(requestType)[k].id == stepId &&
      status == MapWorkflowStatusToRequestStatus(StepsOf(requestType)[k].status)
  }

  /**
   * `getStatusFromWorkflowStep`: the mapped status of the step, and 'PENDING' when the type has
   * no workflow, the step is empty or it is not a step of the workflow.
   */
  function GetStatusFromWorkflowStep(requestType: string, stepId: string): (r: string)
    ensures r in ValidStatuses
    ensures r != "REJECTED" && r != "CANCELLED"
    ensures !HasWorkflow(requestType) || stepId == "" ==> r == "PENDING"
    ensures FindStep(requestType, stepId).None? ==> r == "PENDING"
    ensures stepId != "" && FindStep(requestType, stepId).Some? ==> IsCanonicalStatusOf(requestType, stepId, r)
  {
    match GetWorkflow(requestType)
    case None => "PENDING"
    case Some(w) =>
      if stepId == "" then "PENDING"
      else match FindStep(requestType, stepId)
        case None => "PENDING"
        case Some(step) =>
          StepStatusIsMapped(requestType, step);
          MapWorkflowStatusToRequestStatus(step.status)
  }

  /** Every step status of the table maps to a valid, non-terminal request status. */
  lemma StepStatusIsMapped(requestType: string, step: Step)
    requires step in StepsOf(requestType)
    ensures step.status in StatusMap
    ensures MapWorkflowStatusToRequestStatus(step.status) in ValidStatuses
    ensures MapWorkflowStatusToRequestStatus(step.status) !in {"REJECTED", "CANCELLED"}
  {
    var steps := StepsOf(requestType);
    assert step == steps[0] || step == steps[1] || step == steps[2] || step == steps[3];
    assert step.status in {"SUBMITTED", "BOOKED", "IN_REVIEW", "IN_PROGRESS", "COMPLETED"};
    assert StatusMap["SUBMITTED"] == "PENDING" && StatusMap["BOOKED"] == "BOOKED" && StatusMap["IN_REVIEW"] == "APPROVED";
    assert StatusMap["IN_PROGRESS"] == "IN_PROGRESS" && StatusMap["COMPLETED"] == "COMPLETED";
  }

  /** The step after the one at index i is the one at index i + 1; the last step has none. */
  lemma NextStepAt(requestType: string, i: nat)
    requires HasWorkflow(requestType)
    requires i < |StepsOf(requestType)|
    ensures GetNextStep(requestType, StepsOf(requestType)[i].id) ==
      if i + 1 < |StepsOf(requestType)| then Some(StepsOf(requestType)[i + 1]) else None
  {
  }

  /** A type without a workflow, or a step id that is not in it, has no next step. */
  lemma NextStepUnknown(requestType: string, currentStep: string)
    requires forall k :: 0 <= k < |StepsOf(requestType)| ==> StepsOf(requestType)[k].id != currentStep
    ensures GetNextStep(requestType, currentStep).None?
  {
  }
}

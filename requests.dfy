/**
 * A row of the `requests` table as the engine reads it, lookups over the table, and the
 * status normaliser that recomputes a row's status from its workflow step.
 * Empty strings stand for SQL NULL and for an absent JavaScript property.
 */
module Requests {
  import opened Wrappers
  import opened WorkflowCatalog

  datatype Request = Request(
    id: int,
    requestType: string,
    title: string,
    description: string,
    status: string,
    employeeId: int,
    assignedRole: string,
    workflowStatus: string,
    currentStep: string,
    parentRequestId: Option<int>,
    systemKey: string,
    requestScope: string)

  /** The onboarding child request types. */
  predicate IsChildType(requestType: string) {
    requestType == "ONBOARDING_EMAIL" || requestType == "ONBOARDING_DEVICE" || requestType == "ONBOARDING_SYSTEM"
  }

  /** REJECTED and CANCELLED are terminal: the normaliser never touches them. */
  predicate IsTerminal(status: string) {
    status == "REJECTED" || status == "CANCELLED"
  }

  /** `request.currentStep || request.workflowStatus`. */
  function StepId(r: Request): (s: string)
    ensures s == "" <==> r.currentStep == "" && r.workflowStatus == ""
  {
    if r.currentStep != "" then r.currentStep else r.workflowStatus
  }

  /**
   * `normalizeRequestStatus` as a value: the row with its status recomputed from its step,
   * except for types without a workflow, terminal statuses and rows without a step.
   */
  function Normalize(r: Request): (n: Request)
    ensures n == r.(status := n.status)
    ensures IsTerminal(r.status) ==> n == r
    ensures !HasWorkflow(r.requestType) ==> n == r
    ensures StepId(r) == "" ==> n == r
    ensures HasWorkflow(r.requestType) && !IsTerminal(r.status) && StepId(r) != "" ==>
      n.status == GetStatusFromWorkflowStep(r.requestType, StepId(r))
    ensures n.status in ValidStatuses || n.status == r.status
  {
    if !HasWorkflow(r.requestType) || IsTerminal(r.status) then r
    else
      var stepId := StepId(r);
      if stepId == "" then r
      else
        var correct := GetStatusFromWorkflowStep(r.requestType, stepId);
        if r.status != correct then r.(status := correct) else r
  }

  /** Normalising twice is the same as normalising once. */
  lemma NormalizeIdempotent(r: Request)
    ensures Normalize(Normalize(r)) == Normalize(r)
  {
  }

  /** After normalisation a non-terminal, step-driven row's status is derivable from its step. */
  lemma NormalizedStatusIsDerivable(r: Request)
    requires HasWorkflow(r.requestType) && !IsTerminal(r.status) && StepId(r) != ""
    ensures Normalize(r).status == GetStatusFromWorkflowStep(r.requestType, StepId(r))
    ensures !IsTerminal(Normalize(r).status)
  {
  }

  /** The first row with the given id (ids are primary keys, so the only one). */
  function FindIndexById(rows: seq<Request>, id: int): (r: Option<nat>)
    ensures r.None? <==> forall k :: 0 <= k < |rows| ==> rows[k].id != id
    ensures r.Some? ==> r.value < |rows| && rows[r.value].id == id
    ensures r.Some? ==> forall k :: 0 <= k < r.value ==> rows[k].id != id
  {
    if |rows| == 0 then None
    else if rows[0].id == id then Some(0)
    else match FindIndexById(rows[1..], id)
      case None => None
      case Some(j) => Some(j + 1)
  }

  /** The status of the row with the given id, as an INNER JOIN on `requests` reads it. */
  function StatusOf(rows: seq<Request>, id: int): (s: Option<string>)
    ensures s.None? <==> forall k :: 0 <= k < |rows| ==> rows[k].id != id
    ensures s.Some? ==> exists k :: 0 <= k < |rows| && rows[k].id == id && rows[k].status == s.value
  {
    match FindIndexById(rows, id)
    case None => None
    case Some(i) => Some(rows[i].status)
  }

  /** Row ids strictly increase along the table (auto-increment keys). */
  ghost predicate IdsIncreasing(rows: seq<Request>) {
    forall i, j :: 0 <= i < j < |rows| ==> rows[i].id < rows[j].id
  }

  /** With increasing ids, the row found for an id is the unique row with that id. */
  lemma FindIndexUnique(rows: seq<Request>, k: nat)
    requires IdsIncreasing(rows) && k < |rows|
    ensures FindIndexById(rows, rows[k].id) == Some(k)
  {
  }
}

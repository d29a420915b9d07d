/**
 * The decision logic of the status-patch handler: who may patch a request, which columns the
 * UPDATE writes, and the row that results.
 */
module StatusPatch {
  import opened Wrappers
  import opened JsText
  import opened WorkflowCatalog
  import opened Requests

  /** The JSON body of the patch; an empty string is an absent or empty property. */
  datatype PatchBody = PatchBody(status: string, workflowStatus: string, currentStep: string, note: string)

  /** The authenticated caller. */
  datatype Actor = Actor(id: int, role: string)

  // The handler's error messages.
  const AlreadyClosedMessage := "Cannot cancel a booking that is already cancelled or completed"
  const ReasonRequiredMessage := "A cancellation reason is required"
  const NotOwnBookingMessage := "You can only cancel your own bookings"
  const HrOnboardingMessage := "HR Admin can view but not edit onboarding requests. Only IT Admin can update."
  const OnboardingDeniedMessage := "You do not have permission to update this onboarding request"
  const NotAssignedMessage := "You can only update requests assigned to your role"
  const HrITMessage := "HR Admin can view but not edit IT requests. Only IT Admin or assigned admin can update."
  const ITDeniedMessage := "Only IT Admin or assigned admin can update this IT request"
  const FleetOnlyMessage := "Only Fleet Admin can update car booking requests"

  predicate IsCancellation(r: Request, body: PatchBody) {
    r.requestType == "CAR_BOOKING" && body.status == "CANCELLED"
  }

  /** The booking-cancellation checks, made before any role rule. */
  function CancellationCheck(r: Request, body: PatchBody, actor: Actor): (o: Outcome<HttpError>)
    ensures o.Pass? <==> CancellationPermitted(r, body, actor)
    ensures o.Fail? ==> o.error.code == 400 || o.error.code == 403
    ensures IsCancellation(r, body) && (r.status == "CANCELLED" || r.status == "COMPLETED") ==>
      o == Fail(HttpError(400, AlreadyClosedMessage))
    ensures IsCancellation(r, body) && r.status != "CANCELLED" && r.status != "COMPLETED" && IsBlank(body.note) ==>
      o == Fail(HttpError(400, ReasonRequiredMessage))
    ensures IsCancellation(r, body) && r.status != "CANCELLED" && r.status != "COMPLETED" && !IsBlank(body.note) &&
            actor.role != "FLEET_ADMIN" && actor.role != "SUPER_ADMIN" && !(actor.role == "EMPLOYEE" && r.employeeId == actor.id) ==>
      o == Fail(HttpError(403, NotOwnBookingMessage))
  {
    if !IsCancellation(r, body) then Pass
    else if r.status == "CANCELLED" || r.status == "COMPLETED" then
      Fail(HttpError(400, AlreadyClosedMessage))
    else if IsBlank(body.note) then
      Fail(HttpError(400, ReasonRequiredMessage))
    else if actor.role == "FLEET_ADMIN" || actor.role == "SUPER_ADMIN" then Pass
    else if actor.role == "EMPLOYEE" && r.employeeId == actor.id then Pass
    else Fail(HttpError(403, NotOwnBookingMessage))
  }

  /** The role rules per request type; SUPER_ADMIN skips all of them. */
  function RoleCheck(r: Request, body: PatchBody, actor: Actor): (o: Outcome<HttpError>)
    ensures o.Pass? <==> RolePermitted(r, body, actor)
    ensures o.Fail? ==> o.error.code == 403
  {
    var role := actor.role;
    if role == "SUPER_ADMIN" then Pass
    else if r.requestType == "ONBOARDING" then
      if role == "HR_ADMIN" then
        Fail(HttpError(403, HrOnboardingMessage))
      else if role == "IT_ADMIN" then Pass
      else Fail(HttpError(403, OnboardingDeniedMessage))
    else if IsChildType(r.requestType) then
      if r.assignedRole != role then Fail(HttpError(403, NotAssignedMessage))
      else Pass
    else if r.requestType == "IT" then
      if role == "HR_ADMIN" then
        Fail(HttpError(403, HrITMessage))
      else if role != "IT_ADMIN" && r.assignedRole != role then
        Fail(HttpError(403, ITDeniedMessage))
      else Pass
    else if r.requestType == "CAR_BOOKING" then
      if body.status != "CANCELLED" && role != "FLEET_ADMIN" && role != "SUPER_ADMIN" then
        Fail(HttpError(403, FleetOnlyMessage))
      else Pass
    else Pass
  }

  /** An explicit status must be one of the valid statuses. */
  function StatusCheck(body: PatchBody): (o: Outcome<HttpError>)
    ensures o.Pass? <==> body.status == "" || body.status in ValidStatuses
    ensures o.Fail? ==> o.error.code == 400
  {
    if body.status != "" && body.status !in ValidStatuses then
      Fail(HttpError(400, "Invalid status. Valid statuses: " + Join(ValidStatuses, ", ")))
    else Pass
  }

  /** All checks of the handler before the UPDATE, in the order the handler makes them. */
  function AuthorizePatch(r: Request, body: PatchBody, actor: Actor): (o: Outcome<HttpError>)
    ensures o.Pass? <==> PatchPermitted(r, body, actor) && (body.status == "" || body.status in ValidStatuses)
    ensures o.Fail? ==> o.error.code == 400 || o.error.code == 403
    ensures IsCancellation(r, body) && (r.status == "CANCELLED" || r.status == "COMPLETED") ==> o.Fail? && o.error.code == 400
    ensures !IsCancellation(r, body) && actor.role == "SUPER_ADMIN" ==>
      (o.Pass? <==> body.status == "" || body.status in ValidStatuses)
  {
    var c := CancellationCheck(r, body, actor);
    if c.Fail? then c
    else
      var rc := RoleCheck(r, body, actor);
      if rc.Fail? then rc else StatusCheck(body)
  }

  /**
   * The access policy stated rule by rule: a booking cancellation needs a live booking, a
   * reason and a fleet, super or owning caller; then, unless the caller is SUPER_ADMIN, an
   * onboarding parent needs IT_ADMIN, a child request its assigned role, an IT request IT_ADMIN
   * or its assigned role (never HR_ADMIN), and any other booking update FLEET_ADMIN.
   */
  ghost predicate PatchPermitted(r: Request, body: PatchBody, actor: Actor) {
    CancellationPermitted(r, body, actor) && RolePermitted(r, body, actor)
  }

  ghost predicate CancellationPermitted(r: Request, body: PatchBody, actor: Actor) {
    var role := actor.role;
    IsCancellation(r, body) ==>
      && r.status != "CANCELLED" && r.status != "COMPLETED"
      && !IsBlank(body.note)
      && (role == "FLEET_ADMIN" || role == "SUPER_ADMIN" || (role == "EMPLOYEE" && r.employeeId == actor.id))
  }

  ghost predicate RolePermitted(r: Request, body: PatchBody, actor: Actor) {
    var role := actor.role;
    role != "SUPER_ADMIN" ==>
      && (r.requestType == "ONBOARDING" ==> role == "IT_ADMIN")
      && (IsChildType(r.requestType) ==> r.assignedRole == role)
      && (r.requestType == "IT" ==> role != "HR_ADMIN" && (role == "IT_ADMIN" || r.assignedRole == role))
      && (r.requestType == "CAR_BOOKING" && body.status != "CANCELLED" ==> role == "FLEET_ADMIN")
  }

  // ---------------- The UPDATE's column list ----------------

  datatype Column = AssignedRoleColumn | StatusColumn | WorkflowStatusColumn | CurrentStepColumn

  /** One entry of `updateFields`: `column = ?` with its value, or `updated_at = CURRENT_TIMESTAMP`. */
  datatype Assignment = Assign(column: Column, value: string) | TouchUpdatedAt

  function ApplyOne(r: Request, a: Assignment): Request {
    match a
    case TouchUpdatedAt => r
    case Assign(c, v) =>
      match c
      case AssignedRoleColumn => r.(assignedRole := v)
      case StatusColumn => r.(status := v)
      case WorkflowStatusColumn => r.(workflowStatus := v)
      case CurrentStepColumn => r.(currentStep := v)
  }

  /** Running `UPDATE requests SET <fields>` on the row (set left to right). */
  function ApplyAll(r: Request, fields: seq<Assignment>): Request
    decreases |fields|
  {
    if |fields| == 0 then r else ApplyOne(ApplyAll(r, fields[..|fields| - 1]), fields[|fields| - 1])
  }

  /** No column is set twice (a duplicate would make the UPDATE ambiguous). */
  predicate ColumnsDistinct(fields: seq<Assignment>) {
    forall i, j :: 0 <= i < j < |fields| && fields[i].Assign? && fields[j].Assign? ==> fields[i].column != fields[j].column
  }

  predicate StepGiven(body: PatchBody) {
    body.currentStep != "" || body.workflowStatus != ""
  }

  /**
   * The handler's step-change test. Its row is read with `workflow_status AS
   * currentWorkflowStatus`, so the `request.workflowStatus` it compares against is undefined:
   * a body `currentStep` counts when it differs from the stored step, a body `workflowStatus`
   * counts whenever it is present.
   */
  predicate StepChanged(r: Request, body: PatchBody) {
    (body.currentStep != "" && body.currentStep != r.currentStep) || body.workflowStatus != ""
  }

  /** The step the body asks for: `currentStep || workflowStatus`. */
  function RequestedStep(body: PatchBody): string {
    if body.currentStep != "" then body.currentStep else body.workflowStatus
  }

  predicate MovesOnboardingToITSetup(r: Request, body: PatchBody, role: string) {
    r.requestType == "ONBOARDING" && (body.currentStep == "IT_SETUP" || body.workflowStatus == "IT_SETUP") &&
    (role == "HR_ADMIN" || role == "SUPER_ADMIN")
  }

  /**
   * The status column after the patch. For a step-driven type with a step in the body the
   * explicit status is never used: the step's mapped status is written when no status was given,
   * the body's step differs from the stored one, or the body names a workflow status; otherwise
   * nothing. For other types an explicit status is written.
   */
  function PatchedStatus(r: Request, body: PatchBody): string {
    if HasWorkflow(r.requestType) && StepGiven(body) then
      match FindStep(r.requestType, RequestedStep(body))
      case None => r.status
      case Some(def) =>
        if body.status == "" || StepChanged(r, body) then MapWorkflowStatusToRequestStatus(def.status) else r.status
    else if body.status != "" then body.status
    else r.status
  }

  function PatchedAssignedRole(r: Request, body: PatchBody, role: string): string {
    if MovesOnboardingToITSetup(r, body, role) then "IT_ADMIN" else r.assignedRole
  }

  /** The workflow status after the patch: the body's, or CANCELLED for a booking cancellation. */
  function PatchedWorkflowStatus(r: Request, body: PatchBody): string {
    if body.workflowStatus != "" then body.workflowStatus
    else if IsCancellation(r, body) then "CANCELLED" else r.workflowStatus
  }

  /** The current step after the patch: the body's, or CANCELLED for a booking cancellation. */
  function PatchedCurrentStep(r: Request, body: PatchBody): string {
    if body.currentStep != "" then body.currentStep
    else if IsCancellation(r, body) then "CANCELLED" else r.currentStep
  }

  /** The whole row after the patch, column by column. */
  function PatchedRequest(r: Request, body: PatchBody, role: string): Request {
    r.(assignedRole := PatchedAssignedRole(r, body, role),
       status := PatchedStatus(r, body),
       workflowStatus := PatchedWorkflowStatus(r, body),
       currentStep := PatchedCurrentStep(r, body))
  }

  /** The columns the list sets. */
  ghost predicate SetsOnly(fields: seq<Assignment>, used: set<Column>) {
    forall i :: 0 <= i < |fields| && fields[i].Assign? ==> fields[i].column in used
  }

  /** Appending one entry: applying it last, and keeping the columns distinct when it is new. */
  lemma Push(r: Request, fields: seq<Assignment>, used: set<Column>, a: Assignment)
    requires ColumnsDistinct(fields) && SetsOnly(fields, used)
    requires a.Assign? ==> a.column !in used
    ensures ApplyAll(r, fields + [a]) == ApplyOne(ApplyAll(r, fields), a)
    ensures ColumnsDistinct(fields + [a])
    ensures SetsOnly(fields + [a], if a.Assign? then used + {a.column} else used)
  {
    assert (fields + [a])[..|fields|] == fields;
  }

  /** The `assigned_role` entry, added when an onboarding parent moves to IT_SETUP. */
  method AddAssignedRoleField(r: Request, body: PatchBody, role: string, fields: seq<Assignment>, ghost used: set<Column>)
    returns (out: seq<Assignment>)
    requires ColumnsDistinct(fields) && SetsOnly(fields, used) && AssignedRoleColumn !in used
    requires ApplyAll(r, fields).assignedRole == r.assignedRole
    ensures ColumnsDistinct(out) && SetsOnly(out, used + {AssignedRoleColumn})
    ensures ApplyAll(r, out) == ApplyAll(r, fields).(assignedRole := PatchedAssignedRole(r, body, role))
  {
    out := fields;
    if r.requestType == "ONBOARDING" && (body.currentStep == "IT_SETUP" || body.workflowStatus == "IT_SETUP") {
      if role == "HR_ADMIN" || role == "SUPER_ADMIN" {
        Push(r, fields, used, Assign(AssignedRoleColumn, "IT_ADMIN"));
        out := fields + [Assign(AssignedRoleColumn, "IT_ADMIN")];
      }
    }
  }

  /** The `status` entry: the step's mapped status for a step-driven type, else the explicit status. */
  method AddStatusField(r: Request, body: PatchBody, fields: seq<Assignment>, ghost used: set<Column>)
    returns (out: seq<Assignment>)
    requires ColumnsDistinct(fields) && SetsOnly(fields, used) && StatusColumn !in used
    requires ApplyAll(r, fields).status == r.status
    ensures ColumnsDistinct(out) && SetsOnly(out, used + {StatusColumn})
    ensures ApplyAll(r, out) == ApplyAll(r, fields).(status := PatchedStatus(r, body))
  {
    out := fields;
    if StepGiven(body) && HasWorkflow(r.requestType) {
      var step := RequestedStep(body);
      var stepDef := FindStep(r.requestType, step);
      if stepDef.Some? {
        var mappedStatus := MapWorkflowStatusToRequestStatus(stepDef.value.status);
        if body.status == "" || StepChanged(r, body) {
          Push(r, fields, used, Assign(StatusColumn, mappedStatus));
          out := fields + [Assign(StatusColumn, mappedStatus)];
        }
      }
    }
    if body.status != "" && !(HasWorkflow(r.requestType) && StepGiven(body)) {
      Push(r, fields, used, Assign(StatusColumn, body.status));
      out := fields + [Assign(StatusColumn, body.status)];
    }
  }

  /** The `workflow_status` and `current_step` entries: CANCELLED for a cancellation, then the body's. */
  method AddStepFields(r: Request, body: PatchBody, fields: seq<Assignment>, ghost used: set<Column>)
    returns (out: seq<Assignment>)
    requires ColumnsDistinct(fields) && SetsOnly(fields, used)
    requires WorkflowStatusColumn !in used && CurrentStepColumn !in used
    requires ApplyAll(r, fields).workflowStatus == r.workflowStatus && ApplyAll(r, fields).currentStep == r.currentStep
    ensures ColumnsDistinct(out) && SetsOnly(out, used + {WorkflowStatusColumn, CurrentStepColumn})
    ensures ApplyAll(r, out) ==
      ApplyAll(r, fields).(workflowStatus := PatchedWorkflowStatus(r, body), currentStep := PatchedCurrentStep(r, body))
  {
    ghost var u;
    out, u := AddCancelledStepFields(r, body, fields, used);
    out := AddBodyStepFields(r, body, out, used, u);
  }

  /** The cancellation block: CANCELLED for each of the two columns the body leaves empty. */
  method AddCancelledStepFields(r: Request, body: PatchBody, fields: seq<Assignment>, ghost used: set<Column>)
    returns (out: seq<Assignment>, ghost u: set<Column>)
    requires ColumnsDistinct(fields) && SetsOnly(fields, used)
    requires WorkflowStatusColumn !in used && CurrentStepColumn !in used
    ensures ColumnsDistinct(out) && SetsOnly(out, u)
    ensures used <= u <= used + {WorkflowStatusColumn, CurrentStepColumn}
    ensures WorkflowStatusColumn in u <==> IsCancellation(r, body) && body.workflowStatus == ""
    ensures CurrentStepColumn in u <==> IsCancellation(r, body) && body.currentStep == ""
    ensures ApplyAll(r, out) == ApplyAll(r, fields).(
      workflowStatus := if WorkflowStatusColumn in u then "CANCELLED" else ApplyAll(r, fields).workflowStatus,
      currentStep := if CurrentStepColumn in u then "CANCELLED" else ApplyAll(r, fields).currentStep)
  {
    out, u := fields, used;
    if IsCancellation(r, body) {
      if body.workflowStatus == "" {
        Push(r, out, u, Assign(WorkflowStatusColumn, "CANCELLED"));
        out, u := out + [Assign(WorkflowStatusColumn, "CANCELLED")], u + {WorkflowStatusColumn};
      }
      if body.currentStep == "" {
        Push(r, out, u, Assign(CurrentStepColumn, "CANCELLED"));
        out, u := out + [Assign(CurrentStepColumn, "CANCELLED")], u + {CurrentStepColumn};
      }
    }
  }

  /** The body's own `workflowStatus` and `currentStep`, when present. */
  method AddBodyStepFields(r: Request, body: PatchBody, fields: seq<Assignment>, ghost used: set<Column>, ghost u: set<Column>)
    returns (out: seq<Assignment>)
    requires ColumnsDistinct(fields) && SetsOnly(fields, u)
    requires used <= u <= used + {WorkflowStatusColumn, CurrentStepColumn}
    requires WorkflowStatusColumn !in used && CurrentStepColumn !in used
    requires WorkflowStatusColumn in u ==> body.workflowStatus == ""
    requires CurrentStepColumn in u ==> body.currentStep == ""
    ensures ColumnsDistinct(out) && SetsOnly(out, used + {WorkflowStatusColumn, CurrentStepColumn})
    ensures ApplyAll(r, out) == ApplyAll(r, fields).(
      workflowStatus := if body.workflowStatus != "" then body.workflowStatus else ApplyAll(r, fields).workflowStatus,
      currentStep := if body.currentStep != "" then body.currentStep else ApplyAll(r, fields).currentStep)
  {
    out := fields;
    ghost var v := u;
    if body.workflowStatus != "" {
      Push(r, out, v, Assign(WorkflowStatusColumn, body.workflowStatus));
      out, v := out + [Assign(WorkflowStatusColumn, body.workflowStatus)], v + {WorkflowStatusColumn};
    }
    if body.currentStep != "" {
      Push(r, out, v, Assign(CurrentStepColumn, body.currentStep));
      out, v := out + [Assign(CurrentStepColumn, body.currentStep)], v + {CurrentStepColumn};
    }
    assert v <= used + {WorkflowStatusColumn, CurrentStepColumn};
  }

  /**
   * Builds `updateFields` as the handler does. Applying the list to the row gives
   * `PatchedRequest`, no column appears twice, and the list ends with the timestamp.
   */
  method ComputeUpdateFields(r: Request, body: PatchBody, role: string) returns (fields: seq<Assignment>)
    ensures ApplyAll(r, fields) == PatchedRequest(r, body, role)
    ensures ColumnsDistinct(fields)
    ensures |fields| >= 1 && fields[|fields| - 1] == TouchUpdatedAt
  {
    fields := AddAssignedRoleField(r, body, role, [], {});
    fields := AddStatusField(r, body, fields, {AssignedRoleColumn});
    fields := AddStepFields(r, body, fields, {AssignedRoleColumn, StatusColumn});
    Push(r, fields, {AssignedRoleColumn, StatusColumn, WorkflowStatusColumn, CurrentStepColumn}, TouchUpdatedAt);
    fields := fields + [TouchUpdatedAt];
  }

  // ---------------- What a patch does to a row ----------------

  /**
   * A patch that names a defined step of a step-driven type and carries no explicit status
   * (or changes the step) leaves a row that is consistent with its step: the normaliser
   * finds nothing to correct.
   */
  lemma StepPatchIsNormalized(r: Request, body: PatchBody, role: string)
    requires HasWorkflow(r.requestType) && body.currentStep != ""
    requires FindStep(r.requestType, body.currentStep).Some?
    requires body.status == "" || StepChanged(r, body)
    ensures PatchedRequest(r, body, role).status == GetStatusFromWorkflowStep(r.requestType, body.currentStep)
    ensures Normalize(PatchedRequest(r, body, role)) == PatchedRequest(r, body, role)
  {
    var p := PatchedRequest(r, body, role);
    var def := FindStep(r.requestType, body.currentStep).value;
    assert p.status == MapWorkflowStatusToRequestStatus(def.status);
    assert StepId(p) == body.currentStep;
  }

  /** With a step-driven type and a step in the body, an explicit status is never written as given. */
  lemma ExplicitStatusIgnoredWithStep(r: Request, body: PatchBody, role: string)
    requires HasWorkflow(r.requestType) && StepGiven(body)
    ensures PatchedRequest(r, body, role).status == r.status ||
      (FindStep(r.requestType, RequestedStep(body)).Some? &&
       PatchedRequest(r, body, role).status == MapWorkflowStatusToRequestStatus(FindStep(r.requestType, RequestedStep(body)).value.status))
    ensures body.status != "" && body.workflowStatus == "" && body.currentStep == r.currentStep ==>
      PatchedRequest(r, body, role).status == r.status
    ensures body.workflowStatus != "" && FindStep(r.requestType, RequestedStep(body)).Some? ==>
      PatchedRequest(r, body, role).status == MapWorkflowStatusToRequestStatus(FindStep(r.requestType, RequestedStep(body)).value.status)
  {
  }

  /**
   * A body `workflowStatus` equal to the stored one still counts as a step change: an IT row at
   * TRIAGE patched with an explicit IN_PROGRESS and workflow status TRIAGE gets TRIAGE's mapped
   * status, APPROVED, and the explicit status is dropped.
   */
  lemma SameWorkflowStatusCountsAsChange()
    ensures var r := Request(1, "IT", "t", "d", "PENDING", 7, "IT_ADMIN", "TRIAGE", "TRIAGE", None, "", "IT");
            var body := PatchBody("IN_PROGRESS", "TRIAGE", "", "");
            StepChanged(r, body) && PatchedRequest(r, body, "IT_ADMIN").status == "APPROVED"
  {
    assert ITWorkflow.steps[1].id == "TRIAGE";
    assert FindStep("IT", "TRIAGE") == Some(ITWorkflow.steps[1]);
  }

  /** A child request (no workflow of its own) takes an explicit status verbatim. */
  lemma ChildTakesExplicitStatus(r: Request, body: PatchBody, role: string)
    requires IsChildType(r.requestType) && body.status != ""
    ensures PatchedRequest(r, body, role).status == body.status
  {
  }

  /** Cancelling a booking without naming a step sets status, workflow status and step to CANCELLED, and it stays so. */
  lemma CancellationMarksAllCancelled(r: Request, body: PatchBody, role: string)
    requires IsCancellation(r, body) && !StepGiven(body)
    ensures PatchedRequest(r, body, role).status == "CANCELLED"
    ensures PatchedRequest(r, body, role).workflowStatus == "CANCELLED"
    ensures PatchedRequest(r, body, role).currentStep == "CANCELLED"
    ensures Normalize(PatchedRequest(r, body, role)) == PatchedRequest(r, body, role)
  {
  }

  /** Once authorised, only a SUPER_ADMIN patch can change the assigned role (the HR_ADMIN branch is unreachable). */
  lemma AssignedRoleChangeNeedsSuperAdmin(r: Request, body: PatchBody, actor: Actor)
    requires AuthorizePatch(r, body, actor).Pass?
    requires PatchedRequest(r, body, actor.role).assignedRole != r.assignedRole
    ensures actor.role == "SUPER_ADMIN"
    ensures PatchedRequest(r, body, actor.role).assignedRole == "IT_ADMIN"
  {
  }

  /** An EMPLOYEE can never patch an IT request routed to an admin role. */
  lemma EmployeeCannotPatchAssignedIT(r: Request, body: PatchBody, actor: Actor)
    requires r.requestType == "IT" && actor.role == "EMPLOYEE" && r.assignedRole != "EMPLOYEE"
    ensures AuthorizePatch(r, body, actor) == Fail(HttpError(403, ITDeniedMessage))
  {
  }

  /**
   * A patch that names only a workflow status moves `workflow_status` and the status but not
   * `current_step`; the normaliser reads `currentStep` first and puts the status back.
   */
  lemma WorkflowStatusOnlyPatchIsUndone()
    ensures var r := Request(1, "IT", "t", "d", "PENDING", 7, "IT_ADMIN", "SUBMITTED", "SUBMITTED", None, "", "IT");
            var p := PatchedRequest(r, PatchBody("", "TRIAGE", "", ""), "IT_ADMIN");
            p.status == "APPROVED" && p.workflowStatus == "TRIAGE" && p.currentStep == "SUBMITTED" &&
            Normalize(p).status == "PENDING"
  {
    var r := Request(1, "IT", "t", "d", "PENDING", 7, "IT_ADMIN", "SUBMITTED", "SUBMITTED", None, "", "IT");
    var body := PatchBody("", "TRIAGE", "", "");
    assert ITWorkflow.steps[1].id == "TRIAGE";
    assert FindStep("IT", "TRIAGE") == Some(ITWorkflow.steps[1]);
    assert FindStep("IT", "SUBMITTED") == Some(ITWorkflow.steps[0]);
  }
}

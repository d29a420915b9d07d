/**
 * The onboarding fan-out as values: the normalised payload, the planned child requests in
 * insertion order, the rows each insert adds and the parent row.
 */
module Onboarding {
  import opened Wrappers
  import opened JsText
  import opened WorkflowCatalog
  import opened Requests
  import opened Routing
  import opened Validation

  /**
   * The onboarding form. `emailNeeded`/`deviceNeeded` are `None` when the property is
   * undefined and otherwise hold its truthiness; `systemsRequested` is `None` when not an array.
   */
  datatype OnboardingPayload = OnboardingPayload(
    requesterName: string,
    department: string,
    employeeName: string,
    position: string,
    location: string,
    startDate: string,
    deviceType: string,
    vpnRequired: bool,
    notes: string,
    emailNeeded: Option<bool>,
    deviceNeeded: Option<bool>,
    systemsRequested: Option<seq<string>>)

  const OnboardingRequiredFields: seq<string> := ["requesterName", "employeeName", "position", "startDate"]

  /** The string properties of the body that the required-field check looks at. */
  function PayloadBody(p: OnboardingPayload): map<string, JsValue> {
    StringBody(map["requesterName" := p.requesterName, "employeeName" := p.employeeName,
                   "position" := p.position, "startDate" := p.startDate])
  }

  predicate NeedsEmail(p: OnboardingPayload) {
    p.emailNeeded.Some? && p.emailNeeded.value
  }

  /** An explicit `deviceNeeded` wins; otherwise a non-blank legacy `deviceType` asks for a device. */
  predicate NeedsDevice(p: OnboardingPayload) {
    if p.deviceNeeded.Some? then p.deviceNeeded.value else !IsBlank(p.deviceType)
  }

  function Systems(p: OnboardingPayload): seq<string> {
    if p.systemsRequested.Some? then p.systemsRequested.value else []
  }

  function ExpectedChildCount(p: OnboardingPayload): nat {
    (if NeedsEmail(p) then 1 else 0) + (if NeedsDevice(p) then 1 else 0) + |Systems(p)|
  }

  /** Display names of the known systems; an unknown key is shown as itself. */
  const SystemNames: map<string, string> := map[
    "M365" := "Microsoft 365",
    "POWER_BI" := "Power BI Pro",
    "ACONEX" := "Aconex",
    "AUTODESK" := "Autodesk",
    "P6" := "Primavera P6",
    "RISK" := "RiskHive"
  ]

  function SystemName(key: string): string {
    if key in SystemNames then SystemNames[key] else key
  }

  /** What one child INSERT writes besides the columns shared by every child. */
  datatype ChildSpec = ChildSpec(requestType: string, title: string, description: string, assignedRole: string, systemKey: string)

  function DeviceLabel(p: OnboardingPayload): string {
    if p.deviceType != "" then p.deviceType else "Device"
  }

  function EmailChild(p: OnboardingPayload): ChildSpec {
    ChildSpec("ONBOARDING_EMAIL", "Email Setup: " + p.employeeName,
              "Email account setup for " + p.employeeName + " (" + p.position + ")",
              "IT_DEVICES_EMAIL_ADMIN", "")
  }

  function DeviceChild(p: OnboardingPayload): ChildSpec {
    ChildSpec("ONBOARDING_DEVICE", "Device Setup: " + DeviceLabel(p) + " for " + p.employeeName,
              "Device setup for " + p.employeeName + " (" + p.position + ")\nDevice: " + DeviceLabel(p) +
              "\nVPN: " + (if p.vpnRequired then "Yes" else "No"),
              "IT_DEVICES_EMAIL_ADMIN", "")
  }

  function SystemChild(p: OnboardingPayload, key: string): ChildSpec {
    ChildSpec("ONBOARDING_SYSTEM", "System Access: " + SystemName(key) + " for " + p.employeeName,
              "System access request for " + p.employeeName + " (" + p.position + ")\nSystem: " + SystemName(key),
              SystemRole(key), key)
  }

  /** The children in the order the handler issues their INSERTs: email, device, then one per system. */
  function ChildPlan(p: OnboardingPayload): (plan: seq<ChildSpec>)
    ensures |plan| == ExpectedChildCount(p)
  {
    (if NeedsEmail(p) then [EmailChild(p)] else []) +
    (if NeedsDevice(p) then [DeviceChild(p)] else []) +
    seq(|Systems(p)|, j requires 0 <= j < |Systems(p)| => SystemChild(p, Systems(p)[j]))
  }

  /** Index in the plan of the first system child. */
  function SystemOffset(p: OnboardingPayload): nat {
    (if NeedsEmail(p) then 1 else 0) + (if NeedsDevice(p) then 1 else 0)
  }

  /** A plan with the expected children in the handler's order: email, device, then the systems. */
  ghost predicate PlanMatches(p: OnboardingPayload, plan: seq<ChildSpec>) {
    && |plan| == ExpectedChildCount(p)
    && (NeedsEmail(p) ==> plan[0] == EmailChild(p))
    && (NeedsDevice(p) ==> plan[SystemOffset(p) - 1] == DeviceChild(p))
    && forall j :: 0 <= j < |Systems(p)| ==> plan[SystemOffset(p) + j] == SystemChild(p, Systems(p)[j])
  }

  /** Where each kind of child sits in the plan. */
  lemma PlanLayout(p: OnboardingPayload)
    ensures PlanMatches(p, ChildPlan(p))
  {
    if NeedsEmail(p) {
      EmailChildFirst(p);
    }
    if NeedsDevice(p) {
      DeviceChildBeforeSystems(p);
    }
    SystemChildrenLast(p);
  }

  /** The plan as its three parts: the email child, the device child and the system children. */
  lemma PlanParts(p: OnboardingPayload)
    ensures var email := if NeedsEmail(p) then [EmailChild(p)] else [];
      var device := if NeedsDevice(p) then [DeviceChild(p)] else [];
      ChildPlan(p) == email + device + seq(|Systems(p)|, j requires 0 <= j < |Systems(p)| => SystemChild(p, Systems(p)[j]))
      && |email| + |device| == SystemOffset(p)
  {
  }

  lemma EmailChildFirst(p: OnboardingPayload)
    requires NeedsEmail(p)
    ensures ChildPlan(p)[0] == EmailChild(p)
  {
    PlanParts(p);
    var device := if NeedsDevice(p) then [DeviceChild(p)] else [];
    var sys := seq(|Systems(p)|, j requires 0 <= j < |Systems(p)| => SystemChild(p, Systems(p)[j]));
    ThreePartIndex([EmailChild(p)], device, sys);
  }

  lemma DeviceChildBeforeSystems(p: OnboardingPayload)
    requires NeedsDevice(p)
    ensures ChildPlan(p)[SystemOffset(p) - 1] == DeviceChild(p)
  {
    PlanParts(p);
    var email := if NeedsEmail(p) then [EmailChild(p)] else [];
    var sys := seq(|Systems(p)|, j requires 0 <= j < |Systems(p)| => SystemChild(p, Systems(p)[j]));
    ThreePartIndex(email, [DeviceChild(p)], sys);
  }

  lemma SystemChildrenLast(p: OnboardingPayload)
    ensures forall j :: 0 <= j < |Systems(p)| ==> ChildPlan(p)[SystemOffset(p) + j] == SystemChild(p, Systems(p)[j])
  {
    forall j | 0 <= j < |Systems(p)|
      ensures ChildPlan(p)[SystemOffset(p) + j] == SystemChild(p, Systems(p)[j])
    {
      SystemChildAt(p, j);
    }
  }

  lemma SystemChildAt(p: OnboardingPayload, j: nat)
    requires j < |Systems(p)|
    ensures ChildPlan(p)[SystemOffset(p) + j] == SystemChild(p, Systems(p)[j])
  {
    PlanParts(p);
    var head := (if NeedsEmail(p) then [EmailChild(p)] else []) + (if NeedsDevice(p) then [DeviceChild(p)] else []);
    var sys := seq(|Systems(p)|, k requires 0 <= k < |Systems(p)| => SystemChild(p, Systems(p)[k]));
    assert ChildPlan(p) == head + sys;
    assert |head| == SystemOffset(p);
    assert (head + sys)[|head| + j] == sys[j];
  }

  /** Indexing into a three-part concatenation. */
  lemma ThreePartIndex<T>(a: seq<T>, b: seq<T>, c: seq<T>)
    ensures forall i :: 0 <= i < |a| ==> (a + b + c)[i] == a[i]
    ensures forall i :: 0 <= i < |b| ==> (a + b + c)[|a| + i] == b[i]
    ensures forall j :: 0 <= j < |c| ==> (a + b + c)[|a| + |b| + j] == c[j]
  {
  }

  /**
   * Every planned child is routed as the handler routes it: email and device children to the
   * devices/email admin, the system child for key k to `SYSTEM_TO_ROLE[k]` or IT_ADMIN.
   */
  lemma PlanRouting(p: OnboardingPayload)
    ensures forall j :: 0 <= j < |Systems(p)| ==> ChildPlan(p)[SystemOffset(p) + j].assignedRole == SystemRole(Systems(p)[j])
    ensures forall i :: 0 <= i < |ChildPlan(p)| ==>
      IsChildType(ChildPlan(p)[i].requestType) &&
      (ChildPlan(p)[i].assignedRole == "IT_DEVICES_EMAIL_ADMIN" <==> ChildPlan(p)[i].requestType != "ONBOARDING_SYSTEM")
  {
    PlanLayout(p);
    var plan := ChildPlan(p);
    forall i | 0 <= i < |plan|
      ensures IsChildType(plan[i].requestType)
      ensures plan[i].assignedRole == "IT_DEVICES_EMAIL_ADMIN" <==> plan[i].requestType != "ONBOARDING_SYSTEM"
    {
      if i >= SystemOffset(p) {
        assert plan[i] == SystemChild(p, Systems(p)[i - SystemOffset(p)]);
      } else if NeedsEmail(p) && i == 0 {
        assert plan[i] == EmailChild(p);
      } else {
        assert plan[i] == DeviceChild(p);
      }
    }
  }

  /**
   * The status every child is inserted with. The handler computes it as the status of the IT
   * workflow's SUBMITTED step; ChildStatusIsPending shows the two agree.
   */
  const ChildStatus := "PENDING"

  /** The row a successful child INSERT adds. */
  function ChildRow(spec: ChildSpec, id: int, parentId: int, employeeId: int): Request {
    Request(id, spec.requestType, spec.title, spec.description, ChildStatus,
            employeeId, spec.assignedRole, "SUBMITTED", "SUBMITTED", Some(parentId), spec.systemKey, "ONBOARDING")
  }

  /**
   * The rows the planned INSERTs add when the attempts numbered in `failing` fail: the
   * successful ones in plan order, with consecutive ids from `firstId`.
   */
  function InsertedChildren(plan: seq<ChildSpec>, failing: set<nat>, firstId: int, parentId: int, employeeId: int): seq<Request>
    decreases |plan|
  {
    if |plan| == 0 then []
    else
      var prev := InsertedChildren(plan[..|plan| - 1], failing, firstId, parentId, employeeId);
      if |plan| - 1 in failing then prev
      else prev + [ChildRow(plan[|plan| - 1], firstId + |prev|, parentId, employeeId)]
  }

  /** The number of attempts among the first n that fail. */
  function FailedCount(failing: set<nat>, n: nat): nat {
    if n == 0 then 0 else FailedCount(failing, n - 1) + (if n - 1 in failing then 1 else 0)
  }

  /** Each attempt either inserts its row or is counted as failed. */
  lemma {:induction false} InsertedCount(plan: seq<ChildSpec>, failing: set<nat>, firstId: int, parentId: int, employeeId: int)
    ensures |InsertedChildren(plan, failing, firstId, parentId, employeeId)| + FailedCount(failing, |plan|) == |plan|
    decreases |plan|
  {
    if |plan| > 0 {
      InsertedCount(plan[..|plan| - 1], failing, firstId, parentId, employeeId);
    }
  }

  /** The planned children whose attempts do not fail, in plan order. */
  function Survivors(plan: seq<ChildSpec>, failing: set<nat>): seq<ChildSpec>
    decreases |plan|
  {
    if |plan| == 0 then []
    else Survivors(plan[..|plan| - 1], failing) + (if |plan| - 1 in failing then [] else [plan[|plan| - 1]])
  }

  /**
   * The inserted rows are exactly the surviving planned children, in order, with consecutive
   * ids from `firstId`; each is a pending SUBMITTED child of the parent.
   */
  lemma {:induction false} InsertedAreSurvivors(plan: seq<ChildSpec>, failing: set<nat>, firstId: int, parentId: int, employeeId: int)
    ensures |InsertedChildren(plan, failing, firstId, parentId, employeeId)| == |Survivors(plan, failing)|
    ensures forall k :: 0 <= k < |Survivors(plan, failing)| ==>
      InsertedChildren(plan, failing, firstId, parentId, employeeId)[k] == ChildRow(Survivors(plan, failing)[k], firstId + k, parentId, employeeId)
    decreases |plan|
  {
    if |plan| > 0 {
      InsertedAreSurvivors(plan[..|plan| - 1], failing, firstId, parentId, employeeId);
    }
  }

  /** A child row is a pending child of its parent at the IT workflow's first step. */
  lemma ChildRowShape(spec: ChildSpec, id: int, parentId: int, employeeId: int)
    ensures ChildRow(spec, id, parentId, employeeId).status == GetStatusFromWorkflowStep("IT", "SUBMITTED") == "PENDING"
    ensures ChildRow(spec, id, parentId, employeeId).workflowStatus == "SUBMITTED"
    ensures ChildRow(spec, id, parentId, employeeId).currentStep == "SUBMITTED"
    ensures ChildRow(spec, id, parentId, employeeId).parentRequestId == Some(parentId)
  {
    ChildStatusIsPending();
  }

  /** With no failed insert, the inserted rows are the plan, one to one, with ids firstId, firstId+1, ... */
  lemma {:induction false} NoFailureInsertsPlan(plan: seq<ChildSpec>, firstId: int, parentId: int, employeeId: int)
    ensures |InsertedChildren(plan, {}, firstId, parentId, employeeId)| == |plan|
    ensures forall k :: 0 <= k < |plan| ==>
      InsertedChildren(plan, {}, firstId, parentId, employeeId)[k] == ChildRow(plan[k], firstId + k, parentId, employeeId)
    decreases |plan|
  {
    if |plan| > 0 {
      NoFailureInsertsPlan(plan[..|plan| - 1], firstId, parentId, employeeId);
    }
  }

  /**
   * The status the parent is inserted with. The handler computes it as the status of the
   * ONBOARDING workflow's HR_SUBMITTED step; ParentStepsFallBackToPending shows the two agree.
   */
  const ParentStatus := "PENDING"

  /** The parent as first inserted: step HR_SUBMITTED, assigned to IT_ADMIN. */
  function ParentRow(p: OnboardingPayload, id: int, employeeId: int): Request {
    Request(id, "ONBOARDING", "Onboarding for " + p.employeeName,
            "Position: " + p.position + " - Start: " + p.startDate,
            ParentStatus, employeeId, "IT_ADMIN",
            "HR_SUBMITTED", "HR_SUBMITTED", None, "", "ONBOARDING")
  }

  /** The parent UPDATE issued when at least one child was expected. */
  function FastForward(parent: Request): Request {
    parent.(workflowStatus := "IT_IN_PROGRESS", currentStep := "IT_IN_PROGRESS", status := "IN_PROGRESS")
  }

  /** The parent's row once the handler is done: fast-forwarded iff some child was expected. */
  function FinalParent(p: OnboardingPayload, id: int, employeeId: int): (r: Request)
    ensures ExpectedChildCount(p) > 0 ==>
      r.status == "IN_PROGRESS" && r.workflowStatus == "IT_IN_PROGRESS" && r.currentStep == "IT_IN_PROGRESS"
    ensures ExpectedChildCount(p) == 0 ==>
      r.status == "PENDING" && r.workflowStatus == "HR_SUBMITTED" && r.currentStep == "HR_SUBMITTED"
    ensures r.id == id && r.requestType == "ONBOARDING" && r.assignedRole == "IT_ADMIN" && r.parentRequestId.None?
  {
    var parent := ParentRow(p, id, employeeId);
    if ExpectedChildCount(p) > 0 then FastForward(parent) else parent
  }

  /**
   * Neither parent step belongs to the ONBOARDING workflow, so both map to PENDING, and the
   * normaliser turns a fast-forwarded parent's IN_PROGRESS back into PENDING.
   */
  lemma ParentStepsFallBackToPending(p: OnboardingPayload, id: int, employeeId: int)
    ensures GetStatusFromWorkflowStep("ONBOARDING", "HR_SUBMITTED") == ParentStatus == "PENDING"
    ensures GetStatusFromWorkflowStep("ONBOARDING", "IT_IN_PROGRESS") == "PENDING"
    ensures Normalize(FinalParent(p, id, employeeId)).status == "PENDING"
  {
    assert FindStep("ONBOARDING", "HR_SUBMITTED").None? by {
      assert forall k :: 0 <= k < 4 ==> OnboardingWorkflow.steps[k].id != "HR_SUBMITTED";
    }
    assert FindStep("ONBOARDING", "IT_IN_PROGRESS").None? by {
      assert forall k :: 0 <= k < 4 ==> OnboardingWorkflow.steps[k].id != "IT_IN_PROGRESS";
    }
  }

  /** Every child starts at the IT workflow's first step, whose status is PENDING. */
  lemma ChildStatusIsPending()
    ensures GetStatusFromWorkflowStep("IT", "SUBMITTED") == ChildStatus == "PENDING"
  {
    assert FindStep("IT", "SUBMITTED") == Some(ITWorkflow.steps[0]);
  }

  /** An email, a device and Microsoft 365 give three children routed to the devices admin twice and the M365 admin. */
  lemma ThreeChildExample(p: OnboardingPayload)
    requires p.emailNeeded == Some(true) && p.deviceNeeded == Some(true) && p.systemsRequested == Some(["M365"])
    ensures |ChildPlan(p)| == 3
    ensures ChildPlan(p)[0].assignedRole == "IT_DEVICES_EMAIL_ADMIN" && ChildPlan(p)[1].assignedRole == "IT_DEVICES_EMAIL_ADMIN"
    ensures ChildPlan(p)[2].assignedRole == "IT_M365_ADMIN" && ChildPlan(p)[2].title == "System Access: Microsoft 365 for " + p.employeeName
  {
    PlanLayout(p);
    PlanRouting(p);
  }
}

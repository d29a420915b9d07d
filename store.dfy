/**
 * The database as an object: the `requests` table, the onboarding details, the audit log and
 * the auto-increment counter, with the handlers that change them. Every INSERT takes the next
 * id; an UPDATE rewrites a row in place and keeps its id.
 */
module Store {
  import opened Wrappers
  import opened JsText
  import opened WorkflowCatalog
  import opened Requests
  import opened Validation
  import opened Onboarding
  import opened StatusPatch
  import opened Visibility
  import opened Cascade

  /** A row of `request_actions`; empty strings are NULL. */
  datatype AuditEntry = AuditEntry(requestId: int, actionType: string, fromStatus: string, toStatus: string, actorId: int, note: string)

  /** A row of `onboarding_requests`. */
  datatype OnboardingDetail = OnboardingDetail(requestId: int, payload: OnboardingPayload, emailNeeded: bool, deviceNeeded: bool, systems: seq<string>)

  datatype OnboardingReply = OnboardingReply(id: int, status: string, workflowStatus: string, currentStep: string,
                                             childRequestsCount: nat, message: string)

  datatype PatchReply = PatchReply(id: int, status: string, workflowStatus: string, currentStep: string, message: string)

  /** The created-count text: `created/expected` when an insert failed, else `expected`. */
  function ChildCountText(created: nat, expected: nat, hasError: bool): string {
    if hasError then NatToString(created) + "/" + NatToString(expected) else NatToString(expected)
  }

  function OnboardingMessage(created: nat, expected: nat, hasError: bool): string {
    if hasError then
      "Onboarding created. Note: Some child requests may have failed (" + NatToString(created) + "/" + NatToString(expected) + " created)."
    else "Onboarding created with " + NatToString(expected) + " child request(s)"
  }

  function CreateNote(p: OnboardingPayload, created: nat, expected: nat, hasError: bool): string {
    "Onboarding request created for " + p.employeeName + " with " + ChildCountText(created, expected, hasError) + " child request(s)"
  }

  const AccessDenied := HttpError(403, "Access denied. Insufficient permissions.")

  /** `status || request.currentStatus`: the status the audit entry and the reply report. */
  function ReportedStatus(r: Request, body: PatchBody): string {
    if body.status != "" then body.status else r.status
  }

  /**
   * The audit entries a successful patch of row i appends: STATUS_UPDATE with the reported
   * status and the note (else a default), then AUTO_COMPLETE on the parent exactly when the
   * cascade's UPDATE runs.
   */
  function PatchLog(rows: seq<Request>, i: nat, body: PatchBody, actor: Actor): seq<AuditEntry>
    requires i < |rows|
  {
    var r := rows[i];
    var reported := ReportedStatus(r, body);
    var updated := rows[i := PatchedRequest(r, body, actor.role)];
    [AuditEntry(r.id, "STATUS_UPDATE", r.status, reported, actor.id,
                if body.note != "" then body.note else "Status updated to " + reported)] +
    (if CascadeTriggered(r, body) && r.parentRequestId.Some? && AllChildrenCompleted(updated, r.parentRequestId.value)
     then [AuditEntry(r.parentRequestId.value, "AUTO_COMPLETE", "IN_PROGRESS", "COMPLETED", actor.id, "All child requests completed")]
     else [])
  }

  /** The table after a successful patch of row i, cascade included. */
  function PatchedRows(rows: seq<Request>, i: nat, body: PatchBody, role: string): seq<Request>
    requires i < |rows|
  {
    var updated := rows[i := PatchedRequest(rows[i], body, role)];
    if CascadeTriggered(rows[i], body) && rows[i].parentRequestId.Some? then
      CascadeRows(updated, rows[i].parentRequestId.value)
    else updated
  }

  /** The elements `keep` selects, each passed through `f`, the last element first. */
  function SelectNewestFirst<T, U>(rows: seq<T>, keep: T -> bool, f: T -> U): (out: seq<U>)
    ensures |out| <= |rows|
    decreases |rows|
  {
    if |rows| == 0 then []
    else
      var last := rows[|rows| - 1];
      (if keep(last) then [f(last)] else []) + SelectNewestFirst(rows[..|rows| - 1], keep, f)
  }

  /** The rows the list query returns, newest (highest id) first, each normalised. */
  function Listing(rows: seq<Request>, role: string, userId: int, typeFilter: string, statusFilter: string): (out: seq<Request>)
    ensures |out| <= |rows|
  {
    SelectNewestFirst(rows, r => ListedFor(role, userId, r, typeFilter, statusFilter), Normalize)
  }

  /** The listing holds exactly the normalised forms of the rows that the caller's filter selects. */
  lemma ListingMembers(rows: seq<Request>, role: string, userId: int, typeFilter: string, statusFilter: string)
    ensures forall x :: x in Listing(rows, role, userId, typeFilter, statusFilter) <==>
      exists i :: 0 <= i < |rows| && ListedFor(role, userId, rows[i], typeFilter, statusFilter) && x == Normalize(rows[i])
  {
    var keep := r => ListedFor(role, userId, r, typeFilter, statusFilter);
    forall x
      ensures x in Listing(rows, role, userId, typeFilter, statusFilter) <==>
        exists i :: 0 <= i < |rows| && ListedFor(role, userId, rows[i], typeFilter, statusFilter) && x == Normalize(rows[i])
    {
      if x in SelectNewestFirst(rows, keep, Normalize) {
        SelectedHasSource(rows, keep, Normalize, x);
        var i :| 0 <= i < |rows| && keep(rows[i]) && x == Normalize(rows[i]);
        assert ListedFor(role, userId, rows[i], typeFilter, statusFilter);
      }
      if exists i :: 0 <= i < |rows| && ListedFor(role, userId, rows[i], typeFilter, statusFilter) && x == Normalize(rows[i]) {
        var i :| 0 <= i < |rows| && ListedFor(role, userId, rows[i], typeFilter, statusFilter) && x == Normalize(rows[i]);
        assert keep(rows[i]);
        SourceIsSelected(rows, keep, Normalize, i);
      }
    }
  }

  /** Every selected entry is the image of a kept element. */
  lemma {:induction false} SelectedHasSource<T, U>(rows: seq<T>, keep: T -> bool, f: T -> U, x: U)
    requires x in SelectNewestFirst(rows, keep, f)
    ensures exists i :: 0 <= i < |rows| && keep(rows[i]) && x == f(rows[i])
    decreases |rows|
  {
    var last := |rows| - 1;
    var init := rows[..last];
    if keep(rows[last]) && x == f(rows[last]) {
    } else {
      assert x in SelectNewestFirst(init, keep, f);
      SelectedHasSource(init, keep, f, x);
      var i :| 0 <= i < |init| && keep(init[i]) && x == f(init[i]);
      assert rows[i] == init[i];
    }
  }

  /** Every kept element appears, through `f`, among the selected entries. */
  lemma {:induction false} SourceIsSelected<T, U>(rows: seq<T>, keep: T -> bool, f: T -> U, i: nat)
    requires i < |rows| && keep(rows[i])
    ensures f(rows[i]) in SelectNewestFirst(rows, keep, f)
    decreases |rows|
  {
    var last := |rows| - 1;
    var init := rows[..last];
    if i < last {
      assert rows[i] == init[i];
      SourceIsSelected(init, keep, f, i);
    }
  }

  /** One more row of the table: the listing grows at the front by that row's entry, if any. */
  lemma ListingStep(rows: seq<Request>, k: nat, role: string, userId: int, typeFilter: string, statusFilter: string)
    requires k < |rows|
    ensures Listing(rows[..k + 1], role, userId, typeFilter, statusFilter) ==
      (if ListedFor(role, userId, rows[k], typeFilter, statusFilter) then [Normalize(rows[k])] else []) +
      Listing(rows[..k], role, userId, typeFilter, statusFilter)
  {
    assert rows[..k + 1][..k] == rows[..k];
  }

  /** The table after the list handler writes back the normalised status of every listed row. */
  function NormalizeListed(rows: seq<Request>, role: string, userId: int, typeFilter: string, statusFilter: string): (out: seq<Request>)
    ensures |out| == |rows|
  {
    seq(|rows|, k requires 0 <= k < |rows| =>
      if ListedFor(role, userId, rows[k], typeFilter, statusFilter) then Normalize(rows[k]) else rows[k])
  }

  /** Rewriting rows in place without touching ids keeps the ids increasing. */
  lemma SameIdsKeepIncreasing(rows: seq<Request>, out: seq<Request>)
    requires IdsIncreasing(rows) && |out| == |rows|
    requires forall k :: 0 <= k < |rows| ==> out[k].id == rows[k].id
    ensures IdsIncreasing(out)
  {
  }

  class Store {
    var requests: seq<Request>
    var onboardingDetails: seq<OnboardingDetail>
    var actions: seq<AuditEntry>
    var nextId: int

    /** Ids are auto-increment keys: positive, strictly increasing and below the next id. */
    ghost predicate Valid()
      reads this
    {
      && nextId >= 1
      && IdsIncreasing(requests)
      && (forall k :: 0 <= k < |requests| ==> 1 <= requests[k].id < nextId)
    }

    constructor()
      ensures Valid()
      ensures requests == [] && onboardingDetails == [] && actions == [] && nextId == 1
    {
      requests := [];
      onboardingDetails := [];
      actions := [];
      nextId := 1;
    }

    /** One child INSERT of the fan-out: it adds the row unless this attempt fails. */
    method AttemptChild(spec: ChildSpec, attempt: nat, failing: set<nat>, parentId: int, employeeId: int) returns (ok: bool)
      modifies this
      ensures ok <==> attempt !in failing
      ensures requests == old(requests) + (if ok then [ChildRow(spec, old(nextId), parentId, employeeId)] else [])
      ensures nextId == old(nextId) + (if ok then 1 else 0)
      ensures onboardingDetails == old(onboardingDetails) && actions == old(actions)
    {
      if attempt in failing {
        ok := false;
      } else {
        requests := requests + [ChildRow(spec, nextId, parentId, employeeId)];
        nextId := nextId + 1;
        ok := true;
      }
    }

    /**
     * `POST /api/onboarding`: only SUPER_ADMIN and HR_ADMIN may call it, and four fields are
     * required. It inserts the parent, its details and the children the payload asks for (the
     * attempts in `failing` fail and are skipped), fast-forwards the parent when any child was
     * expected, and logs CREATE.
     */
    method CreateOnboarding(p: OnboardingPayload, actor: Actor, failing: set<nat>) returns (res: Reply<OnboardingReply>)
      requires Valid()
      modifies this
      ensures Valid()
      ensures actor.role != "SUPER_ADMIN" && actor.role != "HR_ADMIN" ==> res == Err(AccessDenied) && unchanged(this)
      ensures (actor.role == "SUPER_ADMIN" || actor.role == "HR_ADMIN") && ValidateRequired(PayloadBody(p), OnboardingRequiredFields).Fail? ==>
        res == Err(HttpError(400, ValidateRequired(PayloadBody(p), OnboardingRequiredFields).error)) && unchanged(this)
      ensures (actor.role == "SUPER_ADMIN" || actor.role == "HR_ADMIN") && ValidateRequired(PayloadBody(p), OnboardingRequiredFields).Pass? ==>
        res.Ok? && Created(p, actor.id, failing, old(requests), old(onboardingDetails), old(actions), old(nextId), res.value)
    {
      if actor.role != "SUPER_ADMIN" && actor.role != "HR_ADMIN" {
        return Err(AccessDenied);
      }
      var requiredCheck := ValidateRequired(PayloadBody(p), OnboardingRequiredFields);
      if requiredCheck.Fail? {
        return Err(HttpError(400, requiredCheck.error));
      }
      var reply := InsertOnboarding(p, actor.id, failing);
      res := Ok(reply);
    }

    /**
     * The state after a successful onboarding submission: the final parent and the inserted
     * children appended, the details row and the CREATE entry logged, and the reply.
     */
    ghost predicate Created(p: OnboardingPayload, employeeId: int, failing: set<nat>, oldRequests: seq<Request>,
                            oldDetails: seq<OnboardingDetail>, oldActions: seq<AuditEntry>, oldNextId: int, reply: OnboardingReply)
      reads this
    {
      var parentId := oldNextId;
      var children := InsertedChildren(ChildPlan(p), failing, parentId + 1, parentId, employeeId);
      var hasError := |children| < ExpectedChildCount(p);
      && requests == oldRequests + [FinalParent(p, parentId, employeeId)] + children
      && nextId == parentId + 1 + |children|
      && onboardingDetails == oldDetails + [OnboardingDetail(parentId, p, NeedsEmail(p), NeedsDevice(p), Systems(p))]
      && actions == oldActions +
           [AuditEntry(parentId, "CREATE", "", "HR_SUBMITTED", employeeId, CreateNote(p, |children|, ExpectedChildCount(p), hasError))]
      && reply == OnboardingReply(parentId, "IN_PROGRESS", "IT_IN_PROGRESS", "IT_IN_PROGRESS", ExpectedChildCount(p),
                                  OnboardingMessage(|children|, ExpectedChildCount(p), hasError))
    }

    /** The INSERTs and UPDATE of a submission that passed its checks. */
    method InsertOnboarding(p: OnboardingPayload, employeeId: int, failing: set<nat>) returns (reply: OnboardingReply)
      requires Valid()
      modifies this
      ensures Valid()
      ensures Created(p, employeeId, failing, old(requests), old(onboardingDetails), old(actions), old(nextId), reply)
    {
      var parentId, childCount, hasError := InsertRows(p, employeeId, failing);
      reply := LogCreate(p, parentId, employeeId, childCount, ExpectedChildCount(p), hasError);
    }

    /** The parent INSERT, the child INSERTs and the parent UPDATE. */
    method InsertRows(p: OnboardingPayload, employeeId: int, failing: set<nat>) returns (parentId: int, childCount: nat, hasError: bool)
      requires Valid()
      modifies this
      ensures Valid()
      ensures parentId == old(nextId)
      ensures requests == old(requests) + [FinalParent(p, parentId, employeeId)] + InsertedChildren(ChildPlan(p), failing, parentId + 1, parentId, employeeId)
      ensures childCount == |InsertedChildren(ChildPlan(p), failing, parentId + 1, parentId, employeeId)|
      ensures nextId == parentId + 1 + childCount
      ensures hasError <==> childCount < ExpectedChildCount(p)
      ensures onboardingDetails == old(onboardingDetails) + [OnboardingDetail(parentId, p, NeedsEmail(p), NeedsDevice(p), Systems(p))]
      ensures actions == old(actions)
    {
      var parentIndex := |requests|;
      parentId := InsertParent(p, employeeId);
      childCount, hasError := FanOut(p, parentId, failing, employeeId);
      var expectedChildCount := ExpectedChildCount(p);
      FinishParent(p, parentIndex, parentId, employeeId, expectedChildCount > 0,
                   old(requests), InsertedChildren(ChildPlan(p), failing, parentId + 1, parentId, employeeId));
      CreatedRowsKeepIds(old(requests), parentId, FinalParent(p, parentId, employeeId), ChildPlan(p), failing, employeeId);
    }

    /** The parent UPDATE after the fan-out: to IT_IN_PROGRESS / IN_PROGRESS when some child was expected. */
    method FinishParent(p: OnboardingPayload, parentIndex: nat, parentId: int, employeeId: int, fastForward: bool,
                        ghost before: seq<Request>, ghost children: seq<Request>)
      requires parentIndex == |before| && (fastForward <==> ExpectedChildCount(p) > 0)
      requires requests == before + [ParentRow(p, parentId, employeeId)] + children
      modifies this
      ensures requests == before + [FinalParent(p, parentId, employeeId)] + children
      ensures nextId == old(nextId) && onboardingDetails == old(onboardingDetails) && actions == old(actions)
    {
      ReplaceParentRow(before, ParentRow(p, parentId, employeeId), children, FinalParent(p, parentId, employeeId));
      if fastForward {
        requests := requests[parentIndex := FastForward(requests[parentIndex])];
      }
    }

    /** The CREATE entry of `logRequestAction` and the 201 reply, with the created-count texts. */
    method LogCreate(p: OnboardingPayload, parentId: int, employeeId: int, childCount: nat, expectedChildCount: nat, hasError: bool)
      returns (reply: OnboardingReply)
      modifies this
      ensures actions == old(actions) +
        [AuditEntry(parentId, "CREATE", "", "HR_SUBMITTED", employeeId, CreateNote(p, childCount, expectedChildCount, hasError))]
      ensures reply == OnboardingReply(parentId, "IN_PROGRESS", "IT_IN_PROGRESS", "IT_IN_PROGRESS", expectedChildCount,
                                       OnboardingMessage(childCount, expectedChildCount, hasError))
      ensures requests == old(requests) && nextId == old(nextId) && onboardingDetails == old(onboardingDetails)
    {
      actions := actions + [AuditEntry(parentId, "CREATE", "", "HR_SUBMITTED", employeeId,
                                       CreateNote(p, childCount, expectedChildCount, hasError))];
      reply := OnboardingReply(parentId, "IN_PROGRESS", "IT_IN_PROGRESS", "IT_IN_PROGRESS", expectedChildCount,
                               OnboardingMessage(childCount, expectedChildCount, hasError));
    }

    /** The parent INSERT and its details row. */
    method InsertParent(p: OnboardingPayload, employeeId: int) returns (parentId: int)
      modifies this
      ensures parentId == old(nextId) && nextId == parentId + 1
      ensures requests == old(requests) + [ParentRow(p, parentId, employeeId)]
      ensures onboardingDetails == old(onboardingDetails) + [OnboardingDetail(parentId, p, NeedsEmail(p), NeedsDevice(p), Systems(p))]
      ensures actions == old(actions)
    {
      parentId := nextId;
      requests := requests + [ParentRow(p, parentId, employeeId)];
      nextId := nextId + 1;
      onboardingDetails := onboardingDetails + [OnboardingDetail(parentId, p, NeedsEmail(p), NeedsDevice(p), Systems(p))];
    }

    /** The fan-out over the handler's own plan. */
    method FanOut(p: OnboardingPayload, parentId: int, failing: set<nat>, employeeId: int)
      returns (childCount: nat, hasError: bool)
      requires nextId == parentId + 1
      modifies this
      ensures requests == old(requests) + InsertedChildren(ChildPlan(p), failing, parentId + 1, parentId, employeeId)
      ensures childCount == |InsertedChildren(ChildPlan(p), failing, parentId + 1, parentId, employeeId)|
      ensures nextId == parentId + 1 + childCount
      ensures hasError <==> childCount < ExpectedChildCount(p)
      ensures onboardingDetails == old(onboardingDetails) && actions == old(actions)
    {
      PlanLayout(p);
      childCount, hasError := FanOutChildren(p, ChildPlan(p), parentId, failing, employeeId);
    }

    /**
     * The child INSERTs of the fan-out, in the handler's order: email, device, then one per
     * system. It counts the successful ones and notes whether any failed.
     */
    method FanOutChildren(p: OnboardingPayload, ghost plan: seq<ChildSpec>, parentId: int, failing: set<nat>, employeeId: int)
      returns (childCount: nat, hasError: bool)
      requires nextId == parentId + 1
      requires PlanMatches(p, plan)
      modifies this
      ensures requests == old(requests) + InsertedChildren(plan, failing, parentId + 1, parentId, employeeId)
      ensures childCount == |InsertedChildren(plan, failing, parentId + 1, parentId, employeeId)|
      ensures nextId == parentId + 1 + childCount
      ensures hasError <==> childCount < ExpectedChildCount(p)
      ensures hasError <==> exists i :: 0 <= i < ExpectedChildCount(p) && i in failing
      ensures onboardingDetails == old(onboardingDetails) && actions == old(actions)
    {
      childCount := 0;
      hasError := false;
      var attempt: nat := 0;
      ghost var base := requests;
      assert plan[..0] == [];

      if NeedsEmail(p) {
        FanOutStep(plan, attempt, failing, parentId, employeeId, base, requests, nextId, childCount, hasError, EmailChild(p));
        var ok := AttemptChild(EmailChild(p), attempt, failing, parentId, employeeId);
        if ok { childCount := childCount + 1; } else { hasError := true; }
        attempt := attempt + 1;
      }
      if NeedsDevice(p) {
        FanOutStep(plan, attempt, failing, parentId, employeeId, base, requests, nextId, childCount, hasError, DeviceChild(p));
        var ok := AttemptChild(DeviceChild(p), attempt, failing, parentId, employeeId);
        if ok { childCount := childCount + 1; } else { hasError := true; }
        attempt := attempt + 1;
      }
      childCount, hasError := FanOutSystems(p, plan, parentId, failing, employeeId, base, attempt, childCount, hasError);
      assert plan[..|plan|] == plan;
      InsertedCount(plan, failing, parentId + 1, parentId, employeeId);
      FailedCountPositive(failing, |plan|);
    }

    /** The fan-out's `for` loop over the requested systems, one INSERT per system. */
    method FanOutSystems(p: OnboardingPayload, ghost plan: seq<ChildSpec>, parentId: int, failing: set<nat>, employeeId: int,
                         ghost base: seq<Request>, firstAttempt: nat, countBefore: nat, errorBefore: bool)
      returns (childCount: nat, hasError: bool)
      requires PlanMatches(p, plan) && firstAttempt == SystemOffset(p)
      requires FanOutAt(plan, firstAttempt, failing, parentId, employeeId, base, requests, nextId, countBefore, errorBefore)
      modifies this
      ensures FanOutAt(plan, |plan|, failing, parentId, employeeId, base, requests, nextId, childCount, hasError)
      ensures onboardingDetails == old(onboardingDetails) && actions == old(actions)
    {
      var systems := Systems(p);
      childCount, hasError := countBefore, errorBefore;
      var attempt := firstAttempt;
      for j := 0 to |systems|
        invariant attempt == firstAttempt + j
        invariant FanOutAt(plan, attempt, failing, parentId, employeeId, base, requests, nextId, childCount, hasError)
        invariant onboardingDetails == old(onboardingDetails) && actions == old(actions)
      {
        FanOutStep(plan, attempt, failing, parentId, employeeId, base, requests, nextId, childCount, hasError, SystemChild(p, systems[j]));
        var ok := AttemptChild(SystemChild(p, systems[j]), attempt, failing, parentId, employeeId);
        if ok { childCount := childCount + 1; } else { hasError := true; }
        attempt := attempt + 1;
      }
    }

    /** `normalizeRequestStatus` on a stored row, with its write-back: only that row's status changes. */
    method NormalizeRequestStatus(i: nat) returns (n: Request)
      requires Valid() && i < |requests|
      modifies this
      ensures Valid()
      ensures n == Normalize(old(requests[i]))
      ensures requests == old(requests)[i := n]
      ensures onboardingDetails == old(onboardingDetails) && actions == old(actions) && nextId == old(nextId)
    {
      var r := requests[i];
      n := Normalize(r);
      if n != r {
        UpdateRow(i, n);
      }
    }

    /** The cascade after a child's status patch; AUTO_COMPLETE is logged whenever the parent UPDATE runs. */
    method CascadeParentCompletion(parentId: int, actorId: int)
      requires Valid()
      modifies this
      ensures Valid()
      ensures requests == CascadeRows(old(requests), parentId)
      ensures actions == old(actions) +
        (if AllChildrenCompleted(old(requests), parentId)
         then [AuditEntry(parentId, "AUTO_COMPLETE", "IN_PROGRESS", "COMPLETED", actorId, "All child requests completed")]
         else [])
      ensures onboardingDetails == old(onboardingDetails) && nextId == old(nextId)
    {
      CascadeEffect(requests, parentId);
      SameIdsKeepIncreasing(requests, CascadeRows(requests, parentId));
      if AllChildrenCompleted(requests, parentId) {
        requests := CascadeRows(requests, parentId);
        actions := actions + [AuditEntry(parentId, "AUTO_COMPLETE", "IN_PROGRESS", "COMPLETED", actorId, "All child requests completed")];
      }
    }

    /** A successful patch of row i: the UPDATE, the STATUS_UPDATE entry, then the parent cascade. */
    method ApplyPatch(i: nat, body: PatchBody, actor: Actor) returns (finalStatus: string)
      requires Valid() && i < |requests|
      modifies this
      ensures Valid()
      ensures finalStatus == ReportedStatus(old(requests)[i], body)
      ensures requests == PatchedRows(old(requests), i, body, actor.role)
      ensures actions == old(actions) + PatchLog(old(requests), i, body, actor)
      ensures onboardingDetails == old(onboardingDetails) && nextId == old(nextId)
    {
      var request := requests[i];
      var fields := ComputeUpdateFields(request, body, actor.role);
      UpdateRow(i, ApplyAll(request, fields));

      finalStatus := ReportedStatus(request, body);
      var note := if body.note != "" then body.note else "Status updated to " + finalStatus;
      actions := actions + [AuditEntry(request.id, "STATUS_UPDATE", request.status, finalStatus, actor.id, note)];

      if CascadeTriggered(request, body) {
        var parent := requests[i].parentRequestId;
        if parent.Some? {
          CascadeParentCompletion(parent.value, actor.id);
        }
      }
    }

    /** An UPDATE of row i that keeps its id. */
    method UpdateRow(i: nat, updated: Request)
      requires Valid() && i < |requests| && updated.id == requests[i].id
      modifies this
      ensures Valid()
      ensures requests == old(requests)[i := updated]
      ensures onboardingDetails == old(onboardingDetails) && actions == old(actions) && nextId == old(nextId)
    {
      SameIdsKeepIncreasing(requests, requests[i := updated]);
      requests := requests[i := updated];
    }

    /**
     * `PATCH /api/requests/:id/status`: 404 for an unknown id, the authorisation error when a
     * check fails; otherwise the row is updated, STATUS_UPDATE is logged and, for a child whose
     * status moved, the parent cascade runs.
     */
    method PatchStatus(id: int, body: PatchBody, actor: Actor) returns (res: Reply<PatchReply>)
      requires Valid()
      modifies this
      ensures Valid()
      ensures onboardingDetails == old(onboardingDetails) && nextId == old(nextId)
      ensures FindIndexById(old(requests), id).None? ==> res == Err(HttpError(404, "Request not found")) && unchanged(this)
      ensures FindIndexById(old(requests), id).Some? ==>
        var i := FindIndexById(old(requests), id).value;
        var r := old(requests)[i];
        if AuthorizePatch(r, body, actor).Fail? then
          res == Err(AuthorizePatch(r, body, actor).error) && unchanged(this)
        else
          && requests == PatchedRows(old(requests), i, body, actor.role)
          && actions == old(actions) + PatchLog(old(requests), i, body, actor)
          && res == Ok(PatchReply(id, ReportedStatus(r, body),
                                  if body.workflowStatus != "" then body.workflowStatus else r.workflowStatus,
                                  if body.currentStep != "" then body.currentStep else r.currentStep,
                                  "Status updated successfully"))
    {
      var found := FindIndexById(requests, id);
      if found.None? {
        return Err(HttpError(404, "Request not found"));
      }
      var i := found.value;
      var request := requests[i];
      var check := AuthorizePatch(request, body, actor);
      if check.Fail? {
        return Err(check.error);
      }
      var finalStatus := ApplyPatch(i, body, actor);
      res := Ok(PatchReply(id, finalStatus,
                           if body.workflowStatus != "" then body.workflowStatus else request.workflowStatus,
                           if body.currentStep != "" then body.currentStep else request.currentStep,
                           "Status updated successfully"));
    }

    /** One row of the list loop: a listed row is normalised, written back and put in front. */
    method ListOne(k: nat, ghost table: seq<Request>, role: string, userId: int, typeFilter: string, statusFilter: string,
                   rows: seq<Request>) returns (rows': seq<Request>)
      requires Valid() && k < |requests| == |table| && requests[k] == table[k]
      modifies this
      ensures Valid()
      ensures rows' == (if ListedFor(role, userId, table[k], typeFilter, statusFilter) then [Normalize(table[k])] else []) + rows
      ensures requests == old(requests)[k := NormalizeListed(table, role, userId, typeFilter, statusFilter)[k]]
      ensures onboardingDetails == old(onboardingDetails) && actions == old(actions) && nextId == old(nextId)
    {
      rows' := rows;
      if ListedFor(role, userId, requests[k], typeFilter, statusFilter) {
        var n := NormalizeRequestStatus(k);
        rows' := [n] + rows;
      } else {
        assert requests == requests[k := table[k]];
      }
    }

    /**
     * `GET /api/requests`: the rows the caller's filter selects, newest first, each normalised;
     * the normalised status of every listed row is written back.
     */
    method ListRequests(role: string, userId: int, typeFilter: string, statusFilter: string) returns (rows: seq<Request>)
      requires Valid()
      modifies this
      ensures Valid()
      ensures rows == Listing(old(requests), role, userId, typeFilter, statusFilter)
      ensures requests == NormalizeListed(old(requests), role, userId, typeFilter, statusFilter)
      ensures onboardingDetails == old(onboardingDetails) && actions == old(actions) && nextId == old(nextId)
    {
      rows := [];
      ghost var table := requests;
      var k := 0;
      while k < |requests|
        invariant 0 <= k <= |requests| == |table|
        invariant Valid()
        invariant rows == Listing(table[..k], role, userId, typeFilter, statusFilter)
        invariant forall m :: 0 <= m < k ==> requests[m] == NormalizeListed(table, role, userId, typeFilter, statusFilter)[m]
        invariant forall m :: k <= m < |requests| ==> requests[m] == table[m]
        invariant onboardingDetails == old(onboardingDetails) && actions == old(actions) && nextId == old(nextId)
      {
        ListingStep(table, k, role, userId, typeFilter, statusFilter);
        rows := ListOne(k, table, role, userId, typeFilter, statusFilter, rows);
        k := k + 1;
      }
      assert table[..k] == table;
    }

    /**
     * `GET /api/requests/:id`: 404 for an unknown id; the row is normalised and written back
     * before the access check, which then decides between 403 and the normalised row.
     */
    method GetRequestDetails(id: int, role: string, userId: int) returns (res: Reply<Request>)
      requires Valid()
      modifies this
      ensures Valid()
      ensures onboardingDetails == old(onboardingDetails) && actions == old(actions) && nextId == old(nextId)
      ensures FindIndexById(old(requests), id).None? ==> res == Err(HttpError(404, "Request not found")) && unchanged(this)
      ensures FindIndexById(old(requests), id).Some? ==>
        var i := FindIndexById(old(requests), id).value;
        var n := Normalize(old(requests)[i]);
        && requests == old(requests)[i := n]
        && res == (if CanViewDetails(role, userId, n) then Ok(n)
                   else Err(HttpError(403, "Access denied. You do not have permission to view this request.")))
    {
      var found := FindIndexById(requests, id);
      if found.None? {
        return Err(HttpError(404, "Request not found"));
      }
      var request := NormalizeRequestStatus(found.value);
      if !CanViewDetails(role, userId, request) {
        return Err(HttpError(403, "Access denied. You do not have permission to view this request."));
      }
      res := Ok(request);
    }
  }

  /** The fan-out's progress after `attempt` attempts: the table, the counters and the next id agree with the plan. */
  ghost predicate FanOutAt(plan: seq<ChildSpec>, attempt: nat, failing: set<nat>, parentId: int, employeeId: int,
                           base: seq<Request>, rows: seq<Request>, nextId: int, childCount: int, hasError: bool)
  {
    && attempt <= |plan|
    && rows == base + InsertedChildren(plan[..attempt], failing, parentId + 1, parentId, employeeId)
    && childCount == |InsertedChildren(plan[..attempt], failing, parentId + 1, parentId, employeeId)|
    && nextId == parentId + 1 + childCount
    && (hasError <==> FailedCount(failing, attempt) > 0)
  }

  /** One attempt advances the fan-out by its own row when it succeeds. */
  lemma FanOutStep(plan: seq<ChildSpec>, attempt: nat, failing: set<nat>, parentId: int, employeeId: int,
                   base: seq<Request>, rows: seq<Request>, nextId: int, childCount: int, hasError: bool, spec: ChildSpec)
    requires FanOutAt(plan, attempt, failing, parentId, employeeId, base, rows, nextId, childCount, hasError)
    requires attempt < |plan| && plan[attempt] == spec
    ensures var ok := attempt !in failing;
      FanOutAt(plan, attempt + 1, failing, parentId, employeeId, base,
               rows + (if ok then [ChildRow(spec, nextId, parentId, employeeId)] else []),
               nextId + (if ok then 1 else 0), childCount + (if ok then 1 else 0), hasError || !ok)
  {
    InsertedStep(plan, attempt, failing, parentId + 1, parentId, employeeId);
  }

  /** Appending the inserted children, whose ids start at the next id, keeps the ids increasing and below the new next id. */
  lemma AppendInsertedKeepsIds(base: seq<Request>, plan: seq<ChildSpec>, failing: set<nat>, parentId: int, employeeId: int)
    requires parentId >= 0 && IdsIncreasing(base)
    requires forall k :: 0 <= k < |base| ==> 1 <= base[k].id < parentId + 1
    ensures var rows := base + InsertedChildren(plan, failing, parentId + 1, parentId, employeeId);
      && IdsIncreasing(rows)
      && forall k :: 0 <= k < |rows| ==> 1 <= rows[k].id < parentId + 1 + |InsertedChildren(plan, failing, parentId + 1, parentId, employeeId)|
  {
    InsertedAreSurvivors(plan, failing, parentId + 1, parentId, employeeId);
  }

  /** The parent and its children take the next ids, so appending them keeps the ids increasing and below the new next id. */
  lemma CreatedRowsKeepIds(before: seq<Request>, nextId: int, parent: Request, plan: seq<ChildSpec>, failing: set<nat>, employeeId: int)
    requires nextId >= 1 && IdsIncreasing(before)
    requires forall k :: 0 <= k < |before| ==> 1 <= before[k].id < nextId
    requires parent.id == nextId
    ensures var children := InsertedChildren(plan, failing, nextId + 1, nextId, employeeId);
      var rows := before + [parent] + children;
      && IdsIncreasing(rows)
      && forall k :: 0 <= k < |rows| ==> 1 <= rows[k].id < nextId + 1 + |children|
  {
    var withParent := before + [parent];
    assert forall k :: 0 <= k < |withParent| ==> 1 <= withParent[k].id < nextId + 1;
    AppendInsertedKeepsIds(withParent, plan, failing, nextId, employeeId);
  }

  /** Rewriting the parent row between the rows before it and its children. */
  lemma ReplaceParentRow(before: seq<Request>, parent: Request, children: seq<Request>, final: Request)
    ensures (before + [parent] + children)[|before| := final] == before + [final] + children
  {
  }

  /** One more attempt of the fan-out extends the inserted rows by at most its own row. */
  lemma InsertedStep(plan: seq<ChildSpec>, k: nat, failing: set<nat>, firstId: int, parentId: int, employeeId: int)
    requires k < |plan|
    ensures var prev := InsertedChildren(plan[..k], failing, firstId, parentId, employeeId);
      InsertedChildren(plan[..k + 1], failing, firstId, parentId, employeeId) ==
        prev + (if k in failing then [] else [ChildRow(plan[k], firstId + |prev|, parentId, employeeId)])
  {
    assert plan[..k + 1][..k] == plan[..k];
  }

  /** Some attempt failed exactly when the failure count is positive. */
  lemma {:induction false} FailedCountPositive(failing: set<nat>, n: nat)
    ensures FailedCount(failing, n) > 0 <==> exists i :: 0 <= i < n && i in failing
  {
    if n > 0 {
      FailedCountPositive(failing, n - 1);
    }
  }
}

/**
 * Cascade completion: once every child of an onboarding parent is COMPLETED, the parent's
 * status, workflow status and step all become COMPLETED.
 */
module Cascade {
  import opened Wrappers
  import opened Requests
  import opened StatusPatch

  predicate IsChildOf(r: Request, parentId: int) {
    r.parentRequestId == Some(parentId)
  }

  /** `children.length > 0 && children.every(c => c.status === 'COMPLETED')` over `WHERE parent_request_id = ?`. */
  predicate AllChildrenCompleted(rows: seq<Request>, parentId: int) {
    && (exists k :: 0 <= k < |rows| && IsChildOf(rows[k], parentId))
    && (forall k :: 0 <= k < |rows| && IsChildOf(rows[k], parentId) ==> rows[k].status == "COMPLETED")
  }

  function Completed(r: Request): Request {
    r.(status := "COMPLETED", workflowStatus := "COMPLETED", currentStep := "COMPLETED")
  }

  /** The table after the cascade: the UPDATE on the parent's id runs only when every child is complete. */
  function CascadeRows(rows: seq<Request>, parentId: int): seq<Request> {
    if AllChildrenCompleted(rows, parentId) then
      seq(|rows|, k requires 0 <= k < |rows| => if rows[k].id == parentId then Completed(rows[k]) else rows[k])
    else rows
  }

  /**
   * The parent ends COMPLETED in all three columns exactly when it has a child and all of its
   * children are COMPLETED (or it already was); no other row changes, and no id changes.
   */
  lemma CascadeEffect(rows: seq<Request>, parentId: int)
    ensures |CascadeRows(rows, parentId)| == |rows|
    ensures forall k :: 0 <= k < |rows| ==> CascadeRows(rows, parentId)[k].id == rows[k].id
    ensures forall k :: 0 <= k < |rows| && rows[k].id != parentId ==> CascadeRows(rows, parentId)[k] == rows[k]
    ensures forall k :: 0 <= k < |rows| && rows[k].id == parentId ==>
      (CascadeRows(rows, parentId)[k] == Completed(rows[k]) <==>
       AllChildrenCompleted(rows, parentId) || rows[k] == Completed(rows[k]))
    ensures !AllChildrenCompleted(rows, parentId) ==> CascadeRows(rows, parentId) == rows
  {
  }

  /** A second cascade on the same parent changes nothing. */
  lemma CascadeIdempotent(rows: seq<Request>, parentId: int)
    ensures CascadeRows(CascadeRows(rows, parentId), parentId) == CascadeRows(rows, parentId)
  {
    var once := CascadeRows(rows, parentId);
    if AllChildrenCompleted(rows, parentId) {
      var k0 :| 0 <= k0 < |rows| && IsChildOf(rows[k0], parentId);
      assert IsChildOf(once[k0], parentId);
      assert AllChildrenCompleted(once, parentId);
      assert CascadeRows(once, parentId) == once;
    }
  }

  /** The status patch starts the cascade for a child whose new status is COMPLETED or differs from the old one. */
  predicate CascadeTriggered(r: Request, body: PatchBody) {
    IsChildType(r.requestType) && (body.status == "COMPLETED" || (body.status != "" && body.status != r.status))
  }

  /**
   * Patching the last open child of a parent to COMPLETED triggers the cascade and completes
   * the parent.
   */
  lemma LastChildCompletesParent(rows: seq<Request>, c: nat, body: PatchBody, role: string, parentId: int)
    requires c < |rows| && IsChildOf(rows[c], parentId) && IsChildType(rows[c].requestType)
    requires body.status == "COMPLETED"
    requires forall k :: 0 <= k < |rows| && k != c && IsChildOf(rows[k], parentId) ==> rows[k].status == "COMPLETED"
    ensures CascadeTriggered(rows[c], body)
    ensures AllChildrenCompleted(rows[c := PatchedRequest(rows[c], body, role)], parentId)
  {
    var after := rows[c := PatchedRequest(rows[c], body, role)];
    ChildTakesExplicitStatus(rows[c], body, role);
    assert IsChildOf(after[c], parentId);
  }
}

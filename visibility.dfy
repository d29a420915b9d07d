/** Which requests a caller sees: the list query's per-role filter and the details access check. */
module Visibility {
  import opened Wrappers
  import opened JsText
  import opened Requests

  /** A role handled by the "system admin" branch: it starts with IT_ and is not IT_ADMIN. */
  predicate IsSystemAdminRole(role: string) {
    StartsWith(role, "IT_") && role != "IT_ADMIN"
  }

  /**
   * The WHERE clause of the list query. Only SUPER_ADMIN's query honours the type and status
   * filters (an empty filter is absent); it tests the stored status, before normalisation.
   */
  predicate ListedFor(role: string, userId: int, r: Request, typeFilter: string, statusFilter: string) {
    if role == "SUPER_ADMIN" then
      (typeFilter == "" || r.requestType == typeFilter) && (statusFilter == "" || r.status == statusFilter)
    else if role == "IT_ADMIN" then
      r.requestType == "IT" || (r.requestType == "ONBOARDING" && r.parentRequestId.None?) || IsChildType(r.requestType)
    else if IsSystemAdminRole(role) then r.assignedRole == role
    else if role == "HR_ADMIN" then r.requestType == "ONBOARDING" && r.parentRequestId.None?
    else if role == "FLEET_ADMIN" then r.requestType == "CAR_BOOKING"
    else r.employeeId == userId
  }

  /** The access check of the details endpoint. */
  predicate CanViewDetails(role: string, userId: int, r: Request) {
    if role == "SUPER_ADMIN" then true
    else if role == "IT_ADMIN" then r.requestType == "IT" || r.requestType == "ONBOARDING" || IsChildType(r.requestType)
    else if IsSystemAdminRole(role) then r.assignedRole == role
    else if role == "HR_ADMIN" then r.requestType == "ONBOARDING" && r.parentRequestId.None?
    else if role == "FLEET_ADMIN" && r.requestType == "CAR_BOOKING" then true
    else r.employeeId == userId
  }

  /**
   * The two checks agree except in two places: a FLEET_ADMIN falls through to the ownership
   * test and may open its own non-booking requests, and IT_ADMIN may open an ONBOARDING row
   * that has a parent, which its list leaves out.
   */
  lemma DetailsIffListed(role: string, userId: int, r: Request)
    ensures CanViewDetails(role, userId, r) <==>
      ListedFor(role, userId, r, "", "") ||
      (role == "FLEET_ADMIN" && r.employeeId == userId) ||
      (role == "IT_ADMIN" && r.requestType == "ONBOARDING")
  {
    assert !IsSystemAdminRole("HR_ADMIN") by { assert "HR_ADMIN"[0] != "IT_"[0]; }
    assert !IsSystemAdminRole("FLEET_ADMIN") by { assert "FLEET_ADMIN"[0] != "IT_"[0]; }
  }

  /** Whatever filters SUPER_ADMIN passes, every listed row can be opened. */
  lemma ListedImpliesViewable(role: string, userId: int, r: Request, typeFilter: string, statusFilter: string)
    requires ListedFor(role, userId, r, typeFilter, statusFilter)
    ensures CanViewDetails(role, userId, r)
  {
  }

  /** An HR_ADMIN cannot open its own IT request: the HR branch has no ownership fallback. */
  lemma HrCannotViewOwnITRequest(userId: int)
    ensures var r := Request(5, "IT", "t", "d", "PENDING", userId, "IT_ADMIN", "SUBMITTED", "SUBMITTED", None, "", "IT");
            !CanViewDetails("HR_ADMIN", userId, r) && !ListedFor("HR_ADMIN", userId, r, "", "")
  {
  }

  /** An employee sees exactly its own requests, in both places. */
  lemma EmployeeSeesOwnOnly(userId: int, r: Request)
    ensures ListedFor("EMPLOYEE", userId, r, "", "") <==> r.employeeId == userId
    ensures CanViewDetails("EMPLOYEE", userId, r) <==> r.employeeId == userId
  {
    assert !StartsWith("EMPLOYEE", "IT_") by { assert "EMPLOYEE"[0] != "IT_"[0]; }
  }
}

/**
 * The client-side auth composable: the signed-in user held in shared state, the role
 * predicates the views use to show or hide controls, the request headers, and sign-out.
 * The permission rules here are the client's own and differ from the server's.
 */
module UseAuth {
  import opened Wrappers
  import opened WorkflowCatalog
  import opened Requests
  import opened StatusPatch

  /** The fields of the stored user object that the composable reads; "" is a missing role. */
  datatype User = User(id: int, role: string, isLead: bool)

  /** A request as the views hold it; "" is a missing property. */
  datatype ClientRequest = ClientRequest(requestType: string, currentStep: string, workflowStatus: string)

  /** `currentUser?.role || 'EMPLOYEE'`: the role, or EMPLOYEE when there is no user or no role. */
  function UserRole(user: Option<User>): (role: string)
    ensures role != ""
    ensures role == "EMPLOYEE" <==> user.None? || user.value.role == "" || user.value.role == "EMPLOYEE"
    ensures user.Some? && user.value.role != "" ==> role == user.value.role
  {
    if user.Some? && user.value.role != "" then user.value.role else "EMPLOYEE"
  }

  predicate IsSuperAdmin(user: Option<User>) { UserRole(user) == "SUPER_ADMIN" }
  predicate IsITAdmin(user: Option<User>) { UserRole(user) == "IT_ADMIN" }
  predicate IsHRAdmin(user: Option<User>) { UserRole(user) == "HR_ADMIN" }
  predicate IsFleetAdmin(user: Option<User>) { UserRole(user) == "FLEET_ADMIN" }

  /** The roles the views treat as administrators. */
  const AdminRoles: seq<string> := ["SUPER_ADMIN", "IT_ADMIN", "HR_ADMIN", "FLEET_ADMIN"]

  /** `isAdminUser`: list membership of the role. */
  predicate IsAdminUser(user: Option<User>) {
    UserRole(user) in AdminRoles
  }

  /** `currentUser?.isLead || false`. */
  predicate IsLead(user: Option<User>) {
    user.Some? && user.value.isLead
  }

  predicate CanManageEmployees(user: Option<User>) { IsSuperAdmin(user) || IsHRAdmin(user) }
  predicate CanManageVehicles(user: Option<User>) { IsSuperAdmin(user) || IsFleetAdmin(user) }
  predicate CanManageAllRequests(user: Option<User>) { IsAdminUser(user) }
  predicate CanViewEmployeeId(user: Option<User>) { IsSuperAdmin(user) }

  /** An IT admin's view of an onboarding request that has reached the IT setup step. */
  predicate AtITSetup(request: ClientRequest) {
    request.currentStep == "IT_SETUP" || request.workflowStatus == "IT_SETUP"
  }

  /** `canUpdateRequest`: the chain of early returns in the composable. */
  function CanUpdateRequest(user: Option<User>, request: Option<ClientRequest>): (allowed: bool)
  {
    if request.None? then false
    else if IsSuperAdmin(user) then true
    else if IsITAdmin(user) && request.value.requestType == "IT" then true
    else if IsITAdmin(user) && request.value.requestType == "ONBOARDING" && AtITSetup(request.value) then true
    else if IsHRAdmin(user) && request.value.requestType == "ONBOARDING" then true
    else if IsFleetAdmin(user) && request.value.requestType == "CAR_BOOKING" then true
    else false
  }

  /** `canAddNotes`: the same rules written with the IT-admin cases folded into one test. */
  function CanAddNotes(user: Option<User>, request: Option<ClientRequest>): (allowed: bool)
  {
    if request.None? then false
    else if IsSuperAdmin(user) then true
    else if IsITAdmin(user) && (request.value.requestType == "IT" ||
                                (request.value.requestType == "ONBOARDING" && AtITSetup(request.value))) then true
    else if IsHRAdmin(user) && request.value.requestType == "ONBOARDING" then true
    else if IsFleetAdmin(user) && request.value.requestType == "CAR_BOOKING" then true
    else false
  }

  /** What `canUpdateRequest` allows, role by role. */
  lemma UpdatePermissionByRole(user: Option<User>, request: Option<ClientRequest>)
    ensures request.None? ==> !CanUpdateRequest(user, request)
    ensures request.Some? && UserRole(user) == "SUPER_ADMIN" ==> CanUpdateRequest(user, request)
    ensures request.Some? && UserRole(user) == "IT_ADMIN" ==>
      (CanUpdateRequest(user, request) <==>
        request.value.requestType == "IT" || (request.value.requestType == "ONBOARDING" && AtITSetup(request.value)))
    ensures request.Some? && UserRole(user) == "HR_ADMIN" ==>
      (CanUpdateRequest(user, request) <==> request.value.requestType == "ONBOARDING")
    ensures request.Some? && UserRole(user) == "FLEET_ADMIN" ==>
      (CanUpdateRequest(user, request) <==> request.value.requestType == "CAR_BOOKING")
    ensures !IsAdminUser(user) ==> !CanUpdateRequest(user, request)
  {
    assert "SUPER_ADMIN"[0] == 'S' && "IT_ADMIN"[0] == 'I' && "HR_ADMIN"[0] == 'H' && "FLEET_ADMIN"[0] == 'F';
  }

  /** The role grants of the admin pages. */
  lemma ManagementRoles(user: Option<User>)
    ensures IsAdminUser(user) <==> UserRole(user) in {"SUPER_ADMIN", "IT_ADMIN", "HR_ADMIN", "FLEET_ADMIN"}
    ensures CanManageEmployees(user) <==> UserRole(user) in {"SUPER_ADMIN", "HR_ADMIN"}
    ensures CanManageVehicles(user) <==> UserRole(user) in {"SUPER_ADMIN", "FLEET_ADMIN"}
    ensures CanManageAllRequests(user) <==> IsAdminUser(user)
    ensures CanViewEmployeeId(user) <==> UserRole(user) == "SUPER_ADMIN"
    ensures IsLead(user) <==> user.Some? && user.value.isLead
    ensures CanManageEmployees(user) || CanManageVehicles(user) ==> IsAdminUser(user)
    ensures user.None? ==> !IsAdminUser(user)
  {
    assert "EMPLOYEE"[0] == 'E';
    assert "SUPER_ADMIN"[0] == 'S' && "IT_ADMIN"[0] == 'I' && "HR_ADMIN"[0] == 'H' && "FLEET_ADMIN"[0] == 'F';
  }

  /** The two permission checks agree on every user and request. */
  lemma NotesAgreeWithUpdate(user: Option<User>, request: Option<ClientRequest>)
    ensures CanAddNotes(user, request) == CanUpdateRequest(user, request)
  {
  }

  /**
   * The client and the server disagree: an HR admin gets the update controls for an
   * onboarding request that the server refuses, and an IT admin is denied them for an
   * onboarding request before IT setup that the server accepts.
   */
  lemma ClientPolicyDiffersFromServer(r: Request, body: PatchBody, id: int)
    requires r.requestType == "ONBOARDING" && r.currentStep != "IT_SETUP" && r.workflowStatus != "IT_SETUP"
    requires body.status == "" || body.status in ValidStatuses
    ensures var seen := Some(ClientRequest(r.requestType, r.currentStep, r.workflowStatus));
      && CanUpdateRequest(Some(User(id, "HR_ADMIN", false)), seen)
      && AuthorizePatch(r, body, Actor(id, "HR_ADMIN")).Fail?
      && !CanUpdateRequest(Some(User(id, "IT_ADMIN", false)), seen)
      && AuthorizePatch(r, body, Actor(id, "IT_ADMIN")).Pass?
  {
    assert "HR_ADMIN"[0] != "IT_ADMIN"[0] && "HR_ADMIN"[0] != "SUPER_ADMIN"[0] && "HR_ADMIN"[0] != "FLEET_ADMIN"[0];
    assert "IT_ADMIN"[0] != "SUPER_ADMIN"[0] && "IT_ADMIN"[0] != "FLEET_ADMIN"[0];
    assert "ONBOARDING"[0] != "IT"[0] && |"ONBOARDING"| != |"CAR_BOOKING"|;
  }

  /** `getAuthHeaders`: always the JSON content type, plus a bearer token when one is held. */
  function GetAuthHeaders(authToken: Option<string>): (headers: map<string, string>)
    ensures "Content-Type" in headers && headers["Content-Type"] == "application/json"
    ensures "Authorization" in headers <==> authToken.Some? && authToken.value != ""
    ensures "Authorization" in headers ==> headers["Authorization"] == "Bearer " + authToken.value
    ensures headers.Keys <= {"Content-Type", "Authorization"}
  {
    var headers := map["Content-Type" := "application/json"];
    if authToken.Some? && authToken.value != "" then headers["Authorization" := "Bearer " + authToken.value]
    else headers
  }

  /** The shared refs `isLoggedIn`, `currentUser` and `authToken`. */
  class AuthState {
    var isLoggedIn: bool
    var currentUser: Option<User>
    var authToken: Option<string>

    /** The refs as the module creates them. */
    constructor()
      ensures !isLoggedIn && currentUser == None && authToken == None
    {
      isLoggedIn := false;
      currentUser := None;
      authToken := None;
    }

    /** `clearAuth` without the localStorage removals: signed out, no user, no token. */
    method ClearAuth()
      modifies this
      ensures !isLoggedIn && currentUser == None && authToken == None
      ensures UserRole(currentUser) == "EMPLOYEE" && !IsAdminUser(currentUser)
      ensures GetAuthHeaders(authToken) == map["Content-Type" := "application/json"]
    {
      isLoggedIn := false;
      currentUser := None;
      authToken := None;
      ManagementRoles(currentUser);
    }
  }
}

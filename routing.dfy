/** Which admin role an IT request or an onboarding child request is routed to. */
module Routing {

  /** `SYSTEM_TO_ROLE`: downstream system key to the role that administers it. */
  const SystemToRole: map<string, string> := map[
    "M365" := "IT_M365_ADMIN",
    "POWER_BI" := "IT_BI_ADMIN",
    "ACONEX" := "IT_ACONEX_ADMIN",
    "AUTODESK" := "IT_AUTODESK_ADMIN",
    "P6" := "IT_P6_ADMIN",
    "RISK" := "IT_RISK_ADMIN"
  ]

  /** `SYSTEM_TO_ROLE[key] || 'IT_ADMIN'`. */
  function SystemRole(systemKey: string): (role: string)
    ensures systemKey in SystemToRole ==> role == SystemToRole[systemKey]
    ensures systemKey !in SystemToRole ==> role == "IT_ADMIN"
    ensures role != "IT_DEVICES_EMAIL_ADMIN"
  {
    if systemKey in SystemToRole then SystemToRole[systemKey] else "IT_ADMIN"
  }

  /** The categories that are routed by system key. */
  predicate IsSystemCategory(category: string) {
    category == "Access & Permissions" || category == "Software / License"
  }

  /**
   * `getITAssignedRole`: devices requests go to the devices/email admin, access and software
   * requests that name a system go to that system's admin, everything else to IT_ADMIN.
   */
  function GetITAssignedRole(category: string, systemKey: string): (role: string)
    ensures category == "Devices & Materials" ==> role == "IT_DEVICES_EMAIL_ADMIN"
    ensures category != "Devices & Materials" && IsSystemCategory(category) && systemKey != "" ==>
      role == SystemRole(systemKey)
    ensures category != "Devices & Materials" && !(IsSystemCategory(category) && systemKey != "") ==>
      role == "IT_ADMIN"
    ensures role == "IT_ADMIN" || role == "IT_DEVICES_EMAIL_ADMIN" || role in SystemToRole.Values
  {
    if category == "Devices & Materials" then "IT_DEVICES_EMAIL_ADMIN"
    else if (category == "Access & Permissions" || category == "Software / License") && systemKey != "" then
      SystemRole(systemKey)
    else "IT_ADMIN"
  }
}

# Workflow engine of the internal requests portal, in Dafny

The portal is an Express/SQLite back end with a Vue front end. It handles three kinds of
request:

- IT requests (`IT`);
- employee onboarding (`ONBOARDING`), which fans out into `ONBOARDING_EMAIL`,
  `ONBOARDING_DEVICE` and `ONBOARDING_SYSTEM` child requests;
- vehicle bookings (`CAR_BOOKING`).

This project models the back end's workflow engine with the SQL and HTTP stripped out, and
proves properties of that model. It also models three front-end composables.

## What each module models

| Module | Models |
|---|---|
| `WorkflowCatalog` | The compiled-in workflow table: four steps per request type. Also the step-status to request-status map, `getWorkflow`, `getNextStep`, `mapWorkflowStatusToRequestStatus` and `getStatusFromWorkflowStep`. |
| `Requests` | A row of the `requests` table as a datatype. Also the value form of `normalizeRequestStatus` and lookups by id. |
| `Routing` | `SYSTEM_TO_ROLE` and `getITAssignedRole`. |
| `Validation` | `validateRequired` over a JSON body with JavaScript falsiness and `trim`. |
| `Availability` | The half-open overlap test, the create and override availability checks, and the auto-assign query. Also the 30-minute slot grid of the `available-slots` endpoint, as two nested loops. |
| `StatusPatch` | The status-patch handler's authorisation decision, and the step-by-step construction of its `updateFields` list. |
| `Visibility` | The per-role `WHERE` clause of the request list, and the access check of the details endpoint. |
| `Onboarding` | The onboarding fan-out as values: the child plan in insertion order, the rows the inserts add when some of them fail, and the parent row with its fast-forward. |
| `Cascade` | Completion of an onboarding parent once all of its children are COMPLETED. |
| `Store` | The database as a class: the `requests` table, onboarding details, the audit log (`request_actions`) and the auto-increment counter. Its methods are the onboarding, status-patch, list and details handlers, and the in-place status write-back. |
| `UseAuth` | `useAuth.js`: the role predicates, `canUpdateRequest`, `canAddNotes`, `getAuthHeaders`, and the shared refs that `clearAuth` resets. |
| `UseStatusFormatter` | `formatStatus` and its label map. |
| `UseToast` | `useToast.js`: the toast list and id counter, `showToast` and `removeToast`. |

## Modelling conventions

- Request types, statuses, steps and roles are strings, as in the source.
- The empty string `""` stands for SQL NULL and for an absent or empty JavaScript value. In
  JavaScript the source only compares these against non-empty constants, so they behave alike
  there. In SQL a test such as `status != 'CANCELLED'` is unknown on NULL and drops the row, so
  the booking filters (`Availability.Blocks`, `Availability.InDayQuery`) require a request
  status that is neither `""` nor CANCELLED.
- Times are whole minutes. A day starts at `dayStart`, the minute of local midnight.
- An INSERT takes the next id. An UPDATE rewrites the row in place and keeps its id.
- Asynchronous callbacks are modelled as running in the order the handler issues them.
- There is one oracle for database failures: `failing`, the set of the onboarding child
  inserts that fail.
- JavaScript default parameters are `Option` values (`None` = omitted).
- The auto-assign vehicle query has no `ORDER BY`, so `FindAvailableVehicle` may return any
  free ACTIVE vehicle.

The model follows the code as written, including these quirks, each proved as a lemma:

- The onboarding parent is inserted at step `HR_SUBMITTED` and fast-forwarded to
  `IT_IN_PROGRESS`. Neither is a step of the ONBOARDING workflow, so
  `getStatusFromWorkflowStep` gives PENDING for both, and the normaliser turns the parent's
  IN_PROGRESS back into PENDING (`ParentStepsFallBackToPending`).
- A status patch naming only `workflowStatus` leaves `current_step` alone. The normaliser
  reads `currentStep` first, so it undoes the change (`WorkflowStatusOnlyPatchIsUndone`).
- For a step-driven type, when the patch body names a step, an explicit `status` is never
  written as given (`ExplicitStatusIgnoredWithStep`).
- The status patch reads its row with `workflow_status AS currentWorkflowStatus`, but its
  step-change test compares the body's `workflowStatus` with `request.workflowStatus`, which
  is therefore undefined. A body `workflowStatus` always counts as a step change, even when it
  equals the stored one, so the step's mapped status replaces the explicit status
  (`SameWorkflowStatusCountsAsChange`).
- The status patch has an `assigned_role` branch for HR_ADMIN. It is unreachable, because
  HR_ADMIN is refused earlier for ONBOARDING requests (`AssignedRoleChangeNeedsSuperAdmin`).
- The client's update policy differs from the server's for onboarding requests
  (`ClientPolicyDiffersFromServer`):
  - the client offers the controls to HR_ADMIN, who is refused by the server;
  - the client hides them from IT_ADMIN before IT setup, although the server accepts that
    caller.
- The details endpoint lets a FLEET_ADMIN open its own non-booking requests. It lets an
  IT_ADMIN open onboarding rows that the list hides (`DetailsIffListed`).
- The day query of the slot grid only fetches bookings that start within the day
  (`OvernightBookingNotInDayQuery`).

## Model

| member | source | states |
|---|---|---|
| `WorkflowCatalog.GetWorkflow` | backend/server.js:503-542 | A workflow exists exactly for CAR_BOOKING, IT and ONBOARDING. Each has four steps with distinct ids, starting at the default step SUBMITTED and ending at COMPLETED. |
| `WorkflowCatalog.FindStepIndex` | backend/server.js:549 | `findIndex` gives -1 exactly when no step has the id; otherwise the first index holding it. |
| `WorkflowCatalog.GetNextStep` | backend/server.js:545-553 | There is a next step exactly when the step is at some index i before the last, and then it is the step at i + 1. Otherwise null. |
| `WorkflowCatalog.NextStepAt` | backend/server.js:545-553 | For the step at index i: the step at i + 1, or none for the last step. |
| `WorkflowCatalog.NextStepUnknown` | backend/server.js:545-553 | An unknown type, or a step id not in the workflow, has no next step. |
| `WorkflowCatalog.MapWorkflowStatusToRequestStatus` | backend/server.js:557-571 | A mapped step status gives its table entry. An unmapped value passes through unchanged. |
| `WorkflowCatalog.FindStep` | backend/server.js:577 | `steps.find` succeeds exactly when some step of the workflow has the id, and returns that step. |
| `WorkflowCatalog.GetStatusFromWorkflowStep` | backend/server.js:574-580 | PENDING for an unknown type, an empty step or an unknown step. Otherwise the mapped status of that step. The result is always one of the valid statuses, and never REJECTED or CANCELLED. |
| `WorkflowCatalog.StepStatusIsMapped` | backend/server.js:503-571 | Every step status in the table is in the status map. It maps to a valid, non-terminal request status. |
| `Requests.StepId` | backend/server.js:598 | The step the normaliser reads (the current step, else the workflow status) is empty exactly when both are empty. |
| `Requests.Normalize` | backend/server.js:584-624 | Only the status can change. The row is unchanged for a REJECTED or CANCELLED status, for a type without a workflow, and for a row without a step. Otherwise the status becomes `getStatusFromWorkflowStep(type, step)`. |
| `Requests.NormalizeIdempotent` | backend/server.js:584-624 | Normalising twice equals normalising once. |
| `Requests.NormalizedStatusIsDerivable` | backend/server.js:604-610 | After normalisation, a non-terminal step-driven row has the status of its step, and that status is not terminal. |
| `Requests.FindIndexById` | backend/server.js:1543-1562 | The lookup by id fails exactly when no row has the id. Otherwise it finds the first row with it. |
| `Requests.StatusOf` | backend/server.js:851-855 | The `INNER JOIN requests` gives a status exactly when the request row exists, and it is that row's status. |
| `Requests.FindIndexUnique` | backend/server.js:1543-1562 | With auto-increment ids, the row found for an id is the one row holding it. |
| `Routing.SystemRole` | backend/server.js:55-62 | The mapped role of a known key, and IT_ADMIN for an unknown one. Never the devices/email admin. |
| `Routing.GetITAssignedRole` | backend/server.js:65-78 | Devices & Materials goes to IT_DEVICES_EMAIL_ADMIN. Access or software requests naming a system go to that system's role. Anything else goes to IT_ADMIN. |
| `Validation.MissingFields` | backend/server.js:275-281 | The missing fields are exactly the required fields that are falsy or blank. The list is no longer than the fields asked for, and it is empty exactly when none is missing. |
| `Validation.MissingFieldsOfConcat` | backend/server.js:276 | The filter keeps the order asked: the missing fields of `a + b` are those of `a` followed by those of `b`. |
| `Validation.MissingFieldsOfOne` | backend/server.js:276 | A single field is reported exactly when it is missing. |
| `Validation.ValidateRequired` | backend/server.js:275-281 | Valid exactly when no required field is missing. Otherwise the error lists the missing fields, joined by ", ". |
| `Validation.StringBody` | backend/server.js:1181-1198 | The body built from string fields holds each given field, and every other field is undefined. |
| `Validation.StringFieldMissingIffBlank` | backend/server.js:275-281 | A string field counts as missing exactly when it is blank after `trim`. |
| `Availability.OverlapsIffCommonMinute` | backend/server.js:851-857 | For non-empty intervals, `NOT (e2 <= s OR s2 >= e)` holds exactly when some minute lies in both. |
| `Availability.OverlapsSymmetricAdjacent` | backend/server.js:733-736 | The overlap test is symmetric, and back-to-back intervals never conflict. |
| `Availability.FirstFreeWithId` | backend/server.js:845-861 | The vehicle query finds nothing exactly when no vehicle with the id is free. Otherwise it returns a free vehicle with that id. |
| `Availability.CheckVehicleAvailability` | backend/server.js:845-861 | A vehicle is available exactly when it is ACTIVE and no overlapping booking of it belongs to an existing request whose status is neither NULL nor CANCELLED. |
| `Availability.CheckOverrideAvailability` | backend/server.js:2126-2135 | The same test, except that bookings of the request being overridden never block it. |
| `Availability.OverrideCheckIsWeaker` | backend/server.js:2126-2135 | Every vehicle available at creation is also available to the override. |
| `Availability.FindAvailableVehicle` | backend/server.js:864-880 | None only when no vehicle is free. Otherwise some free ACTIVE vehicle, not necessarily the lowest id. |
| `Availability.DayBookings` | backend/server.js:689-710 | The day query returns exactly the bookings that start within the day, belong to a request whose status is neither NULL nor CANCELLED, and are of the given vehicle when one is named. |
| `Availability.NewSlotAt` | backend/server.js:725-745 | The slot the loops build at hour h and minute m is slot number 2(h - 6) + m/30 of the grid. |
| `Availability.SlotGridForVehicle` | backend/server.js:721-747 | The grid has 32 consecutive 30-minute slots from 06:00 with their clock labels. A slot is available exactly when no returned booking overlaps it. |
| `Availability.SlotGridAnyVehicle` | backend/server.js:762-797 | The same grid. A slot is available exactly when some ACTIVE vehicle has no overlapping booking. |
| `Availability.GridIsContiguous` | backend/server.js:721-747 | Each slot ends where the next begins, in minutes and on the clock. The grid spans 06:00 to 22:00. |
| `Availability.GridClockTexts` | backend/server.js:742-743 | The first slot reads "06:00" to "06:30". The last slot ends at "22:00". |
| `Availability.AvailableSlots` | backend/server.js:668-800 | The endpoint's grid. With a vehicle, a slot is free exactly when none of that vehicle's day bookings overlaps it. Without one, exactly when some ACTIVE vehicle has no overlapping day booking. |
| `Availability.ActiveVehicles` | backend/server.js:756 | Exactly the vehicles whose status is ACTIVE. |
| `Availability.OvernightBookingNotInDayQuery` | backend/server.js:699 | A booking that started before midnight and runs into the day is not fetched by the day query. |
| `StatusPatch.CancellationCheck` | backend/server.js:1735-1755 | Cancelling a booking fails with 400 when it is already CANCELLED or COMPLETED, and with 400 when the note is blank. It fails with 403 unless the caller is FLEET_ADMIN, SUPER_ADMIN or the owning EMPLOYEE. It passes exactly when the cancellation policy allows the call. |
| `StatusPatch.RoleCheck` | backend/server.js:1757-1787 | Passes exactly under the role policy, otherwise 403. SUPER_ADMIN skips every rule, and ONBOARDING needs IT_ADMIN (HR_ADMIN is always refused). Child types need the assigned role. IT needs IT_ADMIN or the assigned role. A booking update that is not a cancellation needs FLEET_ADMIN. |
| `StatusPatch.StatusCheck` | backend/server.js:1789-1792 | An explicit status must be one of the seven valid statuses, otherwise 400. |
| `StatusPatch.AuthorizePatch` | backend/server.js:1735-1792 | The checks in handler order. The patch passes exactly when both policies allow the call and the status is valid. SUPER_ADMIN passes any valid non-cancellation patch. |
| `StatusPatch.Push` | backend/server.js:1794-1856 | Appending one entry applies it last, and keeps the columns distinct. |
| `StatusPatch.AddAssignedRoleField` | backend/server.js:1797-1804 | When an onboarding parent moves to IT_SETUP under HR_ADMIN or SUPER_ADMIN, `assigned_role` becomes IT_ADMIN; nothing else changes. |
| `StatusPatch.AddStatusField` | backend/server.js:1806-1832 | The status entry sets the status to `PatchedStatus`. For a step-driven type with a defined step in the body, that is the step's mapped status when no status was given, the body's step differs from the stored one, or the body names a workflow status. Otherwise it is the explicit status when no step applies. |
| `StatusPatch.AddStepFields` | backend/server.js:1834-1853 | Sets `workflow_status` and `current_step` to the body's values. For a cancellation, each one the body leaves empty becomes CANCELLED. |
| `StatusPatch.AddCancelledStepFields` | backend/server.js:1834-1845 | A booking cancellation adds CANCELLED for exactly the step columns that the body leaves empty. |
| `StatusPatch.AddBodyStepFields` | backend/server.js:1846-1853 | The body's own `workflowStatus` and `currentStep` are written when present. |
| `StatusPatch.ComputeUpdateFields` | backend/server.js:1794-1856 | Applying the built list to the row gives the patched row. No column is set twice, and the list ends with the timestamp. |
| `StatusPatch.StepPatchIsNormalized` | backend/server.js:1806-1826 | Patching to a defined step, with no explicit status or with a step change, leaves a row whose status is its step's status and which the normaliser leaves alone. |
| `StatusPatch.ExplicitStatusIgnoredWithStep` | backend/server.js:1806-1832 | With a step-driven type and a step in the body, the status either stays or becomes the step's mapped status. With an explicit status, no body workflow status and the stored step in the body, it stays. With a body workflow status naming a defined step, it becomes that step's mapped status. |
| `StatusPatch.SameWorkflowStatusCountsAsChange` | backend/server.js:1817-1822 | An IT row at TRIAGE patched with status IN_PROGRESS and workflow status TRIAGE counts as a step change and gets APPROVED, because the compared `request.workflowStatus` is undefined. |
| `StatusPatch.ChildTakesExplicitStatus` | backend/server.js:1828-1832 | A child request takes an explicit status as given. |
| `StatusPatch.CancellationMarksAllCancelled` | backend/server.js:1828-1845 | Cancelling a booking without a step sets status, workflow status and step to CANCELLED, and the normaliser keeps them. |
| `StatusPatch.AssignedRoleChangeNeedsSuperAdmin` | backend/server.js:1758-1804 | An authorised patch that changes the assigned role comes from SUPER_ADMIN and sets IT_ADMIN. |
| `StatusPatch.EmployeeCannotPatchAssignedIT` | backend/server.js:1773-1780 | An EMPLOYEE patching an IT request routed to another role is refused with 403 and the IT message. |
| `StatusPatch.WorkflowStatusOnlyPatchIsUndone` | backend/server.js:1808-1853 | Patching an IT request's workflow status alone to TRIAGE writes APPROVED and leaves the step at SUBMITTED. Normalising then gives PENDING again. |
| `Visibility.DetailsIffListed` | backend/server.js:1574-1599 | Details access equals the unfiltered list filter, plus two extras: a FLEET_ADMIN's own requests, and, for IT_ADMIN, every ONBOARDING row. |
| `Visibility.ListedImpliesViewable` | backend/server.js:1483-1517 | Every listed row, under any filters, can be opened. |
| `Visibility.HrCannotViewOwnITRequest` | backend/server.js:1590-1594 | An HR_ADMIN neither lists nor opens its own IT request. |
| `Visibility.EmployeeSeesOwnOnly` | backend/server.js:1513-1517 | An EMPLOYEE lists and opens exactly its own requests. |
| `Onboarding.ChildPlan` | backend/server.js:1305 | The plan has `expectedChildCount` children: one for email if needed, one for a device if needed, and one per requested system. |
| `Onboarding.PlanLayout` | backend/server.js:1311-1388 | Email first, then the device, then one child per system in order. |
| `Onboarding.PlanParts` | backend/server.js:1311-1388 | The plan is the email part, then the device part, then the systems part. The first two together hold `SystemOffset` children. |
| `Onboarding.EmailChildFirst` | backend/server.js:1311-1332 | The email child, when needed, is first. |
| `Onboarding.DeviceChildBeforeSystems` | backend/server.js:1334-1355 | The device child, when needed, comes just before the system children. |
| `Onboarding.SystemChildAt` | backend/server.js:1357-1388 | The j-th system child sits at `SystemOffset + j`. |
| `Onboarding.SystemChildrenLast` | backend/server.js:1357-1388 | All system children come last, in the order of the requested systems. |
| `Onboarding.ThreePartIndex` | backend/server.js:1311-1388 | Indexing into a three-part concatenation. |
| `Onboarding.PlanRouting` | backend/server.js:1311-1388 | Every child is a child type. Email and device children go to IT_DEVICES_EMAIL_ADMIN, and the system child for key k to `SYSTEM_TO_ROLE[k]` or IT_ADMIN. |
| `Onboarding.InsertedCount` | backend/server.js:1308-1388 | Every attempt either inserts its row or counts as failed. |
| `Onboarding.InsertedAreSurvivors` | backend/server.js:1308-1388 | The inserted rows are the planned children that did not fail, in order, with consecutive ids. |
| `Onboarding.ChildRowShape` | backend/server.js:1315-1322 | Each child is PENDING at step SUBMITTED (the IT workflow's first step) and points to its parent. |
| `Onboarding.NoFailureInsertsPlan` | backend/server.js:1308-1388 | Without failures, the inserted rows are the whole plan, one for one. |
| `Onboarding.FinalParent` | backend/server.js:1390-1401 | The parent ends at IT_IN_PROGRESS / IN_PROGRESS exactly when some child was expected. Otherwise it stays at HR_SUBMITTED / PENDING. |
| `Onboarding.ParentStepsFallBackToPending` | backend/server.js:1238-1243 | HR_SUBMITTED and IT_IN_PROGRESS are not ONBOARDING steps, so both map to PENDING. Normalising the final parent gives PENDING. |
| `Onboarding.ChildStatusIsPending` | backend/server.js:1315 | `getStatusFromWorkflowStep('IT', 'SUBMITTED')` is PENDING. |
| `Onboarding.ThreeChildExample` | backend/server.js:1358-1371 | Email, device and M365 give three children, routed to the devices admin twice and to the M365 admin, with the display name in the title. |
| `Cascade.CascadeEffect` | backend/server.js:1880-1899 | The parent becomes COMPLETED in status, workflow status and step exactly when it has a child and every child is COMPLETED, or when it already was. No other row and no id changes. |
| `Cascade.CascadeIdempotent` | backend/server.js:1880-1899 | A second cascade on the same parent changes nothing. |
| `Cascade.LastChildCompletesParent` | backend/server.js:1880-1899 | Patching the last open child to COMPLETED triggers the cascade, and then every child is COMPLETED. |
| `Store.Listing` | backend/server.js:1519-1533 | The listing has no more entries than the table. |
| `Store.ListingMembers` | backend/server.js:1483-1533 | The list holds exactly the normalised forms of the rows that the caller's filter selects. |
| `Store.SelectNewestFirst` | backend/server.js:1523-1531 | No more entries than rows. |
| `Store.SelectedHasSource` | backend/server.js:1523-1531 | Every listed entry comes from a selected row. |
| `Store.SourceIsSelected` | backend/server.js:1523-1531 | Every selected row is listed. |
| `Store.ListingStep` | backend/server.js:1523-1531 | One more row adds at most its own entry, at the front (newest first). |
| `Store.NormalizeListed` | backend/server.js:1531 | The write-back keeps the table's length. |
| `Store.SameIdsKeepIncreasing` | backend/server.js:612-614 | An in-place rewrite that keeps ids keeps them increasing. |
| `Store.Store.AttemptChild` | backend/server.js:1317-1331 | A child insert adds its row with the next id, unless this attempt fails. |
| `Store.Store.CreateOnboarding` | backend/server.js:1180-1451 | Only SUPER_ADMIN and HR_ADMIN may submit (403 otherwise), and the four required fields give a 400 when missing. Otherwise it appends the final parent and the surviving children, the details row and the CREATE entry, and replies with the created-count message. |
| `Store.Store.InsertOnboarding` | backend/server.js:1229-1451 | A submission that passed its checks reaches the `Created` state. |
| `Store.Store.InsertRows` | backend/server.js:1246-1401 | The parent takes the next id, followed by its inserted children. `hasError` holds exactly when fewer children were created than expected. |
| `Store.Store.FinishParent` | backend/server.js:1390-1401 | The parent row is fast-forwarded in place exactly when some child was expected. |
| `Store.Store.LogCreate` | backend/server.js:1413-1444 | The CREATE entry with `created/expected` on error, and the reply: IN_PROGRESS at IT_IN_PROGRESS, with the expected count and message. |
| `Store.Store.InsertParent` | backend/server.js:1238-1303 | The parent at HR_SUBMITTED with the next id, and its details row. |
| `Store.Store.FanOut` | backend/server.js:1305-1388 | The table grows by exactly the inserted children of the plan. |
| `Store.Store.FanOutChildren` | backend/server.js:1305-1388 | Inserts the plan in order and counts the successes. `hasError` holds exactly when some attempt failed. |
| `Store.Store.FanOutSystems` | backend/server.js:1357-1388 | The per-system loop advances the fan-out one attempt at a time. |
| `Store.Store.NormalizeRequestStatus` | backend/server.js:584-624 | Returns the normalised row and writes it back: only that row changes. |
| `Store.Store.CascadeParentCompletion` | backend/server.js:1880-1912 | The table becomes `CascadeRows`. AUTO_COMPLETE is logged exactly when the parent UPDATE runs. |
| `Store.Store.ApplyPatch` | backend/server.js:1858-1916 | Applies the UPDATE and runs the cascade for a child whose status moved. The log grows by exactly `PatchLog`: STATUS_UPDATE with the explicit status (else the stored one) and the note (else a default), then AUTO_COMPLETE exactly when the parent's UPDATE runs. |
| `Store.Store.UpdateRow` | backend/server.js:1858-1860 | An UPDATE rewrites one row and keeps ids increasing. |
| `Store.Store.PatchStatus` | backend/server.js:1717-1927 | 404 for an unknown id, and the first failing check's error with no change. Otherwise the patched table, the log grown by exactly `PatchLog` (STATUS_UPDATE, then AUTO_COMPLETE when the cascade's UPDATE runs), and the reply carrying the explicit status (else the stored one) and the body's or stored step fields. |
| `Store.Store.ListOne` | backend/server.js:1531 | A listed row is normalised, written back and put in front. |
| `Store.Store.ListRequests` | backend/server.js:1455-1533 | Returns `Listing` of the table, and writes back the normalised status of every listed row. |
| `Store.Store.GetRequestDetails` | backend/server.js:1538-1605 | 404 for an unknown id. Otherwise the row is normalised and written back before the access check. The result is 403, or the normalised row alone, without the merged detail records. |
| `Store.FanOutStep` | backend/server.js:1311-1388 | One attempt extends the fan-out state by its own row when it succeeds. |
| `Store.AppendInsertedKeepsIds` | backend/server.js:1317-1387 | Appending the inserted children keeps ids increasing and below the counter. |
| `Store.CreatedRowsKeepIds` | backend/server.js:1246-1387 | The parent and its children keep the ids increasing. |
| `Store.ReplaceParentRow` | backend/server.js:1392-1394 | Rewriting the parent between the earlier rows and its children. |
| `Store.InsertedStep` | backend/server.js:1311-1388 | One more attempt extends the inserted rows by at most its own row. |
| `Store.FailedCountPositive` | backend/server.js:1325-1381 | Some attempt failed exactly when the failure count is positive. |
| `JsText.Join` | backend/server.js:278 | Joining one part gives that part. |
| `JsText.UpperChar` | frontend/src/composables/useStatusFormatter.js:22 | `toUpperCase` on one ASCII letter shifts it by 32. Any other character is unchanged. |
| `JsText.UpperString` | frontend/src/composables/useStatusFormatter.js:22 | Upper-casing keeps the length and maps each character. |
| `UseAuth.UserRole` | frontend/src/composables/useAuth.js:12 | EMPLOYEE exactly when there is no user, the role is missing, or the role is EMPLOYEE. Otherwise the user's role. |
| `UseAuth.UpdatePermissionByRole` | frontend/src/composables/useAuth.js:29-37 | False for a null request, and true for SUPER_ADMIN. For IT_ADMIN, exactly IT requests and ONBOARDING at IT_SETUP. HR_ADMIN: exactly ONBOARDING. FLEET_ADMIN: exactly CAR_BOOKING. Non-admins: never. |
| `UseAuth.ManagementRoles` | frontend/src/composables/useAuth.js:17-26 | `isAdminUser` holds exactly for the four admin roles. `canManageEmployees` holds exactly for SUPER_ADMIN and HR_ADMIN, and `canManageVehicles` exactly for SUPER_ADMIN and FLEET_ADMIN. `canManageAllRequests` equals `isAdminUser`, `canViewEmployeeId` holds exactly for SUPER_ADMIN, and `isLead` exactly for a signed-in lead. |
| `UseAuth.NotesAgreeWithUpdate` | frontend/src/composables/useAuth.js:29-47 | `canAddNotes` and `canUpdateRequest` agree on every user and request. |
| `UseAuth.ClientPolicyDiffersFromServer` | frontend/src/composables/useAuth.js:32-34 | For an ONBOARDING request before IT setup, the client allows HR_ADMIN, whom the server's `AuthorizePatch` refuses. It denies IT_ADMIN, whom the server allows. |
| `UseAuth.GetAuthHeaders` | frontend/src/composables/useAuth.js:50-56 | Always the JSON Content-Type. `Authorization: Bearer <token>` exactly when a non-empty token is held. No other header. |
| `UseAuth.AuthState.constructor` | frontend/src/composables/useAuth.js:6-8 | Signed out, no user, no token. |
| `UseAuth.AuthState.ClearAuth` | frontend/src/composables/useAuth.js:99-102 | Signed out, no user, no token. The role then reads EMPLOYEE, no admin rights remain, and the headers hold only Content-Type. |
| `UseStatusFormatter.FormatStatus` | frontend/src/composables/useStatusFormatter.js:3-23 | Never empty. N/A for a falsy status, the label of a listed upper-cased status, and otherwise the status as given. |
| `UseStatusFormatter.UpperOfUpper` | frontend/src/composables/useStatusFormatter.js:22 | A string without lower-case letters is its own upper case. |
| `UseStatusFormatter.KeysAreUpperCase` | frontend/src/composables/useStatusFormatter.js:6-19 | Every key of the label map is upper case. |
| `UseStatusFormatter.ListedStatusLabel` | frontend/src/composables/useStatusFormatter.js:6-22 | Each listed key is shown as its label. |
| `UseStatusFormatter.FormatIgnoresCase` | frontend/src/composables/useStatusFormatter.js:22 | Every casing of a listed key gets that key's label. |
| `UseStatusFormatter.UnlistedStatusUnchanged` | frontend/src/composables/useStatusFormatter.js:22 | An unlisted status is returned in its own casing. |
| `UseStatusFormatter.InProgressExample` | frontend/src/composables/useStatusFormatter.js:9 | IN_PROGRESS is shown as "In Progress". |
| `UseStatusFormatter.HrReviewExample` | frontend/src/composables/useStatusFormatter.js:15 | HR_REVIEW is shown as "HR Review". |
| `UseStatusFormatter.LowerCaseExample` | frontend/src/composables/useStatusFormatter.js:12 | "booked" is shown as "Booked". |
| `UseStatusFormatter.UnlistedExample` | frontend/src/composables/useStatusFormatter.js:22 | "Draft" is shown as "Draft". |
| `UseToast.FirstIndex` | frontend/src/composables/useToast.js:23 | `findIndex`: -1 exactly when no toast has the id. Otherwise the first position holding it. |
| `UseToast.RemovalShape` | frontend/src/composables/useToast.js:22-27 | Removal takes out exactly the first toast with the id. The earlier toasts stay, the later ones shift down by one, and an absent id changes nothing. |
| `UseToast.RemovalKeepsIdsIncreasing` | frontend/src/composables/useToast.js:22-27 | Removal keeps the ids strictly increasing, and no toast with that id remains. |
| `UseToast.ShowThenRemove` | frontend/src/composables/useToast.js:7-27 | Removing the toast just shown restores the list. |
| `UseToast.ToastQueue.constructor` | frontend/src/composables/useToast.js:3-4 | An empty list with the counter at 0. |
| `UseToast.ToastQueue.ShowToast` | frontend/src/composables/useToast.js:7-15 | The new toast takes the counter's value as its id, and the counter goes up by one. Exactly that toast is appended, with the defaults 'success' and 5000. The invariant (ids increasing and below the counter) is kept. |
| `UseToast.ToastQueue.FindToastIndex` | frontend/src/composables/useToast.js:23 | The scan returns `FirstIndex`. |
| `UseToast.ToastQueue.RemoveToast` | frontend/src/composables/useToast.js:22-27 | The list becomes `WithoutToast` of the old list. The counter is unchanged and the invariant is kept. |

## Left out

- Token and session handling is not modelled: `activeTokens`, expiry, the refresh grace
  period, the cleanup timer, `authRequired`/`requireRole`, password hashing and token
  generation. All of these depend on clocks, timers and crypto. The caller's role and id are
  parameters.
- SQL, transactions (`BEGIN`/`COMMIT`/`ROLLBACK`), `waitForDb` and `retryOnBusy` are not
  modelled. Each handler runs as one atomic step on the in-memory tables.
- Database errors are not modelled, except for failed onboarding child inserts (the
  `failing` set). The 500 replies for failed selects, parent inserts, commits and updates
  are left out.
- Date parsing and ISO conversion are not modelled. Two consequences follow:
  - The `Invalid date format` / `Invalid start date format` replies are not modelled.
  - Times and datetimes are integer minutes, and their string comparisons in SQL are
    integer comparisons. Daylight-saving days are not modelled.
- The car-booking create and override endpoints are modelled only through their availability
  checks (`CheckVehicleAvailability`, `CheckOverrideAvailability`, `FindAvailableVehicle`).
  Their inserts, their replies and the race between the check and the transaction are not
  modelled.
- The dead `if (false)` block of the override handler is not modelled.
- The admin CRUD endpoints, logging and `formatErrorResponse` are not modelled. The
  `employeeId` null check of the onboarding handler is not modelled either, because the id
  comes from the session.
- backend/db.js, frontend/src/config.js and test-login.js are not part of this model.
- `Store.Store.GetRequestDetails`: the reply is the normalised row alone. The source's 200
  reply also merges the booking with its vehicle, the IT details, or the onboarding details
  with the children or the parent, each read with its own 500 path. Those reads are outside
  this model.
- `Routing.SystemRole` and `Onboarding.SystemName` treat a system key as a map key. The source
  indexes plain objects, so a key such as "constructor", "toString" or "__proto__" yields an
  inherited, truthy value that it then uses as the role or the display name; the model gives
  IT_ADMIN and the key itself, and so do `Routing.GetITAssignedRole` and
  `Onboarding.PlanRouting`, which use them. The model also takes `systemsRequested` as a list of strings,
  so non-string elements are not modelled.
- `Store.Store.PatchStatus`: the reply's `parentStatus` / `parentWorkflowStatus` fields are
  not modelled. The source reads them in a callback that may run before or after the
  cascade's UPDATE.
- The `this.changes === 0` branch of the patch is not modelled: the row was read just before
  the UPDATE.
- `Store.Store.ListRequests`: the order is newest (highest id) first. This matches
  `ORDER BY created_at DESC`, except for the order among rows created in the same second.
- Request bodies carry strings only. The model does not treat a non-string JSON value in a
  status patch, or a non-string `deviceType`, as the source would.
- `JsText.UpperChar`: upper-cases ASCII letters only. JavaScript's `toUpperCase` also maps
  other letters, some of them to two characters.
- `UseToast.ToastQueue.ShowToast`: the `setTimeout` that removes the toast after `duration`
  is not modelled. The method returns the new id, which the source does not return.
- The toast counter is an unbounded integer: the 2^53 limit of JavaScript numbers is not
  modelled.
- `checkAuth`, `verifyToken` and the `localStorage` calls of `clearAuth` are not modelled,
  since they are I/O.
- `formatStatus` is called with strings only. Object-prototype keys cannot be reached,
  because every upper-cased key lacks lower-case letters.
- The slot labels are `ClockTime` values. `ClockText` renders them as "HH:MM", and
  `GridClockTexts` proves the first and last labels. The other labels are stated as clock
  values, not as strings.

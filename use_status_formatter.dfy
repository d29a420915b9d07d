/** The status label formatter the views use to display request and vehicle statuses. */
module UseStatusFormatter {
  import opened Wrappers
  import opened JsText

  /** The label map, keyed by upper-case status: the label of a listed key, or None. */
  function StatusLabel(key: string): Option<string>
  {
    if key == "PENDING" then Some("Pending")
    else if key == "APPROVED" then Some("Approved")
    else if key == "IN_PROGRESS" then Some("In Progress")
    else if key == "COMPLETED" then Some("Completed")
    else if key == "REJECTED" then Some("Rejected")
    else if key == "BOOKED" then Some("Booked")
    else if key == "CANCELLED" then Some("Cancelled")
    else if key == "SUBMITTED" then Some("Submitted")
    else if key == "HR_REVIEW" then Some("HR Review")
    else if key == "IT_SETUP" then Some("IT Setup")
    else if key == "ACTIVE" then Some("Active")
    else if key == "INACTIVE" then Some("Inactive")
    else None
  }

  /**
   * `formatStatus`: N/A for a falsy status, else the label of the upper-cased status, else
   * the status as given. Every label is non-empty, so the `||` fallback only fires on a miss.
   */
  function FormatStatus(status: string): (shown: string)
    ensures shown != ""
    ensures status == "" ==> shown == "N/A"
    ensures status != "" && StatusLabel(UpperString(status)).Some? ==> shown == StatusLabel(UpperString(status)).value
    ensures status != "" && StatusLabel(UpperString(status)).None? ==> shown == status
  {
    if status == "" then "N/A"
    else
      match StatusLabel(UpperString(status))
      case Some(text) => if text != "" then text else status
      case None => status
  }

  /** A string without lower-case ASCII letters is its own upper-case form. */
  lemma UpperOfUpper(s: string)
    requires forall i :: 0 <= i < |s| ==> !('a' <= s[i] <= 'z')
    ensures UpperString(s) == s
  {
  }

  /** The keys of the label map are upper case. */
  lemma KeysAreUpperCase(key: string)
    requires StatusLabel(key).Some?
    ensures UpperString(key) == key
  {
    if key == "PENDING" {
      UpperOfUpper("PENDING");
    } else if key == "APPROVED" {
      UpperOfUpper("APPROVED");
    } else if key == "IN_PROGRESS" {
      UpperOfUpper("IN_PROGRESS");
    } else if key == "COMPLETED" {
      UpperOfUpper("COMPLETED");
    } else if key == "REJECTED" {
      UpperOfUpper("REJECTED");
    } else if key == "BOOKED" {
      UpperOfUpper("BOOKED");
    } else if key == "CANCELLED" {
      UpperOfUpper("CANCELLED");
    } else if key == "SUBMITTED" {
      UpperOfUpper("SUBMITTED");
    } else if key == "HR_REVIEW" {
      UpperOfUpper("HR_REVIEW");
    } else if key == "IT_SETUP" {
      UpperOfUpper("IT_SETUP");
    } else if key == "ACTIVE" {
      UpperOfUpper("ACTIVE");
    } else if key == "INACTIVE" {
      UpperOfUpper("INACTIVE");
    }
  }

  /** Each listed status is shown with its label. */
  lemma ListedStatusLabel(key: string)
    requires StatusLabel(key).Some?
    ensures FormatStatus(key) == StatusLabel(key).value
  {
    KeysAreUpperCase(key);
  }

  /** The lookup ignores case: every casing of a listed status gets that status's label. */
  lemma FormatIgnoresCase(status: string, key: string)
    requires StatusLabel(key).Some? && UpperString(status) == key
    ensures FormatStatus(status) == StatusLabel(key).value
  {
    assert |status| == |key|;
  }

  /** An unlisted status is shown exactly as given, in its own casing. */
  lemma UnlistedStatusUnchanged(status: string)
    requires status != "" && StatusLabel(UpperString(status)).None?
    ensures FormatStatus(status) == status
  {
  }

  /** The label of IN_PROGRESS. */
  lemma InProgressExample()
    ensures FormatStatus("IN_PROGRESS") == "In Progress"
  {
    assert StatusLabel("IN_PROGRESS") == Some("In Progress");
    ListedStatusLabel("IN_PROGRESS");
  }

  /** The label of HR_REVIEW. */
  lemma HrReviewExample()
    ensures FormatStatus("HR_REVIEW") == "HR Review"
  {
    assert StatusLabel("HR_REVIEW") == Some("HR Review");
    ListedStatusLabel("HR_REVIEW");
  }

  /** A lower-case status gets the label of its upper-case form. */
  lemma LowerCaseExample()
    ensures FormatStatus("booked") == "Booked"
  {
    assert UpperString("booked") == "BOOKED";
    assert StatusLabel("BOOKED") == Some("Booked");
    FormatIgnoresCase("booked", "BOOKED");
  }

  /** An unlisted status keeps its casing. */
  lemma UnlistedExample()
    ensures FormatStatus("Draft") == "Draft"
  {
    assert UpperString("Draft") == "DRAFT";
  }
}

/** The report-user form: a username and a reason, validated in that order, a simulated
    one-second submission, and a return to the community screen afterwards. */
module ReportUserScreen {
  import opened Strings

  datatype SubmitCheck = UsernameMissing | ReasonMissing | Accepted

  /** The checks of `handleSubmit`, in their order; a field is blank when it holds only
      whitespace. */
  function CheckReport(username: string, reason: string): SubmitCheck {
    if AllWhitespace(username) then UsernameMissing
    else if AllWhitespace(reason) then ReasonMissing
    else Accepted
  }

  /** In terms of the trimmed fields: an empty trimmed username is reported before the
      reason is looked at; an empty trimmed reason only with a username; a report with
      both is accepted. */
  lemma CheckReportOrder(username: string, reason: string)
    ensures CheckReport(username, reason) == UsernameMissing <==> Trim(username) == ""
    ensures CheckReport(username, reason) == ReasonMissing <==> Trim(username) != "" && Trim(reason) == ""
    ensures CheckReport(username, reason) == Accepted <==> Trim(username) != "" && Trim(reason) != ""
  {
  }

  class Screen {
    var username: string
    var reason: string
    var isSubmitting: bool
    /** Submissions waiting for their one-second delay. */
    var pendingSubmissions: nat
    /** Navigation timers started after a submission. */
    var pendingNavigations: nat

    constructor ()
      ensures username == "" && reason == "" && !isSubmitting
      ensures pendingSubmissions == 0 && pendingNavigations == 0
    {
      username := "";
      reason := "";
      isSubmitting := false;
      pendingSubmissions := 0;
      pendingNavigations := 0;
    }

    method EditUsername(value: string)
      modifies this
      ensures username == value && reason == old(reason) && isSubmitting == old(isSubmitting)
      ensures pendingSubmissions == old(pendingSubmissions) && pendingNavigations == old(pendingNavigations)
    {
      username := value;
    }

    method EditReason(value: string)
      modifies this
      ensures reason == value && username == old(username) && isSubmitting == old(isSubmitting)
      ensures pendingSubmissions == old(pendingSubmissions) && pendingNavigations == old(pendingNavigations)
    {
      reason := value;
    }

    /** The submit button is disabled while a submission runs. */
    function SubmitDisabled(): bool
      reads this
    {
      isSubmitting
    }

    /** `handleSubmit` up to its `await`: a rejection (an error toast) changes nothing; an
        accepted report starts submitting. */
    method Submit() returns (check: SubmitCheck)
      modifies this
      ensures check == CheckReport(old(username), old(reason))
      ensures username == old(username) && reason == old(reason)
      ensures !check.Accepted? ==> isSubmitting == old(isSubmitting) && pendingSubmissions == old(pendingSubmissions)
      ensures check.Accepted? ==> isSubmitting && pendingSubmissions == old(pendingSubmissions) + 1
      ensures check.Accepted? ==> SubmitDisabled()
      ensures !check.Accepted? ==> SubmitDisabled() == old(SubmitDisabled())
      ensures pendingNavigations == old(pendingNavigations)
    {
      check := CheckReport(username, reason);
      if check.Accepted? {
        isSubmitting := true;
        pendingSubmissions := pendingSubmissions + 1;
      }
    }

    /** The delay ends: both fields are cleared (whatever was typed meanwhile), submitting
        ends and the navigation timer starts. */
    method SubmissionResolves()
      requires pendingSubmissions > 0
      modifies this
      ensures username == "" && reason == "" && !isSubmitting
      ensures pendingSubmissions == old(pendingSubmissions) - 1
      ensures pendingNavigations == old(pendingNavigations) + 1
      ensures !SubmitDisabled()
    {
      username := "";
      reason := "";
      isSubmitting := false;
      pendingSubmissions := pendingSubmissions - 1;
      pendingNavigations := pendingNavigations + 1;
    }

    /** The navigation timer fires. */
    method NavigationFires() returns (route: string)
      requires pendingNavigations > 0
      modifies this
      ensures route == "/community" && pendingNavigations == old(pendingNavigations) - 1
      ensures username == old(username) && reason == old(reason) && isSubmitting == old(isSubmitting)
      ensures pendingSubmissions == old(pendingSubmissions)
    {
      pendingNavigations := pendingNavigations - 1;
      route := "/community";
    }
  }
}

/** The report-bug form: one description, a simulated one-second submission, and a return
    to the help screen afterwards. */
module ReportBugScreen {
  import opened Strings

  /** `handleSubmit` accepts a description with a non-whitespace character. */
  function Accepts(description: string): bool {
    !AllWhitespace(description)
  }

  /** Accepted exactly when the trimmed description is not empty. */
  lemma AcceptsTrimmed(description: string)
    ensures Accepts(description) <==> Trim(description) != ""
  {
  }

  class Screen {
    var bugDescription: string
    var isSubmitting: bool
    var pendingSubmissions: nat
    var pendingNavigations: nat

    constructor ()
      ensures bugDescription == "" && !isSubmitting
      ensures pendingSubmissions == 0 && pendingNavigations == 0
    {
      bugDescription := "";
      isSubmitting := false;
      pendingSubmissions := 0;
      pendingNavigations := 0;
    }

    method EditDescription(value: string)
      modifies this
      ensures bugDescription == value && isSubmitting == old(isSubmitting)
      ensures pendingSubmissions == old(pendingSubmissions) && pendingNavigations == old(pendingNavigations)
    {
      bugDescription := value;
    }

    /** The submit button is disabled while a submission runs. */
    function SubmitDisabled(): bool
      reads this
    {
      isSubmitting
    }

    /** `handleSubmit` up to its `await`: a blank description is rejected without
        entering the submitting state. */
    method Submit() returns (accepted: bool)
      modifies this
      ensures accepted == Accepts(old(bugDescription)) && bugDescription == old(bugDescription)
      ensures !accepted ==> isSubmitting == old(isSubmitting) && pendingSubmissions == old(pendingSubmissions)
      ensures accepted ==> isSubmitting && pendingSubmissions == old(pendingSubmissions) + 1
      ensures accepted ==> SubmitDisabled()
      ensures !accepted ==> SubmitDisabled() == old(SubmitDisabled())
      ensures pendingNavigations == old(pendingNavigations)
    {
      accepted := Accepts(bugDescription);
      if accepted {
        isSubmitting := true;
        pendingSubmissions := pendingSubmissions + 1;
      }
    }

    /** The delay ends: the description is cleared, submitting ends, navigation is timed. */
    method SubmissionResolves()
      requires pendingSubmissions > 0
      modifies this
      ensures bugDescription == "" && !isSubmitting
      ensures pendingSubmissions == old(pendingSubmissions) - 1
      ensures pendingNavigations == old(pendingNavigations) + 1
      ensures !SubmitDisabled()
    {
      bugDescription := "";
      isSubmitting := false;
      pendingSubmissions := pendingSubmissions - 1;
      pendingNavigations := pendingNavigations + 1;
    }

    method NavigationFires() returns (route: string)
      requires pendingNavigations > 0
      modifies this
      ensures route == "/help-support" && pendingNavigations == old(pendingNavigations) - 1
      ensures bugDescription == old(bugDescription) && isSubmitting == old(isSubmitting)
      ensures pendingSubmissions == old(pendingSubmissions)
    {
      pendingNavigations := pendingNavigations - 1;
      route := "/help-support";
    }
  }
}

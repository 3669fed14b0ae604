/** The password-reset request page (src/pages/ForgotPasswordPage.tsx:20-49,
    74): it asks for an email, calls `forgotPassword(email)`, and replaces the
    form by a confirmation once the instructions are sent. */
module ForgotPasswordPage {
  import opened Wrappers
  import opened Effects

  datatype State = State(isSent: bool, isLoading: bool)

  const Initial := State(false, false)

  datatype Outcome = Outcome(call: Option<string>, toast: Option<Toast>, state: State)

  /** The page shows the form until the instructions are sent. */
  predicate ShowsForm(st: State) { !st.isSent }

  /** The submit handler, given how `forgotPassword` settles. `isSent` only
      ever becomes true, and only on a true result. */
  function Submit(st: State, email: string, response: Settled<bool>): (o: Outcome)
    ensures email == "" ==> o.call.None? && o.toast == Some(ErrorToast(EnterEmail)) && o.state == st
    ensures o.call.Some? <==> email != ""
    ensures o.call.Some? ==> o.call.value == email
    ensures o.state.isSent <==> st.isSent || (o.call.Some? && response == Resolved(true))
    ensures o.call.Some? && response == Resolved(true) ==> o.toast == Some(SuccessToast(ResetInstructionsSent))
    ensures o.call.Some? && response == Resolved(false) ==> o.toast == Some(ErrorToast(EmailNotFound))
    ensures o.call.Some? && response.Rejected? ==> o.toast == Some(ErrorToast(RequestFailed))
    ensures o.call.Some? ==> !o.state.isLoading
  {
    if email == "" then Outcome(None, Some(ErrorToast(EnterEmail)), st)
    else match response
      case Resolved(true) => Outcome(Some(email), Some(SuccessToast(ResetInstructionsSent)), State(true, false))
      case Resolved(false) => Outcome(Some(email), Some(ErrorToast(EmailNotFound)), st.(isLoading := false))
      case Rejected => Outcome(Some(email), Some(ErrorToast(RequestFailed)), st.(isLoading := false))
  }

  /** Starting from a fresh page, the form disappears after a submission
      exactly when `forgotPassword` returned true. */
  lemma FormHiddenIffSent(email: string, response: Settled<bool>)
    ensures !ShowsForm(Submit(Initial, email, response).state) <==> email != "" && response == Resolved(true)
  {
  }
}

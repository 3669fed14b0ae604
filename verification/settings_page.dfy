/** The settings page (src/pages/SettingsPage.tsx): account deletion behind a
    confirmation dialog. */
module SettingsPage {
  import opened Wrappers
  import opened Effects
  import opened Users
  import Auth

  datatype State = State(dialogOpen: bool, isDeleting: bool)

  /** Without a session user the page navigates to /login and renders nothing. */
  function View(user: Option<User>): (r: Option<string>)
    ensures r.Some? <==> user.None?
    ensures r.Some? ==> r.value == "/login"
  {
    if user.None? then Some("/login") else None
  }

  /** Both dialog buttons are disabled while the deletion runs. */
  predicate ButtonsEnabled(st: State) { !st.isDeleting }

  /** Pressing the dialog's delete button: the deletion starts. */
  function BeginDelete(st: State): (r: State)
    ensures !ButtonsEnabled(r) && r.dialogOpen == st.dialogOpen
  {
    st.(isDeleting := true)
  }

  datatype Outcome = Outcome(toast: Toast, navigateTo: Option<string>, state: State)

  /** The handler once `deleteAccount` settles. Any resolution, true or
      false, is reported as a deletion and leads home; only a rejection shows
      an error. Either way the dialog closes and the buttons come back. */
  function FinishDelete(response: Settled<bool>): (o: Outcome)
    ensures o.state == State(false, false)
    ensures response.Resolved? <==> o.toast == SuccessToast(AccountDeleted)
    ensures response.Resolved? <==> o.navigateTo == Some("/")
    ensures response.Rejected? ==> o.toast == ErrorToast(AccountDeletionFailed) && o.navigateTo.None?
  {
    match response
    case Resolved(_) => Outcome(SuccessToast(AccountDeleted), Some("/"), State(false, false))
    case Rejected => Outcome(ErrorToast(AccountDeletionFailed), None, State(false, false))
  }

  /** Wired to the provider, a deletion reports success and leads home even
      when the provider refused it; when it did not, the account is gone and
      the session closed. */
  lemma DeletionAgainstProvider(s: Auth.AuthState)
    ensures var step := Auth.DeleteAccount(s);
            FinishDelete(Resolved(step.ok)).toast == SuccessToast(AccountDeleted)
            && (step.ok ==> step.state.user.None? && !step.state.isAuthenticated
                            && forall i :: 0 <= i < |step.state.users| ==> step.state.users[i].id != s.user.value.id)
  {
  }

  /** A refused deletion still tells the user the account was deleted. */
  lemma RefusedDeletionReportedAsDone()
    ensures var step := Auth.DeleteAccount(Auth.Empty);
            !step.ok && FinishDelete(Resolved(step.ok)).toast == SuccessToast(AccountDeleted)
  {
  }
}

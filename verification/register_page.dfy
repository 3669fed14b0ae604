/** The sign-up form's submit handler (src/pages/RegisterPage.tsx:23-50). */
module RegisterPage {
  import opened Wrappers
  import opened Effects
  import opened Users
  import Auth

  /** The form fields; `avatar` is the file picked in the avatar slot. */
  datatype Form = Form(username: string, email: string, password: string,
                       confirmPassword: string, avatar: Option<string>)

  /** The arguments `register` is called with. */
  datatype RegisterCall = RegisterCall(username: string, email: string, password: string,
                                       profileData: Option<UserPatch>)

  datatype Outcome = Outcome(call: Option<RegisterCall>, toast: Option<Toast>,
                             navigateTo: Option<string>, isLoading: bool)

  predicate AnyEmpty(f: Form)
  {
    f.username == "" || f.email == "" || f.password == "" || f.confirmPassword == ""
  }

  /** The submit handler, given how the `register` promise settles when it
      is called. Empty fields are reported first, then a password mismatch;
      only a form passing both calls `register`, with three arguments. */
  function Submit(f: Form, response: Settled<bool>): (o: Outcome)
    ensures AnyEmpty(f) ==> o.call.None? && o.toast == Some(ErrorToast(FillAllFields))
    ensures !AnyEmpty(f) && f.password != f.confirmPassword
            ==> o.call.None? && o.toast == Some(ErrorToast(PasswordsMismatch))
    ensures o.call.Some? <==> !AnyEmpty(f) && f.password == f.confirmPassword
    ensures o.call.Some? ==> o.call.value == RegisterCall(f.username, f.email, f.password, None)
    ensures o.navigateTo.Some? <==> o.call.Some? && response == Resolved(true)
    ensures o.navigateTo.Some? ==> o.navigateTo.value == "/"
    ensures o.call.Some? ==> (o.toast.Some? <==> response.Rejected?)
    ensures o.call.Some? && response.Rejected? ==> o.toast == Some(ErrorToast(RegistrationFailed))
    ensures !o.isLoading
  {
    if AnyEmpty(f) then Outcome(None, Some(ErrorToast(FillAllFields)), None, false)
    else if f.password != f.confirmPassword then Outcome(None, Some(ErrorToast(PasswordsMismatch)), None, false)
    else
      var call := Some(RegisterCall(f.username, f.email, f.password, None));
      match response
      case Resolved(true) => Outcome(call, None, Some("/"), false)
      case Resolved(false) => Outcome(call, None, None, false)
      case Rejected => Outcome(call, Some(ErrorToast(RegistrationFailed)), None, false)
  }

  /** The picked avatar never reaches `register`: the outcome does not depend on it. */
  lemma AvatarIgnored(f: Form, other: Option<string>, response: Settled<bool>)
    ensures Submit(f.(avatar := other), response) == Submit(f, response)
  {
  }

  /** The form wired to the provider: a valid submission runs `register` on
      the provider state and navigates home exactly when it succeeds, which
      happens exactly when the email is not yet in use. */
  lemma SubmitAgainstProvider(s: Auth.AuthState, f: Form, today: string)
    requires !AnyEmpty(f) && f.password == f.confirmPassword
    ensures var r := Auth.Register(s, f.username, f.email, f.password, None, today);
            var o := Submit(f, Resolved(r.ok));
            o.navigateTo == Some("/") <==> !Auth.EmailTaken(s.users, f.email)
  {
  }
}

/** The sign-in form's submit handler (src/pages/LoginPage.tsx:20-42). The
    form asks for a user name, but hands it to `login` as the email, which the
    provider compares with the accounts' emails
    (src/context/AuthContext.tsx:84-89). */
module LoginPage {
  import opened Wrappers
  import opened Effects
  import opened Seqs
  import opened Users
  import Auth

  datatype Form = Form(username: string, password: string)

  /** The arguments `login` is called with. */
  datatype LoginCall = LoginCall(email: string, password: string)

  datatype Outcome = Outcome(call: Option<LoginCall>, toast: Option<Toast>,
                             navigateTo: Option<string>, isLoading: bool)

  /** A submission together with the provider state it leaves behind. */
  datatype Run = Run(outcome: Outcome, state: Auth.AuthState)

  /** The submit handler, given how the `login` promise settles. */
  function Submit(f: Form, response: Settled<bool>): (o: Outcome)
    ensures f.username == "" || f.password == "" ==> o.call.None? && o.toast == Some(ErrorToast(FillAllFields))
    ensures o.call.Some? <==> f.username != "" && f.password != ""
    ensures o.call.Some? ==> o.call.value == LoginCall(f.username, f.password)
    ensures o.navigateTo.Some? <==> o.call.Some? && response == Resolved(true)
    ensures o.navigateTo.Some? ==> o.navigateTo.value == "/"
    ensures response == Resolved(false) ==> o.toast.None? || o.call.None?
    ensures o.call.Some? ==> (o.toast.Some? <==> response.Rejected?)
    ensures o.call.Some? && response.Rejected? ==> o.toast == Some(ErrorToast(LoginFailed))
    ensures !o.isLoading
  {
    if f.username == "" || f.password == "" then Outcome(None, Some(ErrorToast(FillAllFields)), None, false)
    else
      var call := Some(LoginCall(f.username, f.password));
      match response
      case Resolved(true) => Outcome(call, None, Some("/"), false)
      case Resolved(false) => Outcome(call, None, None, false)
      case Rejected => Outcome(call, Some(ErrorToast(LoginFailed)), None, false)
  }

  /** The form wired to the provider, as written: the typed user name is
      looked up among the emails. */
  function SubmitAgainst(s: Auth.AuthState, f: Form): (r: Run)
    ensures r.outcome.navigateTo.Some? <==>
              f.username != "" && f.password != ""
              && exists i :: 0 <= i < |s.users| && s.users[i].email == f.username
                                                && s.users[i].password == f.password
    ensures r.outcome.navigateTo.None? ==> r.state == s
  {
    if f.username == "" || f.password == "" then Run(Submit(f, Rejected), s)
    else
      var step := Auth.Login(s, f.username, f.password);
      Run(Submit(f, Resolved(step.ok)), step.state)
  }

  /** A demonstration account cannot sign in with the user name and password
      the form asks for. */
  lemma SampleAccountCannotSignIn()
    ensures var s := Auth.Init(Auth.NothingStored);
            var r := SubmitAgainst(s, Form(John.username, John.password));
            r.outcome.navigateTo.None? && r.state == s
  {
    var s := Auth.Init(Auth.NothingStored);
    assert s.users[0].email != John.username && s.users[1].email != John.username;
  }

  predicate SignsInAs(u: User, f: Form)
  {
    u.username == f.username && u.password == f.password
  }

  /** The form wired to the provider with the evident intent: the typed user
      name is looked up among the user names, and the first account with that
      name and password is signed in. */
  function SubmitByUsername(s: Auth.AuthState, f: Form): (r: Run)
    ensures r.outcome.navigateTo.Some? <==>
              f.username != "" && f.password != ""
              && exists i :: 0 <= i < |s.users| && SignsInAs(s.users[i], f)
    ensures r.outcome.navigateTo.Some? ==>
              r.state.users == s.users && r.state.isAuthenticated
              && r.state.user.Some? && r.state.user.value.username == f.username
    ensures r.outcome.navigateTo.None? ==> r.state == s
  {
    if f.username == "" || f.password == "" then Run(Submit(f, Rejected), s)
    else match Find(s.users, u => SignsInAs(u, f))
      case Some(u) => Run(Submit(f, Resolved(true)), Auth.AuthState(s.users, Some(u), true))
      case None => Run(Submit(f, Resolved(false)), s)
  }

  /** With the corrected lookup, every account with a non-empty name and
      password can sign in through the form. */
  lemma EveryAccountCanSignIn(s: Auth.AuthState, i: nat)
    requires i < |s.users| && s.users[i].username != "" && s.users[i].password != ""
    ensures var r := SubmitByUsername(s, Form(s.users[i].username, s.users[i].password));
            r.outcome.navigateTo == Some("/") && r.state.user.Some?
            && r.state.user.value.username == s.users[i].username
  {
    assert SignsInAs(s.users[i], Form(s.users[i].username, s.users[i].password));
  }
}

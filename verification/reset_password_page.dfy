/** The password-reset page (src/pages/ResetPasswordPage.tsx): the link
    carries `token` and `email` in its query string; the form asks for the
    new password twice and calls `resetPassword(email, password, token)`. */
module ResetPasswordPage {
  import opened Wrappers
  import opened Effects
  import Query

  datatype Form = Form(password: string, confirmPassword: string)

  /** The link parameters; `None` where the query string lacks them. */
  datatype Link = Link(token: Option<string>, email: Option<string>)

  /** The arguments `resetPassword` is called with. */
  datatype ResetCall = ResetCall(email: string, password: string, token: string)

  datatype Outcome = Outcome(call: Option<ResetCall>, toast: Option<Toast>,
                             navigateTo: Option<string>, isLoading: bool)

  /** The token and email read from the page's query string. */
  function ReadLink(search: string): (l: Link)
    ensures l.token == Query.Get(search, "token") && l.email == Query.Get(search, "email")
  {
    Link(Query.Get(search, "token"), Query.Get(search, "email"))
  }

  /** `!token || !email`: a parameter that is missing or empty. */
  predicate Incomplete(l: Link)
  {
    l.token.None? || l.token.value == "" || l.email.None? || l.email.value == ""
  }

  /** The page renders the error card, with a way back to the request form,
      in place of the password form. */
  function ErrorCardRoute(l: Link): (r: Option<string>)
    ensures r.Some? <==> Incomplete(l)
    ensures r.Some? ==> r.value == "/forgot-password"
  {
    if Incomplete(l) then Some("/forgot-password") else None
  }

  /** The submit handler, given how `resetPassword` settles. The checks run
      in order: empty fields, mismatch, incomplete link; each stops before the
      call. */
  function Submit(l: Link, f: Form, response: Settled<bool>): (o: Outcome)
    ensures f.password == "" || f.confirmPassword == "" ==>
              o.call.None? && o.toast == Some(ErrorToast(FillAllFields))
    ensures f.password != "" && f.confirmPassword != "" && f.password != f.confirmPassword ==>
              o.call.None? && o.toast == Some(ErrorToast(PasswordsMismatch))
    ensures f.password != "" && f.password == f.confirmPassword && Incomplete(l) ==>
              o.call.None? && o.toast == Some(ErrorToast(InvalidResetLink))
    ensures o.call.Some? <==> f.password != "" && f.password == f.confirmPassword && !Incomplete(l)
    ensures o.call.Some? ==> o.call.value == ResetCall(l.email.value, f.password, l.token.value)
    ensures o.navigateTo.Some? <==> o.call.Some? && response == Resolved(true)
    ensures o.navigateTo.Some? ==>
              o.navigateTo.value == "/login" && o.toast == Some(SuccessToast(PasswordResetDone))
    ensures o.call.Some? && response == Resolved(false) ==> o.toast == Some(ErrorToast(PasswordResetRefused))
    ensures o.call.Some? && response.Rejected? ==> o.toast == Some(ErrorToast(PasswordResetFailed))
    ensures !o.isLoading
  {
    if f.password == "" || f.confirmPassword == "" then
      Outcome(None, Some(ErrorToast(FillAllFields)), None, false)
    else if f.password != f.confirmPassword then
      Outcome(None, Some(ErrorToast(PasswordsMismatch)), None, false)
    else if Incomplete(l) then
      Outcome(None, Some(ErrorToast(InvalidResetLink)), None, false)
    else
      var call := Some(ResetCall(l.email.value, f.password, l.token.value));
      match response
      case Resolved(true) => Outcome(call, Some(SuccessToast(PasswordResetDone)), Some("/login"), false)
      case Resolved(false) => Outcome(call, Some(ErrorToast(PasswordResetRefused)), None, false)
      case Rejected => Outcome(call, Some(ErrorToast(PasswordResetFailed)), None, false)
  }

  /** The form and the error card agree: a page showing the form has a link
      the handler accepts, and a page showing the error card has one the
      handler refuses. */
  lemma ErrorCardIffLinkRefused(l: Link, f: Form, response: Settled<bool>)
    requires f.password != "" && f.password == f.confirmPassword
    ensures ErrorCardRoute(l).Some? <==> Submit(l, f, response).toast == Some(ErrorToast(InvalidResetLink))
  {
  }

  /** A link `?token=T&email=E` built from non-empty parameters leads a
      matching form to call `resetPassword(E, password, T)`. */
  lemma WrittenLinkReachesReset(token: string, email: string, f: Form, response: Settled<bool>)
    requires token != "" && email != "" && '&' !in token && '&' !in email
    requires f.password != "" && f.password == f.confirmPassword
    ensures var l := ReadLink(Query.Render([("token", token), ("email", email)]));
            ErrorCardRoute(l).None?
            && Submit(l, f, response).call == Some(ResetCall(email, f.password, token))
  {
    var pairs := [("token", token), ("email", email)];
    assert Query.Writable(pairs[0]) && Query.Writable(pairs[1]);
    Query.GetRendered(pairs, 0);
    Query.GetRendered(pairs, 1);
  }

  /** A link without a token shows the error card. */
  lemma LinkWithoutTokenRefused(email: string)
    requires '&' !in email
    ensures ErrorCardRoute(ReadLink(Query.Render([("email", email)]))).Some?
  {
    Query.GetRenderedAbsent([("email", email)], "token");
  }
}

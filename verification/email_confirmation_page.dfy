/** The email-confirmation page (src/pages/EmailConfirmationPage.tsx): on
    mount it reads `email` from the query string and calls
    `verifyEmail(email)`; the page then shows whether that succeeded. */
module EmailConfirmationPage {
  import opened Wrappers
  import opened Effects
  import Query

  datatype State = State(isVerifying: bool, isSuccess: bool)

  const Initial := State(true, false)

  datatype Outcome = Outcome(call: Option<string>, state: State)

  /** What the card says. */
  datatype Status = Checking | Verified | NotVerified

  function StatusOf(st: State): (r: Status)
    ensures r == Checking <==> st.isVerifying
    ensures r == Verified <==> !st.isVerifying && st.isSuccess
  {
    if st.isVerifying then Checking else if st.isSuccess then Verified else NotVerified
  }

  /** The button back to the login page appears once verification is over. */
  predicate ShowsLoginButton(st: State) { !st.isVerifying }

  /** The mount effect, given how `verifyEmail` settles. A missing or empty
      email fails without a call; otherwise success is the call's result and
      a rejection is a failure. */
  function Verify(search: string, response: Settled<bool>): (o: Outcome)
    ensures var e := Query.Get(search, "email");
            o.call.Some? <==> e.Some? && e.value != ""
    ensures o.call.Some? ==> o.call == Query.Get(search, "email")
    ensures !o.state.isVerifying
    ensures o.state.isSuccess <==> o.call.Some? && response == Resolved(true)
  {
    match Query.Get(search, "email")
    case None => Outcome(None, State(false, false))
    case Some(email) =>
      if email == "" then Outcome(None, State(false, false))
      else match response
        case Resolved(b) => Outcome(Some(email), State(false, b))
        case Rejected => Outcome(Some(email), State(false, false))
  }

  /** Before the effect completes the page shows only the spinner; after it,
      the login button and a verdict that is positive exactly when the email
      was confirmed. */
  lemma VerdictAfterEffect(search: string, response: Settled<bool>)
    ensures StatusOf(Initial) == Checking && !ShowsLoginButton(Initial)
    ensures var st := Verify(search, response).state;
            ShowsLoginButton(st)
            && (StatusOf(st) == Verified <==> Verify(search, response).call.Some? && response == Resolved(true))
  {
  }

  /** A link `?email=E` with a non-empty `E` verifies `E`. */
  lemma WrittenLinkVerifies(email: string, response: Settled<bool>)
    requires email != "" && '&' !in email
    ensures Verify(Query.Render([("email", email)]), response).call == Some(email)
  {
    assert Query.Writable(("email", email));
    Query.GetRendered([("email", email)], 0);
  }
}

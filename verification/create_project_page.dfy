/** The project-creation page (src/pages/CreateProjectPage.tsx:23-55). It
    stores nothing: a valid submission only shows a spinner for a second and
    then reports success. */
module CreateProjectPage {
  import opened Wrappers
  import opened Effects

  datatype Form = Form(name: string, description: string, technologies: string)

  /** The effect's reaction to the session: the route and toast, if any. */
  datatype AuthRedirect = AuthRedirect(route: string, toast: Toast)

  function Guard(isAuthenticated: bool): (r: Option<AuthRedirect>)
    ensures r.Some? <==> !isAuthenticated
    ensures r.Some? ==> r.value == AuthRedirect("/login", ErrorToast(LoginToCreateProject))
  {
    if isAuthenticated then None else Some(AuthRedirect("/login", ErrorToast(LoginToCreateProject)))
  }

  datatype Outcome = Outcome(toast: Option<Toast>, isLoading: bool, timerStarted: bool)

  /** The submit handler: a missing name or description is refused;
      otherwise loading starts and the one-second timer is armed. */
  function Submit(f: Form): (o: Outcome)
    ensures o.timerStarted <==> f.name != "" && f.description != ""
    ensures !o.timerStarted ==> o.toast == Some(ErrorToast(FillNameAndDescription)) && !o.isLoading
    ensures o.timerStarted ==> o.toast.None? && o.isLoading
  {
    if f.name == "" || f.description == "" then Outcome(Some(ErrorToast(FillNameAndDescription)), false, false)
    else Outcome(None, true, true)
  }

  /** What the timer does when it fires. */
  datatype Completion = Completion(isLoading: bool, toast: Toast, route: string)

  function TimerFires(): (c: Completion)
    ensures !c.isLoading && c.toast == SuccessToast(ProjectCreated) && c.route == "/projects"
  {
    Completion(false, SuccessToast(ProjectCreated), "/projects")
  }

  /** The technologies field neither enables nor blocks a submission. */
  lemma TechnologiesOptional(f: Form, technologies: string)
    ensures Submit(f.(technologies := technologies)) == Submit(f)
  {
  }
}

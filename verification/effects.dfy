/** What the page handlers do besides computing values: the toast they
    raise, the route they navigate to, and how an awaited call into the
    authentication provider settled. Toast texts are represented by the
    message they carry; the choice between the Russian and the English
    wording is modelled once, in the Language module. */
module Effects {

  /** How an awaited promise settled: resolved with a value, or rejected. */
  datatype Settled<T> = Resolved(value: T) | Rejected

  datatype Tone = Info | Success | Error

  datatype Notice =
    | FillAllFields
    | PasswordsMismatch
    | RegistrationFailed
    | LoginFailed
    | InvalidResetLink
    | PasswordResetDone
    | PasswordResetRefused
    | PasswordResetFailed
    | EnterEmail
    | ResetInstructionsSent
    | EmailNotFound
    | RequestFailed
    | LoginToCreateProject
    | FillNameAndDescription
    | ProjectCreated
    | AccountDeleted
    | AccountDeletionFailed
    | AccessGranted
    | InvalidCredentials
    | InformationUpdated
    | FileSelected(fileName: string)

  datatype Toast = Toast(tone: Tone, notice: Notice)

  /** What a guarded page shows: a redirect, or its content. */
  datatype View<T> = Redirect(route: string) | Show(content: T)

  function ErrorToast(n: Notice): Toast { Toast(Error, n) }
  function SuccessToast(n: Notice): Toast { Toast(Success, n) }
}

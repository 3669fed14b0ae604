# DevNet front end, modelled in Dafny

DevNet is a single-page React application: a developers' network where people
register, sign in, edit a profile, search the directory, get recommended peers,
chat, and browse projects. It has no server of its own. The user directory lives
in the `AuthContext` provider, which starts from two demonstration accounts.
The session is mirrored into browser storage. A `LanguageContext` provider
translates keys through a Russian and an English table.

This project models that core as pure Dafny functions over immutable data:

- `Auth`: the authentication provider, as a state machine over
  `(users, user, isAuthenticated)`. It has `Init`, `Login`, `Register`,
  `Logout`, `UpdateUser` and `DeleteAccount`, and a directory invariant
  (consistent session, distinct emails, distinct ids, session user in the
  directory) that each operation is shown to keep or, where it does not,
  to break.
- `Users`: the user record, partial records and object spread (`Merge`),
  and the two demonstration accounts.
- `Locales` and `Language`: the two translation tables and the three-level
  fallback of `t`; `Notification`: the toast helpers.
- `Search` and the page modules `HomePage`, `DevelopersPage`,
  `ProjectsPage`, `MessagesPage`, `RecommendedPage` and `ForDevelopersPage`:
  the search filters and auth gates.
- `LoginPage`, `RegisterPage`, `ResetPasswordPage`, `ForgotPasswordPage`,
  `EmailConfirmationPage`, `CreateProjectPage` and `SettingsPage`: form
  handlers. Each is modelled as a function from the form and from how the
  awaited provider call settled (`Effects.Settled`) to the call it made,
  the toast it raised, the route it navigated to and its loading flag.
- `Chat`, `Profile` and `AboutCreatorsPage`: the chat send, the profile
  editor, and the creators' card editor.
- `Query`: `URLSearchParams.get` over the link parameters.
- `Allowlist`: the hard-coded credential checks of the two admin pages.
- `Text` and `Seqs`: the string and array primitives the pages rely on,
  with their own contracts.

Toast texts are abstract `Effects.Notice` values. Where a page chooses between
a Russian and an English wording, that choice is modelled once, in
`Language.ChooseText`.

## Model

| member | source | states |
|---|---|---|
| Auth.Init | src/context/AuthContext.tsx:66-82 | Start-up installs the demonstration accounts; a session exists exactly when a parseable user record was stored, and is that record; the flag is raised exactly when the stored value parses (a record or `null`), so it agrees with the session except after a stored `null` |
| Auth.InitEstablishesInv | src/context/AuthContext.tsx:6-33 | The demonstration directory with a restored demonstration user, or with no session, satisfies the directory invariant |
| Auth.StoredNullBreaksConsistency | src/context/AuthContext.tsx:70-76 | The flag and the session disagree after start-up exactly when the stored value is `null` |
| Auth.Login | src/context/AuthContext.tsx:84-103 | Resolves true exactly when some account has that email and password; then that account becomes the session user and the directory is kept; on false nothing changes |
| Auth.LoginPreservesInv | src/context/AuthContext.tsx:84-103 | Signing in keeps the directory invariant |
| Auth.Register | src/context/AuthContext.tsx:105-142 | Refused, with no change, exactly when the email is already used; otherwise the new account is appended after the unchanged directory and signed in; its id, name, email, password, registration date and skills are the profile data's where given and otherwise the next number, the given name, email and password, today and no skills |
| Auth.RegisterKeepsEmailsDistinct | src/context/AuthContext.tsx:113-129 | When profile data carries no email, the email check keeps emails distinct across the directory |
| Auth.RegisterProfileEmailCanDuplicate | src/context/AuthContext.tsx:119-126 | Profile data carrying an email is spread after the checked one, so an account with John's email can be added next to John |
| Auth.RegisterIdCollision | src/context/AuthContext.tsx:120 | Register, sign in as John, delete John, register again: the new account gets the id "3", which an existing account already has |
| Auth.RegisterFreshId | src/context/AuthContext.tsx:105-142 | The intended registration: same refusal and append behaviour, with an id no account in the directory has |
| Auth.RegisterFreshIdPreservesInv | src/context/AuthContext.tsx:105-142 | The intended registration keeps the whole directory invariant, distinct ids included |
| Auth.Logout | src/context/AuthContext.tsx:144-148 | The directory is kept; the session and the flag are cleared |
| Auth.LogoutPreservesInv | src/context/AuthContext.tsx:144-148 | Signing out keeps the directory invariant |
| Auth.UpdateUser | src/context/AuthContext.tsx:150-161 | With a session user: the merged record becomes the session user and replaces every account with that user's id. Without one: with a non-empty directory the call fails, reading `user.id` of null |
| Auth.UpdateUserPreservesInv | src/context/AuthContext.tsx:150-161 | An edit that leaves id and email alone keeps the directory invariant |
| Auth.UpdateUserWithoutSessionBreaksConsistency | src/context/AuthContext.tsx:150-161 | With no session and an empty directory, updating sets a session user while the flag stays false |
| Auth.DeleteAccount | src/context/AuthContext.tsx:163-181 | Without a session: false, and nothing changes. With one: true, the session is cleared, and the directory keeps, in order, every copy of each account with another id and no account with the signed-in id |
| Auth.DeleteAccountPreservesInv | src/context/AuthContext.tsx:163-181 | Deleting the account keeps the directory invariant |
| Users.MergeKeepsIdentity | src/context/AuthContext.tsx:152 | Spreading a patch without `id` and `email` keeps the record's id and email |
| Locales.Lookup | src/locales/index.ts:1-189 | Indexing a table: absent exactly when no entry has the key, otherwise the value of the last entry with that key |
| Locales.TablesAgree | src/locales/index.ts:3-188 | The Russian and English tables list the same keys in the same order, and no value is empty |
| Locales.ListedKeyTranslated | src/locales/index.ts:3-188 | Every key of the Russian table has a non-empty text in both tables |
| Locales.LanguageEntries | src/locales/index.ts:94-187 | The `language` key reads "Язык" in Russian and "Language" in English |
| Language.DefaultTranslateLanguage | src/context/LanguageContext.tsx:14-18 | Outside the provider, `t("language")` is "language", never "ru" |
| Language.InitialLanguage | src/context/LanguageContext.tsx:24-28 | The stored language when one is stored and non-empty, otherwise "ru", with no check against the known tables |
| Language.Translate | src/context/LanguageContext.tsx:35-38 | Fails exactly when the language is neither "ru", "en" nor a name inherited from `Object.prototype`; otherwise it gives the language's own text if non-empty, else the Russian text if non-empty, else the key itself |
| Language.InheritedLanguageFallsBackToRussian | src/context/LanguageContext.tsx:35-38 | A language named like an `Object.prototype` member does not fail: every Russian key other than `name` translates to its Russian text |
| Language.TranslateListedKey | src/context/LanguageContext.tsx:35-38 | A key of the tables translates to the current language's own entry |
| Language.TranslateUnlistedKey | src/context/LanguageContext.tsx:35-38 | A key no table lists translates to itself |
| Language.TranslateNonEmpty | src/context/LanguageContext.tsx:35-38 | For a known language, a non-empty key never translates to the empty text |
| Language.TranslateLanguageKey | src/context/LanguageContext.tsx:35-38 | For a known language, `t("language")` is "Язык" or "Language", never a language code |
| Language.ChooseText | src/pages/MessagesPage.tsx:74 | The pages' `t("language") === "ru" ? ru : en` choice, as written: fails exactly when `t` fails, and otherwise yields one of the two texts |
| Language.RussianBranchUnreachable | src/context/NotificationContext.tsx:28 | For every language `t` accepts, the choice yields the English text |
| Language.ChooseTextByCode | src/context/NotificationContext.tsx:28 | The intended choice: the Russian text exactly for the "ru" language |
| Language.ChooseTextByCodeFollowsLanguage | src/context/NotificationContext.tsx:28 | With distinct texts, the intended choice yields the Russian one if and only if the language is "ru" |
| Language.UnknownStoredLanguageBreaksTranslate | src/context/LanguageContext.tsx:24-38 | A stored language that is neither a table nor an inherited name is adopted, and every later translation fails |
| Language.InitialLanguageChecked | src/context/LanguageContext.tsx:24-28 | The intended start-up: a stored language is adopted only when it has a table, otherwise "ru" |
| Language.CheckedLanguageAlwaysTranslates | src/context/LanguageContext.tsx:24-38 | After the intended start-up every key translates, in the stored language when it has a table |
| Notification.Show | src/context/NotificationContext.tsx:21-25 | The toast carries the given title and the given message as its description |
| Notification.Shorten | src/context/NotificationContext.tsx:29 | A message of at most 30 characters is kept; a longer one becomes its first 30 characters followed by "..." |
| Notification.ShortenIdempotent | src/context/NotificationContext.tsx:29 | Shortening a shortened message changes nothing |
| Notification.ShortenKeepsBeginning | src/context/NotificationContext.tsx:29 | The shortened text starts with the message's first characters, up to 30 of them |
| Notification.Description | src/context/NotificationContext.tsx:29 | The description is the sender, ": ", then the shortened message |
| Notification.NewMessage | src/context/NotificationContext.tsx:27-31 | Fails exactly when `t` fails for the language; otherwise the description is the sender and shortened message, under one of the two titles |
| Notification.NewMessageTitleAlwaysEnglish | src/context/NotificationContext.tsx:28 | For every language `t` accepts, the title is "New message" |
| Notification.NewMessageByCode | src/context/NotificationContext.tsx:27-31 | The intended notification: the Russian title exactly for "ru", with the same description |
| Search.EmptyQueryMatches | src/pages/DevelopersPage.tsx:22-27 | The empty query matches every field |
| Search.CharQueryMatches | src/pages/DevelopersPage.tsx:22-27 | A one-character query matches exactly the fields whose lower-cased text contains that lower-cased character |
| HomePage.Results | src/pages/Index.tsx:23-37 | A blank query lists everyone; otherwise the result keeps the directory's order and holds exactly the users whose name, a skill, or IT position contains the query, ignoring case |
| HomePage.Page | src/pages/Index.tsx:19-21 | Signed-out visitors are sent to /login; everyone else sees the search results |
| HomePage.SelfListed | src/pages/Index.tsx:23-37 | A user whose record matches is always among the results |
| HomePage.QueryNotTrimmed | src/pages/Index.tsx:24-31 | Only the blank check trims: "john " is not blank and does not match "john_dev" |
| DevelopersPage.Results | src/pages/DevelopersPage.tsx:17-30 | A blank query lists everyone; otherwise exactly the users whose name or a skill contains the query, in order |
| DevelopersPage.NoSkillsMatchByName | src/pages/DevelopersPage.tsx:22-27 | A user without skills matches exactly when the name does |
| DevelopersPage.Page | src/pages/DevelopersPage.tsx:46 | The list is shown exactly to signed-in visitors |
| ProjectsPage.Results | src/pages/ProjectsPage.tsx:38-49 | A blank query lists every project; otherwise exactly those whose name, description or a technology contains the query, in order |
| ProjectsPage.ResultsIdempotent | src/pages/ProjectsPage.tsx:38-49 | Searching the results again with the same query lists the same projects |
| ProjectsPage.Page | src/pages/ProjectsPage.tsx:66-117 | Exactly signed-in visitors see the matching projects and the create button, with the "no projects found" note exactly when no project passes the search |
| ProjectsPage.SampleFoundByTechnology | src/pages/ProjectsPage.tsx:27-49 | The query "react" finds every sample project |
| MessagesPage.Contacts | src/pages/MessagesPage.tsx:19-38 | The conversation list keeps the directory's order, never contains the signed-in user, and holds exactly the other users that match the query |
| MessagesPage.BlankQueryListsOthers | src/pages/MessagesPage.tsx:26-35 | With a blank query exactly the users with another id than the signed-in user's are listed; if none shares it, the whole directory in order |
| MessagesPage.Page | src/pages/MessagesPage.tsx:20-23 | Signed-out visitors are sent to /login; everyone else sees the contacts |
| MessagesPage.Preview | src/pages/MessagesPage.tsx:74 | The preview line is "1.py" for user "1", otherwise the language-chosen greeting |
| MessagesPage.PreviewGreetingEnglish | src/pages/MessagesPage.tsx:74 | For every language `t` accepts, every other contact's preview is "Hello!" |
| RecommendedPage.SharesSkillSymmetric | src/pages/RecommendedUsersPage.tsx:37-50 | Sharing a skill is symmetric |
| RecommendedPage.Recommend | src/pages/RecommendedUsersPage.tsx:26-50 | The recommendations keep the directory's order, exclude the user, hold exactly the users sharing a skill with them, and are empty for a user without skills |
| RecommendedPage.Page | src/pages/RecommendedUsersPage.tsx:18-24 | Without a session user the page redirects to /login; otherwise it shows the recommendations |
| RecommendedPage.RecommendationMutual | src/pages/RecommendedUsersPage.tsx:37-50 | If b is recommended to a, then a is recommended to b |
| RecommendedPage.SampleUsersNotRecommended | src/pages/RecommendedUsersPage.tsx:37-50 | The two demonstration accounts share no skill, so neither is recommended to the other |
| Allowlist.Check | src/pages/ForDevelopersPage.tsx:47-57 | Access is granted exactly for a listed user name and password pair |
| Allowlist.LoginToast | src/pages/ForDevelopersPage.tsx:52-63 | A success toast exactly when access is granted, an error toast exactly when it is not |
| Allowlist.OnlyExactPairs | src/pages/AboutCreatorsPage.tsx:53-63 | A listed pair is accepted, and the same name with another password is refused |
| ForDevelopersPage.Login | src/pages/ForDevelopersPage.tsx:52-63 | Valid credentials unlock the dashboard; invalid ones leave the flag as it was; the toast reports the verdict |
| ForDevelopersPage.Results | src/pages/ForDevelopersPage.tsx:42-45 | Exactly the members whose name or Telegram handle contains the query, in order, with no blank-query shortcut |
| ForDevelopersPage.EmptyQueryListsAll | src/pages/ForDevelopersPage.tsx:42-45 | The empty query lists every member |
| ForDevelopersPage.SpaceQueryHidesAll | src/pages/ForDevelopersPage.tsx:27-45 | A query of one space, which is not trimmed, hides both listed members |
| ForDevelopersPage.Counters | src/pages/ForDevelopersPage.tsx:128-137 | Both counters show the number of members |
| ForDevelopersPage.CountersIgnoreSearch | src/pages/ForDevelopersPage.tsx:42-45 | The counters equal the length of the empty-query listing and are never below the length of any search result |
| AboutCreatorsPage.InitialCreators | src/pages/AboutCreatorsPage.tsx:32-51 | Two cards with ids "1" and "2", carrying the founder's and the lead's role texts |
| AboutCreatorsPage.Login | src/pages/AboutCreatorsPage.tsx:58-69 | Valid credentials switch on edit mode and change nothing else; invalid ones change nothing; the toast reports the verdict |
| AboutCreatorsPage.EditCreator | src/pages/AboutCreatorsPage.tsx:71-80 | The card is selected and the edit form holds its name, role, description, image and link, with the cards untouched |
| AboutCreatorsPage.Apply | src/pages/AboutCreatorsPage.tsx:82-88 | The edited card keeps its id and link type |
| AboutCreatorsPage.ImageLoaded | src/pages/AboutCreatorsPage.tsx:97-106 | The form's image becomes the read data URL and every other field of the page state is unchanged |
| AboutCreatorsPage.SaveEdit | src/pages/AboutCreatorsPage.tsx:82-95 | Without a selected card nothing happens; otherwise the cards with the selected id get the edits, the others stay, the selection is cleared, and a success toast is raised |
| AboutCreatorsPage.SaveKeepsIdentity | src/pages/AboutCreatorsPage.tsx:82-95 | Saving keeps the number of cards and their ids |
| AboutCreatorsPage.EditThenSaveUnchanged | src/pages/AboutCreatorsPage.tsx:71-95 | Opening a card and saving without edits leaves the cards as they were |
| RegisterPage.Submit | src/pages/RegisterPage.tsx:23-50 | Empty fields are reported first, then a password mismatch. Only a passing form calls `register`, with three arguments. It navigates home exactly on true, raises the registration error toast exactly on a rejection, and always ends with loading off |
| RegisterPage.AvatarIgnored | src/pages/RegisterPage.tsx:39 | The picked avatar never affects the submission |
| RegisterPage.SubmitAgainstProvider | src/pages/RegisterPage.tsx:39-43 | Against the provider, a valid form navigates home exactly when the email is unused |
| LoginPage.Submit | src/pages/LoginPage.tsx:20-42 | Empty fields raise a toast with no call; otherwise `login` is called with the user name in the email slot; it navigates home exactly on true, raises the sign-in error toast exactly when the call throws and no toast otherwise, and always ends with loading off |
| LoginPage.SubmitAgainst | src/pages/LoginPage.tsx:31 | Against the provider, as written, sign-in succeeds exactly when some account's email equals the typed user name |
| LoginPage.SampleAccountCannotSignIn | src/pages/LoginPage.tsx:31 | John's user name and password do not sign in, and the provider state is unchanged |
| LoginPage.SubmitByUsername | src/pages/LoginPage.tsx:20-42 | The intended sign-in succeeds exactly when some account has that user name and password, and signs in an account with that name |
| LoginPage.EveryAccountCanSignIn | src/pages/LoginPage.tsx:20-42 | With the intended lookup, every account with a non-empty name and password can sign in |
| Query.ParsePair | src/pages/ResetPasswordPage.tsx:22-24 | A piece splits at its first `=`; without one the value is empty |
| Query.Get | src/pages/ResetPasswordPage.tsx:22-24 | Null exactly when no pair has the name; otherwise the value of the first pair with it |
| Query.ParamsRender | src/pages/ResetPasswordPage.tsx:22-24 | Reading a written query string gives back exactly its pairs |
| Query.GetRendered | src/pages/ResetPasswordPage.tsx:22-24 | A written link yields, for each name, the value of the first pair with that name |
| Query.GetRenderedAbsent | src/pages/ResetPasswordPage.tsx:22-24 | A name the link does not carry reads as null |
| ResetPasswordPage.ReadLink | src/pages/ResetPasswordPage.tsx:22-24 | The token and the email are the link's `token` and `email` parameters |
| ResetPasswordPage.ErrorCardRoute | src/pages/ResetPasswordPage.tsx:63-86 | The error card with its way to /forgot-password is shown exactly when the token or the email is missing |
| ResetPasswordPage.Submit | src/pages/ResetPasswordPage.tsx:26-61 | Checks in order: filled fields, matching passwords, a complete link. Only then `resetPassword(email, password, token)` is called. True gives a success toast and /login; false and a rejection give distinct error toasts |
| ResetPasswordPage.ErrorCardIffLinkRefused | src/pages/ResetPasswordPage.tsx:26-86 | For a valid form, the submit handler reports an invalid link exactly when the page shows the error card |
| ResetPasswordPage.WrittenLinkReachesReset | src/pages/ResetPasswordPage.tsx:22-54 | A link written with a token and an email calls `resetPassword` with exactly those |
| ResetPasswordPage.LinkWithoutTokenRefused | src/pages/ResetPasswordPage.tsx:22-24 | A link with an email but no token shows the error card |
| ForgotPasswordPage.Submit | src/pages/ForgotPasswordPage.tsx:20-49 | An empty email raises a toast and changes nothing; otherwise it calls with that email; the page counts as sent exactly when it was already or the call resolved true; each outcome has its own toast |
| ForgotPasswordPage.FormHiddenIffSent | src/pages/ForgotPasswordPage.tsx:74 | From the initial page, the form is replaced by the confirmation exactly when a non-empty email was accepted |
| EmailConfirmationPage.StatusOf | src/pages/EmailConfirmationPage.tsx:51-66 | The page shows the checking state while verifying, and success exactly when verification finished and succeeded |
| EmailConfirmationPage.Verify | src/pages/EmailConfirmationPage.tsx:18-43 | Without a non-empty email parameter no call is made; otherwise that email is verified; verifying always ends, with success exactly when the call resolved true |
| EmailConfirmationPage.VerdictAfterEffect | src/pages/EmailConfirmationPage.tsx:14-75 | The page starts checking with no sign-in button; after the effect the button is always shown, and the verdict is positive exactly when the call resolved true |
| EmailConfirmationPage.WrittenLinkVerifies | src/pages/EmailConfirmationPage.tsx:20-31 | A link written with an email verifies exactly that email |
| CreateProjectPage.Guard | src/pages/CreateProjectPage.tsx:23-31 | Exactly signed-out visitors are sent to /login with an error toast |
| CreateProjectPage.Submit | src/pages/CreateProjectPage.tsx:33-55 | The save is simulated exactly when name and description are filled; otherwise an error toast and no loading |
| CreateProjectPage.TimerFires | src/pages/CreateProjectPage.tsx:47-54 | When the timer fires: loading off, a success toast, and /projects |
| CreateProjectPage.TechnologiesOptional | src/pages/CreateProjectPage.tsx:36-42 | The technologies field never affects the submission |
| SettingsPage.View | src/pages/SettingsPage.tsx:45-48 | Without a session user the page redirects to /login |
| SettingsPage.BeginDelete | src/pages/SettingsPage.tsx:26-28 | Deleting disables both dialog buttons |
| SettingsPage.FinishDelete | src/pages/SettingsPage.tsx:26-43 | Any resolution, true or false, gives the success toast and the home page; a rejection gives an error toast; the dialog closes either way |
| SettingsPage.DeletionAgainstProvider | src/pages/SettingsPage.tsx:26-43 | Against the provider, the page reports success, and the account is gone, whenever there was a session user |
| SettingsPage.RefusedDeletionReportedAsDone | src/pages/SettingsPage.tsx:26-43 | When the provider refuses for lack of a session user, the page still reports the account as deleted |
| Chat.SequentialIdsDistinct | src/pages/ChatPage.tsx:101-102 | Messages numbered by position have pairwise distinct ids |
| Chat.DemoListsSequential | src/pages/ChatPage.tsx:38-70 | Both demonstration conversations are numbered by position |
| Chat.Open | src/pages/ChatPage.tsx:72-91 | Signed-out visitors go to /login; an unknown user id goes to /messages; a known one opens with that user, loading the matching demonstration conversation for ids "1" and "2" |
| Chat.NextMessage | src/pages/ChatPage.tsx:101-106 | The new message's id is the next position, its sender the signed-in user, its content the typed text, with no attachment |
| Chat.Send | src/pages/ChatPage.tsx:98-126 | Nothing happens exactly when the text is blank with no file, or nobody is signed in. Without a file the message is appended and the input cleared; with one, the message waits for the file to be read |
| Chat.FileLoaded | src/pages/ChatPage.tsx:110-120 | An empty read result changes nothing; otherwise the pending message, with the file attached, is appended to the list captured at send time, and input and file are cleared |
| Chat.KeyDown | src/pages/ChatPage.tsx:128-133 | Enter without Shift sends; every other key does nothing |
| Chat.FileChange | src/pages/ChatPage.tsx:135-141 | Picking a file stores it and raises an info toast naming it; picking nothing changes nothing |
| Chat.ButtonMatchesGuard | src/pages/ChatPage.tsx:99-248 | For a signed-in user, the Send button is disabled exactly when sending would do nothing |
| Chat.SendKeepsIdsSequential | src/pages/ChatPage.tsx:98-126 | Sending keeps the messages numbered by position |
| Chat.FileSendKeepsIdsSequential | src/pages/ChatPage.tsx:108-121 | Completing a send with an attachment keeps the messages numbered by position |
| Chat.SentMessageIsOwn | src/pages/ChatPage.tsx:175 | The message just sent is shown as the sender's own |
| Profile.ProfileUser | src/pages/ProfilePage.tsx:27-32 | When an account has the route's id, the profile shown is such an account; when none has it, the previously shown profile stays |
| Profile.UnknownIdKeepsShownProfile | src/pages/ProfilePage.tsx:27-32 | Navigating from profile "1" to an unknown id keeps showing the first account |
| Profile.OwnProfileShowsSelf | src/pages/ProfilePage.tsx:27-34 | Under the directory invariant, one's own profile page shows one's own record |
| Profile.StartEdit | src/pages/ProfilePage.tsx:36-45 | The form starts with the name and about text, the experience or "0-1", and the lists joined with ", " |
| Profile.ParseList | src/pages/ProfilePage.tsx:57-58 | The parsed list holds, in order, the trimmed pieces between commas: every non-empty trimmed piece appears exactly as often as it was typed, and no empty one appears |
| Profile.RepeatedEntriesKept | src/pages/ProfilePage.tsx:57-58 | "React, React" parses to two "React" entries, not one |
| Profile.ParseJoinedList | src/pages/ProfilePage.tsx:40-58 | A list of trimmed, comma-free, non-empty entries, joined by the form and split by the save, comes back unchanged |
| Profile.SaveProfile | src/pages/ProfilePage.tsx:53-74 | The update carries exactly the name, experience, parsed lists, about text and, when a file was read, the avatar |
| Profile.EditThenSaveKeepsProfile | src/pages/ProfilePage.tsx:36-74 | Opening the editor and saving without edits leaves a record with clean lists unchanged, apart from an empty experience becoming "0-1" |
| Profile.SaveProfilePreservesInv | src/pages/ProfilePage.tsx:53-74 | Saving the profile of a signed-in user keeps the directory invariant |
| Profile.Handle | src/pages/ProfilePage.tsx:142-158 | The first occurrence of the link prefix is cut out: a link without it is shown as is; otherwise the result is the text before the first occurrence followed by the text after it |
| Profile.HandleOfProfileLink | src/pages/ProfilePage.tsx:142-158 | A link built from a prefix and a name is shown as that name |

## Left out

- Browser storage, `JSON.parse` and `document.documentElement.lang`. The value
  stored under the session key is the input `Auth.StoredSession` of
  `Auth.Init`; an unparseable value leaves no session. Of the values
  `JSON.parse` can return, a user record and `null` are modelled; a stored
  number, string, boolean or array is not. The stored language is
  the input of `Language.InitialLanguage`. Writes and removals are not
  modelled.
- React scheduling: state updates take effect in the order the handlers make
  them; re-renders, effect dependencies and the stale closures of
  `AuthContext` between updates are not modelled. The chat's file read keeps
  the message list captured at send time, as the source does.
- `AboutCreatorsPage.ImageLoaded` applies the read image to the form as it is
  when the read completes. The source's `onload` spreads the form captured
  when the file was picked, so fields edited while the file loads are lost;
  that is not modelled.
- `setTimeout` in the project form: only the state when the timer fires
  (`CreateProjectPage.TimerFires`) is modelled, not the delay.
- The clock: `new Date()` (registration date, message time) is a string
  parameter.
- `FileReader` and `URL.createObjectURL`: the read result and the object URL
  are opaque string parameters.
- `resetPassword`, `forgotPassword` and `verifyEmail` are called by the pages
  but not defined by the provider shown. They and the other awaited provider
  calls are modelled as inputs: how the promise settled (`Effects.Settled`).
- Unicode: `Text.Lower` lower-cases ASCII and the Russian alphabet only, and
  `Text.Trim` removes a fixed subset of the white-space `String.prototype.trim`
  removes. Lengths in `Notification.Shorten` count characters, where the
  source counts UTF-16 code units.
- `URLSearchParams` percent-decoding and the `+`-to-space rule are not
  modelled; `Query` splits on `&` and the first `=` only.
- `Language.Translate`: keys inherited from `Object.prototype` (such as
  `toString`) are not modelled; a key is looked up among the table entries
  only. For a language named like an `Object.prototype` member, only the
  string `name` property of that member is modelled; its other properties
  (`length`, `call` and so on) are not strings and are left out.
- `Auth.UpdateUser`: a spread key that is present with the value `undefined`
  is treated as absent. The partial `setUser` that runs before the throw on a
  missing session user is not modelled; the call just fails.
- `Auth.InitEstablishesInv` requires the restored user to be one of the
  demonstration accounts and the stored value not to be `null`. Storage may
  hold any record, including one not in the directory, and a stored `null`
  raises the flag with no user (`Auth.StoredNullBreaksConsistency`).
- `Auth.UpdateUserPreservesInv` requires a patch without `id` and `email`. An
  edit changing them can break distinctness, and the profile editor
  (`Profile.SaveProfilePreservesInv`) never sends them.
- `Locales.TablesAgree` does not state that keys are distinct within a table.
  TypeScript rejects an object literal with a repeated key, and
  `Locales.Lookup` returns the last entry with a key, as a repeated key would
  behave.
- The `try`/`catch` in the recommendations effect: nothing in the model
  throws there. The loading flag is not modelled.
- Email delivery, the mail back end, CSV/Excel export, the emoji picker,
  the theme, scrolling and all rendering (JSX, icons, layout) are not part of
  this model. The same goes for the `useTranslation` and `useAuth` hooks
  beyond the context values they return.
- `Users.Merge`, `Users.MergeNoChanges` and `Users.MergeIdempotent` are
  helpers with no row of their own. `Text` and `Seqs` carry their own
  contracts and are used throughout.

## Findings

| source | as written | input that shows it | evidently intended | confidence | as-written member | corrected member |
|---|---|---|---|---|---|---|
| src/context/AuthContext.tsx:120 | A new account's id is `users.length + 1` | Register alice (id "3"), sign in as John and delete him, then register bob: bob gets id "3" like alice | An id no account has | not executed | Auth.RegisterIdCollision | Auth.RegisterFreshIdPreservesInv |
| src/pages/LoginPage.tsx:31 | The typed user name is passed to `login` as the email | User name "john_dev", password "password123": no email equals "john_dev", so sign-in fails | Look the account up by user name | not executed | LoginPage.SampleAccountCannotSignIn | LoginPage.EveryAccountCanSignIn |
| src/context/NotificationContext.tsx:28 | `t("language") === "ru"` chooses the Russian text | Language "ru": `t("language")` is "Язык", so the English title "New message" is shown | Compare the language code itself | not executed | Language.RussianBranchUnreachable | Language.ChooseTextByCodeFollowsLanguage |
| src/context/LanguageContext.tsx:26-27 | Any non-empty stored language is adopted unchecked | Stored "de": `translations["de"]` is undefined and every `t` call throws | Fall back to "ru" for a language without a table | not executed | Language.UnknownStoredLanguageBreaksTranslate | Language.CheckedLanguageAlwaysTranslates |

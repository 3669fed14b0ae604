/** The conversation list (src/pages/MessagesPage.tsx:19-38, 74): everyone
    but the signed-in user, searched by user name. */
module MessagesPage {
  import opened Wrappers
  import opened Seqs
  import opened Text
  import opened Users
  import opened Effects
  import opened Search
  import Language

  /** `u.id === user?.id`. */
  predicate IsSelf(u: User, me: Option<User>)
  {
    me.Some? && u.id == me.value.id
  }

  predicate Listed(u: User, me: Option<User>, query: string)
  {
    !IsSelf(u, me) && (IsBlank(query) || Matches(u.username, query))
  }

  function Contacts(users: seq<User>, me: Option<User>, query: string): (r: seq<User>)
    ensures IsSubsequence(r, users)
    ensures forall u :: u in r <==> u in users && Listed(u, me, query)
    ensures me.Some? ==> forall i :: 0 <= i < |r| ==> r[i].id != me.value.id
  {
    Filter(users, (u: User) => Listed(u, me, query))
  }

  /** A blank query lists exactly everyone else; when the signed-in user is
      not in the directory, that is the whole directory in order. */
  lemma BlankQueryListsOthers(users: seq<User>, me: User, query: string)
    requires IsBlank(query)
    ensures forall u :: u in Contacts(users, Some(me), query) <==> u in users && u.id != me.id
    ensures (forall i :: 0 <= i < |users| ==> users[i].id != me.id) ==>
              Contacts(users, Some(me), query) == users
  {
    if forall i :: 0 <= i < |users| ==> users[i].id != me.id {
      FilterKeepsAll(users, (u: User) => Listed(u, Some(me), query));
    }
  }

  function Page(isAuthenticated: bool, users: seq<User>, me: Option<User>, query: string): (v: View<seq<User>>)
    ensures !isAuthenticated <==> v == Redirect("/login")
    ensures isAuthenticated ==> v == Show(Contacts(users, me, query))
  {
    if isAuthenticated then Show(Contacts(users, me, query)) else Redirect("/login")
  }

  /** The last-message preview: "1.py" for user "1", a greeting for anyone
      else. */
  function Preview(contact: User, lang: string): (r: Wrappers.Result<string, Language.TranslateError>)
    ensures contact.id == "1" ==> r == Wrappers.Success("1.py")
    ensures contact.id != "1" ==> r == Language.ChooseText(lang, "Привет!", "Hello!")
  {
    if contact.id == "1" then Wrappers.Success("1.py") else Language.ChooseText(lang, "Привет!", "Hello!")
  }

  /** In either language the greeting is the English one. */
  lemma PreviewGreetingEnglish(contact: User, lang: string)
    requires contact.id != "1" && Language.Indexable(lang)
    ensures Preview(contact, lang) == Wrappers.Success("Hello!")
  {
    Language.RussianBranchUnreachable(lang, "Привет!", "Hello!");
  }
}

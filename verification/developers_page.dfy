/** The developer directory's search (src/pages/DevelopersPage.tsx:17-30, 46). */
module DevelopersPage {
  import opened Wrappers
  import opened Seqs
  import opened Text
  import opened Users
  import opened Effects
  import opened Search

  /** A developer matches by user name or by any skill. */
  predicate DeveloperMatches(u: User, query: string)
  {
    Matches(u.username, query) || AnyMatches(u.skills, query)
  }

  function Results(users: seq<User>, query: string): (r: seq<User>)
    ensures IsBlank(query) ==> r == users
    ensures IsSubsequence(r, users)
    ensures forall u :: u in r <==> u in users && (IsBlank(query) || DeveloperMatches(u, query))
  {
    if IsBlank(query) then
      SubsequenceReflexive(users);
      users
    else Filter(users, (u: User) => DeveloperMatches(u, query))
  }

  /** A developer without skills is found only by user name. */
  lemma NoSkillsMatchByName(u: User, query: string)
    requires u.skills == []
    ensures DeveloperMatches(u, query) <==> Matches(u.username, query)
  {
  }

  /** The cards are shown to signed-in users only. */
  function Page(isAuthenticated: bool, users: seq<User>, query: string): (v: Option<seq<User>>)
    ensures v.Some? <==> isAuthenticated
    ensures v.Some? ==> v.value == Results(users, query)
  {
    if isAuthenticated then Some(Results(users, query)) else None
  }
}

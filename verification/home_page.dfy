/** The home page's developer search (src/pages/Index.tsx:19-37). */
module HomePage {
  import opened Seqs
  import opened Text
  import opened Users
  import opened Effects
  import opened Search

  /** A user matches by user name, by any skill, or by a non-empty IT
      position. */
  predicate UserMatches(u: User, query: string)
  {
    Matches(u.username, query) || AnyMatches(u.skills, query)
    || (u.itPosition != "" && Matches(u.itPosition, query))
  }

  /** The users listed for the query: all of them for a blank query, the
      matching ones otherwise. The query is lower-cased but not trimmed. */
  function Results(users: seq<User>, query: string): (r: seq<User>)
    ensures IsBlank(query) ==> r == users
    ensures IsSubsequence(r, users)
    ensures forall u :: u in r <==> u in users && (IsBlank(query) || UserMatches(u, query))
  {
    if IsBlank(query) then
      SubsequenceReflexive(users);
      users
    else Filter(users, (u: User) => UserMatches(u, query))
  }

  /** Visitors are sent to the login page. */
  function Page(isAuthenticated: bool, users: seq<User>, query: string): (v: View<seq<User>>)
    ensures !isAuthenticated <==> v == Redirect("/login")
    ensures isAuthenticated ==> v == Show(Results(users, query))
  {
    if isAuthenticated then Show(Results(users, query)) else Redirect("/login")
  }

  /** The signed-in user is listed like anyone else. */
  lemma SelfListed(users: seq<User>, me: User, query: string)
    requires me in users
    requires IsBlank(query) || UserMatches(me, query)
    ensures me in Results(users, query)
  {
  }

  /** A query with white space around it is matched as typed: "john " does
      not find "john_dev". */
  lemma QueryNotTrimmed()
    ensures !IsBlank("john ") && !Matches("john_dev", "john ")
  {
    assert !IsSpace("john "[0]);
    assert Lower("john ")[4] == ' ';
    if Contains(Lower("john_dev"), Lower("john ")) {
      ContainsChars(Lower("john_dev"), Lower("john "), ' ');
      assert false;
    }
  }
}

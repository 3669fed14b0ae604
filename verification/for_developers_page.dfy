/** The developers' dashboard (src/pages/ForDevelopersPage.tsx): a
    credential-gated list of registered members with a search box and two
    counters. */
module ForDevelopersPage {
  import opened Seqs
  import opened Text
  import opened Effects
  import opened Search
  import Allowlist

  datatype Member = Member(id: string, name: string, telegram: string, registrationDate: string)

  const Members: seq<Member> := [
    Member("1", "Александр", "1", "9 апр. 2025 г., 15:22"),
    Member("2", "ten-fun", "1", "9 апр. 2025 г., 15:23")
  ]

  const AllowedUsers: seq<Allowlist.Credential> := [
    Allowlist.Credential("ilazorin", "243546"),
    Allowlist.Credential("ten-fun", "190324")
  ]

  datatype LoginResult = LoginResult(isAuthenticated: bool, toast: Toast)

  /** The login button: access only for an exact pair from the list; a
      failed attempt keeps the dashboard as it was. */
  function Login(wasAuthenticated: bool, username: string, password: string): (r: LoginResult)
    ensures Allowlist.Check(AllowedUsers, username, password) ==> r.isAuthenticated
    ensures !Allowlist.Check(AllowedUsers, username, password) ==> r.isAuthenticated == wasAuthenticated
    ensures r.toast == Allowlist.LoginToast(Allowlist.Check(AllowedUsers, username, password))
  {
    var ok := Allowlist.Check(AllowedUsers, username, password);
    LoginResult(ok || wasAuthenticated, Allowlist.LoginToast(ok))
  }

  /** The members whose name or Telegram handle matches; unlike the other
      searches there is no shortcut for a blank query. */
  predicate MemberMatches(m: Member, query: string)
  {
    Matches(m.name, query) || Matches(m.telegram, query)
  }

  function Results(members: seq<Member>, query: string): (r: seq<Member>)
    ensures IsSubsequence(r, members)
    ensures forall m :: m in r <==> m in members && MemberMatches(m, query)
  {
    Filter(members, (m: Member) => MemberMatches(m, query))
  }

  /** The empty query lists every member. */
  lemma EmptyQueryListsAll(members: seq<Member>)
    ensures Results(members, "") == members
  {
    forall i | 0 <= i < |members| ensures MemberMatches(members[i], "") {
      EmptyQueryMatches(members[i].name);
    }
    FilterKeepsAll(members, (m: Member) => MemberMatches(m, ""));
  }

  /** A member whose lower-cased name and handle hold no space does not
      match a one-space query. */
  lemma SpaceQueryMisses(m: Member)
    requires ' ' !in Lower(m.name) && ' ' !in Lower(m.telegram)
    ensures !MemberMatches(m, " ")
  {
    CharQueryMatches(m.name, ' ');
    CharQueryMatches(m.telegram, ' ');
  }

  /** A single space is not treated as blank: it hides both members, since
      neither name nor handle holds a space. */
  lemma SpaceQueryHidesAll()
    ensures Results(Members, " ") == []
  {
    assert ' ' !in Lower(Members[0].name) by {
      assert Lower(Members[0].name) == "александр";
    }
    assert ' ' !in Lower(Members[1].name) by {
      assert Lower(Members[1].name) == "ten-fun";
    }
    assert Lower("1") == "1";
    SpaceQueryMisses(Members[0]);
    SpaceQueryMisses(Members[1]);
  }

  /** The two counters on the dashboard. */
  datatype Stats = Stats(totalUsers: nat, newThisWeek: nat)

  /** Both counters show the number of members: "new this week" is not
      computed from registration dates. */
  function Counters(members: seq<Member>): (s: Stats)
    ensures s.totalUsers == |members| && s.newThisWeek == s.totalUsers
  {
    Stats(|members|, |members|)
  }

  /** The counters ignore the search box: they equal the length of the
      empty-query listing and are never below the length of any other. */
  lemma CountersIgnoreSearch(members: seq<Member>, query: string)
    ensures Counters(members).totalUsers == |Results(members, "")|
    ensures |Results(members, query)| <= Counters(members).newThisWeek
  {
    EmptyQueryListsAll(members);
  }
}

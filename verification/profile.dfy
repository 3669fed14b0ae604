/** The profile page (src/pages/ProfilePage.tsx): whose profile it is, the
    edit form with its comma-separated lists, and the contact handles. */
module Profile {
  import opened Wrappers
  import opened Seqs
  import opened Text
  import opened Users
  import Auth

  /** The profile shown once the lookup effect has run for the route's id:
      the account with that id when there is one; otherwise the effect sets
      nothing, and the profile shown so far stays. */
  function ProfileUser(users: seq<User>, id: string, shown: Option<User>): (r: Option<User>)
    ensures (exists i :: 0 <= i < |users| && users[i].id == id) ==>
              r.Some? && r.value.id == id && r.value in users
    ensures (forall i :: 0 <= i < |users| ==> users[i].id != id) ==> r == shown
  {
    match Find(users, (u: User) => u.id == id)
    case Some(u) => Some(u)
    case None => shown
  }

  /** Moving from the first demonstration account's page to an id no
      account has keeps that account on screen. */
  lemma UnknownIdKeepsShownProfile()
    ensures ProfileUser(SampleUsers, "99", ProfileUser(SampleUsers, "1", None)) == Some(John)
  {
    assert SampleUsers[0] == John;
  }

  /** `currentUser?.id === id`. */
  predicate IsOwnProfile(current: Option<User>, id: string)
  {
    current.Some? && current.value.id == id
  }

  /** In a consistent directory, one's own profile page shows one's own record. */
  lemma OwnProfileShowsSelf(s: Auth.AuthState, id: string, shown: Option<User>)
    requires Auth.Inv(s) && IsOwnProfile(s.user, id)
    ensures ProfileUser(s.users, id, shown) == s.user
  {
    var u := s.user.value;
    var k :| 0 <= k < |s.users| && s.users[k] == u;
    var r := ProfileUser(s.users, id, shown);
    assert r.Some?;
    var i :| 0 <= i < |s.users| && s.users[i] == r.value;
    assert i == k;
  }

  // ----- the edit form -----

  /** The edit form: lists are edited as comma-separated text. */
  datatype EditData = EditData(username: string, experience: string, skills: string,
                               currentlyStudying: string, aboutMe: string)

  const DefaultExperience := "0-1"

  /** The form filled from a profile: lists joined with ", ", and a missing
      experience shown as "0-1". */
  function StartEdit(u: User): (e: EditData)
    ensures e.username == u.username && e.aboutMe == u.aboutMe
    ensures e.experience == (if u.experience == "" then DefaultExperience else u.experience)
    ensures e.skills == Join(u.skills, ", ") && e.currentlyStudying == Join(u.currentlyStudying, ", ")
  {
    EditData(u.username,
             if u.experience == "" then DefaultExperience else u.experience,
             Join(u.skills, ", "),
             Join(u.currentlyStudying, ", "),
             u.aboutMe)
  }

  predicate NonEmpty(s: string) { s != "" }

  /** `s.split(",").map(x => x.trim()).filter(Boolean)`: every non-empty
      trimmed piece, repeated entries included. */
  function ParseList(s: string): (r: seq<string>)
    ensures forall i :: 0 <= i < |r| ==> r[i] != "" && Trimmed(r[i])
    ensures IsSubsequence(r, Map(Split(s, ','), Trim))
    ensures var pieces := Split(s, ',');
            forall i :: 0 <= i < |pieces| && Trim(pieces[i]) != "" ==> Trim(pieces[i]) in r
    ensures forall x :: multiset(r)[x] == (if x != "" then multiset(Map(Split(s, ','), Trim))[x] else 0)
  {
    var trimmed := Map(Split(s, ','), Trim);
    KeepNonEmptyCounts(trimmed);
    Filter(trimmed, NonEmpty)
  }

  /** Dropping the empty pieces keeps every copy of the others. */
  lemma KeepNonEmptyCounts(pieces: seq<string>)
    ensures forall x :: multiset(Filter(pieces, NonEmpty))[x] == (if x != "" then multiset(pieces)[x] else 0)
  {
    FilterCounts(pieces, NonEmpty);
  }

  /** A repeated entry is kept as many times as it is typed. */
  lemma RepeatedEntriesKept()
    ensures ParseList("React, React") == ["React", "React"]
  {
    assert Join(["React", "React"], ", ") == "React, React";
    ParseJoinedList(["React", "React"]);
  }

  /** An entry that survives being written into the form and read back:
      non-empty, without white space at the ends, and without a comma. */
  predicate CleanEntry(x: string)
  {
    x != "" && Trimmed(x) && ',' !in x
  }

  /** The white space a piece may start with once a ", "-joined list is cut
      at its commas: none for the first entry, one space for the others. */
  predicate Lead(pre: string) { pre == "" || pre == " " }

  /** The first piece of a cut list: its lead and the entry, which `trim`
      turns back into the entry. */
  lemma LeadTrim(pre: string, x: string)
    requires Lead(pre) && CleanEntry(x)
    ensures ',' !in pre + x && Trim(pre + x) == x
  {
    if pre == " " {
      assert pre + x == [' '] + x;
      TrimLeadingSpace(x);
    } else {
      assert pre + x == x;
    }
  }

  /** The text of a list of two or more entries is its first entry, a comma,
      and the text of the others behind a space. */
  lemma JoinStep(pre: string, xs: seq<string>)
    requires |xs| >= 2
    ensures pre + Join(xs, ", ") == (pre + xs[0]) + [','] + (" " + Join(xs[1..], ", "))
  {
    assert Join(xs, ", ") == xs[0] + ", " + Join(xs[1..], ", ");
  }

  /** Cutting `pre + join(xs, ", ")` at its commas and trimming the pieces
      gives back `xs`. */
  lemma {:induction false} SplitTrimJoined(pre: string, xs: seq<string>)
    requires Lead(pre) && |xs| >= 1
    requires forall i :: 0 <= i < |xs| ==> CleanEntry(xs[i])
    ensures Map(Split(pre + Join(xs, ", "), ','), Trim) == xs
    decreases |xs|
  {
    var head := pre + xs[0];
    LeadTrim(pre, xs[0]);
    if |xs| == 1 {
      SplitNoSeparator(head, ',');
    } else {
      var rest := " " + Join(xs[1..], ", ");
      JoinStep(pre, xs);
      SplitAfterSegment(head, ',', rest);
      SplitTrimJoined(" ", xs[1..]);
      MapFront(head, Split(rest, ','), Trim);
      assert [xs[0]] + xs[1..] == xs;
    }
  }

  /** The empty text is the empty list. */
  lemma ParseEmptyList()
    ensures ParseList("") == []
  {
    assert Split("", ',') == [""];
    assert Map([""], Trim) == [""];
    assert Filter([""], NonEmpty) == Filter([""][1..], NonEmpty);
  }

  /** Lists written with ", " are read back as they were. */
  lemma ParseJoinedList(xs: seq<string>)
    requires forall i :: 0 <= i < |xs| ==> CleanEntry(xs[i])
    ensures ParseList(Join(xs, ", ")) == xs
  {
    if |xs| == 0 {
      ParseEmptyList();
    } else {
      SplitTrimJoined("", xs);
      assert "" + Join(xs, ", ") == Join(xs, ", ");
      FilterKeepsAll(xs, NonEmpty);
    }
  }

  /** `handleSaveProfile`: the fields the form edits, lists parsed, and the
      avatar when a picture was picked and read. */
  function SaveProfile(e: EditData, avatar: Option<string>): (p: UserPatch)
    ensures p.username == Some(e.username) && p.experience == Some(e.experience)
    ensures p.skills == Some(ParseList(e.skills))
    ensures p.currentlyStudying == Some(ParseList(e.currentlyStudying))
    ensures p.aboutMe == Some(e.aboutMe)
    ensures p.avatar == avatar
    ensures p.(username := None, experience := None, skills := None, currentlyStudying := None,
               aboutMe := None, avatar := None) == NoChanges
  {
    NoChanges.(username := Some(e.username), experience := Some(e.experience),
               skills := Some(ParseList(e.skills)),
               currentlyStudying := Some(ParseList(e.currentlyStudying)),
               aboutMe := Some(e.aboutMe), avatar := avatar)
  }

  /** Opening the form and saving it unchanged keeps a profile whose lists
      hold clean entries as it was, apart from a missing experience, which
      becomes "0-1". */
  lemma EditThenSaveKeepsProfile(u: User)
    requires forall i :: 0 <= i < |u.skills| ==> CleanEntry(u.skills[i])
    requires forall i :: 0 <= i < |u.currentlyStudying| ==> CleanEntry(u.currentlyStudying[i])
    ensures var merged := Merge(u, SaveProfile(StartEdit(u), None));
            merged == u.(experience := if u.experience == "" then DefaultExperience else u.experience)
  {
    ParseJoinedList(u.skills);
    ParseJoinedList(u.currentlyStudying);
  }

  /** Saving the profile through the provider keeps the directory consistent. */
  lemma SaveProfilePreservesInv(s: Auth.AuthState, e: EditData, avatar: Option<string>)
    requires Auth.Inv(s) && s.user.Some?
    ensures Auth.UpdateUser(s, SaveProfile(e, avatar)).Success?
    ensures Auth.Inv(Auth.UpdateUser(s, SaveProfile(e, avatar)).value)
  {
    Auth.UpdateUserPreservesInv(s, SaveProfile(e, avatar));
  }

  // ----- contact links -----

  const GithubPrefix := "https://github.com/"
  const TelegramPrefix := "https://t.me/"
  const VkPrefix := "https://vk.com/"

  /** The handle shown for a contact link: the link with the first
      occurrence of the site's address removed. */
  function Handle(link: string, prefix: string): (h: string)
    ensures !Contains(link, prefix) ==> h == link
    ensures Contains(link, prefix) ==> |h| == |link| - |prefix|
    ensures Contains(link, prefix) ==> CutAtFirst(link, prefix, h)
  {
    RemoveFirst(link, prefix)
  }

  /** A link made of the site's address and a name shows the name. */
  lemma HandleOfProfileLink(prefix: string, name: string)
    ensures Handle(prefix + name, prefix) == name
  {
    assert (prefix + name)[..|prefix|] == prefix;
    assert (prefix + name)[|prefix|..] == name;
  }
}

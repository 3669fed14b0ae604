/** Recommendations (src/pages/RecommendedUsersPage.tsx:18-64): the other
    users who share at least one skill with the signed-in user. */
module RecommendedPage {
  import opened Wrappers
  import opened Seqs
  import opened Users
  import opened Effects

  /** Some skill of `a` is, exactly, a skill of `b`. */
  predicate SharesSkill(a: User, b: User)
  {
    exists i :: 0 <= i < |a.skills| && a.skills[i] in b.skills
  }

  /** Sharing a skill is symmetric. */
  lemma SharesSkillSymmetric(a: User, b: User)
    ensures SharesSkill(a, b) <==> SharesSkill(b, a)
  {
    if SharesSkill(a, b) {
      var i :| 0 <= i < |a.skills| && a.skills[i] in b.skills;
      var j :| 0 <= j < |b.skills| && b.skills[j] == a.skills[i];
      assert b.skills[j] in a.skills;
    }
    if SharesSkill(b, a) {
      var i :| 0 <= i < |b.skills| && b.skills[i] in a.skills;
      var j :| 0 <= j < |a.skills| && a.skills[j] == b.skills[i];
      assert a.skills[j] in b.skills;
    }
  }

  predicate Recommended(u: User, me: User)
  {
    u.id != me.id && SharesSkill(u, me)
  }

  function Recommend(users: seq<User>, me: User): (r: seq<User>)
    ensures IsSubsequence(r, users)
    ensures forall u :: u in r <==> u in users && Recommended(u, me)
    ensures forall i :: 0 <= i < |r| ==> r[i].id != me.id
    ensures me.skills == [] ==> r == []
  {
    var r := Filter(users, (u: User) => Recommended(u, me));
    assert me.skills == [] ==> forall i :: 0 <= i < |r| ==> !Recommended(r[i], me);
    r
  }

  /** With no session user the page goes to the login page. */
  function Page(me: Option<User>, users: seq<User>): (v: View<seq<User>>)
    ensures me.None? <==> v == Redirect("/login")
    ensures me.Some? ==> v == Show(Recommend(users, me.value))
  {
    match me
    case None => Redirect("/login")
    case Some(u) => Show(Recommend(users, u))
  }

  /** Recommendation goes both ways: if `b` is recommended to `a`, then `a`
      is recommended to `b`, as long as `a` is in the directory. */
  lemma RecommendationMutual(users: seq<User>, a: User, b: User)
    requires a in users && b in Recommend(users, a)
    ensures a in Recommend(users, b)
  {
    SharesSkillSymmetric(a, b);
  }

  /** The demonstration accounts share no skill, so neither is recommended
      to the other. */
  lemma SampleUsersNotRecommended()
    ensures Recommend(SampleUsers, John) == [] && Recommend(SampleUsers, Jane) == []
  {
    assert !SharesSkill(Jane, John) by {
      forall i | 0 <= i < |Jane.skills| ensures Jane.skills[i] !in John.skills {
        assert Jane.skills[i] in ["Python", "Django", "Flask", "PostgreSQL"];
      }
    }
    SharesSkillSymmetric(Jane, John);
    assert Filter(SampleUsers, (u: User) => Recommended(u, John)) == [];
    assert Filter(SampleUsers, (u: User) => Recommended(u, Jane)) == [];
  }
}

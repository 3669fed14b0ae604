/** The authentication provider (src/context/AuthContext.tsx): the user
    directory `users`, the session user `user` and the `isAuthenticated` flag,
    with the operations `login`, `register`, `logout`, `updateUser` and
    `deleteAccount`, each a pure transition from one state to the next.

    Browser storage is not modelled: the value found under the session key
    at start-up is an input of `Init`, and the writes and removals that
    mirror the session into storage are left out. */
module Auth {
  import opened Wrappers
  import opened Seqs
  import opened Text
  import opened Users

  datatype AuthState = AuthState(users: seq<User>, user: Option<User>, isAuthenticated: bool)

  /** A state together with the boolean an operation resolves to. */
  datatype Step = Step(state: AuthState, ok: bool)

  /** What start-up finds in storage under the session key: nothing (or the
      empty string), a user record, the text `null` (which parses to no
      user at all), or text that does not parse. */
  datatype StoredSession = NothingStored | StoredUser(u: User) | StoredNull | Unparseable

  /** The flag says exactly whether someone is signed in. */
  predicate SessionConsistent(s: AuthState)
  {
    s.isAuthenticated == s.user.Some?
  }

  /** The directory invariant: a consistent session, no two accounts sharing
      an email or an id, and a session user that is one of the accounts. */
  ghost predicate Inv(s: AuthState)
  {
    && SessionConsistent(s)
    && DistinctBy(s.users, EmailOf)
    && DistinctBy(s.users, IdOf)
    && (s.user.Some? ==> s.user.value in s.users)
  }

  /** The provider's state before its start-up effect runs. */
  const Empty := AuthState([], None, false)

  /** The start-up effect: the directory becomes the demonstration accounts
      and whatever parses is adopted as the session, with the flag raised;
      an unparseable value is dropped. A stored `null` parses, so the flag
      is raised with no user. */
  function Init(stored: StoredSession): (s: AuthState)
    ensures s.users == SampleUsers
    ensures s.user.Some? <==> stored.StoredUser?
    ensures stored.StoredUser? ==> s.user == Some(stored.u)
    ensures s.isAuthenticated <==> stored.StoredUser? || stored.StoredNull?
    ensures !stored.StoredNull? ==> SessionConsistent(s)
  {
    match stored
    case StoredUser(u) => AuthState(SampleUsers, Some(u), true)
    case StoredNull => AuthState(SampleUsers, None, true)
    case _ => AuthState(SampleUsers, None, false)
  }

  predicate HasCredentials(u: User, email: string, password: string)
  {
    u.email == email && u.password == password
  }

  /** `login(email, password)`: signs in the first account whose email and
      password both match exactly. */
  function Login(s: AuthState, email: string, password: string): (r: Step)
    ensures r.ok <==> exists i :: 0 <= i < |s.users| && HasCredentials(s.users[i], email, password)
    ensures r.ok ==> r.state.users == s.users && r.state.isAuthenticated && r.state.user.Some?
    ensures r.ok ==> exists i :: 0 <= i < |s.users| && s.users[i] == r.state.user.value
                             && HasCredentials(s.users[i], email, password)
                             && forall j :: 0 <= j < i ==> !HasCredentials(s.users[j], email, password)
    ensures !r.ok ==> r.state == s
    ensures SessionConsistent(s) ==> SessionConsistent(r.state)
  {
    match Find(s.users, u => HasCredentials(u, email, password))
    case Some(u) => Step(AuthState(s.users, Some(u), true), true)
    case None => Step(s, false)
  }

  predicate EmailTaken(users: seq<User>, email: string)
  {
    exists i :: 0 <= i < |users| && users[i].email == email
  }

  /** The record `register` builds: id, username, email, password and
      registration date, with the keys of `profileData` spread last. */
  function NewAccount(id: string, username: string, email: string, password: string,
                      profileData: Option<UserPatch>, today: string): User
  {
    var base := Blank.(id := id, username := username, email := email,
                       password := password, registrationDate := today);
    Merge(base, profileData.GetOr(NoChanges))
  }

  /** `register(username, email, password, profileData)`, as written: refused
      when the email is taken, otherwise a record with id `|users| + 1` is
      appended and signed in. `today` stands for the date part of `new Date()`. */
  function Register(s: AuthState, username: string, email: string, password: string,
                    profileData: Option<UserPatch>, today: string): (r: Step)
    ensures EmailTaken(s.users, email) ==> !r.ok && r.state == s
    ensures !EmailTaken(s.users, email) ==> r.ok
    ensures r.ok ==> |r.state.users| == |s.users| + 1 && r.state.users[..|s.users|] == s.users
    ensures r.ok ==> r.state.user == Some(r.state.users[|s.users|]) && r.state.isAuthenticated
    ensures r.ok ==> var nu := r.state.users[|s.users|];
                     var p := profileData.GetOr(NoChanges);
                     && nu.id == p.id.GetOr(NatToString(|s.users| + 1))
                     && nu.username == p.username.GetOr(username)
                     && nu.email == p.email.GetOr(email)
                     && nu.password == p.password.GetOr(password)
                     && nu.registrationDate == p.registrationDate.GetOr(today)
                     && nu.skills == p.skills.GetOr([])
    ensures SessionConsistent(s) ==> SessionConsistent(r.state)
  {
    if EmailTaken(s.users, email) then Step(s, false)
    else
      var nu := NewAccount(NatToString(|s.users| + 1), username, email, password, profileData, today);
      Step(AuthState(s.users + [nu], Some(nu), true), true)
  }

  /** `logout()`: the directory is kept, the session is cleared. */
  function Logout(s: AuthState): (r: AuthState)
    ensures r.users == s.users
    ensures r.user.None? && !r.isAuthenticated
  {
    AuthState(s.users, None, false)
  }

  datatype UpdateError = SessionUserMissing

  /** `updateUser(userData)`. With a session user, that user merged with
      `userData` becomes the session user and replaces every account with
      the same id. Without one, reading `user.id` throws as soon as the
      directory has an entry to compare; with an empty directory nothing is
      read, and the session user becomes `userData` alone while the flag
      stays as it was. */
  function UpdateUser(s: AuthState, userData: UserPatch): (r: Result<AuthState, UpdateError>)
    ensures s.user.Some? ==> r.Success?
    ensures s.user.Some? ==> var merged := Merge(s.user.value, userData);
      && r.value.user == Some(merged)
      && r.value.isAuthenticated == s.isAuthenticated
      && |r.value.users| == |s.users|
      && (forall i :: 0 <= i < |s.users| && s.users[i].id == s.user.value.id ==> r.value.users[i] == merged)
      && (forall i :: 0 <= i < |s.users| && s.users[i].id != s.user.value.id ==> r.value.users[i] == s.users[i])
    ensures s.user.None? && |s.users| > 0 ==> r.Failure?
  {
    match s.user
    case Some(cur) =>
      var merged := Merge(cur, userData);
      Success(AuthState(ReplaceWhere(s.users, (u: User) => u.id == cur.id, merged), Some(merged), s.isAuthenticated))
    case None =>
      if |s.users| == 0 then Success(AuthState([], Some(Merge(Blank, userData)), s.isAuthenticated))
      else Failure(SessionUserMissing)
  }

  /** `deleteAccount()`: without a session user it resolves to false and
      changes nothing; otherwise every account with the session user's id is
      removed, the others keep their order, and the session is cleared. */
  function DeleteAccount(s: AuthState): (r: Step)
    ensures s.user.None? ==> !r.ok && r.state == s
    ensures s.user.Some? ==> r.ok && r.state.user.None? && !r.state.isAuthenticated
    ensures s.user.Some? ==> IsSubsequence(r.state.users, s.users)
    ensures s.user.Some? ==> forall i :: 0 <= i < |r.state.users| ==> r.state.users[i].id != s.user.value.id
    ensures s.user.Some? ==> forall i :: 0 <= i < |s.users| && s.users[i].id != s.user.value.id
                                         ==> s.users[i] in r.state.users
    ensures s.user.Some? ==> forall x :: multiset(r.state.users)[x] ==
                                         (if x.id == s.user.value.id then 0 else multiset(s.users)[x])
    ensures SessionConsistent(s) ==> SessionConsistent(r.state)
  {
    match s.user
    case None => Step(s, false)
    case Some(cur) =>
      FilterCounts(s.users, (u: User) => u.id != cur.id);
      Step(AuthState(Filter(s.users, (u: User) => u.id != cur.id), None, false), true)
  }

  // ----- the directory invariant -----

  lemma InitEstablishesInv(stored: StoredSession)
    requires stored.StoredUser? ==> stored.u in SampleUsers
    requires !stored.StoredNull?
    ensures Inv(Init(stored))
  {
  }

  /** A stored `null` is the one start-up input that leaves the flag and the
      session disagreeing: signed in, with nobody signed in. */
  lemma StoredNullBreaksConsistency(stored: StoredSession)
    ensures !SessionConsistent(Init(stored)) <==> stored.StoredNull?
  {
  }

  lemma LoginPreservesInv(s: AuthState, email: string, password: string)
    requires Inv(s)
    ensures Inv(Login(s, email, password).state)
  {
  }

  lemma LogoutPreservesInv(s: AuthState)
    requires Inv(s)
    ensures Inv(Logout(s))
  {
  }

  lemma DeleteAccountPreservesInv(s: AuthState)
    requires Inv(s)
    ensures Inv(DeleteAccount(s).state)
  {
    if s.user.Some? {
      var r := DeleteAccount(s).state;
      SubsequenceDistinct(r.users, s.users, EmailOf);
      SubsequenceDistinct(r.users, s.users, IdOf);
    }
  }

  /** An edit that leaves id and email alone keeps the invariant: under it
      exactly one account carries the session user's id, and it is the
      session user itself. */
  lemma UpdateUserPreservesInv(s: AuthState, userData: UserPatch)
    requires Inv(s) && s.user.Some?
    requires userData.id.None? && userData.email.None?
    ensures UpdateUser(s, userData).Success? && Inv(UpdateUser(s, userData).value)
  {
    var cur := s.user.value;
    var merged := Merge(cur, userData);
    var r := UpdateUser(s, userData).value;
    var k :| 0 <= k < |s.users| && s.users[k] == cur;
    forall i | 0 <= i < |s.users| && i != k ensures s.users[i].id != cur.id {
      if i < k {
        assert IdOf(s.users[i]) != IdOf(s.users[k]);
      } else {
        assert IdOf(s.users[k]) != IdOf(s.users[i]);
      }
    }
    assert r.users[k] == merged;
  }

  /** Account creation as written also keeps emails distinct, provided the
      profile data does not bring an email of its own. */
  lemma RegisterKeepsEmailsDistinct(s: AuthState, username: string, email: string, password: string,
                                    profileData: Option<UserPatch>, today: string)
    requires DistinctBy(s.users, EmailOf)
    requires profileData.None? || profileData.value.email.None?
    ensures DistinctBy(Register(s, username, email, password, profileData, today).state.users, EmailOf)
  {
    var r := Register(s, username, email, password, profileData, today);
    if r.ok {
      var us := r.state.users;
      forall i, j | 0 <= i < j < |us| ensures EmailOf(us[i]) != EmailOf(us[j]) {
        if j == |s.users| {
          assert us[i] == s.users[i];
        } else {
          assert us[i] == s.users[i] && us[j] == s.users[j];
        }
      }
    }
  }

  /** Profile data carrying an email overrides the checked one, so `register`
      can create a second account with an email already in use. */
  lemma RegisterProfileEmailCanDuplicate()
    ensures var p := NoChanges.(email := Some(John.email));
            var r := Register(Init(NothingStored), "x", "x@example.com", "pw", Some(p), "2025-04-09");
            r.ok && !DistinctBy(r.state.users, EmailOf)
  {
    var p := NoChanges.(email := Some(John.email));
    var r := Register(Init(NothingStored), "x", "x@example.com", "pw", Some(p), "2025-04-09");
    assert r.state.users[0].email == r.state.users[2].email;
  }

  const Alice := NewAccount("3", "alice", "alice@example.com", "pw", None, "2025-04-09")

  lemma CollisionStep1()
    ensures Register(Init(NothingStored), "alice", "alice@example.com", "pw", None, "2025-04-09").state
            == AuthState([John, Jane, Alice], Some(Alice), true)
  {
    assert !EmailTaken(SampleUsers, "alice@example.com") by {
      assert SampleUsers[0].email != "alice@example.com";
      assert SampleUsers[1].email != "alice@example.com";
    }
    assert NatToString(3) == "3";
  }

  lemma CollisionStep2()
    ensures Login(AuthState([John, Jane, Alice], Some(Alice), true), John.email, John.password).state
            == AuthState([John, Jane, Alice], Some(John), true)
  {
    var s := AuthState([John, Jane, Alice], Some(Alice), true);
    assert HasCredentials(s.users[0], John.email, John.password);
  }

  lemma CollisionStep3()
    ensures DeleteAccount(AuthState([John, Jane, Alice], Some(John), true)).state
            == AuthState([Jane, Alice], None, false)
  {
    var keep := (u: User) => u.id != John.id;
    assert [John, Jane, Alice][1..] == [Jane, Alice];
    assert [Jane, Alice][1..] == [Alice];
    assert [Alice][1..] == [];
    assert Filter([Alice], keep) == [Alice];
    assert Filter([Jane, Alice], keep) == [Jane, Alice];
  }

  lemma CollisionStep4()
    ensures var r := Register(AuthState([Jane, Alice], None, false), "bob", "bob@example.com", "pw", None, "2025-04-10");
            r.ok && r.state.users[1] == Alice && r.state.users[2].id == "3"
  {
    var s := AuthState([Jane, Alice], None, false);
    assert !EmailTaken(s.users, "bob@example.com") by {
      assert s.users[0].email != "bob@example.com";
      assert s.users[1].email != "bob@example.com";
    }
    assert NatToString(3) == "3";
  }

  /** The as-written id scheme collides: from the start-up directory, create
      an account (id "3"), sign in as the first demonstration account and
      delete it, then create another account: it also gets id "3", the id of
      a surviving account. */
  lemma RegisterIdCollision()
    ensures var s0 := Init(NothingStored);
            var s1 := Register(s0, "alice", "alice@example.com", "pw", None, "2025-04-09").state;
            var s2 := Login(s1, John.email, John.password).state;
            var s3 := DeleteAccount(s2).state;
            var s4 := Register(s3, "bob", "bob@example.com", "pw", None, "2025-04-10").state;
            !DistinctBy(s4.users, IdOf)
  {
    CollisionStep1();
    CollisionStep2();
    CollisionStep3();
    CollisionStep4();
    var s4 := Register(AuthState([Jane, Alice], None, false), "bob", "bob@example.com", "pw", None, "2025-04-10").state;
    assert IdOf(s4.users[1]) == IdOf(s4.users[2]);
  }

  /** The largest numeric id in the directory (ids that are not digit strings
      count as 0). */
  function MaxNumericId(users: seq<User>): (m: nat)
    ensures forall i :: 0 <= i < |users| && |users[i].id| > 0 && (forall k :: 0 <= k < |users[i].id| ==> IsDigit(users[i].id[k]))
                        ==> ParseDecimal(users[i].id) <= m
  {
    if |users| == 0 then 0
    else
      var id := users[|users| - 1].id;
      var here := if |id| > 0 && forall k :: 0 <= k < |id| ==> IsDigit(id[k]) then ParseDecimal(id) else 0;
      var rest := MaxNumericId(users[..|users| - 1]);
      assert forall i :: 0 <= i < |users| - 1 ==> users[..|users| - 1][i] == users[i];
      if here > rest then here else rest
  }

  /** A decimal id one above every numeric id in use: no account has it. */
  function FreshId(users: seq<User>): (id: string)
    ensures forall i :: 0 <= i < |users| ==> users[i].id != id
  {
    NatToString(MaxNumericId(users) + 1)
  }

  /** `register` with the evident intent: the new account gets an id no
      account in the directory has, and profile data cannot replace the id
      or the checked email. */
  function RegisterFreshId(s: AuthState, username: string, email: string, password: string,
                           profileData: Option<UserPatch>, today: string): (r: Step)
    ensures EmailTaken(s.users, email) ==> !r.ok && r.state == s
    ensures !EmailTaken(s.users, email) ==> r.ok
    ensures r.ok ==> |r.state.users| == |s.users| + 1 && r.state.users[..|s.users|] == s.users
    ensures r.ok ==> var nu := r.state.users[|s.users|];
                     && r.state.user == Some(nu) && r.state.isAuthenticated
                     && nu.email == email
                     && forall i :: 0 <= i < |s.users| ==> s.users[i].id != nu.id
  {
    if EmailTaken(s.users, email) then Step(s, false)
    else
      var guarded := profileData.GetOr(NoChanges).(id := None, email := None);
      var nu := NewAccount(FreshId(s.users), username, email, password, Some(guarded), today);
      Step(AuthState(s.users + [nu], Some(nu), true), true)
  }

  lemma RegisterFreshIdPreservesInv(s: AuthState, username: string, email: string, password: string,
                                    profileData: Option<UserPatch>, today: string)
    requires Inv(s)
    ensures Inv(RegisterFreshId(s, username, email, password, profileData, today).state)
  {
    var r := RegisterFreshId(s, username, email, password, profileData, today);
    if r.ok {
      var us := r.state.users;
      var n := |s.users|;
      forall i, j | 0 <= i < j < |us|
        ensures EmailOf(us[i]) != EmailOf(us[j]) && IdOf(us[i]) != IdOf(us[j])
      {
        assert us[i] == s.users[i];
        if j < n {
          assert us[j] == s.users[j];
        }
      }
      if s.user.Some? {
        var k :| 0 <= k < n && s.users[k] == s.user.value;
      }
      assert us[n] in us;
    }
  }

  /** Without a session user and with an empty directory, `updateUser` sets a
      session user while `isAuthenticated` stays false. */
  lemma UpdateUserWithoutSessionBreaksConsistency()
    ensures var r := UpdateUser(Empty, NoChanges.(username := Some("x")));
            SessionConsistent(Empty) && r.Success? && !SessionConsistent(r.value)
  {
  }
}

/** The user record the application passes around as an untyped object, the
    partial records that are spread over it, and the two demonstration
    accounts the directory starts with (src/context/AuthContext.tsx:6-33).

    A field the object does not carry is modelled as the empty string or the
    empty list: every reader in the application treats `undefined` and `""`
    (or `[]`) alike through `||`, `&&` and `some`. */
module Users {
  import opened Wrappers

  datatype User = User(
    id: string,
    username: string,
    email: string,
    password: string,
    avatar: string,
    skills: seq<string>,
    currentlyStudying: seq<string>,
    experience: string,
    specialization: string,
    registrationDate: string,
    aboutMe: string,
    itPosition: string,
    githubLink: string,
    telegramLink: string,
    vkLink: string,
    experienceDetails: string)

  /** A partial user object: the keys it carries are `Some`. */
  datatype UserPatch = UserPatch(
    id: Option<string>,
    username: Option<string>,
    email: Option<string>,
    password: Option<string>,
    avatar: Option<string>,
    skills: Option<seq<string>>,
    currentlyStudying: Option<seq<string>>,
    experience: Option<string>,
    specialization: Option<string>,
    registrationDate: Option<string>,
    aboutMe: Option<string>,
    itPosition: Option<string>,
    githubLink: Option<string>,
    telegramLink: Option<string>,
    vkLink: Option<string>,
    experienceDetails: Option<string>)

  const NoChanges := UserPatch(None, None, None, None, None, None, None, None,
                               None, None, None, None, None, None, None, None)

  /** The object `{}`: every field absent. */
  const Blank := User("", "", "", "", "", [], [], "", "", "", "", "", "", "", "", "")

  function IdOf(u: User): string { u.id }
  function EmailOf(u: User): string { u.email }

  /** `{ ...u, ...p }`: the keys `p` carries replace those of `u`. */
  function Merge(u: User, p: UserPatch): User
  {
    User(
      p.id.GetOr(u.id),
      p.username.GetOr(u.username),
      p.email.GetOr(u.email),
      p.password.GetOr(u.password),
      p.avatar.GetOr(u.avatar),
      p.skills.GetOr(u.skills),
      p.currentlyStudying.GetOr(u.currentlyStudying),
      p.experience.GetOr(u.experience),
      p.specialization.GetOr(u.specialization),
      p.registrationDate.GetOr(u.registrationDate),
      p.aboutMe.GetOr(u.aboutMe),
      p.itPosition.GetOr(u.itPosition),
      p.githubLink.GetOr(u.githubLink),
      p.telegramLink.GetOr(u.telegramLink),
      p.vkLink.GetOr(u.vkLink),
      p.experienceDetails.GetOr(u.experienceDetails))
  }

  /** Spreading an object with no keys changes nothing. */
  lemma MergeNoChanges(u: User)
    ensures Merge(u, NoChanges) == u
  {
  }

  /** Spreading the same object twice is spreading it once. */
  lemma MergeIdempotent(u: User, p: UserPatch)
    ensures Merge(Merge(u, p), p) == Merge(u, p)
  {
  }

  /** A patch without `id` and `email` keeps a record's identity. */
  lemma MergeKeepsIdentity(u: User, p: UserPatch)
    requires p.id.None? && p.email.None?
    ensures Merge(u, p).id == u.id && Merge(u, p).email == u.email
  {
  }

  const John := User(
    "1", "john_dev", "john@example.com", "password123",
    "/lovable-uploads/71218a01-a00f-4c50-b88e-5016985aa63f.png",
    ["React", "TypeScript", "Node.js", "Express", "MongoDB"], ["GraphQL", "AWS"],
    "3-5", "Full Stack Web Development", "2023-05-15",
    "Full Stack Developer with 5 years of experience", "", "", "", "", "")

  const Jane := User(
    "2", "jane_dev", "jane@example.com", "password123",
    "/lovable-uploads/a5c8f24b-7c7c-491f-8c25-b774ac29eea0.png",
    ["Python", "Django", "Flask", "PostgreSQL"], ["Docker", "Kubernetes"],
    "1-3", "Backend Development", "2023-06-22",
    "Backend Developer specializing in Python", "", "", "", "", "")

  const SampleUsers := [John, Jane]
}

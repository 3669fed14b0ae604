/** The hard-coded credential lists that unlock the creators' editor and
    the developers' dashboard (src/pages/AboutCreatorsPage.tsx:53-69,
    src/pages/ForDevelopersPage.tsx:47-63). */
module Allowlist {
  import opened Wrappers
  import opened Seqs
  import opened Effects

  datatype Credential = Credential(username: string, password: string)

  /** Access is granted when the pair equals an entry exactly. */
  function Check(list: seq<Credential>, username: string, password: string): (r: bool)
    ensures r <==> Credential(username, password) in list
  {
    Find(list, (c: Credential) => c.username == username && c.password == password).Some?
  }

  /** The toast a login attempt raises. */
  function LoginToast(granted: bool): (t: Toast)
    ensures granted <==> t == SuccessToast(AccessGranted)
    ensures !granted <==> t == ErrorToast(InvalidCredentials)
  {
    if granted then SuccessToast(AccessGranted) else ErrorToast(InvalidCredentials)
  }

  /** Each listed pair unlocks; the same user name with another password
      does not. */
  lemma OnlyExactPairs(list: seq<Credential>, c: Credential, other: string)
    requires c in list && other != c.password
    requires forall i :: 0 <= i < |list| ==> list[i].username != c.username || list[i].password == c.password
    ensures Check(list, c.username, c.password)
    ensures !Check(list, c.username, other)
  {
  }
}

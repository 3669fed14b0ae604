/** The creators page (src/pages/AboutCreatorsPage.tsx): two creator cards
    that become editable after a credential check. */
module AboutCreatorsPage {
  import opened Wrappers
  import opened Seqs
  import opened Effects
  import Allowlist

  datatype LinkType = Github | Telegram

  datatype Creator = Creator(id: string, name: string, role: string, description: string,
                             image: string, link: string, linkType: Option<LinkType>)

  /** The edit form: the fields of a creator it holds. */
  datatype EditData = EditData(name: Option<string>, role: Option<string>, description: Option<string>,
                               image: Option<string>, link: Option<string>)

  datatype State = State(isEditing: bool, creators: seq<Creator>,
                         selected: Option<Creator>, editData: EditData)

  const AllowedUsers: seq<Allowlist.Credential> := [
    Allowlist.Credential("ilazorin", "243546"),
    Allowlist.Credential("ten-fun", "190324")
  ]

  const FounderText := "Разработчик и основатель DevNet. Специалист в области web-разработки и построения сообществ разработчиков."
  const LeadText := "Отвечает за техническую часть проекта и развитие платформы. Специализируется на React и современных веб-технологиях."

  /** The two creators, with their roles in the current language. */
  function InitialCreators(founderRole: string, leadRole: string): (cs: seq<Creator>)
    ensures |cs| == 2 && cs[0].id == "1" && cs[1].id == "2"
    ensures cs[0].role == founderRole && cs[1].role == leadRole
  {
    var founder := Creator("1", "Зорин Илья", founderRole, FounderText,
                           "/lovable-uploads/a5c8f24b-7c7c-491f-8c25-b774ac29eea0.png",
                           "https://github.com/ilazorin", Some(Github));
    var lead := Creator("2", "Маслов Александр", leadRole, LeadText,
                        "/lovable-uploads/aa55c4d6-39cd-44b9-a4f9-1591e7ccac49.png",
                        "https://t.me/ten-fun", Some(Telegram));
    [founder, lead]
  }

  /** The login button: edit mode for an exact pair from the list. */
  function Login(st: State, username: string, password: string): (r: (State, Toast))
    ensures Allowlist.Check(AllowedUsers, username, password) ==> r.0 == st.(isEditing := true)
    ensures !Allowlist.Check(AllowedUsers, username, password) ==> r.0 == st
    ensures r.1 == Allowlist.LoginToast(Allowlist.Check(AllowedUsers, username, password))
  {
    var ok := Allowlist.Check(AllowedUsers, username, password);
    (if ok then st.(isEditing := true) else st, Allowlist.LoginToast(ok))
  }

  /** Choosing a creator to edit fills the form with its five editable fields. */
  function EditCreator(st: State, c: Creator): (r: State)
    ensures r.selected == Some(c)
    ensures r.editData == EditData(Some(c.name), Some(c.role), Some(c.description), Some(c.image), Some(c.link))
    ensures r.creators == st.creators && r.isEditing == st.isEditing
  {
    st.(selected := Some(c),
        editData := EditData(Some(c.name), Some(c.role), Some(c.description), Some(c.image), Some(c.link)))
  }

  /** `{ ...c, ...editData }`: the fields the form holds replace those of `c`. */
  function Apply(c: Creator, e: EditData): (r: Creator)
    ensures r.id == c.id && r.linkType == c.linkType
  {
    Creator(c.id, e.name.GetOr(c.name), e.role.GetOr(c.role), e.description.GetOr(c.description),
            e.image.GetOr(c.image), e.link.GetOr(c.link), c.linkType)
  }

  /** The chosen picture, once read, replaces the image in the form. */
  function ImageLoaded(st: State, dataUrl: string): (r: State)
    ensures r.editData.image == Some(dataUrl)
    ensures r.(editData := r.editData.(image := st.editData.image)) == st
  {
    st.(editData := st.editData.(image := Some(dataUrl)))
  }

  /** The save button: without a selection nothing happens; otherwise every
      creator with the selected id gets the form's fields, the others stay,
      and the selection is cleared. */
  function SaveEdit(st: State): (r: (State, Option<Toast>))
    ensures st.selected.None? ==> r == (st, None)
    ensures st.selected.Some? ==>
              r.1 == Some(SuccessToast(InformationUpdated)) && r.0.selected.None?
              && |r.0.creators| == |st.creators|
              && r.0.isEditing == st.isEditing && r.0.editData == st.editData
    ensures st.selected.Some? ==> forall i :: 0 <= i < |st.creators| ==>
              r.0.creators[i] == (if st.creators[i].id == st.selected.value.id
                                  then Apply(st.creators[i], st.editData) else st.creators[i])
  {
    match st.selected
    case None => (st, None)
    case Some(sel) =>
      var cs := Map(st.creators, (c: Creator) => if c.id == sel.id then Apply(c, st.editData) else c);
      (st.(creators := cs, selected := None), Some(SuccessToast(InformationUpdated)))
  }

  /** A save keeps every creator's id and link type, in the same order. */
  lemma SaveKeepsIdentity(st: State)
    ensures var cs := SaveEdit(st).0.creators;
            |cs| == |st.creators|
            && forall i :: 0 <= i < |cs| ==>
                 cs[i].id == st.creators[i].id && cs[i].linkType == st.creators[i].linkType
  {
  }

  /** Choosing a creator and saving without changing the form leaves the
      list as it was. */
  lemma EditThenSaveUnchanged(st: State, c: Creator)
    requires c in st.creators
    requires forall i, j :: 0 <= i < j < |st.creators| ==> st.creators[i].id != st.creators[j].id
    ensures SaveEdit(EditCreator(st, c)).0.creators == st.creators
  {
    var k :| 0 <= k < |st.creators| && st.creators[k] == c;
    var cs := SaveEdit(EditCreator(st, c)).0.creators;
    forall i | 0 <= i < |st.creators| ensures cs[i] == st.creators[i] {
      if i != k {
        assert st.creators[i].id != c.id;
      }
    }
  }
}

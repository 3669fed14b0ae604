/** The chat page (src/pages/ChatPage.tsx): the conversation with one other
    user, held only in the page's own state. Sending appends a message whose
    id is the next position; a message with an attachment is appended when the
    browser has finished reading the file. */
module Chat {
  import opened Wrappers
  import opened Seqs
  import opened Text
  import opened Users
  import opened Effects

  datatype Attachment = Attachment(name: string, url: string)

  /** A chat message; `timestamp` is the moment it was created, as given. */
  datatype Message = Message(id: string, sender: string, content: string,
                             timestamp: string, file: Option<Attachment>)

  /** The picked file, known by its name. */
  datatype PickedFile = PickedFile(name: string)

  /** The page state the handlers work on: the messages shown, the text in
      the input, and the picked file. */
  datatype ChatState = ChatState(messages: seq<Message>, newMessage: string, file: Option<PickedFile>)

  // ----- the demonstration conversations -----

  const Demo1: seq<Message> := [
    Message("1", "1", "Привет", "2025-04-09T15:24:00", None),
    Message("2", "1", "😃приверрр", "2025-04-09T15:24:00", None),
    Message("3", "1", "", "2025-04-09T15:25:00",
            Some(Attachment("1.png", "/lovable-uploads/33d8adec-dc34-48bb-893c-a7647f8d1abf.png")))
  ]

  const Demo2: seq<Message> := [
    Message("1", "2", "Hey there!", "2025-04-09T15:24:00", None)
  ]

  /** Message `i` carries id `i + 1`, as the send handler numbers them. */
  ghost predicate SequentialIds(ms: seq<Message>)
  {
    forall i :: 0 <= i < |ms| ==> ms[i].id == NatToString(i + 1)
  }

  /** Numbered messages never share an id. */
  lemma SequentialIdsDistinct(ms: seq<Message>)
    requires SequentialIds(ms)
    ensures forall i, j :: 0 <= i < j < |ms| ==> ms[i].id != ms[j].id
  {
    forall i, j | 0 <= i < j < |ms| ensures ms[i].id != ms[j].id {
      NatToStringInjective(i + 1, j + 1);
    }
  }

  lemma DemoListsSequential()
    ensures SequentialIds(Demo1) && SequentialIds(Demo2)
  {
    assert NatToString(1) == "1" && NatToString(2) == "2" && NatToString(3) == "3";
  }

  // ----- opening a conversation -----

  datatype Opened = Opened(navigateTo: Option<string>, chatUser: Option<User>, messages: seq<Message>)

  /** The page's effect for the route's `userId`: visitors go to the login
      page; an id no user has sends them back to the message list; users "1"
      and "2" get their demonstration conversation, anyone else keeps the
      messages already shown. */
  function Open(isAuthenticated: bool, users: seq<User>, userId: string, messages: seq<Message>): (o: Opened)
    ensures !isAuthenticated ==> o == Opened(Some("/login"), None, messages)
    ensures isAuthenticated && (forall i :: 0 <= i < |users| ==> users[i].id != userId) ==>
              o == Opened(Some("/messages"), None, messages)
    ensures o.chatUser.Some? ==> o.navigateTo.None? && o.chatUser.value.id == userId && o.chatUser.value in users
    ensures o.chatUser.Some? && userId == "1" ==> o.messages == Demo1
    ensures o.chatUser.Some? && userId == "2" ==> o.messages == Demo2
    ensures userId != "1" && userId != "2" ==> o.messages == messages
    ensures isAuthenticated && (exists i :: 0 <= i < |users| && users[i].id == userId) ==> o.chatUser.Some?
  {
    if !isAuthenticated then Opened(Some("/login"), None, messages)
    else match Find(users, (u: User) => u.id == userId)
      case None => Opened(Some("/messages"), None, messages)
      case Some(u) =>
        var ms := if u.id == "1" then Demo1 else if u.id == "2" then Demo2 else messages;
        Opened(None, Some(u), ms)
  }

  // ----- sending -----

  /** The send button is disabled when there is neither text nor a file. */
  predicate SendDisabled(st: ChatState)
  {
    IsBlank(st.newMessage) && st.file.None?
  }

  /** The message the handler builds for the current state. */
  function NextMessage(st: ChatState, sender: User, now: string): (m: Message)
    ensures m.id == NatToString(|st.messages| + 1)
    ensures m.sender == sender.id && m.content == st.newMessage && m.file.None?
  {
    Message(NatToString(|st.messages| + 1), sender.id, st.newMessage, now, None)
  }

  /** What a send does: nothing; an immediate append; or a file read that,
      when it completes, appends `pending` (with its attachment) to `base`,
      the messages as they were when the send began. */
  datatype Sent =
    | Ignored
    | Appended(state: ChatState)
    | ReadingFile(pending: Message, base: seq<Message>, file: PickedFile)

  function Send(st: ChatState, user: Option<User>, now: string): (r: Sent)
    ensures r.Ignored? <==> SendDisabled(st) || user.None?
    ensures r.Appended? <==> !r.Ignored? && st.file.None?
    ensures r.Appended? ==>
              r.state.messages == st.messages + [NextMessage(st, user.value, now)]
              && r.state.newMessage == "" && r.state.file.None?
    ensures r.ReadingFile? ==>
              st.file == Some(r.file) && r.base == st.messages
              && r.pending == NextMessage(st, user.value, now)
  {
    if SendDisabled(st) || user.None? then Ignored
    else
      var m := NextMessage(st, user.value, now);
      match st.file
      case None => Appended(ChatState(st.messages + [m], "", None))
      case Some(f) => ReadingFile(m, st.messages, f)
  }

  /** The reader's load callback: with a non-empty result, `pending` gets the
      attachment (its name and the object URL made for it) and is appended to
      the captured messages, and the input and the file are cleared; an empty
      result changes nothing. */
  function FileLoaded(st: ChatState, pending: Message, base: seq<Message>, file: PickedFile,
                      result: string, url: string): (r: ChatState)
    ensures result == "" ==> r == st
    ensures result != "" ==>
              r.messages == base + [pending.(file := Some(Attachment(file.name, url)))]
              && r.newMessage == "" && r.file.None?
  {
    if result == "" then st
    else ChatState(base + [pending.(file := Some(Attachment(file.name, url)))], "", None)
  }

  /** Enter without Shift sends; any other key, and Shift+Enter, do not. */
  function KeyDown(st: ChatState, user: Option<User>, now: string, key: string, shift: bool): (r: Sent)
    ensures key == "Enter" && !shift ==> r == Send(st, user, now)
    ensures !(key == "Enter" && !shift) ==> r.Ignored?
  {
    if key == "Enter" && !shift then Send(st, user, now) else Ignored
  }

  /** Picking a file keeps it for the next send and announces its name. */
  function FileChange(st: ChatState, picked: Option<PickedFile>): (r: (ChatState, Option<Toast>))
    ensures picked.None? ==> r == (st, None)
    ensures picked.Some? ==>
              r.0 == st.(file := picked) && r.1 == Some(Toast(Info, FileSelected(picked.value.name)))
  {
    match picked
    case None => (st, None)
    case Some(f) => (st.(file := picked), Some(Toast(Info, FileSelected(f.name))))
  }

  /** A message is drawn as the viewer's own when the viewer sent it. */
  predicate IsOwnMessage(m: Message, viewer: Option<User>)
  {
    viewer.Some? && m.sender == viewer.value.id
  }

  // ----- properties -----

  /** The button and the handler agree: with a user signed in, a send does
      something exactly when the button is enabled. */
  lemma ButtonMatchesGuard(st: ChatState, u: User, now: string)
    ensures Send(st, Some(u), now).Ignored? <==> SendDisabled(st)
  {
  }

  /** A text send keeps the ids sequential. */
  lemma {:induction false} SendKeepsIdsSequential(st: ChatState, user: Option<User>, now: string)
    requires SequentialIds(st.messages)
    ensures var r := Send(st, user, now);
            r.Appended? ==> SequentialIds(r.state.messages)
  {
    var r := Send(st, user, now);
    if r.Appended? {
      var ms := r.state.messages;
      forall i | 0 <= i < |ms| ensures ms[i].id == NatToString(i + 1) {
        if i < |st.messages| {
          assert ms[i] == st.messages[i];
        }
      }
    }
  }

  /** A file send keeps the ids sequential too, when the file has loaded
      onto the messages it started from. */
  lemma FileSendKeepsIdsSequential(st: ChatState, u: User, now: string, result: string, url: string)
    requires SequentialIds(st.messages)
    requires Send(st, Some(u), now).ReadingFile?
    ensures var r := Send(st, Some(u), now);
            SequentialIds(FileLoaded(st, r.pending, r.base, r.file, result, url).messages)
  {
    var r := Send(st, Some(u), now);
    var after := FileLoaded(st, r.pending, r.base, r.file, result, url);
    if result != "" {
      forall i | 0 <= i < |after.messages| ensures after.messages[i].id == NatToString(i + 1) {
        if i < |st.messages| {
          assert after.messages[i] == st.messages[i];
        }
      }
    }
  }

  /** A sent message is the viewer's own, and the earlier ones keep how they
      are drawn. */
  lemma SentMessageIsOwn(st: ChatState, u: User, now: string)
    requires Send(st, Some(u), now).Appended?
    ensures var ms := Send(st, Some(u), now).state.messages;
            IsOwnMessage(ms[|ms| - 1], Some(u))
            && forall i :: 0 <= i < |st.messages| ==> ms[i] == st.messages[i]
  {
  }
}

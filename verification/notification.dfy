/** The notification provider (src/context/NotificationContext.tsx): plain
    notifications, and the "new message" notification that shortens long
    messages. */
module Notification {
  import opened Wrappers
  import opened Language

  datatype Notification = Notification(title: string, description: string)

  /** `showNotification(title, message)`: the title, with the message as the
      description. */
  function Show(title: string, message: string): (n: Notification)
    ensures n.title == title && n.description == message
  {
    Notification(title, message)
  }

  /** The longest message shown in full. */
  const MaxShown := 30

  /** A message of at most 30 characters as it is; a longer one cut to its
      first 30 followed by "...". */
  function Shorten(message: string): (r: string)
    ensures |message| <= MaxShown ==> r == message
    ensures |message| > MaxShown ==> |r| == MaxShown + 3 && r == message[..MaxShown] + "..."
    ensures |r| <= MaxShown + 3
  {
    if |message| > MaxShown then message[..MaxShown] + "..." else message
  }

  /** Shortening is stable: a shortened message is shortened to itself. */
  lemma ShortenIdempotent(message: string)
    ensures Shorten(Shorten(message)) == Shorten(message)
  {
    if |message| > MaxShown {
      assert (message[..MaxShown] + "...")[..MaxShown] == message[..MaxShown];
    }
  }

  /** Whatever its length, the shown text begins like the message. */
  lemma ShortenKeepsBeginning(message: string)
    ensures var r := Shorten(message);
            var n := if |message| < MaxShown then |message| else MaxShown;
            n <= |r| && r[..n] == message[..n]
  {
  }

  /** `sender + ": " + shortened message`. */
  function Description(sender: string, message: string): (d: string)
    ensures |d| == |sender| + 2 + |Shorten(message)|
    ensures d[..|sender|] == sender && d[|sender|..|sender| + 2] == ": "
    ensures d[|sender| + 2..] == Shorten(message)
  {
    sender + ": " + Shorten(message)
  }

  /** `newMessageNotification(sender, message)` in the given language. */
  function NewMessage(lang: string, sender: string, message: string): (r: Result<Notification, TranslateError>)
    ensures r.Failure? <==> !Indexable(lang)
    ensures r.Success? ==> r.value.description == Description(sender, message)
    ensures r.Success? ==> r.value.title == "Новое сообщение" || r.value.title == "New message"
  {
    match ChooseText(lang, "Новое сообщение", "New message")
    case Failure(e) => Failure(e)
    case Success(title) => Success(Notification(title, Description(sender, message)))
  }

  /** Because the language test never holds, the title is English in both
      languages. */
  lemma NewMessageTitleAlwaysEnglish(lang: string, sender: string, message: string)
    requires Indexable(lang)
    ensures NewMessage(lang, sender, message).Success?
    ensures NewMessage(lang, sender, message).value.title == "New message"
  {
    RussianBranchUnreachable(lang, "Новое сообщение", "New message");
  }

  /** The notification with the language test done on the language code. */
  function NewMessageByCode(lang: string, sender: string, message: string): (n: Notification)
    ensures n.title == "Новое сообщение" <==> lang == "ru"
    ensures n.description == Description(sender, message)
  {
    Notification(ChooseTextByCode(lang, "Новое сообщение", "New message"), Description(sender, message))
  }
}

/**
 * What the bot sees of Telegram and what it asks Telegram to do. Outgoing requests
 * are recorded as `Effect`s, in order, instead of being sent; their texts are
 * `Messages.Note`s, which `Messages.Render` spells out.
 */
module Transport {
  import opened Wrappers
  import opened Messages

  /** An inline button: its caption and the callback payload it carries. */
  datatype Button = Button(caption: string, data: string)

  /** Rows of inline buttons. */
  type Keyboard = seq<seq<Button>>

  datatype Sender = Sender(id: int, username: Option<string>, firstName: string, lastName: Option<string>)

  /** An incoming chat message. */
  datatype Incoming = Incoming(chatId: int, messageId: int, from: Option<Sender>, text: Option<string>)

  /** The message a pressed button belongs to. */
  datatype ButtonMessage = ButtonMessage(chatId: int, messageId: int)

  /** A pressed inline button. */
  datatype CallbackQuery = CallbackQuery(id: string, from: int, data: Option<string>, message: Option<ButtonMessage>)

  datatype MemberStatus = Owner | Administrator | Member | Restricted | Left | Banned

  datatype Effect =
    | Send(chat: int, note: Note)
    | Reply(chat: int, replyTo: int, note: Note)
    | SendWithKeyboard(chat: int, note: Note, keyboard: Keyboard)
    | Edit(chat: int, message: int, note: Note, keyboard: Keyboard)
    | Delete(chat: int, message: int)
    | Answer(query: string, notice: Option<Note>)
    | React(chat: int, message: int, emoji: string)

  /** What a module's `handle_message` did: whether it took the message, and what it sent. */
  datatype Handling = Handling(handled: bool, effects: seq<Effect>)

  /** A request Telegram refused or that never arrived. */
  datatype TransportError = TransportError

  /** The sender's id, 0 for a message without a sender. */
  function SenderId(m: Incoming): int {
    if m.from.Some? then m.from.value.id else 0
  }

  /** The sender's @username, "Unknown" when there is none. */
  function Username(m: Incoming): string {
    if m.from.Some? && m.from.value.username.Some? then m.from.value.username.value else "Unknown"
  }

  /** First name, then a space and the last name when there is one. */
  function FullName(u: Sender): string {
    match u.lastName
    case Some(last) => u.firstName + " " + last
    case None => u.firstName
  }

  /** The sender's full name, "Unknown" for a message without a sender. */
  function OwnerName(m: Incoming): string {
    if m.from.Some? then FullName(m.from.value) else "Unknown"
  }
}

/** The domain vocabulary of internal/domain/message.go: the four job
    statuses and the Message record that the API stores and the queue carries. */
module Domain {

  /** Go's uint32, the type of UserId and TelegramChatId. */
  type uint32 = x: int | 0 <= x < 0x1_0000_0000

  const StatusScheduled: string := "Scheduled"
  const StatusSent: string := "Sent"
  const StatusFailed: string := "Failed"
  const StatusTerminallyFailed: string := "Terminally_Failed"

  /** A notification. `scheduledAt` is the instant before which delivery must
      not be attempted, in whole seconds on the worker's clock. */
  datatype Message = Message(
    id: string,
    text: string,
    status: string,
    scheduledAt: int,
    userId: uint32,
    telegramChatId: uint32)

  /** The fields of Message, in declaration order. */
  datatype Field = Id | Text | Status | ScheduledAt | UserId | TelegramChatId

  const Fields: seq<Field> := [Id, Text, Status, ScheduledAt, UserId, TelegramChatId]

  /** The JSON key of each field (its struct tag). */
  function JsonKey(f: Field): string
  {
    match f
    case Id => "id"
    case Text => "text"
    case Status => "status"
    case ScheduledAt => "scheduled_at"
    case UserId => "user_id"
    case TelegramChatId => "telegram_chat_id"
  }

  /** The JSON keys of Message's fields, in declaration order. */
  const JsonKeys: seq<string> := seq(|Fields|, i requires 0 <= i < |Fields| => JsonKey(Fields[i]))

  /** The statuses the delivery worker may write: the two terminal ones. */
  predicate IsTerminal(status: string)
  {
    status == StatusSent || status == StatusTerminallyFailed
  }

  lemma StatusesDistinct()
    ensures StatusScheduled != StatusSent && StatusScheduled != StatusFailed
    ensures StatusScheduled != StatusTerminallyFailed && StatusSent != StatusFailed
    ensures StatusSent != StatusTerminallyFailed && StatusFailed != StatusTerminallyFailed
    ensures StatusTerminallyFailed == "Terminally_Failed"
    ensures !IsTerminal(StatusScheduled) && !IsTerminal(StatusFailed)
  {
  }

  /** Six fields, each once, with distinct JSON keys. */
  lemma JsonKeysDistinct()
    ensures |Fields| == 6 && forall f: Field :: f in Fields
    ensures forall i, j :: 0 <= i < j < |Fields| ==> Fields[i] != Fields[j]
    ensures JsonKeys == ["id", "text", "status", "scheduled_at", "user_id", "telegram_chat_id"]
    ensures forall f, g: Field :: f != g ==> JsonKey(f) != JsonKey(g)
  {
    forall f: Field
      ensures f in Fields
    {
      match f
      case Id => assert Fields[0] == f;
      case Text => assert Fields[1] == f;
      case Status => assert Fields[2] == f;
      case ScheduledAt => assert Fields[3] == f;
      case UserId => assert Fields[4] == f;
      case TelegramChatId => assert Fields[5] == f;
    }
  }
}

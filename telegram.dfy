/**
  The parts of the bot API's update records that the handler, the
  repositories and the update helpers look at. A pointer field the API may
  leave nil is an `Option`.
*/
module Telegram {
  import opened Wrappers

  datatype User = User(
    id: int, isBot: bool, firstName: string, lastName: string, username: string, languageCode: string)

  datatype Chat = Chat(id: int)

  datatype Message = Message(id: int, from: Option<User>, chat: Chat, date: int, text: string)

  /** A callback query; `message` is the message it came from, nil when that
      message is no longer accessible. */
  datatype CallbackQuery = CallbackQuery(id: string, from: User, message: Option<Message>, data: string)

  datatype Update = Update(updateId: int, message: Option<Message>, callbackQuery: Option<CallbackQuery>)
}

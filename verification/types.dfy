/**
 * The values the handler receives and produces: Telegram updates, inline
 * keyboards, the parsed commands, and the error type. Only the fields the
 * handler reads are modelled.
 */
module Types {
  import opened Wrappers

  /** Rust's `i64`. The handler never does arithmetic on these, so no wrap-around arises. */
  type Int64 = x: int | -0x8000_0000_0000_0000 <= x < 0x8000_0000_0000_0000

  datatype Chat = Chat(id: Int64)
  datatype User = User(id: Int64)

  /** A chat message; every field may be missing in an update from Telegram. */
  datatype Message = Message(
    messageId: Option<Int64>,
    chat: Option<Chat>,
    from: Option<User>,
    text: Option<string>)

  /** A press on an inline-keyboard button. `message` is the message carrying the keyboard. */
  datatype CallbackQuery = CallbackQuery(
    id: string,
    from: User,
    message: Option<Message>,
    data: Option<string>)

  /** The only parse mode the handler asks for. */
  datatype ParseMode = Html

  datatype InlineKeyboardButton = InlineKeyboardButton(text: string, callbackData: Option<string>)

  /** Rows of buttons, top to bottom, each row left to right. */
  type Keyboard = seq<seq<InlineKeyboardButton>>

  /** `InlineKeyboardButton::with_callback_data`. */
  function WithCallbackData(text: string, data: string): InlineKeyboardButton
  {
    InlineKeyboardButton(text, Some(data))
  }

  /** Commands recognised in chat text. */
  datatype MsgCommand = List | Update | Version

  /**
   * Commands carried in a button's callback payload. In `Progress` the anime and
   * library-entry ids are the remote service's opaque strings.
   */
  datatype QueryCommand =
    | Offset(kitsuId: Int64, offset: Int64)
    | Detail(kitsuId: Int64, animeId: Int64)
    | Progress(kitsuId: Int64, anime: string, entry: string, progress: Int64)

  /**
   * The crate's error type. `Telegram` is the variant `TelegramError::new`
   * produces; every other failure a collaborator reports is carried as
   * `Collaborator` with its description.
   */
  datatype Error = Telegram(message: string) | Collaborator(description: string)

  /** What the Kitsu client returns for one page of a user's library: (prev, next, entries, animes). */
  type AnimePage(==)

  /** What the Kitsu client returns for one library entry: (entry, anime). */
  type AnimeDetail(==)
}

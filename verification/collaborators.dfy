/**
 * The handler's three collaborators — the Telegram bot, the Kitsu API client
 * and the user database — reduced to what each answers, and the remote calls
 * the handler can issue to them.
 */
module Collaborators {
  import opened Wrappers
  import opened Types

  /** One outbound call, with the arguments it is issued with. */
  datatype Call =
    | SendMessage(chatId: Int64, text: string, parseMode: Option<ParseMode>, keyboard: Option<Keyboard>)
    | EditInlineKeyboard(messageId: Int64, chatId: Int64, text: string, parseMode: Option<ParseMode>, keyboard: Option<Keyboard>)
    | AnswerQuery(queryId: string, alert: Option<string>, showAlert: Option<bool>)
    | FetchAnime(kitsuId: Int64, offset: Int64)
    | GetAnime(kitsuId: Int64, animeId: Int64)
    | UpdateAnimeEntry(token: string, entry: string, progress: Int64, anime: string)
    | FetchUsers
  {
    /** Calls that put a message on the user's screen or change one. */
    predicate ChangesChat() {
      SendMessage? || EditInlineKeyboard?
    }
  }

  /**
   * The Telegram bot. Each entry says whether that call succeeds; the message
   * Telegram returns on success is only logged by the handler, so it is not kept.
   */
  datatype Bot = Bot(
    sendMessage: (Int64, string, Option<ParseMode>, Option<Keyboard>) -> Result<(), Error>,
    editInlineKeyboard: (Int64, Int64, string, Option<ParseMode>, Option<Keyboard>) -> Result<(), Error>,
    answerQuery: (string, Option<string>, Option<bool>) -> Result<(), Error>)

  /** The Kitsu client: `fetch_anime(kitsu_id, offset)`, `get_anime(kitsu_id, anime_id)`, `update_anime_entry(token, entry_id, progress, anime_id)`. */
  datatype Api = Api(
    fetchAnime: (Int64, Int64) -> Result<AnimePage, Error>,
    getAnime: (Int64, Int64) -> Result<AnimeDetail, Error>,
    updateAnimeEntry: (string, string, Int64, string) -> Result<(), Error>)

  /**
   * The user database: `get_kitsu_id(user_id)` and `get_token(user_id, kitsu_id)`
   * are lookups; `fetch()` refreshes every user remotely and yields them, of
   * which the handler uses only the number.
   */
  datatype Database = Database(
    getKitsuId: Int64 -> Option<Int64>,
    getToken: (Int64, Int64) -> Option<string>,
    fetch: Result<nat, Error>)
}

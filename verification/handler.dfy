/**
 * The event dispatcher: `Handler::handle_message`, `Handler::handle_query` and
 * the seven command handlers. Each handler is the future it returns, given as
 * the calls it issues in order and what it resolves to, for any answers the
 * collaborators give.
 */
module Handler {
  import opened Wrappers
  import opened Types
  import opened Decimal
  import opened Payload
  import opened Collaborators
  import opened Future

  /** The handler's fields; none of them is ever reassigned. */
  datatype Handler = Handler(api: Api, bot: Bot, db: Database)

  /**
   * Code the handler calls but that lives elsewhere: the command grammars
   * `parse_message` / `parse_query` (`None` for any input they do not accept),
   * the formatters `parse_anime_list` / `parse_anime_detail`, and the crate
   * version fixed at build time.
   */
  datatype Externals = Externals(
    parseMessage: string -> Option<MsgCommand>,
    parseQuery: string -> Option<QueryCommand>,
    parseAnimeList: (Int64, AnimePage) -> (string, Keyboard),
    parseAnimeDetail: (Int64, AnimeDetail) -> (string, Keyboard),
    version: string)

  const UnknownCommand := "Unknown command."
  const OutdatedMessage := "Outdated Message."
  const NonRegisteredAlert := "Non-registered user"

  function NonRegisteredText(userId: Int64): string {
    "Non-registered user: " + IntToString(userId)
  }

  function VersionText(version: string): string {
    "<pre>Sagiri-" + version + "\nFor more information, please visit the wiki.</pre>"
  }

  function UpdatedUsersText(users: nat): string {
    "<pre>Successful update: " + NatToString(users) + " user(s)</pre>"
  }

  function ProgressText(progress: Int64): string {
    "Successful update to episode " + IntToString(progress)
  }

  /** The two one-button rows of the progress confirmation: back to the anime, back to the list. */
  function ProgressButtons(kitsuId: Int64, anime: string): Keyboard {
    [ [WithCallbackData("back to anime", DetailPayload(kitsuId, anime))],
      [WithCallbackData("back to list", FirstPagePayload(kitsuId))] ]
  }

  // One step per collaborator call: the call is issued and answered.

  function SendStep(h: Handler, chatId: Int64, text: string, mode: Option<ParseMode>, keyboard: Option<Keyboard>): Run<()> {
    Issue(SendMessage(chatId, text, mode, keyboard), h.bot.sendMessage(chatId, text, mode, keyboard))
  }

  function EditStep(h: Handler, msgId: Int64, chatId: Int64, text: string, mode: Option<ParseMode>, keyboard: Option<Keyboard>): Run<()> {
    Issue(EditInlineKeyboard(msgId, chatId, text, mode, keyboard), h.bot.editInlineKeyboard(msgId, chatId, text, mode, keyboard))
  }

  function AnswerStep(h: Handler, queryId: string, alert: Option<string>, showAlert: Option<bool>): Run<()> {
    Issue(AnswerQuery(queryId, alert, showAlert), h.bot.answerQuery(queryId, alert, showAlert))
  }

  function FetchAnimeStep(h: Handler, kitsuId: Int64, offset: Int64): Run<AnimePage> {
    Issue(FetchAnime(kitsuId, offset), h.api.fetchAnime(kitsuId, offset))
  }

  function GetAnimeStep(h: Handler, kitsuId: Int64, animeId: Int64): Run<AnimeDetail> {
    Issue(GetAnime(kitsuId, animeId), h.api.getAnime(kitsuId, animeId))
  }

  function UpdateEntryStep(h: Handler, token: string, entry: string, progress: Int64, anime: string): Run<()> {
    Issue(UpdateAnimeEntry(token, entry, progress, anime), h.api.updateAnimeEntry(token, entry, progress, anime))
  }

  function FetchUsersStep(h: Handler): Run<nat> {
    Issue(FetchUsers, h.db.fetch)
  }

  /** Whether the collaborator addressed by `c` succeeds on it, and with which error it fails. */
  function Outcome(h: Handler, c: Call): Result<(), Error> {
    match c
    case SendMessage(chatId, text, mode, keyboard) => Unit(h.bot.sendMessage(chatId, text, mode, keyboard))
    case EditInlineKeyboard(msgId, chatId, text, mode, keyboard) => Unit(h.bot.editInlineKeyboard(msgId, chatId, text, mode, keyboard))
    case AnswerQuery(queryId, alert, showAlert) => Unit(h.bot.answerQuery(queryId, alert, showAlert))
    case FetchAnime(kitsuId, offset) => Unit(h.api.fetchAnime(kitsuId, offset))
    case GetAnime(kitsuId, animeId) => Unit(h.api.getAnime(kitsuId, animeId))
    case UpdateAnimeEntry(token, entry, progress, anime) => Unit(h.api.updateAnimeEntry(token, entry, progress, anime))
    case FetchUsers => Unit(h.db.fetch)
  }

  function Unit<T>(r: Result<T, Error>): Result<(), Error> {
    match r
    case Ok(_) => Ok(())
    case Err(e) => Err(e)
  }

  /** `unknown`: tell the chat the command was not understood. */
  function HandleUnknown(h: Handler, chatId: Int64): (r: Run<()>)
    ensures r.calls == [SendMessage(chatId, UnknownCommand, None, None)]
    ensures r.result == Outcome(h, SendMessage(chatId, UnknownCommand, None, None))
  {
    AndThen(SendStep(h, chatId, UnknownCommand, None, None), (u: ()) => Done(()))
  }

  /** `version`: send the version banner as HTML. */
  function HandleVersion(h: Handler, x: Externals, chatId: Int64): (r: Run<()>)
    ensures r.calls == [SendMessage(chatId, VersionText(x.version), Some(Html), None)]
    ensures r.result == Outcome(h, SendMessage(chatId, VersionText(x.version), Some(Html), None))
  {
    AndThen(SendStep(h, chatId, VersionText(x.version), Some(Html), None), (u: ()) => Done(()))
  }

  /**
   * `list`: an unregistered sender is told so and nothing is fetched; for a
   * registered one, page 0 of their library is fetched, formatted and sent as
   * one new HTML message with its keyboard.
   */
  function HandleList(h: Handler, x: Externals, userId: Int64, chatId: Int64): (r: Run<()>)
    ensures h.db.getKitsuId(userId).None? ==>
      && r.calls == [SendMessage(chatId, NonRegisteredText(userId), None, None)]
      && r.result == Outcome(h, SendMessage(chatId, NonRegisteredText(userId), None, None))
    ensures h.db.getKitsuId(userId).Some? ==>
      var kitsuId := h.db.getKitsuId(userId).value;
      var page := h.api.fetchAnime(kitsuId, 0);
      && (page.Err? ==> r.calls == [FetchAnime(kitsuId, 0)] && r.result == Err(page.error))
      && (page.Ok? ==>
            var shown := x.parseAnimeList(kitsuId, page.value);
            && r.calls == [FetchAnime(kitsuId, 0), SendMessage(chatId, shown.0, Some(Html), Some(shown.1))]
            && r.result == Outcome(h, SendMessage(chatId, shown.0, Some(Html), Some(shown.1))))
  {
    match h.db.getKitsuId(userId)
    case None =>
      AndThen(SendStep(h, chatId, NonRegisteredText(userId), None, None), (u: ()) => Done(()))
    case Some(kitsuId) =>
      AndThen(
        AndThen(
          AndThen(FetchAnimeStep(h, kitsuId, 0), (page: AnimePage) => Done(x.parseAnimeList(kitsuId, page))),
          (shown: (string, Keyboard)) => SendStep(h, chatId, shown.0, Some(Html), Some(shown.1))),
        (u: ()) => Done(()))
  }

  /** `update`: refresh every user, then report how many as HTML. */
  function HandleUpdate(h: Handler, chatId: Int64): (r: Run<()>)
    ensures h.db.fetch.Err? ==> r.calls == [FetchUsers] && r.result == Err(h.db.fetch.error)
    ensures h.db.fetch.Ok? ==>
      var text := UpdatedUsersText(h.db.fetch.value);
      && r.calls == [FetchUsers, SendMessage(chatId, text, Some(Html), None)]
      && r.result == Outcome(h, SendMessage(chatId, text, Some(Html), None))
  {
    AndThen(
      AndThen(FetchUsersStep(h), (users: nat) => SendStep(h, chatId, UpdatedUsersText(users), Some(Html), None)),
      (u: ()) => Done(()))
  }

  /**
   * `offset`: fetch the requested page, edit the message to show it, then
   * acknowledge the query without an alert; each step runs only if the one
   * before succeeded.
   */
  function HandleOffset(h: Handler, x: Externals, msgId: Int64, chatId: Int64, kitsuId: Int64, offset: Int64, queryId: string): (r: Run<()>)
    ensures
      var page := h.api.fetchAnime(kitsuId, offset);
      && (page.Err? ==> r.calls == [FetchAnime(kitsuId, offset)] && r.result == Err(page.error))
      && (page.Ok? ==>
            var shown := x.parseAnimeList(kitsuId, page.value);
            var edit := EditInlineKeyboard(msgId, chatId, shown.0, Some(Html), Some(shown.1));
            && (Outcome(h, edit).Err? ==> r.calls == [FetchAnime(kitsuId, offset), edit] && r.result == Outcome(h, edit))
            && (Outcome(h, edit).Ok? ==>
                  && r.calls == [FetchAnime(kitsuId, offset), edit, AnswerQuery(queryId, None, None)]
                  && r.result == Outcome(h, AnswerQuery(queryId, None, None))))
  {
    AndThen(
      AndThen(
        AndThen(
          AndThen(FetchAnimeStep(h, kitsuId, offset), (page: AnimePage) => Done(x.parseAnimeList(kitsuId, page))),
          (shown: (string, Keyboard)) => EditStep(h, msgId, chatId, shown.0, Some(Html), Some(shown.1))),
        (u: ()) => AnswerStep(h, queryId, None, None)),
      (u: ()) => Done(()))
  }

  /** `detail`: fetch one library entry, then edit the message to show it as HTML with its keyboard. */
  function HandleDetail(h: Handler, x: Externals, msgId: Int64, chatId: Int64, kitsuId: Int64, animeId: Int64): (r: Run<()>)
    ensures
      var pair := h.api.getAnime(kitsuId, animeId);
      && (pair.Err? ==> r.calls == [GetAnime(kitsuId, animeId)] && r.result == Err(pair.error))
      && (pair.Ok? ==>
            var shown := x.parseAnimeDetail(kitsuId, pair.value);
            var edit := EditInlineKeyboard(msgId, chatId, shown.0, Some(Html), Some(shown.1));
            r.calls == [GetAnime(kitsuId, animeId), edit] && r.result == Outcome(h, edit))
  {
    AndThen(
      AndThen(
        AndThen(GetAnimeStep(h, kitsuId, animeId), (pair: AnimeDetail) => Done(x.parseAnimeDetail(kitsuId, pair))),
        (shown: (string, Keyboard)) => EditStep(h, msgId, chatId, shown.0, Some(Html), Some(shown.1))),
      (u: ()) => Done(()))
  }

  /**
   * `progress`: without a stored token the query is answered with a
   * "Non-registered user" alert and nothing else happens; with one, the entry's
   * progress is updated remotely and, only if that succeeds, the message is
   * edited to a confirmation with the two back buttons.
   */
  function HandleProgress(h: Handler, msgId: Int64, chatId: Int64, userId: Int64, kitsuId: Int64, anime: string, progress: Int64, entry: string, queryId: string): (r: Run<()>)
    ensures h.db.getToken(userId, kitsuId).None? ==>
      && r.calls == [AnswerQuery(queryId, Some(NonRegisteredAlert), Some(true))]
      && r.result == Outcome(h, AnswerQuery(queryId, Some(NonRegisteredAlert), Some(true)))
    ensures h.db.getToken(userId, kitsuId).Some? ==>
      var update := UpdateAnimeEntry(h.db.getToken(userId, kitsuId).value, entry, progress, anime);
      var edit := EditInlineKeyboard(msgId, chatId, ProgressText(progress), Some(Html), Some(ProgressButtons(kitsuId, anime)));
      && (Outcome(h, update).Err? ==> r.calls == [update] && r.result == Outcome(h, update))
      && (Outcome(h, update).Ok? ==> r.calls == [update, edit] && r.result == Outcome(h, edit))
  {
    var text := ProgressText(progress);
    var buttons := ProgressButtons(kitsuId, anime);
    match h.db.getToken(userId, kitsuId)
    case None =>
      AndThen(AnswerStep(h, queryId, Some(NonRegisteredAlert), Some(true)), (u: ()) => Done(()))
    case Some(token) =>
      AndThen(
        AndThen(UpdateEntryStep(h, token, entry, progress, anime),
          (u: ()) => EditStep(h, msgId, chatId, text, Some(Html), Some(buttons))),
        (u: ()) => Done(()))
  }

  /**
   * `handle_message`: route chat text to its handler. Missing text reads as
   * the empty string; text the grammar rejects goes to `unknown`. The chat and
   * the sender must be present (the source unwraps them).
   */
  function HandleMessage(h: Handler, x: Externals, msg: Message): (r: Run<()>)
    requires msg.chat.Some? && msg.from.Some?
    ensures |r.calls| >= 1
    ensures forall i :: 0 <= i < |r.calls| ==> r.calls[i].SendMessage? || r.calls[i].FetchAnime? || r.calls[i].FetchUsers?
  {
    var chatId := msg.chat.value.id;
    var userId := msg.from.value.id;
    var text := msg.text.UnwrapOr("");
    match x.parseMessage(text)
    case Some(List) => HandleList(h, x, userId, chatId)
    case Some(Update) => HandleUpdate(h, chatId)
    case Some(Version) => HandleVersion(h, x, chatId)
    case None => HandleUnknown(h, chatId)
  }

  /** True when the query's originating message carries the ids the source unwraps. */
  predicate QueryIdsPresent(q: CallbackQuery) {
    q.message.Some? ==> q.message.value.messageId.Some? && q.message.value.chat.Some?
  }

  /**
   * `handle_query`: a query whose message is gone fails with "Outdated
   * Message." before anything else; otherwise the payload (empty if missing)
   * is parsed and routed, and a payload the grammar rejects goes to `unknown`.
   */
  function HandleQuery(h: Handler, x: Externals, q: CallbackQuery): (r: Run<()>)
    requires QueryIdsPresent(q)
    ensures q.message.None? <==> r.calls == []
    ensures q.message.None? ==> r.result == Err(Telegram(OutdatedMessage))
    ensures forall i :: 0 <= i < |r.calls| ==> !r.calls[i].FetchUsers?
  {
    var queryId := q.id;
    var userId := q.from.id;
    var data := q.data.UnwrapOr("");
    match q.message
    case Some(msg) =>
      var msgId := msg.messageId.value;
      var chatId := msg.chat.value.id;
      (match x.parseQuery(data)
       case Some(Offset(kitsuId, offset)) => HandleOffset(h, x, msgId, chatId, kitsuId, offset, queryId)
       case Some(Detail(kitsuId, animeId)) => HandleDetail(h, x, msgId, chatId, kitsuId, animeId)
       case Some(Progress(kitsuId, anime, entry, progress)) =>
         HandleProgress(h, msgId, chatId, userId, kitsuId, anime, progress, entry, queryId)
       case None => HandleUnknown(h, chatId))
    case None => Fail(Telegram(OutdatedMessage))
  }
}

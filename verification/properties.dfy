/**
 * What the dispatcher promises, stated over whole events: routing, the
 * early exits, the exact texts and payloads, and the order in which a chain
 * of calls stops at its first failure.
 */
module HandlerProperties {
  import opened Wrappers
  import opened Types
  import opened Decimal
  import opened Payload
  import opened Collaborators
  import opened Future
  import opened Handler

  /**
   * A run stops at its first failure: every call but the last succeeded, and
   * the run ends as its last call did (its error if it failed).
   */
  ghost predicate StopsAtFirstFailure<T>(h: Handler, r: Run<T>) {
    && (forall i :: 0 <= i < |r.calls| - 1 ==> Outcome(h, r.calls[i]).Ok?)
    && (|r.calls| == 0 ==> r.result.Ok?)
    && (|r.calls| > 0 ==>
          && (r.result.Ok? <==> Outcome(h, r.calls[|r.calls| - 1]).Ok?)
          && (r.result.Err? ==> Outcome(h, r.calls[|r.calls| - 1]) == Err(r.result.error)))
  }

  /** No two calls of one run put or change a message on screen. */
  ghost predicate AtMostOneChatChange(calls: seq<Call>) {
    forall i, j :: 0 <= i < j < |calls| ==> !(calls[i].ChangesChat() && calls[j].ChangesChat())
  }

  /** `and_then` keeps "stops at the first failure": chaining such runs gives such a run. */
  lemma AndThenStopsAtFirstFailure<T, U>(h: Handler, r: Run<T>, k: T -> Run<U>)
    requires StopsAtFirstFailure(h, r)
    requires r.result.Ok? ==> StopsAtFirstFailure(h, k(r.result.value))
    ensures StopsAtFirstFailure(h, AndThen(r, k))
  {
  }

  /** Missing message text is handled exactly as the empty string. */
  lemma MissingTextReadsAsEmpty(h: Handler, x: Externals, msg: Message)
    requires msg.chat.Some? && msg.from.Some? && msg.text.None?
    ensures HandleMessage(h, x, msg) == HandleMessage(h, x, msg.(text := Some("")))
    ensures x.parseMessage("") == None ==>
      HandleMessage(h, x, msg).calls == [SendMessage(msg.chat.value.id, UnknownCommand, None, None)]
  {
  }

  /** Chat text the grammar rejects gets "Unknown command." in the same chat, plain and without keyboard. */
  lemma RejectedTextIsUnknown(h: Handler, x: Externals, msg: Message)
    requires msg.chat.Some? && msg.from.Some?
    requires x.parseMessage(msg.text.UnwrapOr("")) == None
    ensures var r := HandleMessage(h, x, msg);
      var send := SendMessage(msg.chat.value.id, "Unknown command.", None, None);
      r.calls == [send] && r.result == Outcome(h, send)
  {
  }

  /** A callback payload the grammar rejects also gets "Unknown command." in the message's chat; the query is left unanswered. */
  lemma RejectedPayloadIsUnknown(h: Handler, x: Externals, q: CallbackQuery)
    requires QueryIdsPresent(q) && q.message.Some?
    requires x.parseQuery(q.data.UnwrapOr("")) == None
    ensures var r := HandleQuery(h, x, q);
      var send := SendMessage(q.message.value.chat.value.id, "Unknown command.", None, None);
      r.calls == [send] && r.result == Outcome(h, send)
  {
  }

  /** A query whose message is gone fails with "Outdated Message.", issues no call, and does not depend on the parsers. */
  lemma OutdatedQueryFails(h: Handler, x: Externals, y: Externals, q: CallbackQuery)
    requires q.message.None?
    ensures HandleQuery(h, x, q) == Run([], Err(Telegram("Outdated Message.")))
    ensures HandleQuery(h, y, q) == HandleQuery(h, x, q)
  {
  }

  /** `list` from a sender with no kitsu id: one plain "Non-registered user: {id}" message, and nothing is fetched. */
  lemma ListForUnregisteredUser(h: Handler, x: Externals, msg: Message)
    requires msg.chat.Some? && msg.from.Some?
    requires x.parseMessage(msg.text.UnwrapOr("")) == Some(MsgCommand.List)
    requires h.db.getKitsuId(msg.from.value.id).None?
    ensures var r := HandleMessage(h, x, msg);
      && r.calls == [SendMessage(msg.chat.value.id, "Non-registered user: " + IntToString(msg.from.value.id), None, None)]
      && forall i :: 0 <= i < |r.calls| ==> !r.calls[i].FetchAnime?
  {
  }

  /**
   * `list` from a registered sender: page 0 of their own kitsu id is fetched
   * first, and on success exactly one new HTML message follows, carrying the
   * formatted text and keyboard.
   */
  lemma ListForRegisteredUser(h: Handler, x: Externals, msg: Message)
    requires msg.chat.Some? && msg.from.Some?
    requires x.parseMessage(msg.text.UnwrapOr("")) == Some(MsgCommand.List)
    requires h.db.getKitsuId(msg.from.value.id).Some?
    ensures var r := HandleMessage(h, x, msg);
      var kitsuId := h.db.getKitsuId(msg.from.value.id).value;
      var page := h.api.fetchAnime(kitsuId, 0);
      && r.calls[0] == FetchAnime(kitsuId, 0)
      && (page.Err? ==> |r.calls| == 1 && r.result == Err(page.error))
      && (page.Ok? ==>
            && |r.calls| == 2
            && r.calls[1] == SendMessage(msg.chat.value.id, x.parseAnimeList(kitsuId, page.value).0, Some(Html),
                                         Some(x.parseAnimeList(kitsuId, page.value).1)))
  {
  }

  /** `version`: one HTML message with the version banner and no keyboard, nothing else. */
  lemma VersionSendsBanner(h: Handler, x: Externals, msg: Message)
    requires msg.chat.Some? && msg.from.Some?
    requires x.parseMessage(msg.text.UnwrapOr("")) == Some(MsgCommand.Version)
    ensures HandleMessage(h, x, msg).calls ==
      [SendMessage(msg.chat.value.id, "<pre>Sagiri-" + x.version + "\nFor more information, please visit the wiki.</pre>", Some(Html), None)]
  {
  }

  /** `update`: users are refreshed first; only on success is their number reported, as HTML. */
  lemma UpdateReportsCount(h: Handler, x: Externals, msg: Message)
    requires msg.chat.Some? && msg.from.Some?
    requires x.parseMessage(msg.text.UnwrapOr("")) == Some(MsgCommand.Update)
    ensures var r := HandleMessage(h, x, msg);
      && r.calls[0] == FetchUsers
      && (h.db.fetch.Err? ==> |r.calls| == 1 && r.result == Err(h.db.fetch.error))
      && (h.db.fetch.Ok? ==>
            r.calls[1..] == [SendMessage(msg.chat.value.id, "<pre>Successful update: " + NatToString(h.db.fetch.value) + " user(s)</pre>", Some(Html), None)])
  {
  }

  /**
   * `offset`: the query is handled by the offset chain on its own message,
   * chat and query id. The page is fetched; on success the existing message
   * is edited to the formatted page as HTML; on a successful edit the query
   * is answered with no alert. Each step runs exactly when the one before
   * succeeded, and no new message is ever sent.
   */
  lemma OffsetFetchEditAnswer(h: Handler, x: Externals, q: CallbackQuery, kitsuId: Int64, offset: Int64)
    requires QueryIdsPresent(q) && q.message.Some?
    requires x.parseQuery(q.data.UnwrapOr("")) == Some(QueryCommand.Offset(kitsuId, offset))
    ensures var msgId := q.message.value.messageId.value;
      var chatId := q.message.value.chat.value.id;
      HandleQuery(h, x, q) == HandleOffset(h, x, msgId, chatId, kitsuId, offset, q.id)
    ensures var r := HandleQuery(h, x, q);
      var page := h.api.fetchAnime(kitsuId, offset);
      && 1 <= |r.calls| <= 3
      && r.calls[0] == FetchAnime(kitsuId, offset)
      && (|r.calls| >= 2 <==> page.Ok?)
      && (page.Ok? ==>
            var shown := x.parseAnimeList(kitsuId, page.value);
            var edit := EditInlineKeyboard(q.message.value.messageId.value, q.message.value.chat.value.id,
                                           shown.0, Some(Html), Some(shown.1));
            && r.calls[1] == edit
            && (|r.calls| == 3 <==> Outcome(h, edit).Ok?)
            && (|r.calls| == 3 ==> r.calls[2] == AnswerQuery(q.id, None, None)))
      && (forall i :: 0 <= i < |r.calls| ==> !r.calls[i].SendMessage?)
  {
  }

  /**
   * `detail`: the query is handled by the detail chain on its own message and
   * chat. The entry is fetched and, exactly when that succeeds, the message
   * is edited to the formatted entry as HTML; the query is never answered.
   */
  lemma DetailFetchThenEdit(h: Handler, x: Externals, q: CallbackQuery, kitsuId: Int64, animeId: Int64)
    requires QueryIdsPresent(q) && q.message.Some?
    requires x.parseQuery(q.data.UnwrapOr("")) == Some(QueryCommand.Detail(kitsuId, animeId))
    ensures var msgId := q.message.value.messageId.value;
      var chatId := q.message.value.chat.value.id;
      HandleQuery(h, x, q) == HandleDetail(h, x, msgId, chatId, kitsuId, animeId)
    ensures var r := HandleQuery(h, x, q);
      var pair := h.api.getAnime(kitsuId, animeId);
      && 1 <= |r.calls| <= 2
      && r.calls[0] == GetAnime(kitsuId, animeId)
      && (|r.calls| == 2 <==> pair.Ok?)
      && (pair.Err? ==> r.result == Err(pair.error))
      && (pair.Ok? ==>
            var shown := x.parseAnimeDetail(kitsuId, pair.value);
            r.calls[1] == EditInlineKeyboard(q.message.value.messageId.value, q.message.value.chat.value.id,
                                             shown.0, Some(Html), Some(shown.1)))
      && (forall i :: 0 <= i < |r.calls| ==> !r.calls[i].AnswerQuery?)
  {
  }

  /** `progress` without a token: the query is answered with the alert "Non-registered user", shown; nothing is updated or edited. */
  lemma ProgressForUnregisteredUser(h: Handler, x: Externals, q: CallbackQuery,
                                    kitsuId: Int64, anime: string, entry: string, progress: Int64)
    requires QueryIdsPresent(q) && q.message.Some?
    requires x.parseQuery(q.data.UnwrapOr("")) == Some(QueryCommand.Progress(kitsuId, anime, entry, progress))
    requires h.db.getToken(q.from.id, kitsuId).None?
    ensures var r := HandleQuery(h, x, q);
      && r.calls == [AnswerQuery(q.id, Some("Non-registered user"), Some(true))]
      && forall i :: 0 <= i < |r.calls| ==> !r.calls[i].UpdateAnimeEntry? && !r.calls[i].EditInlineKeyboard?
  {
  }

  /**
   * `progress` with a token: the remote update comes first; the message is
   * edited if and only if it succeeded, to "Successful update to episode
   * {progress}" with exactly two one-button rows whose payloads are
   * `/{kitsu_id}/detail/{anime_id}/` and `/{kitsu_id}/offset/0/`.
   */
  lemma ProgressConfirmation(h: Handler, x: Externals, q: CallbackQuery,
                             kitsuId: Int64, anime: string, entry: string, progress: Int64)
    requires QueryIdsPresent(q) && q.message.Some?
    requires x.parseQuery(q.data.UnwrapOr("")) == Some(QueryCommand.Progress(kitsuId, anime, entry, progress))
    requires h.db.getToken(q.from.id, kitsuId).Some?
    ensures var r := HandleQuery(h, x, q);
      var token := h.db.getToken(q.from.id, kitsuId).value;
      var update := UpdateAnimeEntry(token, entry, progress, anime);
      && r.calls[0] == update
      && (|r.calls| == 2 <==> Outcome(h, update).Ok?)
      && |r.calls| <= 2
      && (|r.calls| == 2 ==>
            var edit := r.calls[1];
            && edit.EditInlineKeyboard?
            && edit.messageId == q.message.value.messageId.value
            && edit.chatId == q.message.value.chat.value.id
            && edit.text == "Successful update to episode " + IntToString(progress)
            && edit.parseMode == Some(Html)
            && edit.keyboard == Some([
                 [InlineKeyboardButton("back to anime", Some("/" + IntToString(kitsuId) + "/detail/" + anime + "/"))],
                 [InlineKeyboardButton("back to list", Some("/" + IntToString(kitsuId) + "/offset/0/"))]]))
  {
  }

  /**
   * When the anime id is a printed `i64`, the back buttons of the progress
   * confirmation read back as `Detail(kitsu_id, anime_id)` and `Offset(kitsu_id, 0)`.
   */
  lemma ProgressButtonsReadBack(kitsuId: Int64, animeId: Int64)
    ensures var rows := ProgressButtons(kitsuId, IntToString(animeId));
      && |rows| == 2 && |rows[0]| == 1 && |rows[1]| == 1
      && rows[0][0].callbackData == Some(DetailPayload(kitsuId, IntToString(animeId)))
      && ReadDetail(rows[0][0].callbackData.value) == Some(QueryCommand.Detail(kitsuId, animeId))
      && rows[1][0].callbackData == Some(FirstPagePayload(kitsuId))
      && ReadOffset(rows[1][0].callbackData.value) == Some(QueryCommand.Offset(kitsuId, 0))
  {
    DetailPayloadRoundTrip(kitsuId, animeId);
    FirstPagePayloadRoundTrip(kitsuId);
  }

  /**
   * `progress` carries the anime id as an opaque string, but `Detail` reads
   * that slot as an `i64`: with an anime id that is not a decimal number, the
   * "back to anime" button's payload is not read back, while "back to list" still is.
   */
  lemma ProgressBackToAnimeNeedsNumericId(kitsuId: Int64, anime: string)
    requires '/' !in anime && ParseInt(anime) == None
    ensures var rows := ProgressButtons(kitsuId, anime);
      && ReadDetail(rows[0][0].callbackData.value) == None
      && ReadOffset(rows[1][0].callbackData.value) == Some(QueryCommand.Offset(kitsuId, 0))
  {
    NonNumericAnimeIdIsNotReadBack(kitsuId, anime);
    FirstPagePayloadRoundTrip(kitsuId);
  }

  /** Every chat message is handled by a run that stops at its first failed call. */
  lemma MessageStopsAtFirstFailure(h: Handler, x: Externals, msg: Message)
    requires msg.chat.Some? && msg.from.Some?
    ensures StopsAtFirstFailure(h, HandleMessage(h, x, msg))
    ensures AtMostOneChatChange(HandleMessage(h, x, msg).calls)
  {
  }

  lemma OffsetStopsAtFirstFailure(h: Handler, x: Externals, msgId: Int64, chatId: Int64, kitsuId: Int64, offset: Int64, queryId: string)
    ensures StopsAtFirstFailure(h, HandleOffset(h, x, msgId, chatId, kitsuId, offset, queryId))
    ensures AtMostOneChatChange(HandleOffset(h, x, msgId, chatId, kitsuId, offset, queryId).calls)
  {
  }

  lemma DetailStopsAtFirstFailure(h: Handler, x: Externals, msgId: Int64, chatId: Int64, kitsuId: Int64, animeId: Int64)
    ensures StopsAtFirstFailure(h, HandleDetail(h, x, msgId, chatId, kitsuId, animeId))
    ensures AtMostOneChatChange(HandleDetail(h, x, msgId, chatId, kitsuId, animeId).calls)
  {
  }

  lemma ProgressStopsAtFirstFailure(h: Handler, msgId: Int64, chatId: Int64, userId: Int64, kitsuId: Int64,
                                    anime: string, progress: Int64, entry: string, queryId: string)
    ensures StopsAtFirstFailure(h, HandleProgress(h, msgId, chatId, userId, kitsuId, anime, progress, entry, queryId))
    ensures AtMostOneChatChange(HandleProgress(h, msgId, chatId, userId, kitsuId, anime, progress, entry, queryId).calls)
  {
  }

  /** Every query with its message present is handled by a run that stops at its first failed call. */
  lemma QueryStopsAtFirstFailure(h: Handler, x: Externals, q: CallbackQuery)
    requires QueryIdsPresent(q) && q.message.Some?
    ensures StopsAtFirstFailure(h, HandleQuery(h, x, q))
    ensures AtMostOneChatChange(HandleQuery(h, x, q).calls)
  {
    var msg := q.message.value;
    match x.parseQuery(q.data.UnwrapOr(""))
    case Some(Offset(kitsuId, offset)) =>
      OffsetStopsAtFirstFailure(h, x, msg.messageId.value, msg.chat.value.id, kitsuId, offset, q.id);
    case Some(Detail(kitsuId, animeId)) =>
      DetailStopsAtFirstFailure(h, x, msg.messageId.value, msg.chat.value.id, kitsuId, animeId);
    case Some(Progress(kitsuId, anime, entry, progress)) =>
      ProgressStopsAtFirstFailure(h, msg.messageId.value, msg.chat.value.id, q.from.id, kitsuId, anime, progress, entry, q.id);
    case None =>
  }
}

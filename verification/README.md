# Sagiri event dispatcher, modelled in Dafny

This project models the dispatcher of the Sagiri Telegram bot (`src/handler.rs`).
The bot lets a user browse their Kitsu anime library and record watch progress.
`Handler::handle_message` routes chat text to the `list`, `update` or `version` handler.
It routes anything the text grammar rejects to `unknown`.
`Handler::handle_query` routes inline-keyboard presses to `offset`, `detail` or `progress`.
A press whose originating message is gone fails with "Outdated Message.".

Each handler returns a boxed future: a fixed chain of `and_then` steps over calls to the Telegram bot, the Kitsu API and the user database.
The model writes that future as a `Run`: the calls it issues, in order, and what it resolves to.
It does this for any answers the collaborators give.
`AndThen` is `and_then`: a failed step skips the rest of the chain and keeps its error.

Files:
- `wrappers.dfy`: `Option` and `Result`.
- `types.dfy`: messages, callback queries, keyboards, the two command types, the error type.
- `decimal.dfy`: Rust's `{}` formatting of integers, and the reading it inverts.
- `payload.dfy`: the two callback payloads the `progress` handler writes, and a reading of them into `Detail` / `Offset` commands by the slash-delimited formats `/{kitsu_id}/detail/{anime_id}/` and `/{kitsu_id}/offset/{offset}/`, every slot an `i64` in decimal.
- `collaborators.dfy`: the bot, the Kitsu client and the database as the answers they give, plus the `Call` datatype.
- `future.dfy`: `Run`, `Done`, `Fail`, `AndThen`.
- `handler.dfy`: the dispatcher and the seven handlers.
- `properties.dfy`: event-level properties.

## Model

| member | source | states |
|---|---|---|
| Handler.HandleMessage | src/handler.rs:29-44 | a chat message issues at least one call, and never edits a message or answers a query |
| Handler.HandleQuery | src/handler.rs:46-89 | a query without its message issues no call and fails with "Outdated Message."; a query with one issues at least one call and never refreshes users |
| Handler.HandleUnknown | src/handler.rs:91-101 | exactly one plain "Unknown command." message to the chat, with no keyboard; the event ends as that send did |
| Handler.HandleVersion | src/handler.rs:103-121 | exactly one HTML message with the version banner and no keyboard |
| Handler.HandleList | src/handler.rs:123-155 | unregistered sender: only a plain "Non-registered user: {id}" message; registered: fetch page 0 of their kitsu id, and only on success send one HTML message with the formatted text and keyboard |
| Handler.HandleUpdate | src/handler.rs:157-176 | refresh users first; only on success report "<pre>Successful update: {n} user(s)</pre>" as HTML |
| Handler.HandleOffset | src/handler.rs:178-201 | fetch the page, then edit the message as HTML with the formatted keyboard, then answer the query with no alert; each step only after the previous one succeeded |
| Handler.HandleDetail | src/handler.rs:203-225 | fetch the entry, and only on success edit the message as HTML with the formatted keyboard |
| Handler.HandleProgress | src/handler.rs:227-278 | no token: answer with the shown alert "Non-registered user" and nothing else; with a token: remote update, then on success the confirmation edit with the two back buttons |
| HandlerProperties.AndThenStopsAtFirstFailure | src/handler.rs:188-199 | chaining runs with `and_then` keeps the rule that every call but the last succeeded and the run ends as its last call did |
| HandlerProperties.MissingTextReadsAsEmpty | src/handler.rs:32 | a message without text is handled exactly as one with empty text |
| HandlerProperties.RejectedTextIsUnknown | src/handler.rs:36-43 | text the grammar rejects gets exactly one plain "Unknown command." message in the same chat, with no keyboard |
| HandlerProperties.RejectedPayloadIsUnknown | src/handler.rs:58-83 | a payload the grammar rejects gets "Unknown command." in the message's chat, and the query is not answered |
| HandlerProperties.OutdatedQueryFails | src/handler.rs:53-88 | no originating message: the result is the "Outdated Message." error with no call, whatever the parsers would say |
| HandlerProperties.ListForUnregisteredUser | src/handler.rs:125-138 | `list` from a sender without kitsu id sends "Non-registered user: {user_id}" with no keyboard and never fetches |
| HandlerProperties.ListForRegisteredUser | src/handler.rs:139-152 | `list` from a registered sender fetches page 0 of their kitsu id first; on success exactly one new HTML message with the formatted keyboard follows |
| HandlerProperties.VersionSendsBanner | src/handler.rs:103-121 | `version` sends exactly the banner text as HTML, without keyboard |
| HandlerProperties.UpdateReportsCount | src/handler.rs:157-176 | `update` refreshes users first; on failure nothing is sent; on success the user count is reported |
| HandlerProperties.OffsetFetchEditAnswer | src/handler.rs:58-62 | a parsed `Offset` runs the offset chain on the query's own message, chat and query id: fetch; the edit with the formatted page as HTML exactly when the fetch succeeded; the answer with no alert exactly when the edit succeeded; no new message is sent |
| HandlerProperties.DetailFetchThenEdit | src/handler.rs:63-65 | a parsed `Detail` runs the detail chain on the query's own message and chat: fetch the entry; exactly when that succeeds, edit the message to the formatted entry as HTML; the query is never answered |
| HandlerProperties.ProgressForUnregisteredUser | src/handler.rs:255-264 | `progress` without a token only answers the query with the shown alert "Non-registered user"; no update, no edit |
| HandlerProperties.ProgressConfirmation | src/handler.rs:238-277 | `progress` with a token updates remotely first; the edit happens if and only if the update succeeded, with the exact confirmation text and the two one-button rows with payloads `/{kitsu_id}/detail/{anime_id}/` and `/{kitsu_id}/offset/0/` |
| HandlerProperties.ProgressButtonsReadBack | src/handler.rs:241-254 | with a decimal anime id, the two back-button payloads read back as `Detail(kitsu_id, anime_id)` and `Offset(kitsu_id, 0)` |
| HandlerProperties.ProgressBackToAnimeNeedsNumericId | src/handler.rs:233-246 | with an anime id that is not a decimal number, the "back to anime" payload is not read back as any `Detail`, while "back to list" still reads back as `Offset(kitsu_id, 0)` |
| HandlerProperties.MessageStopsAtFirstFailure | src/handler.rs:29-44 | every chat message's run stops at its first failed call, and shows or changes at most one message |
| HandlerProperties.OffsetStopsAtFirstFailure | src/handler.rs:178-201 | the `offset` chain stops at its first failed call and changes at most one message |
| HandlerProperties.DetailStopsAtFirstFailure | src/handler.rs:203-225 | the `detail` chain stops at its first failed call and changes at most one message |
| HandlerProperties.ProgressStopsAtFirstFailure | src/handler.rs:227-278 | the `progress` chain stops at its first failed call and changes at most one message |
| HandlerProperties.QueryStopsAtFirstFailure | src/handler.rs:46-89 | every query with its message present is handled by a run that stops at its first failed call and changes at most one message |
| Decimal.NatToString | src/handler.rs:166 | the user count prints as a non-empty run of digits, without leading zeros |
| Decimal.IntToString | src/handler.rs:130 | an `i64` prints with a leading '-' exactly when it is negative, and never contains '/' |
| Decimal.ParseNatToString | src/handler.rs:166 | reading a printed count back gives the count |
| Decimal.IntToStringRoundTrip | src/handler.rs:240 | reading a printed `i64` back gives the same integer |
| Decimal.IntToStringInjective | src/handler.rs:245 | two different ids never print alike |
| Payload.SegmentsOfPlain | src/handler.rs:245 | a string with no '/' is a single payload segment |
| Payload.SegmentsAfterSlash | src/handler.rs:245 | a '/' after a plain piece ends that segment |
| Payload.DetailPayloadSegments | src/handler.rs:245 | `/{kitsu_id}/detail/{anime_id}/` splits into "", the id, "detail", the anime id, "" |
| Payload.FirstPagePayloadSegments | src/handler.rs:251 | `/{kitsu_id}/offset/0/` splits into "", the id, "offset", "0", "" |
| Payload.ReadInt64RoundTrip | src/handler.rs:245 | a printed `i64` reads back as that `i64` in an id slot |
| Payload.DetailPayloadRoundTrip | src/handler.rs:243-246 | a "back to anime" payload with a decimal anime id reads back as `Detail(kitsu_id, anime_id)` |
| Payload.NonNumericAnimeIdIsNotReadBack | src/handler.rs:245 | a "back to anime" payload whose anime id is not a decimal number reads back as nothing |
| Payload.FirstPagePayloadRoundTrip | src/handler.rs:249-252 | the "back to list" payload reads back as `Offset(kitsu_id, 0)` |
| Payload.DetailPayloadInjective | src/handler.rs:245 | different (kitsu id, anime id) pairs give different "back to anime" payloads |
| Payload.SlashInAnimeIdIsNotReadBack | src/handler.rs:245 | the payload has no escaping: an anime id holding '/' ("1/2") gives a payload that is not read back |

Behaviour of the code worth noting:
- A chat message without a chat or a sender makes the code panic in `unwrap()`. It does not fail with an error value. The model states this as a precondition of `HandleMessage`.
- A callback query's message without a message id or a chat also panics in `unwrap()`. The model states this as the precondition `QueryIdsPresent` of `HandleQuery`.
- A callback payload the grammar rejects is not an error. The code routes it to `unknown`, which sends "Unknown command." to the chat. The code never answers that query.
- Only `offset` and the unregistered `progress` branch answer the callback query. `detail` and a successful `progress` only edit the message.
- `progress` receives the anime id as a `String` and writes it into the "back to anime" payload. `Detail` reads that slot as an `i64`. So that payload can stand for a `Detail` only when Kitsu's anime id is a decimal number (`ProgressButtonsReadBack`). Otherwise the slash-delimited reading gives no command at all (`ProgressBackToAnimeNeedsNumericId`).

## Left out

- The text and payload grammars `parse_message` / `parse_query` are not part of this model. They are the fields `parseMessage` / `parseQuery` of `Externals`, so the properties hold for every grammar. The same goes for the formatters `parse_anime_list` / `parse_anime_detail` (`parseAnimeList` / `parseAnimeDetail`). So no round-trip of the full payload codec is proved. Only the two payloads the handler writes itself are read back, by the slash-delimited format `/{kitsu_id}/detail/{anime_id}/`, `/{kitsu_id}/offset/{offset}/` with `i64` slots.
- The Telegram and Kitsu HTTP clients and the token store are not part of this model. Each remote call is a function from its arguments to success or an error (`Bot`, `Api`, `Database`). The message Telegram returns on a send or edit is only logged, so the model drops it. `Database.fetch` yields only the number of users refreshed, because that number is all the handler uses.
- `get_kitsu_id` and `get_token` are synchronous lookups. They are functions to `Option`, and they do not appear in the call trace.
- The futures runtime, boxing and concurrency between events are left out. A `Run` is the chain's sequential result.
- `info!` logging is left out.
- `Handler::new` is left out. It builds the collaborators from an HTTP client and a token (I/O setup).
- The build-time `VERSION` constant is the field `version` of `Externals`.
- The error type is not part of this model beyond what the handler builds. `Telegram(message)` is what `TelegramError::new` gives, and every other collaborator failure is an opaque `Collaborator(description)`.
- `ParseMode` has only the `HTML` mode the handler uses.
- The transport's limit on callback-data length is not modelled.
- Handling the same `offset` twice against unchanged collaborators gives the same run. This holds because every handler is a function of its inputs, so no lemma states it.

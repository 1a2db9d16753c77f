# Chatbot widget: a verified model of its core

The system is a multi-tenant chatbot service. Users create bots with a
system prompt and knowledge documents. The bots answer in an embeddable
widget, in a Telegram chat and through a streaming FastAPI endpoint, with
the answers coming from a hosted language model. This project models the
parts of it that decide things:

- **The context assembler** (`Assembly`): one system entry (the prompt,
  then a separator and the documents joined by newlines, but only when
  documents exist), followed by the `user`/`assistant` history in order.
  There are four copies of it (`ChatRoute`, `ChatPy`, `Ai`, `Backend`), each
  a method proved equal to the one specification. The FastAPI copy uses a
  different separator, and the generation helper adds a final user entry.
- **The conversation pipeline** (`Pipeline`, `ChatRoute`, `ChatPy`):
  1. resolve the bot, or answer 404 and change nothing;
  2. create the conversation unless it exists;
  3. store the last message if it is a user turn;
  4. call the model;
  5. store the reply only on success.

  `Pipeline.Run` states the whole request as one function. The two
  handlers are methods on the store proved to produce exactly its effect.
- **Channel decisions**: the Telegram webhook's status chain (`Telegram`)
  and the streaming frame format `0:`/`3:` (`Backend`).
- **Owner-scoped actions and the admin guard** (`BotActions`,
  `AdminUsers`): every bot read or write is filtered by the session user,
  except adding a document. The admin route requires the stored role
  `ADMIN`, validates input and defaults the name and role.
- **Two string rules**: the dashboard/login redirect guard (`Proxy`) and
  the `postgresql://` → `postgresql+asyncpg://` rewrite (`DbUrl`).

The store (`Store.Database`) holds one table per entity:

- Each table is a sequence in creation order, so "newest first" is the
  table read backwards.
- Its invariant `Valid` holds the primary keys and foreign keys the
  queries rely on. It also holds that creation times never decrease along
  a table. That part is an assumption about the clock, not a database
  constraint: every inserting operation requires `NotAfter(now)`, so a new
  row is never stamped earlier than an existing one.

The model call is not part of the model:

- Its outcome (`Completion`) is an input.
- Every handler returns the instruction list it would have sent, as `asked`.
- JSON encoding is an uninterpreted function `encode`.
- A falsy JavaScript or Python value (absent, null, empty) is modelled
  as the empty string.

Nothing in the chat route checks that the conversation named by `chatId`
belongs to the requested bot (src/app/api/chat/route.ts:26-50, and the
same in api/chat.py:46-57). The handlers are modelled as written; the
consequence and a corrected pipeline are under "## Findings".

## Model

| member | source | states |
|---|---|---|
| Assembly.SystemContent | src/app/api/chat/route.ts:54-61 | definition: the bot's prompt alone without documents, otherwise prompt, separator and the documents joined by newlines; its properties are the three lemmas below |
| Assembly.Converted | src/lib/ai.ts:32-38 | definition: each `user` entry becomes a human turn, each `assistant` entry a model turn, any other role is dropped; see `ConvertedIsFilterThenMap` |
| Assembly.Context | src/app/api/chat/route.ts:54-69 | definition: the system entry followed by the converted history; every handler's instruction list is proved equal to it |
| Assembly.NoDocumentsKeepsPrompt | src/app/api/chat/route.ts:54-58 | with no documents the system entry is the bot's prompt exactly |
| Assembly.DocumentAt | src/app/api/chat/route.ts:58-61 | with documents the system entry starts with prompt + separator and each document k appears at its own offset, in the order `DocumentsOf` gives, none dropped |
| Assembly.DocumentBoundary | src/app/api/chat/route.ts:58-61 | between consecutive documents there is exactly one newline, and the last document ends the entry: nothing repeated or added |
| Assembly.ConvertedAppend | src/lib/ai.ts:32-38 | the history mapping of a concatenation is the concatenation of the mappings |
| Assembly.ConvertedIsFilterThenMap | src/lib/ai.ts:32-38 | the mapping keeps exactly the `user` and `assistant` entries in input order and turns each into its Human/AI entry |
| Assembly.ContextShape | src/app/api/chat/route.ts:54-69 | the list has length 1 + number of kept messages, one system entry first and none after |
| Assembly.AppendHistory | src/app/api/chat/route.ts:63-69 | the push loop appends the mapping of the history to the list built so far |
| Store.FindBot | src/app/api/chat/route.ts:16-19 | lookup by id: a found bot is in the table with that id; none means no bot has it |
| Store.FindBotIndex | src/lib/actions/bot.ts:70-73 | the row index of the bot with that id, or none when no bot has it |
| Store.DocumentsOf | src/app/api/chat/route.ts:16-19 | definition: the contents of the bot's documents; the model takes table (creation) order; see `DocumentsOfAreAttached` |
| Store.Consistent | src/lib/actions/bot.ts:84-86 | definition: the keys and foreign keys every query relies on, and creation order; `CascadeConsistent` and each insert keep it |
| Store.DocumentsOfAreAttached | src/app/api/chat/route.ts:13-59 | the documents a bot sees are the contents of exactly its own rows, none dropped or repeated (in the model's table order): no other bot's knowledge |
| Store.CascadeConsistent | src/lib/actions/bot.ts:84-86 | deleting a bot with its documents, conversations and their messages keeps every primary key, foreign key and creation order |
| Store.RemainingBotsCover | src/lib/actions/bot.ts:84-86 | after the cascade every remaining document and conversation still has its bot |
| Store.RemainingConversationsCover | src/lib/actions/bot.ts:84-86 | after the cascade every remaining message still has its conversation |
| Store.WithRole | src/app/api/admin/users/route.ts:61-64 | the user table with the role of the rows with that id replaced, all else unchanged |
| Store.Database.constructor | backend/models.py:6-26 | an empty store is consistent |
| Store.Database.InsertBot | src/lib/actions/bot.ts:22-29 | appends the bot and keeps the invariant |
| Store.Database.ReplaceBot | src/lib/actions/bot.ts:70-73 | replaces one row in place, keeping its id and creation time, and keeps the invariant |
| Store.Database.DeleteBot | src/lib/actions/bot.ts:84-86 | removes the bot, its documents, its conversations and their messages, and keeps the invariant |
| Store.Database.InsertDocument | src/lib/actions/bot.ts:95-100 | appends the document (its bot must exist) and keeps the invariant |
| Store.Database.InsertConversation | src/app/api/chat/route.ts:32-34 | appends the conversation (its bot must exist) and keeps the invariant |
| Store.Database.InsertMessage | src/app/api/chat/route.ts:41-48 | appends the message (its conversation must exist) and keeps the invariant |
| Store.Database.InsertUser | src/app/api/admin/users/route.ts:55-57 | appends the user and keeps the invariant |
| Store.WithRoleNewest | src/app/api/admin/users/route.ts:54-64 | setting the role of the user row just created, whose id was new, changes that row only |
| Store.Database.SetRole | src/app/api/admin/users/route.ts:61-64 | replaces the user's role and keeps the invariant |
| Pipeline.Run | src/app/api/chat/route.ts:11-102 | definition of one chat request: 404 with no write for an unknown bot, otherwise the ensured conversation, the inbound and outbound rows, the reply and the instruction list; both handlers are proved equal to it |
| Pipeline.Ensured | src/app/api/chat/route.ts:26-35 | definition: the conversation table unchanged when a row has the id, otherwise with a new row for the bot |
| Pipeline.InboundRows | src/app/api/chat/route.ts:37-50 | definition: one user row when there is a chat id and the last message is a user turn, otherwise none |
| Pipeline.OutboundRows | src/app/api/chat/route.ts:76-86 | definition: one assistant row when there is a chat id and the model answered, otherwise none |
| Pipeline.Reply | src/app/api/chat/route.ts:88-101 | definition: the `0:` text frame with status 200 on success, 500 with the error message on failure |
| Pipeline.NoChatIdPersistsNothing | src/app/api/chat/route.ts:26-86 | without a chat id neither table changes, whatever the bot and the model do |
| Pipeline.EnsuredIdempotent | src/app/api/chat/route.ts:26-35 | ensuring a conversation a second time, with any bot or time, changes nothing |
| Pipeline.EnsuredExactlyOne | src/app/api/chat/route.ts:26-35 | after ensuring, the conversation exists, ids stay unique, and no existing row is changed or removed |
| Pipeline.UnknownBotChangesNothing | src/app/api/chat/route.ts:16-23 | an unknown bot answers 404 `Bot not found`, both tables unchanged, model not called |
| Pipeline.NewRowsUserIff | src/app/api/chat/route.ts:38-86 | the rows one request appends hold a user turn exactly when the chat id is set and the last message is a user turn, since the reply row is an assistant turn |
| Pipeline.UserMessageIff | src/app/api/chat/route.ts:38-50 | the log only grows; a user row is added iff the chat id is set, messages are non-empty and the last is a user turn, and it is then the first new row with that content |
| Pipeline.FailureKeepsUserMessage | src/app/api/chat/route.ts:72-101 | a failed model call answers 500 with its message, writes no assistant row, and keeps the user row already written |
| Pipeline.SuccessStoresReplyLast | src/app/api/chat/route.ts:77-89 | success answers 200 with `0:` + encode(reply) + newline and, with a chat id, the reply is the last row of the log, in an existing conversation |
| Pipeline.RepeatedChatOneConversation | src/app/api/chat/route.ts:26-35 | two requests with the same chat id leave exactly one conversation with that id, the second adding or overwriting none |
| Pipeline.ForeignConversationAccepted | src/app/api/chat/route.ts:26-50 | a request naming another bot's conversation leaves it with that bot and appends its rows to it |
| Pipeline.RunOwned | src/app/api/chat/route.ts:26-50 | the corrected pipeline: it refuses a request naming another bot's conversation with no write and no model call; every row it appends lies in a conversation of the requested bot |
| Pipeline.RunStaysInBot | src/app/api/chat/route.ts:26-86 | when the chat id does not name another bot's conversation, every row the pipeline appends lies in a conversation of the requested bot |
| Pipeline.RunOwnedRefines | src/app/api/chat/route.ts:26-50 | the corrected pipeline equals the one as written except on foreign conversations, which it refuses |
| ChatRoute.BuildContext | src/app/api/chat/route.ts:54-69 | the array built by overwrite-at-0 and push equals the specified context with the `Context:` separator |
| ChatRoute.SaveInbound | src/app/api/chat/route.ts:25-51 | the conversation table becomes the ensured table and the message table gains exactly the inbound rows; invariant kept, the reply id stays free |
| ChatRoute.SaveReply | src/app/api/chat/route.ts:71-101 | the message table gains exactly the outbound rows, the answer is the text frame on success and 500 with the error on failure |
| ChatRoute.Post | src/app/api/chat/route.ts:11-102 | the store, response and model input after one request are exactly `Pipeline.Run` of the store before; bots, documents and users untouched; invariant kept |
| Ai.Prompt | src/lib/ai.ts:22-41 | definition: the context followed by the current user message as a human turn |
| Ai.PromptEndsWithUserMessage | src/lib/ai.ts:22-41 | the helper's list is 2 + kept history long, system entry first and only, and ends with the user message |
| Ai.EmptyHistoryPrompt | src/lib/ai.ts:13-41 | with the default empty history the list is exactly [system, user message] |
| Ai.BuildPrompt | src/lib/ai.ts:22-41 | the array built in place equals context + final user entry |
| Ai.GenerateBotResponse | src/lib/ai.ts:10-48 | a missing bot fails with `Bot not found` before any model call; otherwise the model is asked with the prompt and its outcome is returned |
| ChatPy.RowId | api/chat.py:65 | a row id is the role, an underscore, then the timestamp |
| ChatPy.RowIdsDiffer | api/chat.py:65 | two roles, the shorter not a prefix of the longer, never give the same row id whatever the timestamps, so a user row and an assistant row never collide |
| ChatPy.SaveConversation | api/chat.py:46-57 | insert only when no row has the id: the table becomes the ensured table |
| ChatPy.SaveMessage | api/chat.py:60-72 | appends one row named by role and timestamp |
| ChatPy.BuildContext | api/chat.py:106-115 | the `+=`-then-append list equals the specified context |
| ChatPy.SaveInbound | api/chat.py:96-103 | the conversation table becomes the ensured table and the message table gains exactly the inbound rows; the assistant row id stays free |
| ChatPy.SaveReply | api/chat.py:117-138 | the message table gains exactly the outbound rows, the answer is the text frame on success and 500 with the error on failure |
| ChatPy.DoPost | api/chat.py:75-138 | the handler's effect is exactly `Pipeline.Run` with the Python row ids: same 404, persistence and failure rules as the TypeScript route |
| Backend.TextFrames | backend/index.py:69-72 | definition: one `0:` frame per non-empty chunk, in order |
| Backend.Frames | backend/index.py:66-76 | definition: the text frames, then one `3:` frame when the stream fails |
| Backend.TextFramesFollowChunks | backend/index.py:69-72 | one `0:` frame per non-empty chunk, in arrival order, and no other text frame |
| Backend.ErrorFrameLast | backend/index.py:68-76 | a failing stream yields its text frames and then exactly one `3:` error frame, last |
| Backend.BuildMessages | backend/index.py:47-64 | the list equals the specified context with the knowledge separator |
| Backend.Generate | backend/index.py:66-76 | the generator loop yields exactly the specified frames |
| Backend.ChatEndpoint | backend/index.py:34-78 | unknown bot: 404 `Bot not found` and no model call; otherwise the model is asked with the context and the reply streams the frames |
| Telegram.IncomingText | src/app/api/webhooks/telegram/route.ts:24-26 | definition: the text of an update that has a message with non-empty text, otherwise none |
| Telegram.Status | src/app/api/webhooks/telegram/route.ts:10-50 | the status is 200, 400, 404 or 500; 400 iff no botId; 404 iff the bot is missing or has no token |
| Telegram.AcknowledgedOnceReadable | src/app/api/webhooks/telegram/route.ts:22-46 | for a configured bot the answer is 200 `OK` iff the body is readable and a text message has a chat, whatever generation or sending does |
| Telegram.Post | src/app/api/webhooks/telegram/route.ts:5-51 | the response is the status chain; the model is asked only on 200 with a text, with that text alone and empty history; the reply goes to the incoming chat with the bot's token; nothing is stored |
| BotActions.NewBot | src/lib/actions/bot.ts:22-29 | the new bot belongs to the session user, its colour is the given one or the default `#3b82f6`, never empty |
| BotActions.CreateBot | src/lib/actions/bot.ts:14-33 | no session: `Unauthorized` and nothing changes; otherwise exactly the new bot is appended |
| BotActions.OwnedNewestFirst | src/lib/actions/bot.ts:39-42 | definition: the user's bots, newest first; see `OwnedNewestFirstScoped` |
| BotActions.OwnedNewestFirstScoped | src/lib/actions/bot.ts:39-42 | the list holds every bot of the user and no other, in descending creation time |
| BotActions.CreatedBotListedFirst | src/lib/actions/bot.ts:22-42 | a bot just created heads its owner's list, in front of the previous list |
| BotActions.GetBots | src/lib/actions/bot.ts:35-43 | no session yields []; otherwise the user's bots newest first |
| BotActions.FindOwned | src/lib/actions/bot.ts:49-52 | a found bot has the id and belongs to the user; none means the user owns no bot with that id |
| BotActions.OwnerScoped | src/lib/actions/bot.ts:49-52 | the owner-scoped lookup finds the bot with that id exactly when it is the user's, and never another user's |
| BotActions.GetBotById | src/lib/actions/bot.ts:45-53 | `Unauthorized` iff no session; a bot is returned iff the user owns it, with exactly its documents |
| BotActions.GetPublicBotById | src/lib/actions/bot.ts:55-64 | without a session, a result iff the bot exists, holding only its id, name and colour |
| BotActions.Apply | src/lib/actions/bot.ts:70-73 | an update keeps the bot's id, owner and creation time |
| BotActions.ApplyIdempotent | src/lib/actions/bot.ts:70-73 | an empty form changes nothing; the same form twice equals it once |
| BotActions.Patched | src/lib/actions/bot.ts:70-73 | definition: the bot table with the row that has the id and the owner replaced by the applied patch; see `PatchedScoped` |
| BotActions.PatchedScoped | src/lib/actions/bot.ts:70-73 | a user who does not own the id changes no row; an owner changes exactly that one row |
| BotActions.UpdateBot | src/lib/actions/bot.ts:66-78 | no session: `Unauthorized`; not the user's bot: store error and nothing changes; otherwise the patched table and bot |
| BotActions.DeleteScoped | src/lib/actions/bot.ts:84-86 | deleting the user's bot removes it and keeps every other bot, all other users' included |
| BotActions.DeleteBot | src/lib/actions/bot.ts:80-89 | no session or not the user's bot: an error and nothing changes; otherwise the cascade |
| BotActions.Attach | src/lib/actions/bot.ts:91-104 | the document is added iff there is a session and some bot has the id |
| BotActions.AttachIgnoresOwner | src/lib/actions/bot.ts:91-100 | a user who does not own the bot still adds the document, and it reaches that bot's prompt |
| BotActions.OwnedAttach | src/lib/actions/bot.ts:91-100 | the scoped version adds the document iff the session user owns the bot |
| BotActions.OwnedAttachRefines | src/lib/actions/bot.ts:91-100 | the scoped version agrees with the action on owned bots and refuses exactly the foreign ones |
| BotActions.AddDocument | src/lib/actions/bot.ts:91-104 | the table and result are those of `Attach`: no owner check |
| BotActions.LatestMessage | src/lib/actions/bot.ts:118-121 | the conversation's last row in the log, with none of its rows after it; none when it has no rows |
| BotActions.Summaries | src/lib/actions/bot.ts:110-124 | every listed conversation is in the table, of a bot the user owns, with that bot's name and colour and its latest message |
| BotActions.SummariesAreOwnedReversed | src/lib/actions/bot.ts:110-124 | the listed conversations are the user's conversations, table order reversed |
| BotActions.SummariesScoped | src/lib/actions/bot.ts:110-124 | all and only the user's conversations are listed, newest first |
| BotActions.GetConversations | src/lib/actions/bot.ts:106-125 | no session yields []; otherwise the summaries |
| AdminUsers.IsAdmin | src/app/api/admin/users/route.ts:10-14 | definition: some user row with the session's id has the stored role `ADMIN`; `VerifyAdmin` is proved against it |
| AdminUsers.FindUser | src/app/api/admin/users/route.ts:10-13 | lookup by id: a found user is in the table with that id; none means no user has it |
| AdminUsers.VerifyAdmin | src/app/api/admin/users/route.ts:7-15 | a session is returned iff its user's stored role is `ADMIN` |
| AdminUsers.RowOf | src/app/api/admin/users/route.ts:24-31 | a listing row keeps the user's id, name, email, role and creation time, and its bot count is the number of bots that user owns |
| AdminUsers.Rows | src/app/api/admin/users/route.ts:23-34 | definition: one row per user, newest first; see `RowsNewestFirst` |
| AdminUsers.RowsNewestFirst | src/app/api/admin/users/route.ts:23-34 | every user is listed, newest first, each with the number of bots that user owns |
| AdminUsers.Get | src/app/api/admin/users/route.ts:18-40 | 403 `Forbidden` iff the caller is not an admin; otherwise the listing |
| AdminUsers.DisplayName | src/app/api/admin/users/route.ts:56 | the name is the given one, or `User` when absent, never empty |
| AdminUsers.StoredRole | src/app/api/admin/users/route.ts:59-64 | definition: the requested role when one is given and differs from `USER`, otherwise the table's default `USER` |
| AdminUsers.ReportedRole | src/app/api/admin/users/route.ts:66-72 | definition: the requested role, or `USER` when none is given |
| AdminUsers.ReportedRoleIsStored | src/app/api/admin/users/route.ts:60-72 | the role in the response, `role` or `USER`, is always the role the user row ends up with |
| AdminUsers.SignUpError | src/app/api/admin/users/route.ts:77 | the error is the provider's message, or `Failed to create user` when it has none |
| AdminUsers.Post | src/app/api/admin/users/route.ts:43-80 | 403 for a non-admin, 400 for a missing email or password, 400 on a sign-up failure, all without change; otherwise 201 with one new user row with the reported role; the role update is issued iff a role other than `USER` is given |
| AdminUsers.CreatedUserListedFirst | src/app/api/admin/users/route.ts:23-34 | a newly created user heads the listing, in front of the previous listing |
| Proxy.Decide | src/proxy.ts:5-25 | definition: redirect to `/login` on a dashboard path without a session, to `/dashboard` on `/login` with one, otherwise pass; see `DecideIff` |
| Proxy.RedirectConditionsExclusive | src/proxy.ts:13-14 | no path is both the login page and a dashboard page |
| Proxy.DecideIff | src/proxy.ts:5-25 | redirect to login iff a dashboard path without session; to the dashboard iff `/login` with a session; otherwise pass through |
| Proxy.RedirectTargetsPass | src/proxy.ts:13-24 | the redirect targets themselves pass in the same session state: the guard never loops |
| DbUrl.ReplaceFirst | api/db.py:11 | definition of `str.replace` with count 1; see `ReplaceFirstLeftmost` and `ReplaceFirstAbsent` |
| DbUrl.Rewrite | api/db.py:9-11 | definition: a set, non-empty URL starting with the plain scheme has its first occurrence replaced; anything else is kept |
| DbUrl.ReplaceFirstLeftmost | api/db.py:11 | the leftmost occurrence is replaced and everything before and after it is kept |
| DbUrl.ReplaceFirstAbsent | api/db.py:11 | without an occurrence the string is unchanged |
| DbUrl.RewriteScheme | api/db.py:10-11 | a URL with the plain scheme gets the asyncpg scheme, the rest unchanged |
| DbUrl.RewriteOtherwiseUnchanged | api/db.py:10 | an unset URL or one with another scheme is left as it is |
| DbUrl.RewriteIdempotent | api/db.py:10-11 | the rewritten URL no longer has the plain scheme, so rewriting twice equals rewriting once |
| DbUrl.OnlyFirstOccurrence | api/db.py:11 | the plain scheme appearing twice is replaced once |

## Left out

- The language model (`llm.invoke`, `llm.astream`) is an input outcome: a
  text or an error message, or for streaming the chunks and an optional
  error. Non-string model content and its JSON re-encoding are not modelled.
- JSON encoding (`JSON.stringify`, `json.dumps`) is an uninterpreted
  function; escaping is not modelled.
- Request parsing: a body that is not JSON and messages lacking `role` or
  `content` in the chat handlers are not modelled. The same goes for a
  missing `botId` in the chat route, where the store rejects the query, and
  for an unreadable body in the admin route. The webhook's unreadable body
  is modelled.
- Ids and timestamps (`Date.now()`, `datetime.now()`, generated keys) are
  inputs, taken fresh; collisions of two `Date.now()` values are not
  modelled.
- The check-then-insert race on concurrent first contact is not modelled:
  each request runs alone.
- Store failures (connection errors, the asynchronous driver) are not
  modelled beyond the errors named below.
- The Prisma schema is not part of this model. The deletion cascade
  (documents, conversations, their messages) is assumed; the database
  schema that would declare it is not modelled. The default role `USER`
  follows src/lib/auth.ts.
- BotActions.UpdateBot: the action passes any object as the update. The
  model takes four optional fields: the three the edit form sends (name,
  prompt, colour) and the Telegram token, which the action accepts but no
  form sends. Writes to other columns, such as the owner or the id, are
  not modelled.
- BotActions.Apply: keeping the id, owner and creation time is a property of
  the four-field patch above; the action's untyped update could overwrite
  the owner, which the model does not capture.
- BotActions.UpdateBot, BotActions.DeleteBot, BotActions.AddDocument: the
  store's errors are modelled by kind, not by their exact text.
- BotActions.LatestMessage: messages carry no timestamp in the model. The
  latest is the last row in table order, which is creation order.
- AdminUsers.Get: the `emailVerified` column is not modelled.
- AdminUsers.Post: the provider's sign-up (password hashing, e-mail
  normalisation, duplicate rejection) is an input outcome. A failure of
  the role update after a successful sign-up is not modelled.
- `revalidatePath`, sessions and cookies (the session is an input), the
  outbound Telegram `fetch` and its result, CORS headers and the
  `OPTIONS` handlers are not modelled.
- Pipeline.RunOwned: the source has no answer for a foreign conversation; the
  refusal's status 403 and its text are a choice of this model.
- Store.DocumentsOf: the document queries (the chat routes, the AI helper,
  `getBotById`, the Python handler and the streaming backend) fix no order,
  so the order the store returns is unspecified. The model picks creation
  order; the claims that no document is dropped or repeated do not depend
  on it.
- Telegram.Post: a message whose `chat` is present but has no `id` is not
  modelled. The model answers 500 as for a missing `chat`, where the source
  would send with an undefined chat id and answer 200.
- Proxy.DecideIff: the route matcher that limits the guard to
  `/dashboard/...` and `/login` is not modelled. The guard is stated for
  every path.

## Findings

| source | as written | input that shows it | evidently intended | confidence | as-written member | corrected member |
|---|---|---|---|---|---|---|
| src/lib/actions/bot.ts:91-100 | `addDocument` checks only that a session exists; the store checks only that some bot has `botId` | user `mallory` signed in, calling with the id of a bot owned by `alice`: the document is added to alice's bot and enters its prompt | like every other action, only the owner's bots accept documents | medium, not executed | BotActions.AttachIgnoresOwner | BotActions.OwnedAttach |
| src/app/api/chat/route.ts:26-50 | the conversation is looked up by `chatId` alone and the user and assistant rows are appended to it whatever its `botId`; api/chat.py:46-57 does the same | a request for bot `B` with the `chatId` of a conversation of bot `A` and a last user message: both rows land in `A`'s conversation, which stays `A`'s | a request may only write to a conversation of the requested bot, so one naming another bot's conversation is refused | medium, not executed | Pipeline.ForeignConversationAccepted | Pipeline.RunOwned |

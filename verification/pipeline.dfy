/** The conversation pipeline shared by the widget chat route and by the
    serverless Python handler, stated as one pure function of the store
    before the request, the request, and the outcome of the model call:
    resolve the bot, ensure the conversation, persist the inbound user
    message, build the context, call the model, persist the reply, answer. */
module Pipeline {
  import opened Common
  import opened Assembly
  import opened Store

  /** The JSON body the widget posts. A missing `chatId` is "", a missing
      `messages` array is []. */
  datatype ChatRequest = ChatRequest(botId: string, chatId: string, messages: seq<ChatMsg>)

  /** The observable result of one request: the two tables the pipeline
      writes, the HTTP reply, and the instruction list the model was asked
      with (None when the model was not called). */
  datatype Effect = Effect(conversations: seq<Conversation>, messages: seq<Message>,
                           response: Response, asked: Option<seq<AiMsg>>)

  const BotNotFound: Response := Response(404, ErrorJson("Bot not found"))

  /** Check-then-insert of the conversation row. */
  function Ensured(conversations: seq<Conversation>, chatId: string, botId: string, now: int): seq<Conversation> {
    if HasConversation(conversations, chatId) then conversations
    else conversations + [Conversation(chatId, botId, now)]
  }

  /** The content of the last request message, when that message is a user turn. */
  function LastUserContent(messages: seq<ChatMsg>): Option<string> {
    if |messages| > 0 && messages[|messages| - 1].role == "user" then Some(messages[|messages| - 1].content)
    else None
  }

  /** The rows the pipeline appends to the message table before the model call. */
  function InboundRows(chatId: string, messages: seq<ChatMsg>, id: string): seq<Message> {
    if Truthy(chatId) && LastUserContent(messages).Some? then
      [Message(id, chatId, "user", LastUserContent(messages).value)]
    else []
  }

  /** The rows the pipeline appends to the message table after the model call. */
  function OutboundRows(chatId: string, outcome: Completion, id: string): seq<Message> {
    if Truthy(chatId) && outcome.Completed? then [Message(id, chatId, "assistant", outcome.text)]
    else []
  }

  /** The reply once the bot is known: one Vercel AI SDK text frame, or 500. */
  function Reply(outcome: Completion, encode: string -> string): Response {
    match outcome
    case Completed(text) => Response(200, PlainText("0:" + encode(text) + "\n"))
    case Failed(message) => Response(500, ErrorJson(message))
  }

  function Run(bots: seq<Bot>, documents: seq<Document>, conversations: seq<Conversation>,
               messages: seq<Message>, req: ChatRequest, outcome: Completion,
               encode: string -> string, now: int, userMessageId: string, replyId: string): Effect
  {
    match FindBot(bots, req.botId)
    case None => Effect(conversations, messages, BotNotFound, None)
    case Some(bot) =>
      Effect(
        if Truthy(req.chatId) then Ensured(conversations, req.chatId, bot.id, now) else conversations,
        messages + InboundRows(req.chatId, req.messages, userMessageId) + OutboundRows(req.chatId, outcome, replyId),
        Reply(outcome, encode),
        Some(Context(bot.systemPrompt, DocumentsOf(documents, bot.id), ContextSeparator, req.messages)))
  }

  /** The effect of a request whose bot is found, written out. */
  lemma RunFound(bots: seq<Bot>, documents: seq<Document>, conversations: seq<Conversation>,
                 messages: seq<Message>, req: ChatRequest, outcome: Completion,
                 encode: string -> string, now: int, userMessageId: string, replyId: string, bot: Bot)
    requires FindBot(bots, req.botId) == Some(bot)
    ensures var e := Run(bots, documents, conversations, messages, req, outcome, encode, now, userMessageId, replyId);
      && e.conversations == (if Truthy(req.chatId) then Ensured(conversations, req.chatId, bot.id, now) else conversations)
      && e.messages == messages + InboundRows(req.chatId, req.messages, userMessageId) + OutboundRows(req.chatId, outcome, replyId)
      && e.response == Reply(outcome, encode)
      && e.asked == Some(Context(bot.systemPrompt, DocumentsOf(documents, bot.id), ContextSeparator, req.messages))
  {
  }

  /** Ensuring a conversation twice is ensuring it once: the second call is
      a no-op, whatever bot or time it is given. */
  lemma EnsuredIdempotent(conversations: seq<Conversation>, chatId: string, botId: string, now: int,
                          botId': string, now': int)
    ensures var once := Ensured(conversations, chatId, botId, now);
      Ensured(once, chatId, botId', now') == once
  {
    var c := Conversation(chatId, botId, now);
    if !HasConversation(conversations, chatId) {
      assert c in conversations + [c];
    }
  }

  /** After ensuring, exactly one conversation has the id (it exists and ids
      stay a primary key), and no existing row is changed or removed. */
  lemma EnsuredExactlyOne(conversations: seq<Conversation>, chatId: string, botId: string, now: int)
    requires Distinct(conversations, ConversationId)
    ensures var r := Ensured(conversations, chatId, botId, now);
      && HasConversation(r, chatId)
      && Distinct(r, ConversationId)
      && |r| >= |conversations| && r[..|conversations|] == conversations
      && (HasConversation(conversations, chatId) ==> r == conversations)
  {
    var c := Conversation(chatId, botId, now);
    if !HasConversation(conversations, chatId) {
      DistinctSnoc(conversations, c, ConversationId);
      assert c in conversations + [c];
    }
  }

  /** An unknown bot answers 404 and leaves both tables as they were, and
      the model is not called. */
  lemma UnknownBotChangesNothing(bots: seq<Bot>, documents: seq<Document>, conversations: seq<Conversation>,
                                 messages: seq<Message>, req: ChatRequest, outcome: Completion,
                                 encode: string -> string, now: int, userMessageId: string, replyId: string)
    requires !HasBot(bots, req.botId)
    ensures Run(bots, documents, conversations, messages, req, outcome, encode, now, userMessageId, replyId)
         == Effect(conversations, messages, Response(404, ErrorJson("Bot not found")), None)
  {
  }

  /** The message table only grows. A user row is among the new rows if and
      only if the request has a chat id, its messages are non-empty and the
      last one is a user turn; it is then the first new row, in that chat,
      with that message's content, whatever the model does afterwards. */
  lemma UserMessageIff(bots: seq<Bot>, documents: seq<Document>, conversations: seq<Conversation>,
                       messages: seq<Message>, req: ChatRequest, outcome: Completion,
                       encode: string -> string, now: int, userMessageId: string, replyId: string)
    requires HasBot(bots, req.botId)
    ensures var e := Run(bots, documents, conversations, messages, req, outcome, encode, now, userMessageId, replyId);
      && |e.messages| >= |messages| && e.messages[..|messages|] == messages
      && ((exists m :: m in e.messages[|messages|..] && m.role == "user") <==>
          (Truthy(req.chatId) && |req.messages| > 0 && req.messages[|req.messages| - 1].role == "user"))
    ensures Truthy(req.chatId) && |req.messages| > 0 && req.messages[|req.messages| - 1].role == "user" ==>
      var e := Run(bots, documents, conversations, messages, req, outcome, encode, now, userMessageId, replyId);
      |e.messages| > |messages| &&
      e.messages[|messages|] == Message(userMessageId, req.chatId, "user", req.messages[|req.messages| - 1].content)
  {
    var e := Run(bots, documents, conversations, messages, req, outcome, encode, now, userMessageId, replyId);
    var inbound := InboundRows(req.chatId, req.messages, userMessageId);
    var outbound := OutboundRows(req.chatId, outcome, replyId);
    assert e.messages == messages + (inbound + outbound);
    assert e.messages[|messages|..] == inbound + outbound;
    NewRowsUserIff(req.chatId, req.messages, outcome, userMessageId, replyId);
  }

  /** The rows one request appends hold a user turn exactly when the inbound
      rows are not empty, since the outbound row is an assistant turn. */
  lemma NewRowsUserIff(chatId: string, messages: seq<ChatMsg>, outcome: Completion, userMessageId: string, replyId: string)
    ensures var rows := InboundRows(chatId, messages, userMessageId) + OutboundRows(chatId, outcome, replyId);
      (exists m :: m in rows && m.role == "user") <==>
      (Truthy(chatId) && |messages| > 0 && messages[|messages| - 1].role == "user")
  {
    var inbound := InboundRows(chatId, messages, userMessageId);
    var outbound := OutboundRows(chatId, outcome, replyId);
    assert forall m :: m in outbound ==> m.role == "assistant";
    if |inbound| > 0 {
      assert inbound[0] in inbound + outbound;
    }
  }

  /** A failed model call answers 500 with the error's message and writes no
      assistant row; the user row written before the call stays. */
  lemma FailureKeepsUserMessage(bots: seq<Bot>, documents: seq<Document>, conversations: seq<Conversation>,
                                messages: seq<Message>, req: ChatRequest, error: string,
                                encode: string -> string, now: int, userMessageId: string, replyId: string)
    requires HasBot(bots, req.botId)
    ensures var e := Run(bots, documents, conversations, messages, req, Failed(error), encode, now, userMessageId, replyId);
      && e.response == Response(500, ErrorJson(error))
      && (forall m :: m in e.messages && m !in messages ==> m.role == "user")
      && e.messages == messages + InboundRows(req.chatId, req.messages, userMessageId)
  {
  }

  /** A successful call answers 200 with the reply as one `0:` frame and,
      when the request has a chat id, the reply is the last message of the
      log, an assistant turn in that conversation. */
  lemma SuccessStoresReplyLast(bots: seq<Bot>, documents: seq<Document>, conversations: seq<Conversation>,
                               messages: seq<Message>, req: ChatRequest, reply: string,
                               encode: string -> string, now: int, userMessageId: string, replyId: string)
    requires HasBot(bots, req.botId)
    ensures var e := Run(bots, documents, conversations, messages, req, Completed(reply), encode, now, userMessageId, replyId);
      && e.response == Response(200, PlainText("0:" + encode(reply) + "\n"))
      && (Truthy(req.chatId) ==>
            |e.messages| > 0 && e.messages[|e.messages| - 1] == Message(replyId, req.chatId, "assistant", reply)
            && HasConversation(e.conversations, req.chatId))
  {
    var bot := FindBot(bots, req.botId).value;
    if Truthy(req.chatId) && !HasConversation(conversations, req.chatId) {
      var c := Conversation(req.chatId, bot.id, now);
      assert c in conversations + [c];
    }
  }

  /** Two requests with the same chat id leave exactly one conversation with
      that id: the second does not add or overwrite one. */
  lemma RepeatedChatOneConversation(bots: seq<Bot>, documents: seq<Document>, conversations: seq<Conversation>,
                                    messages: seq<Message>, req: ChatRequest, req': ChatRequest,
                                    outcome: Completion, outcome': Completion, encode: string -> string,
                                    now: int, now': int, id1: string, id2: string, id3: string, id4: string)
    requires Distinct(conversations, ConversationId)
    requires HasBot(bots, req.botId) && Truthy(req.chatId) && req'.chatId == req.chatId
    ensures var first := Run(bots, documents, conversations, messages, req, outcome, encode, now, id1, id2);
      var second := Run(bots, documents, first.conversations, first.messages, req', outcome', encode, now', id3, id4);
      && second.conversations == first.conversations
      && HasConversation(second.conversations, req.chatId)
      && Distinct(second.conversations, ConversationId)
  {
    var bot := FindBot(bots, req.botId).value;
    EnsuredExactlyOne(conversations, req.chatId, bot.id, now);
    var first := Ensured(conversations, req.chatId, bot.id, now);
    match FindBot(bots, req'.botId)
    case None =>
    case Some(bot') =>
      EnsuredIdempotent(conversations, req.chatId, bot.id, now, bot'.id, now');
  }

  /** Without a chat id nothing is persisted: neither table changes, whether
      the bot exists or not and whatever the model does. */
  lemma NoChatIdPersistsNothing(bots: seq<Bot>, documents: seq<Document>, conversations: seq<Conversation>,
                                messages: seq<Message>, req: ChatRequest, outcome: Completion,
                                encode: string -> string, now: int, userMessageId: string, replyId: string)
    requires !Truthy(req.chatId)
    ensures var e := Run(bots, documents, conversations, messages, req, outcome, encode, now, userMessageId, replyId);
      e.conversations == conversations && e.messages == messages
  {
  }

  /** The conversation check looks at the id alone: a request for bot B
      that names the id of a conversation of bot A leaves that conversation
      with bot A and appends the new rows to it, so they land in a
      conversation that is not B's. */
  lemma ForeignConversationAccepted(bots: seq<Bot>, documents: seq<Document>, conversations: seq<Conversation>,
                                    messages: seq<Message>, req: ChatRequest, outcome: Completion,
                                    encode: string -> string, now: int, userMessageId: string, replyId: string,
                                    other: Conversation)
    requires Distinct(conversations, ConversationId)
    requires HasBot(bots, req.botId) && Truthy(req.chatId)
    requires other in conversations && other.id == req.chatId && other.botId != req.botId
    ensures var e := Run(bots, documents, conversations, messages, req, outcome, encode, now, userMessageId, replyId);
      && e.conversations == conversations
      && e.messages == messages + InboundRows(req.chatId, req.messages, userMessageId)
                                + OutboundRows(req.chatId, outcome, replyId)
      && (forall m :: m in e.messages[|messages|..] ==> m.conversationId == other.id)
      && !ConversationOf(e.conversations, req.chatId, req.botId)
  {
    var e := Run(bots, documents, conversations, messages, req, outcome, encode, now, userMessageId, replyId);
    assert e.messages[|messages|..] == InboundRows(req.chatId, req.messages, userMessageId)
                                       + OutboundRows(req.chatId, outcome, replyId);
    if ConversationOf(conversations, req.chatId, req.botId) {
      var c :| c in conversations && c.id == req.chatId && c.botId == req.botId;
      UniqueKey(conversations, ConversationId, c, other);
    }
  }

  /** The answer to a request whose chat id names another bot's conversation. */
  const ForeignConversation: Response := Response(403, ErrorJson("Conversation belongs to another bot"))

  /** The chat id names an existing conversation, and that conversation
      belongs to a bot other than `botId`. */
  predicate Foreign(conversations: seq<Conversation>, chatId: string, botId: string) {
    Truthy(chatId) && HasConversation(conversations, chatId) && !ConversationOf(conversations, chatId, botId)
  }

  /** The pipeline with the ownership check the conversation lookup lacks:
      a known bot's request naming another bot's conversation is refused
      before anything is written or the model is asked; every other request
      runs as before. Every row it appends lies in a conversation of the
      requested bot. */
  function RunOwned(bots: seq<Bot>, documents: seq<Document>, conversations: seq<Conversation>,
                    messages: seq<Message>, req: ChatRequest, outcome: Completion,
                    encode: string -> string, now: int, userMessageId: string, replyId: string): (e: Effect)
    ensures |e.messages| >= |messages| && e.messages[..|messages|] == messages
    ensures forall i :: |messages| <= i < |e.messages| ==>
      ConversationOf(e.conversations, e.messages[i].conversationId, req.botId)
  {
    if HasBot(bots, req.botId) && Foreign(conversations, req.chatId, req.botId) then
      Effect(conversations, messages, ForeignConversation, None)
    else
      RunStaysInBot(bots, documents, conversations, messages, req, outcome, encode, now, userMessageId, replyId);
      Run(bots, documents, conversations, messages, req, outcome, encode, now, userMessageId, replyId)
  }

  /** When the chat id is not another bot's, the rows the pipeline appends
      lie in a conversation of the requested bot. */
  lemma RunStaysInBot(bots: seq<Bot>, documents: seq<Document>, conversations: seq<Conversation>,
                      messages: seq<Message>, req: ChatRequest, outcome: Completion,
                      encode: string -> string, now: int, userMessageId: string, replyId: string)
    requires !(HasBot(bots, req.botId) && Foreign(conversations, req.chatId, req.botId))
    ensures var e := Run(bots, documents, conversations, messages, req, outcome, encode, now, userMessageId, replyId);
      && |e.messages| >= |messages| && e.messages[..|messages|] == messages
      && forall i :: |messages| <= i < |e.messages| ==>
           ConversationOf(e.conversations, e.messages[i].conversationId, req.botId)
  {
    var e := Run(bots, documents, conversations, messages, req, outcome, encode, now, userMessageId, replyId);
    match FindBot(bots, req.botId)
    case None =>
    case Some(bot) =>
      var rows := InboundRows(req.chatId, req.messages, userMessageId) + OutboundRows(req.chatId, outcome, replyId);
      assert e.messages == messages + rows;
      if Truthy(req.chatId) {
        var c := Conversation(req.chatId, bot.id, now);
        if !HasConversation(conversations, req.chatId) {
          assert c in e.conversations;
        }
        assert ConversationOf(e.conversations, req.chatId, req.botId);
        forall i | |messages| <= i < |e.messages|
          ensures e.messages[i].conversationId == req.chatId
        {
          assert e.messages[i] == rows[i - |messages|];
        }
      } else {
        assert rows == [];
      }
  }

  /** The checked pipeline refines the one as written: it differs only on
      requests naming another bot's conversation, which it refuses with no
      write and no model call. */
  lemma RunOwnedRefines(bots: seq<Bot>, documents: seq<Document>, conversations: seq<Conversation>,
                        messages: seq<Message>, req: ChatRequest, outcome: Completion,
                        encode: string -> string, now: int, userMessageId: string, replyId: string)
    ensures var owned := RunOwned(bots, documents, conversations, messages, req, outcome, encode, now, userMessageId, replyId);
      if HasBot(bots, req.botId) && Foreign(conversations, req.chatId, req.botId) then
        owned == Effect(conversations, messages, ForeignConversation, None)
      else
        owned == Run(bots, documents, conversations, messages, req, outcome, encode, now, userMessageId, replyId)
  {
  }
}

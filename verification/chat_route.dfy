/** The widget chat endpoint of the Next.js application (POST /api/chat). */
module ChatRoute {
  import opened Common
  import opened Assembly
  import opened Store
  import opened Pipeline

  /** The instruction list: a system entry holding the prompt, overwritten
      with prompt and context when the bot has documents, then the history
      loop. */
  method BuildContext(systemPrompt: string, documents: seq<string>, messages: seq<ChatMsg>)
    returns (aiMessages: seq<AiMsg>)
    ensures aiMessages == Context(systemPrompt, documents, ContextSeparator, messages)
  {
    aiMessages := [System(systemPrompt)];
    if |documents| > 0 {
      var context := Join(documents, "\n");
      aiMessages := aiMessages[0 := System(systemPrompt + "\n\nContext:\n" + context)];
    }
    aiMessages := AppendHistory(aiMessages, messages);
  }

  /** The writes before the model call: the conversation row is ensured and
      the last request message, when it is a user turn, is appended. The
      reply's row id stays free. */
  method SaveInbound(db: Database, req: ChatRequest, botId: string, now: int, userId: string, replyId: string)
    requires db.Valid() && db.NotAfter(now) && HasBot(db.bots, botId)
    requires !HasMessage(db.messages, userId) && !HasMessage(db.messages, replyId) && userId != replyId
    modifies db`conversations, db`messages
    ensures db.Valid()
    ensures db.conversations ==
      if Truthy(req.chatId) then Ensured(old(db.conversations), req.chatId, botId, now) else old(db.conversations)
    ensures db.messages == old(db.messages) + InboundRows(req.chatId, req.messages, userId)
    ensures Truthy(req.chatId) ==> HasConversation(db.conversations, req.chatId)
    ensures !HasMessage(db.messages, replyId)
  {
    if Truthy(req.chatId) {
      if !HasConversation(db.conversations, req.chatId) {
        db.InsertConversation(Conversation(req.chatId, botId, now));
      }
      assert HasConversation(db.conversations, req.chatId) by {
        EnsuredExactlyOne(old(db.conversations), req.chatId, botId, now);
      }
      if |req.messages| > 0 {
        var lastMsg := req.messages[|req.messages| - 1];
        if lastMsg.role == "user" {
          db.InsertMessage(Message(userId, req.chatId, "user", lastMsg.content));
        }
      }
    }
  }

  /** The writes and the answer after the model call: on success the reply
      is saved when there is a chat id and streamed as one text frame, on
      failure the error is sent with 500. */
  method SaveReply(db: Database, chatId: string, outcome: Completion, encode: string -> string, replyId: string)
    returns (response: Response)
    requires db.Valid() && (Truthy(chatId) ==> HasConversation(db.conversations, chatId))
    requires !HasMessage(db.messages, replyId)
    modifies db`messages
    ensures db.Valid()
    ensures db.messages == old(db.messages) + OutboundRows(chatId, outcome, replyId)
    ensures response == Reply(outcome, encode)
  {
    match outcome {
      case Failed(message) =>
        response := Response(500, ErrorJson(message));
      case Completed(aiResponse) =>
        if Truthy(chatId) {
          db.InsertMessage(Message(replyId, chatId, "assistant", aiResponse));
        }
        response := Response(200, PlainText("0:" + encode(aiResponse) + "\n"));
    }
  }

  /** One request. `outcome` is what the model call returns, `encode` is
      JSON.stringify on a string, `now` the database clock, and the two
      stamps the values of Date.now() that name the two message rows. */
  method Post(db: Database, req: ChatRequest, outcome: Completion, encode: string -> string,
              now: int, userStamp: string, replyStamp: string)
    returns (response: Response, asked: Option<seq<AiMsg>>)
    requires db.Valid() && db.NotAfter(now)
    requires !HasMessage(db.messages, "msg_" + userStamp) && !HasMessage(db.messages, "ai_" + replyStamp)
    modifies db`conversations, db`messages
    ensures db.Valid()
    ensures db.bots == old(db.bots) && db.documents == old(db.documents) && db.users == old(db.users)
    ensures var e := Run(old(db.bots), old(db.documents), old(db.conversations), old(db.messages), req,
                         outcome, encode, now, "msg_" + userStamp, "ai_" + replyStamp);
      db.conversations == e.conversations && db.messages == e.messages
      && response == e.response && asked == e.asked
  {
    var found := FindBot(db.bots, req.botId);
    if found.None? {
      return BotNotFound, None;
    }
    var bot := found.value;
    var userId := "msg_" + userStamp;
    var replyId := "ai_" + replyStamp;
    assert userId[0] != replyId[0];

    SaveInbound(db, req, bot.id, now, userId, replyId);
    RunFound(old(db.bots), old(db.documents), old(db.conversations), old(db.messages), req,
             outcome, encode, now, userId, replyId, bot);

    var prompt := BuildContext(bot.systemPrompt, DocumentsOf(db.documents, bot.id), req.messages);
    asked := Some(prompt);

    response := SaveReply(db, req.chatId, outcome, encode, replyId);
  }
}

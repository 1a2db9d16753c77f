/** The serverless Python twin of the widget chat endpoint. Its store calls
    are the two helpers `save_conversation` and `save_message`; its handler
    runs the same pipeline as the TypeScript route, with message ids built
    from the role and a timestamp. */
module ChatPy {
  import opened Common
  import opened Assembly
  import opened Store
  import opened Pipeline

  /** The id `save_message` gives a row: the role, an underscore, the timestamp. */
  function RowId(role: string, timestamp: string): (id: string)
    ensures |id| == |role| + 1 + |timestamp|
    ensures id[..|role|] == role && id[|role|] == '_' && id[|role| + 1..] == timestamp
  {
    role + "_" + timestamp
  }

  /** Two roles, the shorter of which is not a prefix of the longer, never
      name the same row, whatever the timestamps. */
  lemma RowIdsDiffer(role: string, role': string, timestamp: string, timestamp': string)
    requires |role| <= |role'| && role'[..|role|] != role
    ensures RowId(role, timestamp) != RowId(role', timestamp')
  {
    assert RowId(role', timestamp')[..|role|] == role'[..|role|];
  }

  /** `save_conversation`: insert the conversation row only when no row has
      that id, so repeating the call changes nothing. */
  method SaveConversation(db: Database, chatId: string, botId: string, now: int)
    requires db.Valid() && db.NotAfter(now) && HasBot(db.bots, botId)
    modifies db`conversations
    ensures db.Valid()
    ensures db.conversations == Ensured(old(db.conversations), chatId, botId, now)
  {
    if !HasConversation(db.conversations, chatId) {
      db.InsertConversation(Conversation(chatId, botId, now));
    }
  }

  /** `save_message`: append one row named by role and timestamp. */
  method SaveMessage(db: Database, chatId: string, role: string, content: string, timestamp: string)
    requires db.Valid() && HasConversation(db.conversations, chatId)
    requires !HasMessage(db.messages, RowId(role, timestamp))
    modifies db`messages
    ensures db.Valid()
    ensures db.messages == old(db.messages) + [Message(RowId(role, timestamp), chatId, role, content)]
  {
    db.InsertMessage(Message(RowId(role, timestamp), chatId, role, content));
  }

  /** The instruction list: the system entry's content is extended in place
      with the context when documents exist, then the history loop. */
  method BuildContext(systemPrompt: string, documents: seq<string>, messages: seq<ChatMsg>)
    returns (aiMessages: seq<AiMsg>)
    ensures aiMessages == Context(systemPrompt, documents, ContextSeparator, messages)
  {
    var content := systemPrompt;
    if |documents| > 0 {
      var context := Join(documents, "\n");
      content := content + "\n\nContext:\n" + context;
    }
    aiMessages := AppendHistory([System(content)], messages);
  }

  /** The writes before the model call: `save_conversation` when there is a
      chat id, then `save_message` for a last message that is a user turn.
      The reply's row id stays free. */
  method SaveInbound(db: Database, req: ChatRequest, now: int, userStamp: string, replyStamp: string)
    requires db.Valid() && db.NotAfter(now) && HasBot(db.bots, req.botId)
    requires !HasMessage(db.messages, RowId("user", userStamp))
    requires !HasMessage(db.messages, RowId("assistant", replyStamp))
    modifies db`conversations, db`messages
    ensures db.Valid()
    ensures db.conversations ==
      if Truthy(req.chatId) then Ensured(old(db.conversations), req.chatId, req.botId, now) else old(db.conversations)
    ensures db.messages == old(db.messages) + InboundRows(req.chatId, req.messages, RowId("user", userStamp))
    ensures Truthy(req.chatId) ==> HasConversation(db.conversations, req.chatId)
    ensures !HasMessage(db.messages, RowId("assistant", replyStamp))
  {
    // "user" and "assistant" differ at their first letter, so neither
    // prefixes the other and the two row ids cannot collide.
    assert "assistant"[..4][0] != "user"[0];
    RowIdsDiffer("user", "assistant", userStamp, replyStamp);
    if Truthy(req.chatId) {
      SaveConversation(db, req.chatId, req.botId, now);
      assert HasConversation(db.conversations, req.chatId) by {
        EnsuredExactlyOne(old(db.conversations), req.chatId, req.botId, now);
      }
      if |req.messages| > 0 {
        var lastMsg := req.messages[|req.messages| - 1];
        if lastMsg.role == "user" {
          SaveMessage(db, req.chatId, "user", lastMsg.content, userStamp);
        }
      }
    }
  }

  /** The writes and the answer after the model call: on success the reply
      is saved when there is a chat id and sent as one text frame, on
      failure the error is sent with 500. */
  method SaveReply(db: Database, chatId: string, outcome: Completion, encode: string -> string, replyStamp: string)
    returns (response: Response)
    requires db.Valid() && (Truthy(chatId) ==> HasConversation(db.conversations, chatId))
    requires !HasMessage(db.messages, RowId("assistant", replyStamp))
    modifies db`messages
    ensures db.Valid()
    ensures db.messages == old(db.messages) + OutboundRows(chatId, outcome, RowId("assistant", replyStamp))
    ensures response == Reply(outcome, encode)
  {
    match outcome {
      case Failed(message) =>
        response := Response(500, ErrorJson(message));
      case Completed(aiResponse) =>
        if Truthy(chatId) {
          SaveMessage(db, chatId, "assistant", aiResponse, replyStamp);
        }
        response := Response(200, PlainText("0:" + encode(aiResponse) + "\n"));
    }
  }

  /** `do_POST`. `userStamp` and `replyStamp` are the two timestamps
      `save_message` reads. */
  method DoPost(db: Database, req: ChatRequest, outcome: Completion, encode: string -> string,
                now: int, userStamp: string, replyStamp: string)
    returns (response: Response, asked: Option<seq<AiMsg>>)
    requires db.Valid() && db.NotAfter(now)
    requires !HasMessage(db.messages, RowId("user", userStamp))
    requires !HasMessage(db.messages, RowId("assistant", replyStamp))
    modifies db`conversations, db`messages
    ensures db.Valid()
    ensures db.bots == old(db.bots) && db.documents == old(db.documents) && db.users == old(db.users)
    ensures var e := Run(old(db.bots), old(db.documents), old(db.conversations), old(db.messages), req,
                         outcome, encode, now, RowId("user", userStamp), RowId("assistant", replyStamp));
      db.conversations == e.conversations && db.messages == e.messages
      && response == e.response && asked == e.asked
  {
    var found := FindBot(db.bots, req.botId);
    if found.None? {
      return BotNotFound, None;
    }
    var bot := found.value;
    var documents := DocumentsOf(db.documents, req.botId);
    assert bot.id == req.botId;
    SaveInbound(db, req, now, userStamp, replyStamp);
    RunFound(old(db.bots), old(db.documents), old(db.conversations), old(db.messages), req,
             outcome, encode, now, RowId("user", userStamp), RowId("assistant", replyStamp), bot);

    var prompt := BuildContext(bot.systemPrompt, documents, req.messages);
    asked := Some(prompt);

    response := SaveReply(db, req.chatId, outcome, encode, replyStamp);
  }
}

/** The Telegram webhook (POST /api/webhooks/telegram?botId=...). It answers
    400, 404 or 500 for a malformed call and otherwise always acknowledges
    with 200 'OK': generation and sending failures are swallowed. It
    persists nothing, and it asks the model with the incoming text alone. */
module Telegram {
  import opened Common
  import opened Assembly
  import opened Store
  import Ai

  /** `update.message`: its text ("" when absent) and its chat id (None when
      `message.chat` is absent; a chat without an id is not modelled). */
  datatype TgMessage = TgMessage(text: string, chatId: Option<int>)

  /** The request body: unreadable (invalid JSON, or the JSON value null),
      or an update with or without a message. */
  datatype Payload = Unreadable | Update(message: Option<TgMessage>)

  /** The body of the outbound `sendMessage` call. */
  datatype Outbound = SendMessage(token: string, chatId: int, text: string)

  const MissingBotId: Response := Response(400, PlainText("Missing botId"))
  const NotConfigured: Response := Response(404, PlainText("Bot not found or not configured for Telegram"))
  const InternalError: Response := Response(500, PlainText("Internal Error"))
  const Acknowledged: Response := Response(200, PlainText("OK"))

  /** The incoming text when the update carries one. */
  function IncomingText(payload: Payload): Option<string> {
    if payload.Update? && payload.message.Some? && Truthy(payload.message.value.text)
    then Some(payload.message.value.text) else None
  }

  /** The status decision, with the bot as the store returned it. */
  function Status(botId: string, bot: Option<Bot>, payload: Payload): (r: Response)
    ensures r.status in {200, 400, 404, 500}
    ensures r.status == 400 <==> !Truthy(botId)
    ensures r.status == 404 <==> Truthy(botId) && (bot.None? || !Truthy(bot.value.telegramBotToken))
  {
    if !Truthy(botId) then MissingBotId
    else if bot.None? || !Truthy(bot.value.telegramBotToken) then NotConfigured
    else if payload.Unreadable? then InternalError
    else if IncomingText(payload).Some? && payload.message.value.chatId.None? then InternalError
    else Acknowledged
  }

  /** Once the bot is configured and the update is readable, the answer is
      200 'OK' whatever happens to generation or sending; the only 500s are a
      body that cannot be read and a text message without a chat. */
  lemma AcknowledgedOnceReadable(botId: string, bot: Bot, payload: Payload)
    requires Truthy(botId) && Truthy(bot.telegramBotToken)
    ensures Status(botId, Some(bot), payload) == Acknowledged <==>
      payload.Update? && (IncomingText(payload).None? || payload.message.value.chatId.Some?)
  {
  }

  /** `POST`. `outcome` is what the model returns if it is asked. The reply
      is sent to the chat the message came from, with the generated text;
      the result of the send itself changes nothing and is not an input. */
  method Post(db: Database, botId: string, payload: Payload, outcome: Completion)
    returns (response: Response, asked: Option<seq<AiMsg>>, sent: Option<Outbound>)
    ensures response == Status(botId, if Truthy(botId) then FindBot(db.bots, botId) else None, payload)
    ensures asked.Some? <==> response == Acknowledged && IncomingText(payload).Some?
    ensures asked.Some? ==>
      var bot := FindBot(db.bots, botId).value;
      asked.value == Ai.Prompt(bot.systemPrompt, DocumentsOf(db.documents, bot.id), [], IncomingText(payload).value)
    ensures sent.Some? <==> asked.Some? && outcome.Completed?
    ensures sent.Some? ==>
      && sent.value.chatId == payload.message.value.chatId.value
      && sent.value.text == outcome.text
      && sent.value.token == FindBot(db.bots, botId).value.telegramBotToken
  {
    asked, sent := None, None;
    if !Truthy(botId) {
      return MissingBotId, None, None;
    }
    var found := FindBot(db.bots, botId);
    if found.None? || !Truthy(found.value.telegramBotToken) {
      return NotConfigured, None, None;
    }
    var bot := found.value;
    if payload.Unreadable? {
      return InternalError, None, None;
    }
    if payload.message.Some? && Truthy(payload.message.value.text) {
      if payload.message.value.chatId.None? {
        return InternalError, None, None;
      }
      var chatId := payload.message.value.chatId.value;
      var userMessage := payload.message.value.text;
      var aiResponse;
      aiResponse, asked := Ai.GenerateBotResponse(db, bot.id, userMessage, [], outcome);
      if aiResponse.Completed? {
        sent := Some(SendMessage(bot.telegramBotToken, chatId, aiResponse.text));
      }
    }
    response := Acknowledged;
  }
}

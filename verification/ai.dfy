/** The shared generation helper `generateBotResponse`: it looks the bot up,
    assembles the instruction list from the bot, its documents, an optional
    history and the new user message, and calls the model. */
module Ai {
  import opened Common
  import opened Assembly
  import opened Store

  /** The instruction list of the helper: the assembled context followed by
      the new user message. */
  function Prompt(systemPrompt: string, documents: seq<string>, history: seq<ChatMsg>,
                  userMessage: string): seq<AiMsg>
  {
    Context(systemPrompt, documents, ContextSeparator, history) + [Human(userMessage)]
  }

  /** The last entry is always the new user message, and the system entry
      stays first; with no documents it is the prompt itself. */
  lemma PromptEndsWithUserMessage(systemPrompt: string, documents: seq<string>, history: seq<ChatMsg>,
                                  userMessage: string)
    ensures var p := Prompt(systemPrompt, documents, history, userMessage);
      && |p| == 2 + |Filter(history, Kept)|
      && p[|p| - 1] == Human(userMessage)
      && p[0] == System(SystemContent(systemPrompt, documents, ContextSeparator))
      && (|documents| == 0 ==> p[0] == System(systemPrompt))
      && forall i :: 1 <= i < |p| ==> !p[i].System?
  {
    ContextShape(systemPrompt, documents, ContextSeparator, history);
  }

  /** With the default empty history the list is exactly the system entry
      and the user message. */
  lemma EmptyHistoryPrompt(systemPrompt: string, documents: seq<string>, userMessage: string)
    ensures Prompt(systemPrompt, documents, [], userMessage)
         == [System(SystemContent(systemPrompt, documents, ContextSeparator)), Human(userMessage)]
  {
  }

  /** The list as the helper builds it: index 0 overwritten when documents
      exist, the history loop, then a final push of the user message. */
  method BuildPrompt(systemPrompt: string, documents: seq<string>, history: seq<ChatMsg>, userMessage: string)
    returns (aiMessages: seq<AiMsg>)
    ensures aiMessages == Prompt(systemPrompt, documents, history, userMessage)
  {
    aiMessages := [System(systemPrompt)];
    if |documents| > 0 {
      var context := Join(documents, "\n");
      aiMessages := aiMessages[0 := System(systemPrompt + "\n\nContext:\n" + context)];
    }
    aiMessages := AppendHistory(aiMessages, history);
    aiMessages := aiMessages + [Human(userMessage)];
  }

  /** `generateBotResponse`. `outcome` is what the model returns when it is
      called. A missing bot raises 'Bot not found' and the model is never
      asked; otherwise the model is asked with the prompt and its outcome is
      the helper's. */
  method GenerateBotResponse(db: Database, botId: string, userMessage: string, history: seq<ChatMsg>,
                             outcome: Completion)
    returns (result: Completion, asked: Option<seq<AiMsg>>)
    ensures !HasBot(db.bots, botId) ==> result == Failed("Bot not found") && asked == None
    ensures HasBot(db.bots, botId) ==>
      && result == outcome
      && asked == Some(Prompt(FindBot(db.bots, botId).value.systemPrompt,
                              DocumentsOf(db.documents, botId), history, userMessage))
  {
    var found := FindBot(db.bots, botId);
    if found.None? {
      return Failed("Bot not found"), None;
    }
    var bot := found.value;
    var aiMessages := BuildPrompt(bot.systemPrompt, DocumentsOf(db.documents, bot.id), history, userMessage);
    asked := Some(aiMessages);
    result := outcome;
  }
}

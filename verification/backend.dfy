/** The FastAPI chat endpoint: the same assembly with its own separator, and
    a generator that turns the model's token stream into Vercel AI SDK data
    stream frames. It persists nothing. */
module Backend {
  import opened Common
  import opened Assembly
  import opened Store

  /** What the model's stream delivers: the chunks that arrived, then either
      a normal end (None) or an exception with its text. */
  datatype ModelStream = ModelStream(chunks: seq<string>, error: Option<string>)

  /** The endpoint's answer: an HTTP error raised before streaming, or a
      streaming response and the frames it yields. */
  datatype Reply = HttpError(status: int, detail: string) | Streaming(frames: seq<string>)

  function TextFrame(chunk: string, encode: string -> string): string {
    "0:" + encode(chunk) + "\n"
  }

  function ErrorFrame(error: string, encode: string -> string): string {
    "3:" + encode(error) + "\n"
  }

  /** The text frames for the chunks, chunk by chunk from the front; an
      empty chunk yields nothing. */
  function TextFrames(chunks: seq<string>, encode: string -> string): seq<string> {
    if |chunks| == 0 then []
    else
      var last := chunks[|chunks| - 1];
      TextFrames(chunks[..|chunks| - 1], encode) + (if last != "" then [TextFrame(last, encode)] else [])
  }

  /** Everything the generator yields for one stream. */
  function Frames(stream: ModelStream, encode: string -> string): seq<string> {
    TextFrames(stream.chunks, encode)
      + (if stream.error.Some? then [ErrorFrame(stream.error.value, encode)] else [])
  }

  predicate NonEmpty(chunk: string) {
    chunk != ""
  }

  /** Reference definition: one text frame per non-empty chunk, in the order
      the chunks arrived, and no other text frame. */
  lemma {:induction false} TextFramesFollowChunks(chunks: seq<string>, encode: string -> string)
    ensures var sent := Filter(chunks, NonEmpty);
      && |TextFrames(chunks, encode)| == |sent|
      && forall i :: 0 <= i < |sent| ==> TextFrames(chunks, encode)[i] == TextFrame(sent[i], encode)
  {
    if |chunks| > 0 {
      var init := chunks[..|chunks| - 1];
      var last := chunks[|chunks| - 1];
      assert chunks == init + [last];
      FilterAppend(init, [last], NonEmpty);
      assert [last][1..] == [];
      TextFramesFollowChunks(init, encode);
    }
  }

  /** A failing stream ends with exactly one error frame, after the text
      frames already sent; a stream without error yields only text frames. */
  lemma ErrorFrameLast(stream: ModelStream, encode: string -> string)
    ensures var f := Frames(stream, encode);
      var sent := Filter(stream.chunks, NonEmpty);
      && |f| == |sent| + (if stream.error.Some? then 1 else 0)
      && (forall i :: 0 <= i < |sent| ==> f[i] == TextFrame(sent[i], encode))
      && (stream.error.Some? ==> f[|f| - 1] == ErrorFrame(stream.error.value, encode))
  {
    TextFramesFollowChunks(stream.chunks, encode);
  }

  /** The prompt: the system content extended with the knowledge block when
      documents exist, appended first, then the history loop. */
  method BuildMessages(systemPrompt: string, documents: seq<string>, history: seq<ChatMsg>)
    returns (messages: seq<AiMsg>)
    ensures messages == Context(systemPrompt, documents, KnowledgeSeparator, history)
  {
    var systemContent := systemPrompt;
    if |documents| > 0 {
      var context := Join(documents, "\n");
      systemContent := systemContent
        + "\n\nUse the following information to answer user queries if relevant:\n" + context;
    }
    messages := AppendHistory([System(systemContent)], history);
  }

  /** The inner generator: a text frame per non-empty chunk as it arrives;
      on an exception, one error frame and the end of the stream. */
  method Generate(stream: ModelStream, encode: string -> string) returns (frames: seq<string>)
    ensures frames == Frames(stream, encode)
  {
    frames := [];
    var i := 0;
    while i < |stream.chunks|
      invariant 0 <= i <= |stream.chunks|
      invariant frames == TextFrames(stream.chunks[..i], encode)
    {
      var chunk := stream.chunks[i];
      assert stream.chunks[..i + 1][..i] == stream.chunks[..i];
      if chunk != "" {
        frames := frames + [TextFrame(chunk, encode)];
      }
      i := i + 1;
    }
    assert stream.chunks[..i] == stream.chunks;
    if stream.error.Some? {
      frames := frames + [ErrorFrame(stream.error.value, encode)];
    }
  }

  /** `chat_endpoint`: 404 when the bot is unknown and the model is not
      called; otherwise the model is asked with the assembled list and the
      response streams the generator's frames. */
  method ChatEndpoint(db: Database, botId: string, history: seq<ChatMsg>, stream: ModelStream,
                      encode: string -> string)
    returns (reply: Reply, asked: Option<seq<AiMsg>>)
    ensures !HasBot(db.bots, botId) ==> reply == HttpError(404, "Bot not found") && asked == None
    ensures HasBot(db.bots, botId) ==>
      && asked == Some(Context(FindBot(db.bots, botId).value.systemPrompt,
                               DocumentsOf(db.documents, botId), KnowledgeSeparator, history))
      && reply == Streaming(Frames(stream, encode))
  {
    var found := FindBot(db.bots, botId);
    if found.None? {
      return HttpError(404, "Bot not found"), None;
    }
    var bot := found.value;
    var messages := BuildMessages(bot.systemPrompt, DocumentsOf(db.documents, bot.id), history);
    asked := Some(messages);
    var frames := Generate(stream, encode);
    reply := Streaming(frames);
  }
}

/** The context assembler: the instruction list sent to the language model.
    It is built the same way by the widget chat route, by the shared
    generation helper and by the two Python servers: one system entry (the
    bot's system prompt, with the bot's documents appended after a separator
    when it has any), then the chat history mapped entry by entry, `user` to
    a human turn and `assistant` to an AI turn, other roles dropped. */
module Assembly {
  import opened Common

  /** One entry of the `messages` / `history` array a caller sends. */
  datatype ChatMsg = ChatMsg(role: string, content: string)

  /** One entry of the list given to the model: SystemMessage, HumanMessage
      or AIMessage. */
  datatype AiMsg = System(content: string) | Human(content: string) | AI(content: string)

  /** Separator of the TypeScript routes and of the serverless Python handler. */
  const ContextSeparator: string := "\n\nContext:\n"

  /** Separator of the FastAPI backend. */
  const KnowledgeSeparator: string :=
    "\n\nUse the following information to answer user queries if relevant:\n"

  /** The content of the single system entry. */
  function SystemContent(systemPrompt: string, documents: seq<string>, separator: string): string {
    if |documents| == 0 then systemPrompt
    else systemPrompt + separator + Join(documents, "\n")
  }

  /** A history entry the assembler keeps. */
  predicate Kept(m: ChatMsg) {
    m.role == "user" || m.role == "assistant"
  }

  /** The model entry a kept history entry becomes. */
  function Turn(m: ChatMsg): AiMsg
    requires Kept(m)
  {
    if m.role == "user" then Human(m.content) else AI(m.content)
  }

  /** What the history loop appends for one entry. */
  function Step(m: ChatMsg): seq<AiMsg> {
    if m.role == "user" then [Human(m.content)]
    else if m.role == "assistant" then [AI(m.content)]
    else []
  }

  /** What the history loop has appended after the whole history, entry by
      entry from the front. */
  function Converted(history: seq<ChatMsg>): seq<AiMsg> {
    if |history| == 0 then []
    else Converted(history[..|history| - 1]) + Step(history[|history| - 1])
  }

  /** The full instruction list without a trailing user message. */
  function Context(systemPrompt: string, documents: seq<string>, separator: string,
                   history: seq<ChatMsg>): seq<AiMsg>
  {
    [System(SystemContent(systemPrompt, documents, separator))] + Converted(history)
  }

  /** With no documents the system entry is the bot's prompt, untouched. */
  lemma NoDocumentsKeepsPrompt(systemPrompt: string, separator: string, history: seq<ChatMsg>)
    ensures Context(systemPrompt, [], separator, history)[0] == System(systemPrompt)
  {
  }

  /** With documents the system entry starts with the prompt and the
      separator, and document k sits at its own offset after them: every
      document appears, in order. */
  lemma DocumentAt(systemPrompt: string, documents: seq<string>, separator: string, k: nat)
    requires k < |documents|
    ensures var c := SystemContent(systemPrompt, documents, separator);
      var start := |systemPrompt| + |separator| + Offset(documents, "\n", k);
      && c[..|systemPrompt| + |separator|] == systemPrompt + separator
      && start + |documents[k]| <= |c|
      && c[start..start + |documents[k]|] == documents[k]
  {
    var head := systemPrompt + separator;
    var j := Join(documents, "\n");
    var c := SystemContent(systemPrompt, documents, separator);
    assert c == head + j;
    TakeLeft(head, j);
    JoinPartAfter(head, documents, "\n", k);
    assert |systemPrompt| + |separator| + Offset(documents, "\n", k) == |head| + Offset(documents, "\n", k);
  }

  /** With documents, a single newline follows every document but the last,
      and the last document ends the system entry: nothing is added. */
  lemma DocumentBoundary(systemPrompt: string, documents: seq<string>, separator: string, k: nat)
    requires k < |documents|
    ensures var c := SystemContent(systemPrompt, documents, separator);
      var end := |systemPrompt| + |separator| + Offset(documents, "\n", k) + |documents[k]|;
      && (k + 1 < |documents| ==> end + 1 <= |c| && c[end..end + 1] == "\n")
      && (k + 1 == |documents| ==> |c| == end)
  {
    var head := systemPrompt + separator;
    var j := Join(documents, "\n");
    var c := SystemContent(systemPrompt, documents, separator);
    assert c == head + j;
    if k + 1 < |documents| {
      JoinSeparatorAfter(head, documents, "\n", k);
    } else {
      JoinLength(documents, "\n");
    }
  }

  /** The history mapping is a homomorphism: the conversion of a
      concatenation is the concatenation of the conversions. */
  lemma {:induction false} ConvertedAppend(a: seq<ChatMsg>, b: seq<ChatMsg>)
    ensures Converted(a + b) == Converted(a) + Converted(b)
    decreases |b|
  {
    if |b| == 0 {
      assert a + b == a;
    } else {
      var b' := b[..|b| - 1];
      assert (a + b)[..|a + b| - 1] == a + b';
      ConvertedAppend(a, b');
    }
  }

  /** Reference definition: the history mapping keeps exactly the `user` and
      `assistant` entries, in their original order, and turns each into its
      model entry. */
  lemma {:induction false} ConvertedIsFilterThenMap(history: seq<ChatMsg>)
    ensures var kept := Filter(history, Kept);
      && |Converted(history)| == |kept|
      && forall i :: 0 <= i < |kept| ==> Kept(kept[i]) && Converted(history)[i] == Turn(kept[i])
  {
    if |history| > 0 {
      var h0 := history[0];
      var rest := history[1..];
      assert history == [h0] + rest;
      ConvertedAppend([h0], rest);
      assert [h0][..0] == [];
      assert Converted([h0]) == Step(h0);
      ConvertedIsFilterThenMap(rest);
      var kept := Filter(rest, Kept);
      if Kept(h0) {
        assert Filter(history, Kept) == [h0] + kept;
        assert Converted(history) == [Turn(h0)] + Converted(rest);
      } else {
        assert Filter(history, Kept) == kept;
        assert Converted(history) == Converted(rest);
      }
    }
  }

  /** The assembled list: exactly one system entry, first, followed by one
      human or AI entry per kept history entry. */
  lemma ContextShape(systemPrompt: string, documents: seq<string>, separator: string,
                     history: seq<ChatMsg>)
    ensures var ctx := Context(systemPrompt, documents, separator, history);
      && |ctx| == 1 + |Filter(history, Kept)|
      && ctx[0] == System(SystemContent(systemPrompt, documents, separator))
      && forall i :: 1 <= i < |ctx| ==> !ctx[i].System?
  {
    ConvertedIsFilterThenMap(history);
  }

  /** The history loop of every assembler: push one entry per kept message
      onto the list built so far. */
  method AppendHistory(init: seq<AiMsg>, history: seq<ChatMsg>) returns (msgs: seq<AiMsg>)
    ensures msgs == init + Converted(history)
  {
    msgs := init;
    var i := 0;
    while i < |history|
      invariant 0 <= i <= |history|
      invariant msgs == init + Converted(history[..i])
    {
      var m := history[i];
      assert history[..i + 1][..i] == history[..i];
      if m.role == "user" {
        msgs := msgs + [Human(m.content)];
      } else if m.role == "assistant" {
        msgs := msgs + [AI(m.content)];
      }
      i := i + 1;
    }
    assert history[..i] == history;
  }
}

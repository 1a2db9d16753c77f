/** The dashboard's server actions over the bot and document tables. Every
    action takes the session as an input (the signed-in user's id, or None),
    and every read and write of a bot is scoped to that user, except that
    adding a document checks only that some bot has the id. */
module BotActions {
  import opened Common
  import opened Store

  const Unauthorized := "Unauthorized"
  const DefaultColor := "#3b82f6"
  /** The store's error when no row matches both the id and the owner. */
  const RecordNotFound := "Record not found"
  /** The store's error when a document names a bot that does not exist. */
  const ForeignKeyViolation := "Foreign key constraint failed"

  /** The fields the edit form submits; an absent field is left as it is. */
  datatype BotPatch = BotPatch(name: Option<string>, systemPrompt: Option<string>,
                               primaryColor: Option<string>, telegramBotToken: Option<string>)

  /** A bot together with its documents. */
  datatype BotDetail = BotDetail(bot: Bot, documents: seq<Document>)

  /** The only fields the widget may see without a session. */
  datatype PublicBot = PublicBot(id: string, name: string, primaryColor: string)

  /** One row of the conversation list: the conversation, its bot's name and
      colour, and its latest message if it has one. */
  datatype ConversationSummary =
    ConversationSummary(conversation: Conversation, botName: string, botColor: string, latest: Option<Message>)

  /** Whether the bot with that id belongs to the user. */
  predicate Owns(bots: seq<Bot>, id: string, owner: string) {
    exists b :: b in bots && b.id == id && b.userId == owner
  }

  function OwnerIs(owner: string): Bot -> bool {
    (b: Bot) => b.userId == owner
  }

  /** The row `createBot` inserts: the session user owns it, an empty
      colour falls back to the default, and no Telegram token is set. */
  function NewBot(id: string, name: string, systemPrompt: string, primaryColor: string,
                  owner: string, now: int): (b: Bot)
    ensures b.id == id && b.name == name && b.systemPrompt == systemPrompt
    ensures b.userId == owner && b.createdAt == now && !Truthy(b.telegramBotToken)
    ensures Truthy(b.primaryColor)
    ensures Truthy(primaryColor) ==> b.primaryColor == primaryColor
    ensures !Truthy(primaryColor) ==> b.primaryColor == DefaultColor
  {
    Bot(id, name, systemPrompt, if Truthy(primaryColor) then primaryColor else DefaultColor, "", owner, now)
  }

  /** `createBot`. `id` and `now` are the values the store generates. */
  method CreateBot(db: Database, session: Option<string>, id: string, name: string, systemPrompt: string,
                   primaryColor: string, now: int)
    returns (r: Result<Bot>)
    requires db.Valid() && db.NotAfter(now) && !HasBot(db.bots, id)
    modifies db`bots
    ensures db.Valid()
    ensures session.None? ==> r == Err(Unauthorized) && db.bots == old(db.bots)
    ensures session.Some? ==>
      && r == Ok(NewBot(id, name, systemPrompt, primaryColor, session.value, now))
      && db.bots == old(db.bots) + [r.value]
  {
    if session.None? {
      return Err(Unauthorized);
    }
    var bot := NewBot(id, name, systemPrompt, primaryColor, session.value, now);
    db.InsertBot(bot);
    r := Ok(bot);
  }

  /** `getBots` for a signed-in user: that user's bots, newest first. */
  function OwnedNewestFirst(bots: seq<Bot>, owner: string): seq<Bot> {
    Reverse(Filter(bots, OwnerIs(owner)))
  }

  /** The list holds every bot of the user and no other, newest first. */
  lemma OwnedNewestFirstScoped(bots: seq<Bot>, owner: string)
    requires Ascending(bots, BotCreated)
    ensures forall b :: b in OwnedNewestFirst(bots, owner) <==> b in bots && b.userId == owner
    ensures Descending(OwnedNewestFirst(bots, owner), BotCreated)
  {
    var owned := Filter(bots, OwnerIs(owner));
    forall b ensures b in Reverse(owned) <==> b in bots && b.userId == owner {
      ReverseMembers(owned, b);
      if b in bots && b.userId == owner {
        FilterKeeps(bots, OwnerIs(owner), b);
      }
    }
    FilterAscending(bots, OwnerIs(owner), BotCreated);
    ReverseAscending(owned, BotCreated);
  }

  /** A bot just created heads its owner's list, in front of the list as it
      was before. */
  lemma {:induction false} CreatedBotListedFirst(bots: seq<Bot>, b: Bot)
    ensures OwnedNewestFirst(bots + [b], b.userId) == [b] + OwnedNewestFirst(bots, b.userId)
  {
    FilterAppend(bots, [b], OwnerIs(b.userId));
    assert [b][1..] == [];
    assert Filter([b], OwnerIs(b.userId)) == [b];
    ReverseAppend(Filter(bots, OwnerIs(b.userId)), [b]);
    assert Reverse([b]) == Reverse([b][1..]) + [b];
  }

  /** `getBots`: no session yields the empty list. */
  method GetBots(db: Database, session: Option<string>) returns (r: seq<Bot>)
    ensures session.None? ==> r == []
    ensures session.Some? ==> r == OwnedNewestFirst(db.bots, session.value)
  {
    if session.None? {
      return [];
    }
    r := OwnedNewestFirst(db.bots, session.value);
  }

  /** `findUnique({ where: { id, userId } })`: the bot with that id if it
      belongs to the user. */
  function FindOwned(bots: seq<Bot>, id: string, owner: string): (r: Option<Bot>)
    ensures r.Some? ==> r.value in bots && r.value.id == id && r.value.userId == owner
    ensures r.None? ==> !Owns(bots, id, owner)
  {
    if |bots| == 0 then None
    else if bots[0].id == id && bots[0].userId == owner then Some(bots[0])
    else FindOwned(bots[1..], id, owner)
  }

  /** Under the primary key, the owner-scoped lookup finds the same row as
      the lookup by id when that row is the user's, and nothing when it is
      someone else's. */
  lemma OwnerScoped(bots: seq<Bot>, id: string, owner: string)
    requires Distinct(bots, BotId)
    ensures FindOwned(bots, id, owner).Some? <==> FindBot(bots, id).Some? && FindBot(bots, id).value.userId == owner
    ensures FindOwned(bots, id, owner).Some? ==> FindOwned(bots, id, owner) == FindBot(bots, id)
  {
    var r := FindOwned(bots, id, owner);
    var f := FindBot(bots, id);
    if r.Some? {
      UniqueKey(bots, BotId, r.value, f.value);
    } else if f.Some? {
      assert !Owns(bots, id, owner);
    }
  }

  /** `getBotById`: the user's bot with its documents, or nothing when the
      user owns no bot with that id. */
  method GetBotById(db: Database, session: Option<string>, id: string) returns (r: Result<Option<BotDetail>>)
    ensures session.None? <==> r == Err(Unauthorized)
    ensures r.Ok? ==> (r.value.Some? <==> Owns(db.bots, id, session.value))
    ensures r.Ok? && r.value.Some? ==>
      && r.value.value.bot in db.bots
      && r.value.value.bot.id == id && r.value.value.bot.userId == session.value
      && r.value.value.documents == Attached(db.documents, id)
  {
    if session.None? {
      return Err(Unauthorized);
    }
    var found := FindOwned(db.bots, id, session.value);
    if found.None? {
      return Ok(None);
    }
    r := Ok(Some(BotDetail(found.value, Attached(db.documents, id))));
  }

  /** `getPublicBotById`: no session needed, and only the id, name and
      colour of the bot are exposed. */
  method GetPublicBotById(db: Database, id: string) returns (r: Option<PublicBot>)
    ensures r.Some? <==> HasBot(db.bots, id)
    ensures r.Some? ==> exists b :: b in db.bots && b.id == id && r.value == PublicBot(b.id, b.name, b.primaryColor)
  {
    var found := FindBot(db.bots, id);
    if found.None? {
      return None;
    }
    r := Some(PublicBot(found.value.id, found.value.name, found.value.primaryColor));
  }

  /** The bot with the submitted fields written over its own. */
  function Apply(b: Bot, patch: BotPatch): (r: Bot)
    ensures r.id == b.id && r.userId == b.userId && r.createdAt == b.createdAt
  {
    b.(name := if patch.name.Some? then patch.name.value else b.name,
       systemPrompt := if patch.systemPrompt.Some? then patch.systemPrompt.value else b.systemPrompt,
       primaryColor := if patch.primaryColor.Some? then patch.primaryColor.value else b.primaryColor,
       telegramBotToken := if patch.telegramBotToken.Some? then patch.telegramBotToken.value else b.telegramBotToken)
  }

  /** An empty form changes nothing, and submitting the same form twice is
      the same as submitting it once. */
  lemma ApplyIdempotent(b: Bot, patch: BotPatch)
    ensures Apply(b, BotPatch(None, None, None, None)) == b
    ensures Apply(Apply(b, patch), patch) == Apply(b, patch)
  {
  }

  /** The bot table after `updateBot`: the patch lands on the row with that
      id if it belongs to the user. */
  function Patched(bots: seq<Bot>, id: string, owner: string, patch: BotPatch): seq<Bot> {
    seq(|bots|, i requires 0 <= i < |bots| =>
      if bots[i].id == id && bots[i].userId == owner then Apply(bots[i], patch) else bots[i])
  }

  /** Other users' bots are never changed: a user who does not own the id
      leaves the table as it is, and an owner changes one row only. */
  lemma PatchedScoped(bots: seq<Bot>, id: string, owner: string, patch: BotPatch)
    requires Distinct(bots, BotId)
    ensures !Owns(bots, id, owner) ==> Patched(bots, id, owner, patch) == bots
    ensures forall k :: 0 <= k < |bots| && bots[k].id == id && bots[k].userId == owner ==>
      Patched(bots, id, owner, patch) == bots[k := Apply(bots[k], patch)]
  {
    var r := Patched(bots, id, owner, patch);
    if !Owns(bots, id, owner) {
      forall i | 0 <= i < |bots| ensures r[i] == bots[i] {
        assert !(bots[i] in bots && bots[i].id == id && bots[i].userId == owner);
      }
    }
    forall k | 0 <= k < |bots| && bots[k].id == id && bots[k].userId == owner
      ensures r == bots[k := Apply(bots[k], patch)]
    {
      forall i | 0 <= i < |bots| && i != k ensures r[i] == bots[i] {
        if i < k {
          assert BotId(bots[i]) != BotId(bots[k]);
        } else {
          assert BotId(bots[k]) != BotId(bots[i]);
        }
      }
    }
  }

  /** `updateBot`. The update matches on id and owner; when no row matches,
      the store raises and nothing changes. */
  method UpdateBot(db: Database, session: Option<string>, id: string, patch: BotPatch) returns (r: Result<Bot>)
    requires db.Valid()
    modifies db`bots
    ensures db.Valid()
    ensures session.None? ==> r == Err(Unauthorized) && db.bots == old(db.bots)
    ensures session.Some? && !Owns(old(db.bots), id, session.value) ==>
      r == Err(RecordNotFound) && db.bots == old(db.bots)
    ensures session.Some? && Owns(old(db.bots), id, session.value) ==>
      && r == Ok(Apply(FindBot(old(db.bots), id).value, patch))
      && db.bots == Patched(old(db.bots), id, session.value, patch)
  {
    if session.None? {
      return Err(Unauthorized);
    }
    var owner := session.value;
    var k := FindBotIndex(db.bots, id);
    if k.None? || db.bots[k.value].userId != owner {
      if Owns(db.bots, id, owner) {
        var b :| b in db.bots && b.id == id && b.userId == owner;
        UniqueKey(db.bots, BotId, b, db.bots[k.value]);
      }
      return Err(RecordNotFound);
    }
    var bot := db.bots[k.value];
    var updated := Apply(bot, patch);
    PatchedScoped(db.bots, id, owner, patch);
    UniqueKey(db.bots, BotId, bot, FindBot(db.bots, id).value);
    db.ReplaceBot(k.value, updated);
    r := Ok(updated);
  }

  /** Deleting the user's own bot removes that bot and no other; every bot
      of another user stays. */
  lemma DeleteScoped(bots: seq<Bot>, id: string, owner: string)
    requires Distinct(bots, BotId) && Owns(bots, id, owner)
    ensures !HasBot(RemainingBots(bots, id), id)
    ensures forall b :: b in bots && b.id != id ==> b in RemainingBots(bots, id)
    ensures forall b :: b in bots && b.userId != owner ==> b in RemainingBots(bots, id)
  {
    var mine :| mine in bots && mine.id == id && mine.userId == owner;
    forall b | b in bots && b.id != id ensures b in RemainingBots(bots, id) {
      FilterKeeps(bots, KeepBot(id), b);
    }
    forall b | b in bots && b.userId != owner ensures b.id != id {
      if b.id == id {
        UniqueKey(bots, BotId, b, mine);
      }
    }
  }

  /** `deleteBot`. The delete matches on id and owner and cascades to the
      bot's documents, conversations and messages; when no row matches, the
      store raises and nothing changes. */
  method DeleteBot(db: Database, session: Option<string>, id: string) returns (r: Result<()>)
    requires db.Valid()
    modifies db`bots, db`documents, db`conversations, db`messages
    ensures db.Valid()
    ensures session.None? ==> r == Err(Unauthorized)
    ensures session.Some? && !Owns(old(db.bots), id, session.value) ==> r == Err(RecordNotFound)
    ensures r.Err? ==> unchanged(db)
    ensures r.Ok? <==> session.Some? && Owns(old(db.bots), id, session.value)
    ensures r.Ok? ==>
      && db.bots == RemainingBots(old(db.bots), id)
      && db.documents == RemainingDocuments(old(db.documents), id)
      && db.conversations == RemainingConversations(old(db.conversations), id)
      && db.messages == RemainingMessages(old(db.messages), old(db.conversations), id)
  {
    if session.None? {
      return Err(Unauthorized);
    }
    var found := FindOwned(db.bots, id, session.value);
    if found.None? {
      return Err(RecordNotFound);
    }
    db.DeleteBot(id);
    r := Ok(());
  }

  /** What `addDocument` does to the document table, as written: it needs a
      session and a bot with that id, and nothing ties the two together. */
  function Attach(bots: seq<Bot>, documents: seq<Document>, session: Option<string>, doc: Document)
    : (r: Result<seq<Document>>)
    ensures r.Ok? <==> session.Some? && HasBot(bots, doc.botId)
    ensures r.Ok? ==> r.value == documents + [doc]
  {
    if session.None? then Err(Unauthorized)
    else if !HasBot(bots, doc.botId) then Err(ForeignKeyViolation)
    else Ok(documents + [doc])
  }

  /** Any signed-in user can attach a document to a bot another user owns,
      and that document then reaches the owner's prompt. */
  lemma AttachIgnoresOwner(bots: seq<Bot>, documents: seq<Document>, owner: string, doc: Document)
    requires HasBot(bots, doc.botId) && !Owns(bots, doc.botId, owner)
    ensures Attach(bots, documents, Some(owner), doc).Ok?
    ensures DocumentsOf(Attach(bots, documents, Some(owner), doc).value, doc.botId)
         == DocumentsOf(documents, doc.botId) + [doc.content]
  {
    var after := documents + [doc];
    assert after[..|after| - 1] == documents;
  }

  /** `addDocument` as the other actions scope their writes: the bot must
      belong to the session user. */
  function OwnedAttach(bots: seq<Bot>, documents: seq<Document>, session: Option<string>, doc: Document)
    : (r: Result<seq<Document>>)
    ensures r.Ok? <==> session.Some? && Owns(bots, doc.botId, session.value)
    ensures r.Ok? ==> r.value == documents + [doc]
  {
    if session.None? then Err(Unauthorized)
    else if !Owns(bots, doc.botId, session.value) then Err(RecordNotFound)
    else Ok(documents + [doc])
  }

  /** The scoped version refuses exactly the foreign bots and otherwise does
      what the action does. */
  lemma OwnedAttachRefines(bots: seq<Bot>, documents: seq<Document>, session: Option<string>, doc: Document)
    ensures OwnedAttach(bots, documents, session, doc).Ok? ==>
      Attach(bots, documents, session, doc) == OwnedAttach(bots, documents, session, doc)
    ensures session.Some? && HasBot(bots, doc.botId) && !Owns(bots, doc.botId, session.value) ==>
      OwnedAttach(bots, documents, session, doc).Err? && Attach(bots, documents, session, doc).Ok?
  {
  }

  /** `addDocument`, as written. `id` is the value the store generates. */
  method AddDocument(db: Database, session: Option<string>, id: string, botId: string, content: string)
    returns (r: Result<Document>)
    requires db.Valid() && !HasDocument(db.documents, id)
    modifies db`documents
    ensures db.Valid()
    ensures var table := Attach(db.bots, old(db.documents), session, Document(id, content, botId));
      && (table.Err? ==> r == Err(table.error) && db.documents == old(db.documents))
      && (table.Ok? ==> r == Ok(Document(id, content, botId)) && db.documents == table.value)
  {
    if session.None? {
      return Err(Unauthorized);
    }
    if !HasBot(db.bots, botId) {
      return Err(ForeignKeyViolation);
    }
    var doc := Document(id, content, botId);
    db.InsertDocument(doc);
    r := Ok(doc);
  }

  /** Whether the conversation's bot belongs to the user. */
  predicate OwnedBy(bots: seq<Bot>, botId: string, owner: string) {
    FindBot(bots, botId).Some? && FindBot(bots, botId).value.userId == owner
  }

  function OwnedConversation(bots: seq<Bot>, owner: string): Conversation -> bool {
    (c: Conversation) => OwnedBy(bots, c.botId, owner)
  }

  /** The conversation's latest message: the last of its rows in the log. */
  function LatestMessage(messages: seq<Message>, conversationId: string): (r: Option<Message>)
    ensures r.None? ==> forall m :: m in messages ==> m.conversationId != conversationId
    ensures r.Some? ==> r.value.conversationId == conversationId
    ensures r.Some? ==>
      exists i :: 0 <= i < |messages| && messages[i] == r.value
        && (forall j :: i < j < |messages| ==> messages[j].conversationId != conversationId)
  {
    if |messages| == 0 then None
    else
      var last := messages[|messages| - 1];
      if last.conversationId == conversationId then Some(last)
      else LatestMessage(messages[..|messages| - 1], conversationId)
  }

  /** `getConversations` for a signed-in user, newest conversation first. */
  function Summaries(bots: seq<Bot>, conversations: seq<Conversation>, messages: seq<Message>, owner: string)
    : (r: seq<ConversationSummary>)
    ensures forall s :: s in r ==>
      && s.conversation in conversations
      && OwnedBy(bots, s.conversation.botId, owner)
      && s.botName == FindBot(bots, s.conversation.botId).value.name
      && s.botColor == FindBot(bots, s.conversation.botId).value.primaryColor
      && s.latest == LatestMessage(messages, s.conversation.id)
  {
    if |conversations| == 0 then []
    else
      var c := conversations[|conversations| - 1];
      var rest := Summaries(bots, conversations[..|conversations| - 1], messages, owner);
      if OwnedBy(bots, c.botId, owner) then
        var b := FindBot(bots, c.botId).value;
        [ConversationSummary(c, b.name, b.primaryColor, LatestMessage(messages, c.id))] + rest
      else rest
  }

  function Listed(r: seq<ConversationSummary>): seq<Conversation> {
    seq(|r|, i requires 0 <= i < |r| => r[i].conversation)
  }

  lemma ListedPrepend(s: ConversationSummary, r: seq<ConversationSummary>)
    ensures Listed([s] + r) == [s.conversation] + Listed(r)
  {
  }

  /** Reference definition: the listed conversations are the user's
      conversations in the table, read backwards. */
  lemma {:induction false} SummariesAreOwnedReversed(bots: seq<Bot>, conversations: seq<Conversation>,
                                                   messages: seq<Message>, owner: string)
    ensures Listed(Summaries(bots, conversations, messages, owner))
         == Reverse(Filter(conversations, OwnedConversation(bots, owner)))
  {
    if |conversations| > 0 {
      var init := conversations[..|conversations| - 1];
      var c := conversations[|conversations| - 1];
      var keep := OwnedConversation(bots, owner);
      assert conversations == init + [c];
      FilterAppend(init, [c], keep);
      assert [c][1..] == [];
      ReverseAppend(Filter(init, keep), Filter([c], keep));
      SummariesAreOwnedReversed(bots, init, messages, owner);
      var rest := Summaries(bots, init, messages, owner);
      if keep(c) {
        assert Filter([c], keep) == [c];
        assert Reverse([c]) == Reverse([c][1..]) + [c];
        var b := FindBot(bots, c.botId).value;
        ListedPrepend(ConversationSummary(c, b.name, b.primaryColor, LatestMessage(messages, c.id)), rest);
      } else {
        assert Filter([c], keep) == [];
      }
    }
  }

  /** Only the user's conversations are listed, all of them, newest first. */
  lemma SummariesScoped(bots: seq<Bot>, conversations: seq<Conversation>, messages: seq<Message>, owner: string)
    requires Ascending(conversations, ConversationCreated)
    ensures forall c :: c in Listed(Summaries(bots, conversations, messages, owner)) <==>
      c in conversations && OwnedBy(bots, c.botId, owner)
    ensures Descending(Listed(Summaries(bots, conversations, messages, owner)), ConversationCreated)
  {
    var keep := OwnedConversation(bots, owner);
    var owned := Filter(conversations, keep);
    SummariesAreOwnedReversed(bots, conversations, messages, owner);
    forall c ensures c in Reverse(owned) <==> c in conversations && OwnedBy(bots, c.botId, owner) {
      ReverseMembers(owned, c);
      if c in conversations && OwnedBy(bots, c.botId, owner) {
        FilterKeeps(conversations, keep, c);
      }
    }
    FilterAscending(conversations, keep, ConversationCreated);
    ReverseAscending(owned, ConversationCreated);
  }

  /** `getConversations`: no session yields the empty list. */
  method GetConversations(db: Database, session: Option<string>) returns (r: seq<ConversationSummary>)
    ensures session.None? ==> r == []
    ensures session.Some? ==> r == Summaries(db.bots, db.conversations, db.messages, session.value)
  {
    if session.None? {
      return [];
    }
    r := Summaries(db.bots, db.conversations, db.messages, session.value);
  }
}

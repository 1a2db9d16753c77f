/** The relational store the handlers share: bots, their documents,
    conversations, messages and users. Each table is a sequence of rows in
    creation order, so "newest first" is the table read backwards. The store
    keeps primary and foreign keys; creation order along each table follows
    from the clock assumption (`NotAfter`) of the inserts. */
module Store {
  import opened Common

  datatype Bot = Bot(id: string, name: string, systemPrompt: string, primaryColor: string,
                     telegramBotToken: string, userId: string, createdAt: int)

  datatype Document = Document(id: string, content: string, botId: string)

  datatype Conversation = Conversation(id: string, botId: string, createdAt: int)

  datatype Message = Message(id: string, conversationId: string, role: string, content: string)

  datatype User = User(id: string, email: string, name: string, role: string, createdAt: int)

  function BotId(b: Bot): string { b.id }
  function BotCreated(b: Bot): int { b.createdAt }
  function DocumentId(d: Document): string { d.id }
  function ConversationId(c: Conversation): string { c.id }
  function ConversationCreated(c: Conversation): int { c.createdAt }
  function MessageId(m: Message): string { m.id }
  function UserId(u: User): string { u.id }
  function UserCreated(u: User): int { u.createdAt }

  predicate HasBot(bots: seq<Bot>, id: string) {
    exists b :: b in bots && b.id == id
  }

  predicate HasDocument(documents: seq<Document>, id: string) {
    exists d :: d in documents && d.id == id
  }

  predicate HasConversation(conversations: seq<Conversation>, id: string) {
    exists c :: c in conversations && c.id == id
  }

  predicate HasMessage(messages: seq<Message>, id: string) {
    exists m :: m in messages && m.id == id
  }

  predicate HasUser(users: seq<User>, id: string) {
    exists u :: u in users && u.id == id
  }

  /** `findUnique({ where: { id } })` on the bot table. */
  function FindBot(bots: seq<Bot>, id: string): (r: Option<Bot>)
    ensures r.Some? ==> r.value in bots && r.value.id == id
    ensures r.None? ==> !HasBot(bots, id)
  {
    if |bots| == 0 then None
    else if bots[0].id == id then Some(bots[0])
    else FindBot(bots[1..], id)
  }

  /** The index of the row with that id. */
  function FindBotIndex(bots: seq<Bot>, id: string): (r: Option<nat>)
    ensures r.Some? ==> r.value < |bots| && bots[r.value].id == id
    ensures r.None? ==> !HasBot(bots, id)
  {
    if |bots| == 0 then None
    else if bots[0].id == id then Some(0)
    else match FindBotIndex(bots[1..], id)
      case None => None
      case Some(k) => Some(k + 1)
  }

  /** The contents of the documents attached to a bot. The queries that read
      them ask for no order; the model takes table (creation) order. */
  function DocumentsOf(documents: seq<Document>, botId: string): seq<string> {
    if |documents| == 0 then []
    else
      var last := documents[|documents| - 1];
      DocumentsOf(documents[..|documents| - 1], botId) + (if last.botId == botId then [last.content] else [])
  }

  /** The document rows attached to a bot, in table order. */
  function Attached(documents: seq<Document>, botId: string): seq<Document> {
    Filter(documents, (d: Document) => d.botId == botId)
  }

  function Contents(documents: seq<Document>): seq<string> {
    seq(|documents|, i requires 0 <= i < |documents| => documents[i].content)
  }

  /** Reference definition: the documents a bot sees are the contents of
      exactly the rows attached to it, in the order they were added, so the
      context never holds another bot's knowledge and drops none of its own. */
  lemma {:induction false} DocumentsOfAreAttached(documents: seq<Document>, botId: string)
    ensures DocumentsOf(documents, botId) == Contents(Attached(documents, botId))
  {
    var keep := (d: Document) => d.botId == botId;
    if |documents| > 0 {
      var init := documents[..|documents| - 1];
      var last := documents[|documents| - 1];
      assert documents == init + [last];
      FilterAppend(init, [last], keep);
      assert [last][1..] == [];
      DocumentsOfAreAttached(init, botId);
    }
  }

  /** Primary keys, foreign keys and creation order of every table. */
  predicate Consistent(bots: seq<Bot>, documents: seq<Document>, conversations: seq<Conversation>,
                       messages: seq<Message>, users: seq<User>)
  {
    && Distinct(bots, BotId) && Ascending(bots, BotCreated)
    && Distinct(documents, DocumentId)
    && (forall d :: d in documents ==> HasBot(bots, d.botId))
    && Distinct(conversations, ConversationId) && Ascending(conversations, ConversationCreated)
    && (forall c :: c in conversations ==> HasBot(bots, c.botId))
    && Distinct(messages, MessageId)
    && (forall m :: m in messages ==> HasConversation(conversations, m.conversationId))
    && Distinct(users, UserId) && Ascending(users, UserCreated)
  }

  /** Whether a conversation with that id belongs to the bot. */
  predicate ConversationOf(conversations: seq<Conversation>, conversationId: string, botId: string) {
    exists c :: c in conversations && c.id == conversationId && c.botId == botId
  }

  /** The tables left when a bot is deleted: its row, its documents, its
      conversations and the messages of those conversations are gone. */
  function RemainingBots(bots: seq<Bot>, id: string): seq<Bot> {
    Filter(bots, KeepBot(id))
  }

  function RemainingDocuments(documents: seq<Document>, id: string): seq<Document> {
    Filter(documents, KeepDocument(id))
  }

  function RemainingConversations(conversations: seq<Conversation>, id: string): seq<Conversation> {
    Filter(conversations, KeepConversation(id))
  }

  function RemainingMessages(messages: seq<Message>, conversations: seq<Conversation>, id: string): seq<Message> {
    Filter(messages, KeepMessage(conversations, id))
  }

  function KeepBot(id: string): Bot -> bool {
    (b: Bot) => b.id != id
  }

  function KeepDocument(id: string): Document -> bool {
    (d: Document) => d.botId != id
  }

  function KeepConversation(id: string): Conversation -> bool {
    (c: Conversation) => c.botId != id
  }

  function KeepMessage(conversations: seq<Conversation>, id: string): Message -> bool {
    (m: Message) => !ConversationOf(conversations, m.conversationId, id)
  }

  /** Deleting a bot with its dependants keeps every primary key, every
      foreign key and every creation order: no document, conversation or
      message is left pointing at a row that is gone. */
  lemma CascadeConsistent(bots: seq<Bot>, documents: seq<Document>, conversations: seq<Conversation>,
                          messages: seq<Message>, users: seq<User>, id: string)
    requires Consistent(bots, documents, conversations, messages, users)
    ensures Consistent(RemainingBots(bots, id), RemainingDocuments(documents, id),
                       RemainingConversations(conversations, id), RemainingMessages(messages, conversations, id), users)
  {
    FilterDistinct(bots, KeepBot(id), BotId);
    FilterAscending(bots, KeepBot(id), BotCreated);
    FilterDistinct(documents, KeepDocument(id), DocumentId);
    FilterDistinct(conversations, KeepConversation(id), ConversationId);
    FilterAscending(conversations, KeepConversation(id), ConversationCreated);
    FilterDistinct(messages, KeepMessage(conversations, id), MessageId);
    RemainingBotsCover(bots, documents, conversations, id);
    RemainingConversationsCover(conversations, messages, id);
  }

  /** Every remaining document and conversation still has its bot. */
  lemma RemainingBotsCover(bots: seq<Bot>, documents: seq<Document>, conversations: seq<Conversation>, id: string)
    requires forall d :: d in documents ==> HasBot(bots, d.botId)
    requires forall c :: c in conversations ==> HasBot(bots, c.botId)
    ensures forall d :: d in RemainingDocuments(documents, id) ==> HasBot(RemainingBots(bots, id), d.botId)
    ensures forall c :: c in RemainingConversations(conversations, id) ==> HasBot(RemainingBots(bots, id), c.botId)
  {
    forall d | d in RemainingDocuments(documents, id) ensures HasBot(RemainingBots(bots, id), d.botId) {
      var b :| b in bots && b.id == d.botId;
      FilterKeeps(bots, KeepBot(id), b);
    }
    forall c | c in RemainingConversations(conversations, id) ensures HasBot(RemainingBots(bots, id), c.botId) {
      var b :| b in bots && b.id == c.botId;
      FilterKeeps(bots, KeepBot(id), b);
    }
  }

  /** Every remaining message still has its conversation. */
  lemma RemainingConversationsCover(conversations: seq<Conversation>, messages: seq<Message>, id: string)
    requires forall m :: m in messages ==> HasConversation(conversations, m.conversationId)
    ensures forall m :: m in RemainingMessages(messages, conversations, id) ==>
      HasConversation(RemainingConversations(conversations, id), m.conversationId)
  {
    forall m | m in RemainingMessages(messages, conversations, id)
      ensures HasConversation(RemainingConversations(conversations, id), m.conversationId)
    {
      var c :| c in conversations && c.id == m.conversationId;
      FilterKeeps(conversations, KeepConversation(id), c);
    }
  }

  /** The user table with one user's role replaced. */
  function WithRole(users: seq<User>, id: string, role: string): (r: seq<User>)
    ensures |r| == |users|
    ensures forall i :: 0 <= i < |users| ==>
      r[i] == if users[i].id == id then users[i].(role := role) else users[i]
  {
    if |users| == 0 then []
    else [if users[0].id == id then users[0].(role := role) else users[0]] + WithRole(users[1..], id, role)
  }

  /** Setting the role of a user just appended, whose id was new, changes
      that row only. */
  lemma WithRoleNewest(users: seq<User>, u: User, role: string)
    requires !HasUser(users, u.id)
    ensures WithRole(users + [u], u.id, role) == users + [u.(role := role)]
  {
    var r := WithRole(users + [u], u.id, role);
    forall i | 0 <= i < |users| ensures r[i] == users[i] {
      assert (users + [u])[i] == users[i];
      assert users[i] in users;
    }
  }

  class Database {
    var bots: seq<Bot>
    var documents: seq<Document>
    var conversations: seq<Conversation>
    var messages: seq<Message>
    var users: seq<User>

    ghost predicate Valid()
      reads this
    {
      Consistent(bots, documents, conversations, messages, users)
    }

    /** No row was created after `now`: the clock never runs backwards. */
    predicate NotAfter(now: int)
      reads this
    {
      && (forall b :: b in bots ==> b.createdAt <= now)
      && (forall c :: c in conversations ==> c.createdAt <= now)
      && (forall u :: u in users ==> u.createdAt <= now)
    }

    constructor ()
      ensures Valid()
      ensures bots == [] && documents == [] && conversations == [] && messages == [] && users == []
    {
      bots, documents, conversations, messages, users := [], [], [], [], [];
    }

    /** `prisma.bot.create`. */
    method InsertBot(b: Bot)
      requires Valid() && NotAfter(b.createdAt) && !HasBot(bots, b.id)
      modifies this`bots
      ensures Valid()
      ensures bots == old(bots) + [b]
    {
      DistinctSnoc(bots, b, BotId);
      AscendingSnoc(bots, b, BotCreated);
      bots := bots + [b];
    }

    /** `prisma.bot.update` of the row at index k: the id and the creation
        time stay. */
    method ReplaceBot(k: nat, b: Bot)
      requires Valid() && k < |bots| && b.id == bots[k].id && b.createdAt == bots[k].createdAt
      modifies this`bots
      ensures Valid()
      ensures bots == old(bots)[k := b]
    {
      DistinctReplace(bots, k, b, BotId);
      AscendingReplace(bots, k, b, BotCreated);
      ghost var was := bots;
      bots := bots[k := b];
      forall id | HasBot(was, id) ensures HasBot(bots, id) {
        var x :| x in was && x.id == id;
        var i :| 0 <= i < |was| && was[i] == x;
        assert bots[i].id == id;
      }
    }

    /** `prisma.bot.delete`, with the deletion cascading to the bot's
        documents, its conversations and their messages. */
    method DeleteBot(id: string)
      requires Valid()
      modifies this`bots, this`documents, this`conversations, this`messages
      ensures Valid()
      ensures bots == RemainingBots(old(bots), id)
      ensures documents == RemainingDocuments(old(documents), id)
      ensures conversations == RemainingConversations(old(conversations), id)
      ensures messages == RemainingMessages(old(messages), old(conversations), id)
    {
      bots, documents, conversations, messages :=
        RemainingBots(bots, id), RemainingDocuments(documents, id),
        RemainingConversations(conversations, id), RemainingMessages(messages, conversations, id);
      CascadeConsistent(old(bots), old(documents), old(conversations), old(messages), users, id);
    }

    /** `prisma.document.create`; the document's bot must exist. */
    method InsertDocument(d: Document)
      requires Valid() && HasBot(bots, d.botId) && !HasDocument(documents, d.id)
      modifies this`documents
      ensures Valid()
      ensures documents == old(documents) + [d]
    {
      DistinctSnoc(documents, d, DocumentId);
      documents := documents + [d];
    }

    /** Insertion of a conversation row; its bot must exist. */
    method InsertConversation(c: Conversation)
      requires Valid() && NotAfter(c.createdAt) && HasBot(bots, c.botId) && !HasConversation(conversations, c.id)
      modifies this`conversations
      ensures Valid()
      ensures conversations == old(conversations) + [c]
    {
      DistinctSnoc(conversations, c, ConversationId);
      AscendingSnoc(conversations, c, ConversationCreated);
      ghost var was := conversations;
      conversations := conversations + [c];
      forall m | m in messages ensures HasConversation(conversations, m.conversationId) {
        var x :| x in was && x.id == m.conversationId;
        assert x in conversations;
      }
    }

    /** Insertion of a message row; its conversation must exist. */
    method InsertMessage(m: Message)
      requires Valid() && HasConversation(conversations, m.conversationId) && !HasMessage(messages, m.id)
      modifies this`messages
      ensures Valid()
      ensures messages == old(messages) + [m]
    {
      DistinctSnoc(messages, m, MessageId);
      messages := messages + [m];
    }

    /** Insertion of a user row by the authentication provider. */
    method InsertUser(u: User)
      requires Valid() && NotAfter(u.createdAt) && !HasUser(users, u.id)
      modifies this`users
      ensures Valid()
      ensures users == old(users) + [u]
    {
      DistinctSnoc(users, u, UserId);
      AscendingSnoc(users, u, UserCreated);
      users := users + [u];
    }

    /** `prisma.user.update({ where: { id }, data: { role } })`. */
    method SetRole(id: string, role: string)
      requires Valid()
      modifies this`users
      ensures Valid()
      ensures users == WithRole(old(users), id, role)
    {
      var users' := WithRole(users, id, role);
      assert forall i :: 0 <= i < |users| ==> users'[i].id == users[i].id && users'[i].createdAt == users[i].createdAt;
      users := users';
    }
  }
}

/**
 * The writes the bot makes to its store, on an in-memory store: users and
 * chats are inserted unless a row with the same id exists (insert or do
 * nothing); messages are always appended, since their insert has no conflict
 * clause.
 */
module InsertFunctions {
  import opened Wrappers
  import T = TelegramUpdateModels
  import opened GenAiModels

  datatype UserRow = UserRow(
    userId: int, firstName: string, lastName: Option<string>, username: Option<string>, isBot: bool)

  datatype ChatRow = ChatRow(chatId: int, title: string, chatType: T.ChatType)

  datatype MessageRow = MessageRow(
    messageId: int,
    role: string,
    userId: int,
    chatId: int,
    text: string,
    cost: real,
    inputTokens: int,
    outputTokens: int,
    wasTagged: bool)

  /** The users row keeps every field of the Telegram user. */
  function UserRowOf(u: T.TelegramUser): (r: UserRow)
    ensures T.TelegramUser(r.userId, r.isBot, r.firstName, r.lastName, r.username) == u
  {
    UserRow(u.id, u.firstName, u.lastName, u.username, u.isBot)
  }

  /** The chats row keeps every field of the chat except the administrators flag. */
  function ChatRowOf(c: T.TelegramChat): (r: ChatRow)
    ensures T.TelegramChat(r.chatId, r.title, r.chatType, c.allMembersAreAdministrators) == c
  {
    ChatRow(c.id, c.title, c.chatType)
  }

  /**
   * The messages row: the message, sender and chat ids, the text, the role as a
   * string that validates back to the role, the cost, the counts and the tag flag.
   */
  function MessageRowOf(m: T.Message, role: LLMRole, cost: real, inputTokens: int, outputTokens: int, wasTagged: bool)
    : (r: MessageRow)
    ensures ParseRole(r.role) == Some(role)
    ensures r.messageId == m.messageId && r.userId == m.from.id && r.chatId == m.chat.id && r.text == m.text
    ensures r.cost == cost && r.inputTokens == inputTokens && r.outputTokens == outputTokens && r.wasTagged == wasTagged
  {
    RoleValues();
    MessageRow(m.messageId, RoleValue(role), m.from.id, m.chat.id, m.text, cost, inputTokens, outputTokens, wasTagged)
  }

  /** The users table after `INSERT ... ON CONFLICT (USER_ID) DO NOTHING`. */
  function UsersAfterInsert(users: map<int, UserRow>, u: T.TelegramUser): (r: map<int, UserRow>)
    ensures u.id in users ==> r == users
    ensures u.id !in users ==> r.Keys == users.Keys + {u.id} && r[u.id] == UserRowOf(u)
    ensures forall k :: k in users ==> k in r && r[k] == users[k]
  {
    if u.id in users then users else users[u.id := UserRowOf(u)]
  }

  /** The chats table after `INSERT ... ON CONFLICT (CHAT_ID) DO NOTHING`. */
  function ChatsAfterInsert(chats: map<int, ChatRow>, c: T.TelegramChat): (r: map<int, ChatRow>)
    ensures c.id in chats ==> r == chats
    ensures c.id !in chats ==> r.Keys == chats.Keys + {c.id} && r[c.id] == ChatRowOf(c)
    ensures forall k :: k in chats ==> k in r && r[k] == chats[k]
  {
    if c.id in chats then chats else chats[c.id := ChatRowOf(c)]
  }

  /** Inserting the same user twice leaves the table as inserting it once. */
  lemma InsertUserIdempotent(users: map<int, UserRow>, u: T.TelegramUser)
    ensures UsersAfterInsert(UsersAfterInsert(users, u), u) == UsersAfterInsert(users, u)
  {
  }

  /** A second insert with a known id never overwrites the stored names. */
  lemma InsertUserKeepsFirst(users: map<int, UserRow>, u: T.TelegramUser, u': T.TelegramUser)
    requires u.id == u'.id
    ensures UsersAfterInsert(UsersAfterInsert(users, u), u')[u.id] == UsersAfterInsert(users, u)[u.id]
  {
  }

  lemma InsertChatIdempotent(chats: map<int, ChatRow>, c: T.TelegramChat)
    ensures ChatsAfterInsert(ChatsAfterInsert(chats, c), c) == ChatsAfterInsert(chats, c)
  {
  }

  /** Each row is stored under its own id. */
  ghost predicate KeyedById(users: map<int, UserRow>, chats: map<int, ChatRow>)
  {
    && (forall k :: k in users ==> users[k].userId == k)
    && (forall k :: k in chats ==> chats[k].chatId == k)
  }

  /** The three tables. */
  class ConversationStore {
    var users: map<int, UserRow>
    var chats: map<int, ChatRow>
    var messages: seq<MessageRow>

    ghost predicate Valid()
      reads this
    {
      KeyedById(users, chats)
    }

    constructor ()
      ensures Valid() && users == map[] && chats == map[] && messages == []
    {
      users, chats, messages := map[], map[], [];
    }

    /** `insert_user`: a no-op when the id is taken; touches only the users table. */
    method InsertUser(user: T.TelegramUser)
      requires Valid()
      modifies this`users
      ensures Valid()
      ensures users == UsersAfterInsert(old(users), user)
      ensures user.id in users && users[user.id].userId == user.id
    {
      if user.id !in users {
        users := users[user.id := UserRowOf(user)];
      }
    }

    /** `insert_chat`: a no-op when the id is taken; touches only the chats table. */
    method InsertChat(chat: T.TelegramChat)
      requires Valid()
      modifies this`chats
      ensures Valid()
      ensures chats == ChatsAfterInsert(old(chats), chat)
      ensures chat.id in chats && chats[chat.id].chatId == chat.id
    {
      if chat.id !in chats {
        chats := chats[chat.id := ChatRowOf(chat)];
      }
    }

    /** `insert_message`: always appends one row; touches only the messages table. */
    method InsertMessage(message: T.Message, role: LLMRole, cost: real := 0.0, inputTokens: int := 0,
                         outputTokens: int := 0, wasTagged: bool := false)
      requires Valid()
      modifies this`messages
      ensures Valid()
      ensures messages == old(messages) + [MessageRowOf(message, role, cost, inputTokens, outputTokens, wasTagged)]
    {
      messages := messages + [MessageRowOf(message, role, cost, inputTokens, outputTokens, wasTagged)];
    }
  }

  /** Redelivery: recording the same user, chat and message twice keeps one user and one chat but two message rows. */
  method Redelivered(store: ConversationStore, m: T.Message)
    requires store.Valid()
    modifies store
    ensures store.Valid()
    ensures store.users == UsersAfterInsert(old(store.users), m.from)
    ensures store.chats == ChatsAfterInsert(old(store.chats), m.chat)
    ensures store.messages == old(store.messages) + [MessageRowOf(m, User, 0.0, 0, 0, false), MessageRowOf(m, User, 0.0, 0, 0, false)]
  {
    store.InsertUser(m.from);
    store.InsertChat(m.chat);
    store.InsertMessage(m, User);
    store.InsertUser(m.from);
    store.InsertChat(m.chat);
    store.InsertMessage(m, User);
    InsertUserIdempotent(old(store.users), m.from);
    InsertChatIdempotent(old(store.chats), m.chat);
  }
}

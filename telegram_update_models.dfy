/**
 * The Telegram payload shapes the ingestion endpoint validates: users, chats,
 * ordinary text messages and new-member events. Each pydantic model becomes a
 * datatype and a parse function over a decoded JSON object; `None` stands for
 * a validation failure.
 */
module TelegramUpdateModels {
  import opened Wrappers
  import opened Json

  /** The only chat types accepted. */
  datatype ChatType = Group | Supergroup | Private

  /** The string value each chat type is validated against. */
  function ChatTypeValue(t: ChatType): string
  {
    match t
    case Group => "group"
    case Supergroup => "supergroup"
    case Private => "private"
  }

  /** Enum validation: the value must equal one of the three strings. */
  function ParseChatType(v: Json): (r: Option<ChatType>)
    ensures r.Some? <==> v in {JStr("group"), JStr("supergroup"), JStr("private")}
    ensures r.Some? ==> v == JStr(ChatTypeValue(r.value))
  {
    match v
    case JStr(s) =>
      if s == "group" then Some(Group)
      else if s == "supergroup" then Some(Supergroup)
      else if s == "private" then Some(Private)
      else None
    case _ => None
  }

  datatype TelegramUser = TelegramUser(
    id: int,
    isBot: bool,
    firstName: string,
    lastName: Option<string>,
    username: Option<string>)

  datatype TelegramChat = TelegramChat(
    id: int,
    title: string,
    chatType: ChatType,
    allMembersAreAdministrators: bool)

  datatype Message = Message(
    messageId: int,
    from: TelegramUser,
    chat: TelegramChat,
    date: int,
    text: string)

  datatype TelegramUpdatePing = TelegramUpdatePing(updateId: Option<int>, message: Message)

  datatype NewMemberData = NewMemberData(
    id: int,
    isBot: bool,
    firstName: string,
    username: Option<string>,
    languageCode: Option<string>)

  datatype NewMemberWrapper = NewMemberWrapper(
    newChatMember: NewMemberData,
    from: TelegramUser,
    chat: TelegramChat,
    date: int)

  datatype TelegramUpdateNewMember = TelegramUpdateNewMember(updateId: Option<int>, message: NewMemberWrapper)

  function ParseUser(v: Json): (r: Option<TelegramUser>)
    ensures r.Some? ==> HasField(v, "id", JInt(r.value.id)) && HasField(v, "is_bot", JBool(r.value.isBot))
    ensures r.Some? ==> HasField(v, "first_name", JStr(r.value.firstName))
    ensures r.Some? ==> OptionalStr(v.fields, "last_name") == Some(r.value.lastName)
                        && OptionalStr(v.fields, "username") == Some(r.value.username)
    ensures (&& v.JObject? && RequiredInt(v.fields, "id").Some? && RequiredBool(v.fields, "is_bot").Some?
             && RequiredStr(v.fields, "first_name").Some? && OptionalStr(v.fields, "last_name").Some?
             && OptionalStr(v.fields, "username").Some?) ==> r.Some?
  {
    if !v.JObject? then None
    else
      var o := v.fields;
      match (RequiredInt(o, "id"), RequiredBool(o, "is_bot"), RequiredStr(o, "first_name"),
             OptionalStr(o, "last_name"), OptionalStr(o, "username"))
      case (Some(id), Some(isBot), Some(first), Some(last), Some(user)) =>
        Some(TelegramUser(id, isBot, first, last, user))
      case _ => None
  }

  /** The chat title: key `title` if present, else key `username`. */
  function ChatTitle(o: Object): (r: Option<string>)
    ensures "title" in o ==> r == AsStr(o["title"])
    ensures "title" !in o ==> r == if "username" in o then AsStr(o["username"]) else None
  {
    match FirstPresent(o, ["title", "username"])
    case Some(v) => AsStr(v)
    case None => None
  }

  function ParseChat(v: Json): (r: Option<TelegramChat>)
    ensures r.Some? ==> HasField(v, "id", JInt(r.value.id))
    ensures r.Some? ==> HasField(v, "type", JStr(ChatTypeValue(r.value.chatType)))
    ensures r.Some? ==> ChatTitle(v.fields) == Some(r.value.title)
    ensures r.Some? ==> BoolOrDefault(v.fields, "all_members_are_administrators", false)
                        == Some(r.value.allMembersAreAdministrators)
    ensures (&& v.JObject? && RequiredInt(v.fields, "id").Some? && ChatTitle(v.fields).Some?
             && "type" in v.fields && ParseChatType(v.fields["type"]).Some?
             && BoolOrDefault(v.fields, "all_members_are_administrators", false).Some?) ==> r.Some?
  {
    if !v.JObject? then None
    else
      var o := v.fields;
      match (RequiredInt(o, "id"), ChatTitle(o), if "type" in o then ParseChatType(o["type"]) else None,
             BoolOrDefault(o, "all_members_are_administrators", false))
      case (Some(id), Some(title), Some(t), Some(admins)) => Some(TelegramChat(id, title, t, admins))
      case _ => None
  }

  /** A text message; the sender is read from the key `from`. */
  function ParseMessage(v: Json): (r: Option<Message>)
    ensures r.Some? ==> v.JObject? && "from" in v.fields && ParseUser(v.fields["from"]) == Some(r.value.from)
    ensures r.Some? ==> "chat" in v.fields && ParseChat(v.fields["chat"]) == Some(r.value.chat)
    ensures r.Some? ==> HasField(v, "text", JStr(r.value.text))
    ensures r.Some? ==> HasField(v, "message_id", JInt(r.value.messageId)) && HasField(v, "date", JInt(r.value.date))
    ensures (&& v.JObject? && RequiredInt(v.fields, "message_id").Some?
             && "from" in v.fields && ParseUser(v.fields["from"]).Some?
             && "chat" in v.fields && ParseChat(v.fields["chat"]).Some?
             && RequiredInt(v.fields, "date").Some? && RequiredStr(v.fields, "text").Some?) ==> r.Some?
  {
    if !v.JObject? then None
    else
      var o := v.fields;
      match (RequiredInt(o, "message_id"), if "from" in o then ParseUser(o["from"]) else None,
             if "chat" in o then ParseChat(o["chat"]) else None, RequiredInt(o, "date"), RequiredStr(o, "text"))
      case (Some(id), Some(from), Some(chat), Some(date), Some(text)) => Some(Message(id, from, chat, date, text))
      case _ => None
  }

  /** An ordinary update: `message` is read from key `message` if present, else from `result`. */
  function ParsePing(o: Object): (r: Option<TelegramUpdatePing>)
    ensures r.Some? ==> OptionalInt(o, "update_id") == Some(r.value.updateId)
    ensures r.Some? ==> FirstPresent(o, ["message", "result"]).Some?
                        && ParseMessage(FirstPresent(o, ["message", "result"]).value) == Some(r.value.message)
    ensures (&& OptionalInt(o, "update_id").Some? && FirstPresent(o, ["message", "result"]).Some?
             && ParseMessage(FirstPresent(o, ["message", "result"]).value).Some?) ==> r.Some?
  {
    match (OptionalInt(o, "update_id"), FirstPresent(o, ["message", "result"]))
    case (Some(updateId), Some(m)) =>
      (match ParseMessage(m)
       case Some(msg) => Some(TelegramUpdatePing(updateId, msg))
       case None => None)
    case _ => None
  }

  function ParseNewMemberData(v: Json): (r: Option<NewMemberData>)
    ensures r.Some? ==> HasField(v, "id", JInt(r.value.id)) && HasField(v, "is_bot", JBool(r.value.isBot))
    ensures r.Some? ==> HasField(v, "first_name", JStr(r.value.firstName))
    ensures r.Some? ==> OptionalStr(v.fields, "username") == Some(r.value.username)
                        && OptionalStr(v.fields, "language_code") == Some(r.value.languageCode)
    ensures (&& v.JObject? && RequiredInt(v.fields, "id").Some? && RequiredBool(v.fields, "is_bot").Some?
             && RequiredStr(v.fields, "first_name").Some? && OptionalStr(v.fields, "username").Some?
             && OptionalStr(v.fields, "language_code").Some?) ==> r.Some?
  {
    if !v.JObject? then None
    else
      var o := v.fields;
      match (RequiredInt(o, "id"), RequiredBool(o, "is_bot"), RequiredStr(o, "first_name"),
             OptionalStr(o, "username"), OptionalStr(o, "language_code"))
      case (Some(id), Some(isBot), Some(first), Some(user), Some(lang)) =>
        Some(NewMemberData(id, isBot, first, user, lang))
      case _ => None
  }

  function ParseNewMemberWrapper(v: Json): (r: Option<NewMemberWrapper>)
    ensures r.Some? ==> v.JObject? && "new_chat_member" in v.fields
                        && ParseNewMemberData(v.fields["new_chat_member"]) == Some(r.value.newChatMember)
    ensures r.Some? ==> "from" in v.fields && ParseUser(v.fields["from"]) == Some(r.value.from)
    ensures r.Some? ==> "chat" in v.fields && ParseChat(v.fields["chat"]) == Some(r.value.chat)
                        && HasField(v, "date", JInt(r.value.date))
    ensures (&& v.JObject? && "new_chat_member" in v.fields && ParseNewMemberData(v.fields["new_chat_member"]).Some?
             && "from" in v.fields && ParseUser(v.fields["from"]).Some?
             && "chat" in v.fields && ParseChat(v.fields["chat"]).Some?
             && RequiredInt(v.fields, "date").Some?) ==> r.Some?
  {
    if !v.JObject? then None
    else
      var o := v.fields;
      match (if "new_chat_member" in o then ParseNewMemberData(o["new_chat_member"]) else None,
             if "from" in o then ParseUser(o["from"]) else None,
             if "chat" in o then ParseChat(o["chat"]) else None, RequiredInt(o, "date"))
      case (Some(member), Some(from), Some(chat), Some(date)) => Some(NewMemberWrapper(member, from, chat, date))
      case _ => None
  }

  /** A new-member update: `message` has no alias here. */
  function ParseNewMember(o: Object): (r: Option<TelegramUpdateNewMember>)
    ensures r.Some? ==> "message" in o && ParseNewMemberWrapper(o["message"]) == Some(r.value.message)
    ensures r.Some? ==> OptionalInt(o, "update_id") == Some(r.value.updateId)
    ensures (&& OptionalInt(o, "update_id").Some? && "message" in o
             && ParseNewMemberWrapper(o["message"]).Some?) ==> r.Some?
  {
    match (OptionalInt(o, "update_id"), if "message" in o then ParseNewMemberWrapper(o["message"]) else None)
    case (Some(updateId), Some(w)) => Some(TelegramUpdateNewMember(updateId, w))
    case _ => None
  }

  // ---------------------------------------------------------------------------
  // Alias, default and requirement rules

  /** `title` wins when present; `username` is used only when `title` is absent; neither fails. */
  lemma ChatTitleAlias(o: Object)
    ensures "title" in o ==> ChatTitle(o) == AsStr(o["title"])
    ensures "title" !in o && "username" in o ==> ChatTitle(o) == AsStr(o["username"])
    ensures "title" !in o && "username" !in o ==> ParseChat(JObject(o)) == None
  {
  }

  /** `message` is taken from key `message` when present, otherwise from key `result`. */
  lemma PingMessageAlias(o: Object)
    ensures "message" in o ==> ParsePing(o).Some? ==> ParseMessage(o["message"]) == Some(ParsePing(o).value.message)
    ensures "message" !in o && "result" in o && ParsePing(o).Some? ==>
              ParseMessage(o["result"]) == Some(ParsePing(o).value.message)
    ensures "message" !in o && "result" !in o ==> ParsePing(o) == None
  {
  }

  /** A chat without `title` (a private chat, say) is accepted with its `username` as title. */
  lemma {:induction false} UsernameTitleAccepted(o: Object, id: int, username: string, t: ChatType)
    requires "title" !in o && "username" in o && o["username"] == JStr(username)
    requires "id" in o && o["id"] == JInt(id) && "type" in o && o["type"] == JStr(ChatTypeValue(t))
    requires "all_members_are_administrators" !in o
    ensures ParseChat(JObject(o)) == Some(TelegramChat(id, username, t, false))
  {
    assert ChatTitle(o) == Some(username);
    assert ParseChatType(o["type"]) == Some(t);
  }

  /** A payload carrying its message under `result` instead of `message` is accepted. */
  lemma {:induction false} ResultMessageAccepted(o: Object, m: Message)
    requires "message" !in o && "update_id" !in o
    requires "result" in o && o["result"] == MessageToJson(m)
    ensures ParsePing(o) == Some(TelegramUpdatePing(None, m))
  {
    MessageRoundTrip(m);
    assert FirstPresent(o, ["message", "result"]) == Some(o["result"]);
  }

  const UserKeys: set<string> := {"id", "is_bot", "first_name", "last_name", "username"}
  const ChatKeys: set<string> := {"id", "title", "username", "type", "all_members_are_administrators"}
  const MessageKeys: set<string> := {"message_id", "from", "chat", "date", "text"}
  const PingKeys: set<string> := {"update_id", "message", "result"}
  const NewMemberDataKeys: set<string> := {"id", "is_bot", "first_name", "username", "language_code"}
  const NewMemberWrapperKeys: set<string> := {"new_chat_member", "from", "chat", "date"}
  const NewMemberKeys: set<string> := {"update_id", "message"}

  /**
   * Undeclared keys are ignored: two objects that agree on a model's declared keys
   * validate alike, whatever else either carries.
   */
  lemma UserIgnoresOtherKeys(o: Object, o': Object)
    requires AgreeOn(o, o', UserKeys)
    ensures ParseUser(JObject(o)) == ParseUser(JObject(o'))
  {
    assert "id" in UserKeys && "is_bot" in UserKeys && "first_name" in UserKeys;
    assert "last_name" in UserKeys && "username" in UserKeys;
  }

  lemma ChatIgnoresOtherKeys(o: Object, o': Object)
    requires AgreeOn(o, o', ChatKeys)
    ensures ParseChat(JObject(o)) == ParseChat(JObject(o'))
  {
    assert "id" in ChatKeys && "type" in ChatKeys && "all_members_are_administrators" in ChatKeys;
    FirstPresentAgree(o, o', ["title", "username"], ChatKeys);
  }

  lemma MessageIgnoresOtherKeys(o: Object, o': Object)
    requires AgreeOn(o, o', MessageKeys)
    ensures ParseMessage(JObject(o)) == ParseMessage(JObject(o'))
  {
    assert "message_id" in MessageKeys && "from" in MessageKeys && "chat" in MessageKeys;
    assert "date" in MessageKeys && "text" in MessageKeys;
  }

  lemma PingIgnoresOtherKeys(o: Object, o': Object)
    requires AgreeOn(o, o', PingKeys)
    ensures ParsePing(o) == ParsePing(o')
  {
    assert "update_id" in PingKeys;
    FirstPresentAgree(o, o', ["message", "result"], PingKeys);
  }

  lemma NewMemberDataIgnoresOtherKeys(o: Object, o': Object)
    requires AgreeOn(o, o', NewMemberDataKeys)
    ensures ParseNewMemberData(JObject(o)) == ParseNewMemberData(JObject(o'))
  {
    assert "id" in NewMemberDataKeys && "is_bot" in NewMemberDataKeys && "first_name" in NewMemberDataKeys;
    assert "username" in NewMemberDataKeys && "language_code" in NewMemberDataKeys;
  }

  lemma NewMemberWrapperIgnoresOtherKeys(o: Object, o': Object)
    requires AgreeOn(o, o', NewMemberWrapperKeys)
    ensures ParseNewMemberWrapper(JObject(o)) == ParseNewMemberWrapper(JObject(o'))
  {
    assert "new_chat_member" in NewMemberWrapperKeys && "from" in NewMemberWrapperKeys;
    assert "chat" in NewMemberWrapperKeys && "date" in NewMemberWrapperKeys;
  }

  lemma NewMemberIgnoresOtherKeys(o: Object, o': Object)
    requires AgreeOn(o, o', NewMemberKeys)
    ensures ParseNewMember(o) == ParseNewMember(o')
  {
    assert "update_id" in NewMemberKeys && "message" in NewMemberKeys;
  }

  /** A message object without `text` can never validate as a ping. */
  lemma PingNeedsText(o: Object)
    requires "message" in o && o["message"].JObject? && "text" !in o["message"].fields
    ensures ParsePing(o) == None
  {
  }

  /** Absent optional keys take their defaults. */
  lemma Defaults(user: Object, chat: Object, update: Object)
    ensures "last_name" !in user && "username" !in user && ParseUser(JObject(user)).Some? ==>
              ParseUser(JObject(user)).value.lastName == None && ParseUser(JObject(user)).value.username == None
    ensures "all_members_are_administrators" !in chat && ParseChat(JObject(chat)).Some? ==>
              !ParseChat(JObject(chat)).value.allMembersAreAdministrators
    ensures "update_id" !in update && ParsePing(update).Some? ==> ParsePing(update).value.updateId == None
    ensures "update_id" !in update && ParseNewMember(update).Some? ==> ParseNewMember(update).value.updateId == None
  {
  }

  // ---------------------------------------------------------------------------
  // Encoding: the payload Telegram sends for a value; the parsers invert it.

  function OptStrField(key: string, v: Option<string>): Object
  {
    if v.Some? then map[key := JStr(v.value)] else map[]
  }

  function UserToJson(u: TelegramUser): Json
  {
    JObject(map["id" := JInt(u.id), "is_bot" := JBool(u.isBot), "first_name" := JStr(u.firstName)]
            + OptStrField("last_name", u.lastName) + OptStrField("username", u.username))
  }

  function ChatToJson(c: TelegramChat): Json
  {
    JObject(map["id" := JInt(c.id), "title" := JStr(c.title), "type" := JStr(ChatTypeValue(c.chatType)),
                "all_members_are_administrators" := JBool(c.allMembersAreAdministrators)])
  }

  function MessageToJson(m: Message): Json
  {
    JObject(map["message_id" := JInt(m.messageId), "from" := UserToJson(m.from), "chat" := ChatToJson(m.chat),
                "date" := JInt(m.date), "text" := JStr(m.text)])
  }

  function PingToObject(p: TelegramUpdatePing): Object
  {
    map["message" := MessageToJson(p.message)]
    + (if p.updateId.Some? then map["update_id" := JInt(p.updateId.value)] else map[])
  }

  function NewMemberDataToJson(d: NewMemberData): Json
  {
    JObject(map["id" := JInt(d.id), "is_bot" := JBool(d.isBot), "first_name" := JStr(d.firstName)]
            + OptStrField("username", d.username) + OptStrField("language_code", d.languageCode))
  }

  function NewMemberWrapperToJson(w: NewMemberWrapper): Json
  {
    JObject(map["new_chat_member" := NewMemberDataToJson(w.newChatMember), "from" := UserToJson(w.from),
                "chat" := ChatToJson(w.chat), "date" := JInt(w.date)])
  }

  function NewMemberToObject(n: TelegramUpdateNewMember): Object
  {
    map["message" := NewMemberWrapperToJson(n.message)]
    + (if n.updateId.Some? then map["update_id" := JInt(n.updateId.value)] else map[])
  }

  lemma UserRoundTrip(u: TelegramUser)
    ensures ParseUser(UserToJson(u)) == Some(u)
  {
  }

  lemma ChatRoundTrip(c: TelegramChat)
    ensures ParseChat(ChatToJson(c)) == Some(c)
  {
  }

  lemma {:induction false} MessageRoundTrip(m: Message)
    ensures ParseMessage(MessageToJson(m)) == Some(m)
  {
    UserRoundTrip(m.from);
    ChatRoundTrip(m.chat);
  }

  /** Every well-formed ping payload validates to exactly the update it encodes. */
  lemma {:induction false} PingRoundTrip(p: TelegramUpdatePing)
    ensures ParsePing(PingToObject(p)) == Some(p)
  {
    var o := PingToObject(p);
    MessageRoundTrip(p.message);
    assert o["message"] == MessageToJson(p.message);
    assert FirstPresent(o, ["message", "result"]) == Some(MessageToJson(p.message));
    assert OptionalInt(o, "update_id") == Some(p.updateId);
  }

  lemma NewMemberDataRoundTrip(d: NewMemberData)
    ensures ParseNewMemberData(NewMemberDataToJson(d)) == Some(d)
  {
  }

  lemma {:induction false} NewMemberWrapperRoundTrip(w: NewMemberWrapper)
    ensures ParseNewMemberWrapper(NewMemberWrapperToJson(w)) == Some(w)
  {
    NewMemberDataRoundTrip(w.newChatMember);
    UserRoundTrip(w.from);
    ChatRoundTrip(w.chat);
  }

  /** Every well-formed new-member payload validates to exactly the update it encodes. */
  lemma {:induction false} NewMemberRoundTrip(n: TelegramUpdateNewMember)
    ensures ParseNewMember(NewMemberToObject(n)) == Some(n)
  {
    NewMemberWrapperRoundTrip(n.message);
  }
}

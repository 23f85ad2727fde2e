/**
 * Bot commands, their validation, and the scopes commands are registered
 * for (src/types/bot_command.rs).
 */
module BotCommands {
  import opened Common
  import opened Decimal
  import opened Json
  import opened Primitives

  const MinNameLen: nat := 1
  const MaxNameLen: nat := 32
  const MinDescriptionLen: nat := 3
  const MaxDescriptionLen: nat := 256

  /** Text measured the way `String::len` measures it: in UTF-8 bytes. */
  type Utf8 = seq<byte>

  predicate NameLenOk(len: nat) { MinNameLen <= len <= MaxNameLen }

  predicate DescriptionLenOk(len: nat) { MinDescriptionLen <= len <= MaxDescriptionLen }

  datatype BotCommand = BotCommand(command: Utf8, description: Utf8) {
    function Name(): Utf8 { command }

    function Description(): Utf8 { description }

    /** Both lengths within their bounds. */
    predicate Valid() { NameLenOk(|command|) && DescriptionLenOk(|description|) }
  }

  datatype BotCommandError = BadNameLen(len: nat) | BadDescriptionLen(len: nat)

  /**
   * What an error returned for `name` and `description` must be: it carries
   * the length of the field it blames, that length is out of bounds, and
   * the description is blamed only when the name is fine.
   */
  predicate Blames(e: BotCommandError, name: Utf8, description: Utf8) {
    match e
    case BadNameLen(len) => len == |name| && !NameLenOk(len)
    case BadDescriptionLen(len) => NameLenOk(|name|) && len == |description| && !DescriptionLenOk(len)
  }

  /** `BotCommand::new`: the name is checked before the description. */
  function New(name: Utf8, description: Utf8): (r: Result<BotCommand, BotCommandError>)
    ensures r.Ok? <==> NameLenOk(|name|) && DescriptionLenOk(|description|)
    ensures r.Ok? ==> r.value.Valid() && r.value.Name() == name && r.value.Description() == description
    ensures r.Err? ==> Blames(r.error, name, description)
  {
    if !NameLenOk(|name|) then
      Err(BadNameLen(|name|))
    else if !DescriptionLenOk(|description|) then
      Err(BadDescriptionLen(|description|))
    else
      Ok(BotCommand(name, description))
  }

  /** A bad name is reported whatever the description is. */
  lemma NameCheckedFirst(name: Utf8, description: Utf8)
    requires !NameLenOk(|name|)
    ensures New(name, description) == Err(BadNameLen(|name|))
  {
  }

  /** The boundary lengths the library's tests exercise. */
  lemma Boundaries(name: Utf8, description: Utf8)
    ensures DescriptionLenOk(|description|) && (|name| == 1 || |name| == 32) ==> New(name, description).Ok?
    ensures |name| == 0 || |name| == 33 ==> New(name, description) == Err(BadNameLen(|name|))
    ensures NameLenOk(|name|) && (|description| == 3 || |description| == 256) ==> New(name, description).Ok?
    ensures NameLenOk(|name|) && (|description| == 2 || |description| == 257) ==>
              New(name, description) == Err(BadDescriptionLen(|description|))
  {
  }

  /**
   * The text both error messages share: the field, its bounds, and the
   * words before the length that was got.
   */
  function MessagePrefix(field: string, min: nat, max: nat): (p: string)
    ensures |field| > 0 ==> |p| > 8 && p[8] == field[0]
  {
    "command " + field + " can have a length of " + NatToString(min) + " up to "
    + NatToString(max) + " characters, got "
  }

  /** The `Display` text of an error: the field, its bounds, then the length it got. */
  function Message(e: BotCommandError): (m: string)
    ensures |m| > 8 && m[8] == (if e.BadNameLen? then 'n' else 'd')
    ensures |NatToString(e.len)| < |m| && m[|m| - |NatToString(e.len)|..] == NatToString(e.len)
  {
    match e
    case BadNameLen(len) => MessagePrefix("name", MinNameLen, MaxNameLen) + NatToString(len)
    case BadDescriptionLen(len) =>
      MessagePrefix("description", MinDescriptionLen, MaxDescriptionLen) + NatToString(len)
  }

  /** The message names the field and the exact length: distinct errors read differently. */
  lemma MessageDeterminesError(e1: BotCommandError, e2: BotCommandError)
    ensures Message(e1) == Message(e2) <==> e1 == e2
  {
    if Message(e1) == Message(e2) {
      assert Message(e1)[8] == Message(e2)[8];
      var p := if e1.BadNameLen? then MessagePrefix("name", MinNameLen, MaxNameLen)
               else MessagePrefix("description", MinDescriptionLen, MaxDescriptionLen);
      assert Message(e1)[|p|..] == NatToString(e1.len);
      assert Message(e2)[|p|..] == NatToString(e2.len);
      NatToStringInjective(e1.len, e2.len);
    }
  }

  /** The bounds in the messages are rendered as the decimal numbers 1, 32, 3 and 256. */
  lemma MessagePrefixes()
    ensures MessagePrefix("name", MinNameLen, MaxNameLen)
            == "command " + "name" + " can have a length of " + "1" + " up to " + "32" + " characters, got "
    ensures MessagePrefix("description", MinDescriptionLen, MaxDescriptionLen)
            == "command " + "description" + " can have a length of " + "3" + " up to " + "256" + " characters, got "
  {
    assert NatToString(MinNameLen) == "1" && NatToString(MaxNameLen) == "32";
    assert NatToString(MinDescriptionLen) == "3" && NatToString(MaxDescriptionLen) == "256";
  }

  /** The messages the library's tests expect, piece by piece. */
  lemma TestMessages()
    ensures Message(BadNameLen(0))
            == "command " + "name" + " can have a length of " + "1" + " up to " + "32" + " characters, got " + "0"
    ensures Message(BadNameLen(33))
            == "command " + "name" + " can have a length of " + "1" + " up to " + "32" + " characters, got " + "33"
    ensures Message(BadDescriptionLen(1))
            == "command " + "description" + " can have a length of " + "3" + " up to " + "256" + " characters, got " + "1"
    ensures Message(BadDescriptionLen(257))
            == "command " + "description" + " can have a length of " + "3" + " up to " + "256" + " characters, got " + "257"
  {
    MessagePrefixes();
    assert NatToString(33) == "33";
    assert NatToString(257) == "257";
  }

  /** Which chats and users a set of bot commands applies to. */
  datatype BotCommandScope =
    | Default
    | AllPrivateChats
    | AllGroupChats
    | AllChatAdministrators
    | Chat(chatId: ChatId)
    | ChatAdministrators(chatId: ChatId)
    | ChatMember(chatId: ChatId, userId: Integer)

  /** The Rust name of each variant. */
  function VariantName(s: BotCommandScope): string {
    match s
    case Default => "Default"
    case AllPrivateChats => "AllPrivateChats"
    case AllGroupChats => "AllGroupChats"
    case AllChatAdministrators => "AllChatAdministrators"
    case Chat(_) => "Chat"
    case ChatAdministrators(_) => "ChatAdministrators"
    case ChatMember(_, _) => "ChatMember"
  }

  /** The `type` discriminator each variant is written with. */
  function TypeName(s: BotCommandScope): string {
    match s
    case Default => "default"
    case AllPrivateChats => "all_private_chats"
    case AllGroupChats => "all_group_chats"
    case AllChatAdministrators => "all_chat_administrators"
    case Chat(_) => "chat"
    case ChatAdministrators(_) => "chat_administrators"
    case ChatMember(_, _) => "chat_member"
  }

  predicate IsUpper(c: char) { 'A' <= c <= 'Z' }

  function ToLower(c: char): char {
    if IsUpper(c) then (c as int - 'A' as int + 'a' as int) as char else c
  }

  /**
   * serde's `snake_case` renaming, from position `i` of `name` on: every
   * letter is lower-cased, and an upper-case letter other than the first
   * gets an underscore before it.
   */
  function SnakeCaseFrom(name: string, i: nat): string
    decreases |name| - i
  {
    if i >= |name| then ""
    else (if i > 0 && IsUpper(name[i]) then "_" else "") + [ToLower(name[i])] + SnakeCaseFrom(name, i + 1)
  }

  function SnakeCase(name: string): string {
    SnakeCaseFrom(name, 0)
  }

  /** `l` is `c` lower-cased. */
  predicate IsLowerOf(l: char, c: char)
    ensures IsLowerOf(l, c) <==> l == ToLower(c)
  {
    if IsUpper(c) then l as int == c as int + 32 else l == c
  }

  /**
   * `t[j..]` is the snake_case form of `name[i..]`, checked one character
   * at a time (cheap to evaluate on constant names).
   */
  predicate MatchesFrom(name: string, i: nat, t: string, j: nat)
    decreases |name| - i
  {
    if i >= |name| then j == |t|
    else if i > 0 && IsUpper(name[i]) then
      j + 1 < |t| && t[j] == '_' && IsLowerOf(t[j + 1], name[i]) && MatchesFrom(name, i + 1, t, j + 2)
    else
      j < |t| && IsLowerOf(t[j], name[i]) && MatchesFrom(name, i + 1, t, j + 1)
  }

  lemma {:induction false} MatchesIsSnakeCase(name: string, i: nat, t: string, j: nat)
    requires j <= |t| && MatchesFrom(name, i, t, j)
    ensures SnakeCaseFrom(name, i) == t[j..]
    decreases |name| - i
  {
    if i < |name| {
      if i > 0 && IsUpper(name[i]) {
        MatchesIsSnakeCase(name, i + 1, t, j + 2);
        assert t[j..] == [t[j], t[j + 1]] + t[j + 2..];
      } else {
        MatchesIsSnakeCase(name, i + 1, t, j + 1);
        assert t[j..] == [t[j]] + t[j + 1..];
      }
    }
  }

  lemma SnakeCaseDefault()
    ensures SnakeCase("Default") == "default"
  {
    assert MatchesFrom("Default", 0, "default", 0);
    MatchesIsSnakeCase("Default", 0, "default", 0);
    assert "default"[0..] == "default";
  }

  lemma SnakeCaseAllPrivateChats()
    ensures SnakeCase("AllPrivateChats") == "all_private_chats"
  {
    assert MatchesFrom("AllPrivateChats", 10, "all_private_chats", 11);
    assert MatchesFrom("AllPrivateChats", 0, "all_private_chats", 0);
    MatchesIsSnakeCase("AllPrivateChats", 0, "all_private_chats", 0);
    assert "all_private_chats"[0..] == "all_private_chats";
  }

  lemma SnakeCaseAllGroupChats()
    ensures SnakeCase("AllGroupChats") == "all_group_chats"
  {
    assert MatchesFrom("AllGroupChats", 8, "all_group_chats", 9);
    assert MatchesFrom("AllGroupChats", 0, "all_group_chats", 0);
    MatchesIsSnakeCase("AllGroupChats", 0, "all_group_chats", 0);
    assert "all_group_chats"[0..] == "all_group_chats";
  }

  lemma MatchesAllChatAdministrators()
    ensures MatchesFrom("AllChatAdministrators", 0, "all_chat_administrators", 0)
  {
    assert MatchesFrom("AllChatAdministrators", 14, "all_chat_administrators", 16);
    assert MatchesFrom("AllChatAdministrators", 7, "all_chat_administrators", 8);
  }

  lemma SnakeCaseAllChatAdministrators()
    ensures SnakeCase("AllChatAdministrators") == "all_chat_administrators"
  {
    MatchesAllChatAdministrators();
    MatchesIsSnakeCase("AllChatAdministrators", 0, "all_chat_administrators", 0);
    assert "all_chat_administrators"[0..] == "all_chat_administrators";
  }

  lemma SnakeCaseChat()
    ensures SnakeCase("Chat") == "chat"
  {
    assert MatchesFrom("Chat", 0, "chat", 0);
    MatchesIsSnakeCase("Chat", 0, "chat", 0);
    assert "chat"[0..] == "chat";
  }

  lemma MatchesChatAdministrators()
    ensures MatchesFrom("ChatAdministrators", 0, "chat_administrators", 0)
  {
    assert MatchesFrom("ChatAdministrators", 11, "chat_administrators", 12);
  }

  lemma SnakeCaseChatAdministrators()
    ensures SnakeCase("ChatAdministrators") == "chat_administrators"
  {
    MatchesChatAdministrators();
    MatchesIsSnakeCase("ChatAdministrators", 0, "chat_administrators", 0);
    assert "chat_administrators"[0..] == "chat_administrators";
  }

  lemma SnakeCaseChatMember()
    ensures SnakeCase("ChatMember") == "chat_member"
  {
    assert MatchesFrom("ChatMember", 0, "chat_member", 0);
    MatchesIsSnakeCase("ChatMember", 0, "chat_member", 0);
    assert "chat_member"[0..] == "chat_member";
  }

  /** Every discriminator is the snake_case form of its variant's name. */
  lemma TypeNameIsSnakeCase(s: BotCommandScope)
    ensures TypeName(s) == SnakeCase(VariantName(s))
  {
    match s
    case Default => SnakeCaseDefault();
    case AllPrivateChats => SnakeCaseAllPrivateChats();
    case AllGroupChats => SnakeCaseAllGroupChats();
    case AllChatAdministrators => SnakeCaseAllChatAdministrators();
    case Chat(_) => SnakeCaseChat();
    case ChatAdministrators(_) => SnakeCaseChatAdministrators();
    case ChatMember(_, _) => SnakeCaseChatMember();
  }

  /** The fields beside `type` that a variant carries. */
  function IdFields(s: BotCommandScope): JsonObject {
    match s
    case Chat(c) => map["chat_id" := ChatIdToJson(c)]
    case ChatAdministrators(c) => map["chat_id" := ChatIdToJson(c)]
    case ChatMember(c, u) => map["chat_id" := ChatIdToJson(c), "user_id" := Int(u)]
    case _ => map[]
  }

  /** The internally tagged object serde writes for a scope. */
  function ToJson(s: BotCommandScope): (v: Value)
    ensures v.Obj? && "type" in v.fields && v.fields["type"] == Str(TypeName(s))
  {
    Obj(IdFields(s)["type" := Str(TypeName(s))])
  }

  /** `BotCommandScope::chat`. */
  function ChatScope(chatId: ChatId): (s: BotCommandScope)
    ensures s.Chat? && s.chatId == chatId
    ensures ToJson(s) == Obj(map["type" := Str("chat"), "chat_id" := ChatIdToJson(chatId)])
  {
    Chat(chatId)
  }

  /** `BotCommandScope::chat_administrators`. */
  function ChatAdministratorsScope(chatId: ChatId): (s: BotCommandScope)
    ensures s.ChatAdministrators? && s.chatId == chatId
    ensures ToJson(s) == Obj(map["type" := Str("chat_administrators"), "chat_id" := ChatIdToJson(chatId)])
  {
    ChatAdministrators(chatId)
  }

  /** `BotCommandScope::chat_member`. */
  function ChatMemberScope(chatId: ChatId, userId: Integer): (s: BotCommandScope)
    ensures s.ChatMember? && s.chatId == chatId && s.userId == userId
    ensures ToJson(s) == Obj(map["type" := Str("chat_member"), "chat_id" := ChatIdToJson(chatId),
                                 "user_id" := Int(userId)])
  {
    ChatMember(chatId, userId)
  }

  /** Reading a scope back: the tag picks the variant, unknown keys are ignored. */
  function Parse(v: Value): (r: Option<BotCommandScope>)
    ensures r.Some? ==> v.Obj? && "type" in v.fields && v.fields["type"] == Str(TypeName(r.value))
  {
    if !v.Obj? || "type" !in v.fields || !v.fields["type"].Str? then None
    else
      var f := v.fields;
      var tag := f["type"].s;
      if tag == "default" then Some(Default)
      else if tag == "all_private_chats" then Some(AllPrivateChats)
      else if tag == "all_group_chats" then Some(AllGroupChats)
      else if tag == "all_chat_administrators" then Some(AllChatAdministrators)
      else if tag == "chat" || tag == "chat_administrators" || tag == "chat_member" then
        if "chat_id" !in f then None
        else
          var c := ParseChatId(f["chat_id"]);
          if c.None? then None
          else if tag == "chat" then Some(Chat(c.value))
          else if tag == "chat_administrators" then Some(ChatAdministrators(c.value))
          else if "user_id" in f && f["user_id"].Int? && IntegerMin <= f["user_id"].i < IntegerLimit then
            Some(ChatMember(c.value, f["user_id"].i))
          else None
      else None
  }

  /** Serialise-then-parse gives back the same scope. */
  lemma RoundTrip(s: BotCommandScope)
    ensures Parse(ToJson(s)) == Some(s)
  {
    if s.Chat? || s.ChatAdministrators? || s.ChatMember? {
      ChatIdRoundTrip(s.chatId);
    }
  }

  /** `sub` is contained in `m`: same value under every key of `sub`. */
  predicate Extends(m: JsonObject, sub: JsonObject) {
    forall k :: k in sub ==> k in m && m[k] == sub[k]
  }

  /** Whatever parses to `s` holds everything `s` serialises to. */
  lemma ParseSound(v: Value, s: BotCommandScope)
    requires Parse(v) == Some(s)
    ensures v.Obj? && Extends(v.fields, ToJson(s).fields)
  {
    if s.Chat? || s.ChatAdministrators? || s.ChatMember? {
      assert ParseChatId(v.fields["chat_id"]) == Some(s.chatId);
    }
  }

  /** Any object holding everything `s` serialises to parses to `s`, whatever else it holds. */
  lemma ParseComplete(v: Value, s: BotCommandScope)
    requires v.Obj? && Extends(v.fields, ToJson(s).fields)
    ensures Parse(v) == Some(s)
  {
    assert v.fields["type"] == Str(TypeName(s));
    if s.Chat? || s.ChatAdministrators? || s.ChatMember? {
      assert v.fields["chat_id"] == ChatIdToJson(s.chatId);
      ChatIdRoundTrip(s.chatId);
    }
    if s.ChatMember? {
      assert v.fields["user_id"] == Int(s.userId);
    }
  }

  /** A value parses to `s` exactly when it is an object holding everything `s` serialises to. */
  lemma ParseAccepts(v: Value, s: BotCommandScope)
    ensures Parse(v) == Some(s) <==> v.Obj? && Extends(v.fields, ToJson(s).fields)
  {
    if Parse(v) == Some(s) {
      ParseSound(v, s);
    }
    if v.Obj? && Extends(v.fields, ToJson(s).fields) {
      ParseComplete(v, s);
    }
  }
}

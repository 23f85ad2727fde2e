/**
 * Types the core passes around whose own definitions live elsewhere in the
 * library: the 64-bit `Integer`, `ChatId`, `ParseMode`, `TextEntity` and
 * `InputFile`. Only the parts the core relies on are modelled.
 */
module Primitives {
  import opened Common
  import opened Json

  const IntegerMin: int := -0x8000_0000_0000_0000
  const IntegerLimit: int := 0x8000_0000_0000_0000

  /** The library's `Integer`, a signed 64-bit integer. */
  type Integer = x: int | IntegerMin <= x < IntegerLimit

  /** A chat: a numeric id or the username of a supergroup or channel. */
  datatype ChatId = Id(id: Integer) | Username(username: string)

  /** `ChatId` is an untagged enum: it is written as the bare number or string. */
  function ChatIdToJson(c: ChatId): Value {
    match c
    case Id(i) => Int(i)
    case Username(u) => Str(u)
  }

  /** Reading an untagged `ChatId`: a number that fits `Integer`, else a string. */
  function ParseChatId(v: Value): (r: Option<ChatId>)
    ensures r.Some? <==> exists c :: v == ChatIdToJson(c)
    ensures r.Some? ==> ChatIdToJson(r.value) == v
  {
    match v
    case Int(i) =>
      if IntegerMin <= i < IntegerLimit then
        assert v == ChatIdToJson(Id(i));
        Some(Id(i))
      else
        assert forall c :: v != ChatIdToJson(c);
        None
    case Str(s) =>
      assert v == ChatIdToJson(Username(s));
      Some(Username(s))
    case _ =>
      assert forall c :: v != ChatIdToJson(c);
      None
  }

  lemma ChatIdRoundTrip(c: ChatId)
    ensures ParseChatId(ChatIdToJson(c)) == Some(c)
  {
  }

  datatype ParseMode = Markdown | MarkdownV2 | Html

  /** The text a parse mode is serialised as. */
  function ParseModeName(p: ParseMode): string {
    match p
    case Markdown => "Markdown"
    case MarkdownV2 => "MarkdownV2"
    case Html => "HTML"
  }

  /** A formatting annotation over a range of text, such as bold over 0..10. */
  datatype TextEntity = TextEntity(kind: string, offset: Integer, length: Integer)

  function TextEntityToJson(e: TextEntity): Value {
    Obj(map["type" := Str(e.kind), "offset" := Int(e.offset), "length" := Int(e.length)])
  }

  /** An entity list is written as an array of entity objects, in order. */
  function TextEntitiesToJson(es: seq<TextEntity>): Value
  {
    Array(seq(|es|, i requires 0 <= i < |es| => TextEntityToJson(es[i])))
  }

  /** A file to send: a file id known to the server, a URL, or uploaded bytes. */
  datatype InputFile = FileId(id: string) | Url(url: string) | Upload(name: string, content: seq<byte>)
}

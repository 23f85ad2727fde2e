/**
 * `sendVoice`: a builder over a multipart form. Every setter writes one
 * named field in place; the two caption formatting setters also remove the
 * other's field, so a parse mode and caption entities never travel together.
 */
module Voice {
  import opened Common
  import Decimal
  import opened Primitives
  import opened Requests

  /** One call on the builder, with the text it writes. */
  datatype VoiceSetter =
    | Caption(caption: string)
      /** `caption_entities` after the entity list serialised to `encoded`. */
    | CaptionEntities(encoded: string)
    | Mode(mode: ParseMode)
    | Duration(seconds: Integer)
    | DisableNotification(silent: bool)
    | ReplyToMessageId(messageId: Integer)
    | AllowSendingWithoutReply(allow: bool)
      /** `reply_markup` after the markup serialised to `encoded`. */
    | ReplyMarkup(encoded: string)

  /** The form field a setter writes. */
  function FieldName(op: VoiceSetter): string {
    match op
    case Caption(_) => "caption"
    case CaptionEntities(_) => "caption_entities"
    case Mode(_) => "parse_mode"
    case Duration(_) => "duration"
    case DisableNotification(_) => "disable_notification"
    case ReplyToMessageId(_) => "reply_to_message_id"
    case AllowSendingWithoutReply(_) => "allow_sending_without_reply"
    case ReplyMarkup(_) => "reply_markup"
  }

  /** The text a setter writes into its field. */
  function FieldValue(op: VoiceSetter): FormValue {
    match op
    case Caption(c) => Text(c)
    case CaptionEntities(e) => Text(e)
    case Mode(m) => Text(ParseModeName(m))
    case Duration(d) => Text(IntegerText(d))
    case DisableNotification(b) => Text(BoolText(b))
    case ReplyToMessageId(i) => Text(IntegerText(i))
    case AllowSendingWithoutReply(b) => Text(BoolText(b))
    case ReplyMarkup(m) => Text(m)
  }

  /** The field a setter removes, if any: each formatting setter clears the other. */
  function Cleared(op: VoiceSetter): Option<string> {
    match op
    case CaptionEntities(_) => Some("parse_mode")
    case Mode(_) => Some("caption_entities")
    case _ => None
  }

  predicate IsFormatting(op: VoiceSetter) {
    op.CaptionEntities? || op.Mode?
  }

  /** A parse mode and caption entities are never both in the form. */
  predicate ExclusiveFormatting(form: Form) {
    !("parse_mode" in form && "caption_entities" in form)
  }

  /** The state every request reaches: the two required fields, and exclusive formatting. */
  predicate WellFormed(form: Form) {
    "chat_id" in form && "voice" in form && ExclusiveFormatting(form)
  }

  /**
   * The form after one setter: its own field holds its value, the field it
   * clears is gone, and every other field is as it was.
   */
  function Apply(form: Form, op: VoiceSetter): (r: Form)
    ensures FieldName(op) in r && r[FieldName(op)] == FieldValue(op)
    ensures Cleared(op).Some? ==> Cleared(op).value !in r
    ensures IsFormatting(op) ==> ExclusiveFormatting(r)
    ensures WellFormed(form) ==> WellFormed(r)
  {
    match op
    case CaptionEntities(e) => form["caption_entities" := Text(e)] - {"parse_mode"}
    case Mode(m) => form["parse_mode" := Text(ParseModeName(m))] - {"caption_entities"}
    case _ => form[FieldName(op) := FieldValue(op)]
  }

  /** Every field a setter neither writes nor clears is as it was. */
  lemma ApplyFrame(form: Form, op: VoiceSetter, k: string)
    requires k != FieldName(op) && Some(k) != Cleared(op)
    ensures k in Apply(form, op) <==> k in form
    ensures k in form ==> Apply(form, op)[k] == form[k]
  {
  }

  /** The form after a sequence of setters, applied left to right. */
  function ApplyAll(form: Form, ops: seq<VoiceSetter>): Form
    decreases |ops|
  {
    if |ops| == 0 then form else ApplyAll(Apply(form, ops[0]), ops[1..])
  }

  /** Any sequence of setters keeps a well-formed form well-formed. */
  lemma {:induction false} ApplyAllKeepsWellFormed(form: Form, ops: seq<VoiceSetter>)
    requires WellFormed(form)
    ensures WellFormed(ApplyAll(form, ops))
    decreases |ops|
  {
    if |ops| > 0 {
      ApplyAllKeepsWellFormed(Apply(form, ops[0]), ops[1..]);
    }
  }

  /** Setters that are not formatting setters leave both formatting fields as they were. */
  lemma {:induction false} NonFormattingKeepsFormatting(form: Form, ops: seq<VoiceSetter>)
    requires forall i :: 0 <= i < |ops| ==> !IsFormatting(ops[i])
    ensures ("parse_mode" in ApplyAll(form, ops)) == ("parse_mode" in form)
    ensures ("caption_entities" in ApplyAll(form, ops)) == ("caption_entities" in form)
    decreases |ops|
  {
    if |ops| > 0 {
      ApplyFrame(form, ops[0], "parse_mode");
      ApplyFrame(form, ops[0], "caption_entities");
      NonFormattingKeepsFormatting(Apply(form, ops[0]), ops[1..]);
    }
  }

  /**
   * Whichever formatting setter comes last decides: its field is present
   * and the other one is absent, whatever came before.
   */
  lemma LastFormattingWins(form: Form, ops: seq<VoiceSetter>, i: nat)
    requires i < |ops| && IsFormatting(ops[i])
    requires forall j :: i < j < |ops| ==> !IsFormatting(ops[j])
    ensures FieldName(ops[i]) in ApplyAll(form, ops)
    ensures Cleared(ops[i]).value !in ApplyAll(form, ops)
  {
    ApplyAllSplit(form, ops, i + 1);
    var mid := ApplyAll(form, ops[..i + 1]);
    ApplyAllSplit(form, ops[..i + 1], i);
    assert ops[..i + 1][i..] == [ops[i]];
    assert ops[..i + 1][..i] == ops[..i];
    NonFormattingKeepsFormatting(mid, ops[i + 1..]);
  }

  /** No setter in `ops` writes or clears field `k`. */
  predicate Untouched(ops: seq<VoiceSetter>, k: string) {
    forall j :: 0 <= j < |ops| ==> FieldName(ops[j]) != k && Cleared(ops[j]) != Some(k)
  }

  /** A field no setter touches keeps whatever it held, or stays absent. */
  lemma {:induction false} ApplyAllUntouched(form: Form, ops: seq<VoiceSetter>, k: string)
    requires Untouched(ops, k)
    ensures k in ApplyAll(form, ops) <==> k in form
    ensures k in form ==> ApplyAll(form, ops)[k] == form[k]
    decreases |ops|
  {
    if |ops| > 0 {
      ApplyFrame(form, ops[0], k);
      ApplyAllUntouched(Apply(form, ops[0]), ops[1..], k);
    }
  }

  /** A field holds the value of the last setter that wrote it: the request carries every field set. */
  lemma ApplyAllLastWrite(form: Form, ops: seq<VoiceSetter>, i: nat)
    requires i < |ops| && Untouched(ops[i + 1..], FieldName(ops[i]))
    ensures FieldName(ops[i]) in ApplyAll(form, ops)
    ensures ApplyAll(form, ops)[FieldName(ops[i])] == FieldValue(ops[i])
  {
    ApplyAllSplit(form, ops, i + 1);
    ApplyAllSplit(form, ops[..i + 1], i);
    assert ops[..i + 1][i..] == [ops[i]];
    assert ops[..i + 1][..i] == ops[..i];
    ApplyAllUntouched(ApplyAll(form, ops[..i + 1]), ops[i + 1..], FieldName(ops[i]));
  }

  /** Applying a sequence is applying its two halves in turn. */
  lemma {:induction false} ApplyAllSplit(form: Form, ops: seq<VoiceSetter>, n: nat)
    requires n <= |ops|
    ensures ApplyAll(form, ops) == ApplyAll(ApplyAll(form, ops[..n]), ops[n..])
    decreases n
  {
    if n > 0 {
      assert ops[..n][0] == ops[0];
      assert ops[..n][1..] == ops[1..][..n - 1];
      assert ops[n..] == ops[1..][n - 1..];
      ApplyAllSplit(Apply(form, ops[0]), ops[1..], n - 1);
    }
  }

  /** The form a new request starts from. */
  function Initial(chatId: ChatId, voice: InputFile): (form: Form)
    ensures WellFormed(form) && form.Keys == {"chat_id", "voice"}
  {
    map["chat_id" := Text(ChatIdText(chatId)), "voice" := File(voice)]
  }

  class SendVoice {
    var form: Form

    ghost predicate Valid()
      reads this
    {
      WellFormed(form)
    }

    /** A new request holds exactly the chat and the voice file. */
    constructor (chatId: ChatId, voice: InputFile)
      ensures form == Initial(chatId, voice)
      ensures Valid()
    {
      var fields: Form := map[];
      fields := fields["chat_id" := Text(ChatIdText(chatId))];
      fields := fields["voice" := File(voice)];
      form := fields;
    }

    method SetCaption(value: string)
      modifies this
      ensures form == Apply(old(form), Caption(value))
      ensures old(Valid()) ==> Valid()
    {
      form := form["caption" := Text(value)];
    }

    /**
     * Entity serialisation happens first; when it fails, its error comes
     * back and the form is untouched. Otherwise the entities are written and
     * any parse mode is removed.
     */
    method SetCaptionEntities<E>(encoded: Result<string, E>) returns (r: Result<(), E>)
      modifies this
      ensures encoded.Err? ==> r == Err(encoded.error) && form == old(form)
      ensures encoded.Ok? ==> r.Ok? && form == Apply(old(form), CaptionEntities(encoded.value))
      ensures old(Valid()) ==> Valid()
    {
      if encoded.Err? {
        return Err(encoded.error);
      }
      form := form["caption_entities" := Text(encoded.value)];
      form := form - {"parse_mode"};
      r := Ok(());
    }

    /** Writes the parse mode and removes any caption entities. */
    method SetParseMode(mode: ParseMode)
      modifies this
      ensures form == Apply(old(form), Mode(mode))
      ensures old(Valid()) ==> Valid()
    {
      form := form["parse_mode" := Text(ParseModeName(mode))];
      form := form - {"caption_entities"};
    }

    method SetDuration(seconds: Integer)
      modifies this
      ensures form == Apply(old(form), Duration(seconds))
      ensures old(Valid()) ==> Valid()
    {
      form := form["duration" := Text(IntegerText(seconds))];
    }

    method SetDisableNotification(silent: bool)
      modifies this
      ensures form == Apply(old(form), DisableNotification(silent))
      ensures old(Valid()) ==> Valid()
    {
      form := form["disable_notification" := Text(BoolText(silent))];
    }

    method SetReplyToMessageId(messageId: Integer)
      modifies this
      ensures form == Apply(old(form), ReplyToMessageId(messageId))
      ensures old(Valid()) ==> Valid()
    {
      form := form["reply_to_message_id" := Text(IntegerText(messageId))];
    }

    method SetAllowSendingWithoutReply(allow: bool)
      modifies this
      ensures form == Apply(old(form), AllowSendingWithoutReply(allow))
      ensures old(Valid()) ==> Valid()
    {
      form := form["allow_sending_without_reply" := Text(BoolText(allow))];
    }

    /** Markup serialisation happens first; when it fails, the form is untouched. */
    method SetReplyMarkup<E>(encoded: Result<string, E>) returns (r: Result<(), E>)
      modifies this
      ensures encoded.Err? ==> r == Err(encoded.error) && form == old(form)
      ensures encoded.Ok? ==> r.Ok? && form == Apply(old(form), ReplyMarkup(encoded.value))
      ensures old(Valid()) ==> Valid()
    {
      if encoded.Err? {
        return Err(encoded.error);
      }
      form := form["reply_markup" := Text(encoded.value)];
      r := Ok(());
    }

    /** A multipart POST carrying every field set so far. */
    function IntoRequest(): (r: Request)
      reads this
      ensures r.GetMethod() == Post && r.methodName == "sendVoice"
      ensures r.body == FormBody(form)
    {
      FormRequest("sendVoice", form)
    }
  }

  /**
   * The library's `send_voice_caption` test: after a parse mode, caption
   * entities replace it.
   */
  method CaptionScenario(voice: InputFile, entities: string) returns (form: Form)
    ensures "parse_mode" !in form
    ensures "caption_entities" in form && form["caption_entities"] == Text(entities)
    ensures "chat_id" in form && form["chat_id"] == Text("1")
  {
    var sv := new SendVoice(Id(1), voice);
    sv.SetParseMode(Markdown);
    assert sv.form["parse_mode"] == Text("Markdown");
    var r := sv.SetCaptionEntities<()>(Ok(entities));
    form := sv.form;
  }

  /** The texts the library's `send_voice` test expects each setter to write. */
  lemma SendVoiceTexts(voice: InputFile, markup: string)
    ensures Initial(Id(1), voice)["chat_id"] == Text("1")
    ensures FieldValue(Caption("caption")) == Text("caption")
    ensures FieldValue(Mode(Markdown)) == Text("Markdown")
    ensures FieldValue(Duration(100)) == Text("100")
    ensures FieldValue(DisableNotification(true)) == Text("true")
    ensures FieldValue(ReplyToMessageId(1)) == Text("1")
    ensures FieldValue(AllowSendingWithoutReply(true)) == Text("true")
    ensures FieldValue(ReplyMarkup(markup)) == Text(markup)
  {
    assert Decimal.NatToString(100) == "100";
  }
}

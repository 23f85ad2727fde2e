/**
 * A general file sent as part of a media group: an optional caption, its
 * parse mode and a switch for server-side content type detection. Every
 * field is optional and independent of the others.
 */
module InputMedia {
  import opened Common
  import opened Json
  import opened Primitives

  datatype InputMediaDocument = InputMediaDocument(
    caption: Option<string>,
    parseMode: Option<ParseMode>,
    disableContentTypeDetection: Option<bool>)
  {
    static const Keys: seq<string> := ["caption", "parse_mode", "disable_content_type_detection"]

    static lemma KeysDistinct()
      ensures Distinct(Keys)
    {
    }

    function Values(): (vs: seq<Option<Value>>)
      ensures |vs| == |Keys|
    {
      [OptStr(caption),
       if parseMode.Some? then Some(Str(ParseModeName(parseMode.value))) else None,
       OptBool(disableContentTypeDetection)]
    }

    /** The default document has every field absent and serialises to the empty object. */
    static function Default(): (d: InputMediaDocument)
      ensures d.caption.None? && d.parseMode.None? && d.disableContentTypeDetection.None?
      ensures d.ToJson() == map[]
    {
      var d := InputMediaDocument(None, None, None);
      ObjectOfNone(Keys, d.Values());
      d
    }

    /** Each field is written exactly when it is set. */
    function ToJson(): (m: JsonObject)
      ensures "caption" in m <==> caption.Some?
      ensures "parse_mode" in m <==> parseMode.Some?
      ensures "disable_content_type_detection" in m <==> disableContentTypeDetection.Some?
      ensures caption.Some? ==> m["caption"] == Str(caption.value)
      ensures parseMode.Some? ==> m["parse_mode"] == Str(ParseModeName(parseMode.value))
      ensures disableContentTypeDetection.Some? ==>
                m["disable_content_type_detection"] == Bool(disableContentTypeDetection.value)
      ensures m.Keys <= {"caption", "parse_mode", "disable_content_type_detection"}
    {
      var vs := Values();
      KeysDistinct();
      ObjectOfAt(Keys, vs, 0);
      ObjectOfAt(Keys, vs, 1);
      ObjectOfAt(Keys, vs, 2);
      ObjectOfKeys(Keys, vs);
      ObjectOf(Keys, vs)
    }

    /** Sets the caption and nothing else. */
    function WithCaption(caption: string): (r: InputMediaDocument)
      ensures r.caption == Some(caption)
      ensures r.(caption := this.caption) == this
      ensures r.ToJson() == ToJson()["caption" := Str(caption)]
    {
      var r := this.(caption := Some(caption));
      assert r.Values() == Values()[0 := Some(Str(caption))];
      KeysDistinct();
      ObjectOfUpdate(Keys, Values(), 0, Str(caption));
      r
    }

    /** Sets the parse mode and nothing else: unlike a text message, the caption is kept. */
    function WithParseMode(mode: ParseMode): (r: InputMediaDocument)
      ensures r.parseMode == Some(mode) && r.caption == caption
      ensures r.(parseMode := parseMode) == this
      ensures r.ToJson() == ToJson()["parse_mode" := Str(ParseModeName(mode))]
    {
      var r := this.(parseMode := Some(mode));
      assert r.Values() == Values()[1 := Some(Str(ParseModeName(mode)))];
      KeysDistinct();
      ObjectOfUpdate(Keys, Values(), 1, Str(ParseModeName(mode)));
      r
    }

    /** Sets the content type detection switch and nothing else. */
    function WithDisableContentTypeDetection(value: bool): (r: InputMediaDocument)
      ensures r.disableContentTypeDetection == Some(value)
      ensures r.(disableContentTypeDetection := disableContentTypeDetection) == this
      ensures r.ToJson() == ToJson()["disable_content_type_detection" := Bool(value)]
    {
      var r := this.(disableContentTypeDetection := Some(value));
      assert r.Values() == Values()[2 := Some(Bool(value))];
      KeysDistinct();
      ObjectOfUpdate(Keys, Values(), 2, Bool(value));
      r
    }
  }

  /** With all three setters applied the object holds exactly caption, parse mode and the switch. */
  lemma AllSetters(caption: string, mode: ParseMode, value: bool)
    ensures InputMediaDocument.Default().WithCaption(caption).WithParseMode(mode)
              .WithDisableContentTypeDetection(value).ToJson()
            == map["caption" := Str(caption), "parse_mode" := Str(ParseModeName(mode)),
                   "disable_content_type_detection" := Bool(value)]
  {
  }

  /** The setters touch disjoint fields, so their order does not matter. */
  lemma SettersCommute(d: InputMediaDocument, caption: string, mode: ParseMode, value: bool)
    ensures d.WithCaption(caption).WithParseMode(mode) == d.WithParseMode(mode).WithCaption(caption)
    ensures d.WithCaption(caption).WithDisableContentTypeDetection(value)
            == d.WithDisableContentTypeDetection(value).WithCaption(caption)
    ensures d.WithParseMode(mode).WithDisableContentTypeDetection(value)
            == d.WithDisableContentTypeDetection(value).WithParseMode(mode)
  {
  }

  /** The library's test document: caption "caption", Markdown, detection disabled. */
  lemma SerializeDocument()
    ensures InputMediaDocument.Default().WithCaption("caption").WithParseMode(Markdown)
              .WithDisableContentTypeDetection(true).ToJson()
            == map["caption" := Str("caption"), "parse_mode" := Str("Markdown"),
                   "disable_content_type_detection" := Bool(true)]
  {
    AllSetters("caption", Markdown, true);
  }
}

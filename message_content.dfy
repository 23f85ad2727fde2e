/**
 * The content of a message sent as the result of an inline query: a
 * contact, a text or a venue. Each is a record built by value: `new` sets
 * the required fields, every setter one optional field, and an absent
 * optional is left out of the serialised object.
 */
module MessageContent {
  import opened Common
  import opened Json
  import opened Primitives

  /** A contact: phone number and first name, optionally last name and vCard. */
  datatype Contact = Contact(
    phoneNumber: string,
    firstName: string,
    lastName: Option<string>,
    vcard: Option<string>)
  {
    static const Keys: seq<string> := ["phone_number", "first_name", "last_name", "vcard"]

    static lemma KeysDistinct()
      ensures Distinct(Keys)
    {
    }

    function Values(): (vs: seq<Option<Value>>)
      ensures |vs| == |Keys|
    {
      [Some(Str(phoneNumber)), Some(Str(firstName)), OptStr(lastName), OptStr(vcard)]
    }

    /** A new contact has no last name and no vCard: only the two required keys are written. */
    static function New(phoneNumber: string, firstName: string): (c: Contact)
      ensures c.phoneNumber == phoneNumber && c.firstName == firstName
      ensures c.ToJson() == map["phone_number" := Str(phoneNumber), "first_name" := Str(firstName)]
    {
      var c := Contact(phoneNumber, firstName, None, None);
      ObjectOfNone(Keys[2..], c.Values()[2..]);
      assert Keys[1..][1..] == Keys[2..];
      assert c.Values()[1..][1..] == c.Values()[2..];
      c
    }

    function ToJson(): (m: JsonObject)
      ensures "phone_number" in m && m["phone_number"] == Str(phoneNumber)
      ensures "first_name" in m && m["first_name"] == Str(firstName)
      ensures "last_name" in m <==> lastName.Some?
      ensures "vcard" in m <==> vcard.Some?
      ensures lastName.Some? ==> m["last_name"] == Str(lastName.value)
      ensures vcard.Some? ==> m["vcard"] == Str(vcard.value)
      ensures m.Keys <= {"phone_number", "first_name", "last_name", "vcard"}
    {
      var vs := Values();
      KeysDistinct();
      ObjectOfAt(Keys, vs, 0);
      ObjectOfAt(Keys, vs, 1);
      ObjectOfAt(Keys, vs, 2);
      ObjectOfAt(Keys, vs, 3);
      ObjectOfKeys(Keys, vs);
      ObjectOf(Keys, vs)
    }

    function WithLastName(name: string): (r: Contact)
      ensures r.lastName == Some(name) && r.(lastName := lastName) == this
      ensures r.ToJson() == ToJson()["last_name" := Str(name)]
    {
      var r := this.(lastName := Some(name));
      assert r.Values() == Values()[2 := Some(Str(name))];
      KeysDistinct();
      ObjectOfUpdate(Keys, Values(), 2, Str(name));
      r
    }

    function WithVcard(card: string): (r: Contact)
      ensures r.vcard == Some(card) && r.(vcard := vcard) == this
      ensures r.ToJson() == ToJson()["vcard" := Str(card)]
    {
      var r := this.(vcard := Some(card));
      assert r.Values() == Values()[3 := Some(Str(card))];
      KeysDistinct();
      ObjectOfUpdate(Keys, Values(), 3, Str(card));
      r
    }
  }

  /** A text message: the text, and how it is formatted. */
  datatype Text = Text(
    messageText: string,
    entities: Option<seq<TextEntity>>,
    parseMode: Option<ParseMode>,
    disableWebPagePreview: Option<bool>)
  {
    static const Keys: seq<string> := ["message_text", "entities", "parse_mode", "disable_web_page_preview"]

    static lemma KeysDistinct()
      ensures Distinct(Keys)
    {
    }

    function Values(): (vs: seq<Option<Value>>)
      ensures |vs| == |Keys|
    {
      [Some(Str(messageText)),
       if entities.Some? then Some(TextEntitiesToJson(entities.value)) else None,
       if parseMode.Some? then Some(Str(ParseModeName(parseMode.value))) else None,
       OptBool(disableWebPagePreview)]
    }

    /** A new text has every option absent: only the text is written. */
    static function New(messageText: string): (t: Text)
      ensures t.messageText == messageText && FormattingExclusive(t)
      ensures t.ToJson() == map["message_text" := Str(messageText)]
    {
      var t := Text(messageText, None, None, None);
      ObjectOfNone(Keys[1..], t.Values()[1..]);
      t
    }

    function ToJson(): (m: JsonObject)
      ensures "message_text" in m && m["message_text"] == Str(messageText)
      ensures "entities" in m <==> entities.Some?
      ensures "parse_mode" in m <==> parseMode.Some?
      ensures "disable_web_page_preview" in m <==> disableWebPagePreview.Some?
      ensures entities.Some? ==> m["entities"] == TextEntitiesToJson(entities.value)
      ensures parseMode.Some? ==> m["parse_mode"] == Str(ParseModeName(parseMode.value))
      ensures disableWebPagePreview.Some? ==> m["disable_web_page_preview"] == Bool(disableWebPagePreview.value)
      ensures m.Keys <= {"message_text", "entities", "parse_mode", "disable_web_page_preview"}
    {
      var vs := Values();
      KeysDistinct();
      ObjectOfAt(Keys, vs, 0);
      ObjectOfAt(Keys, vs, 1);
      ObjectOfAt(Keys, vs, 2);
      ObjectOfAt(Keys, vs, 3);
      ObjectOfKeys(Keys, vs);
      ObjectOf(Keys, vs)
    }

    /** Sets the entities and clears the parse mode. */
    function WithEntities(es: seq<TextEntity>): (r: Text)
      ensures r.entities == Some(es) && r.parseMode.None?
      ensures r.(entities := entities, parseMode := parseMode) == this
      ensures r.ToJson() == ToJson()["entities" := TextEntitiesToJson(es)] - {"parse_mode"}
    {
      var r := this.(entities := Some(es), parseMode := None);
      var set1 := Values()[1 := Some(TextEntitiesToJson(es))];
      assert r.Values() == set1[2 := None];
      KeysDistinct();
      ObjectOfUpdate(Keys, Values(), 1, TextEntitiesToJson(es));
      ObjectOfClear(Keys, set1, 2);
      r
    }

    /** Sets the parse mode and clears the entities. */
    function WithParseMode(p: ParseMode): (r: Text)
      ensures r.parseMode == Some(p) && r.entities.None?
      ensures r.(entities := entities, parseMode := parseMode) == this
      ensures r.ToJson() == ToJson()["parse_mode" := Str(ParseModeName(p))] - {"entities"}
    {
      var r := this.(parseMode := Some(p), entities := None);
      var set2 := Values()[2 := Some(Str(ParseModeName(p)))];
      assert r.Values() == set2[1 := None];
      KeysDistinct();
      ObjectOfUpdate(Keys, Values(), 2, Str(ParseModeName(p)));
      ObjectOfClear(Keys, set2, 1);
      r
    }

    /** Leaves the entities and the parse mode as they were. */
    function WithDisableWebPagePreview(b: bool): (r: Text)
      ensures r.disableWebPagePreview == Some(b)
      ensures r.(disableWebPagePreview := disableWebPagePreview) == this
      ensures r.ToJson() == ToJson()["disable_web_page_preview" := Bool(b)]
    {
      var r := this.(disableWebPagePreview := Some(b));
      assert r.Values() == Values()[3 := Some(Bool(b))];
      KeysDistinct();
      ObjectOfUpdate(Keys, Values(), 3, Bool(b));
      r
    }
  }

  /** Entities and a parse mode are never both set. */
  predicate FormattingExclusive(t: Text) {
    !(t.entities.Some? && t.parseMode.Some?)
  }

  /** One setter call on a text. */
  datatype TextSetter =
    | SetEntities(es: seq<TextEntity>)
    | SetParseMode(mode: ParseMode)
    | SetDisableWebPagePreview(disable: bool)

  function ApplyText(t: Text, op: TextSetter): (r: Text)
    ensures FormattingExclusive(t) ==> FormattingExclusive(r)
    ensures op.SetEntities? ==> r.entities == Some(op.es) && r.parseMode.None?
    ensures op.SetParseMode? ==> r.parseMode == Some(op.mode) && r.entities.None?
    ensures op.SetDisableWebPagePreview? ==> r.entities == t.entities && r.parseMode == t.parseMode
    ensures r.messageText == t.messageText
  {
    match op
    case SetEntities(es) => t.WithEntities(es)
    case SetParseMode(p) => t.WithParseMode(p)
    case SetDisableWebPagePreview(b) => t.WithDisableWebPagePreview(b)
  }

  /** The text after a sequence of setters, applied left to right. */
  function ApplyAllText(t: Text, ops: seq<TextSetter>): Text
    decreases |ops|
  {
    if |ops| == 0 then t else ApplyAllText(ApplyText(t, ops[0]), ops[1..])
  }

  /** From `new` through any sequence of setters, entities and a parse mode are never both set. */
  lemma {:induction false} ApplyAllKeepsExclusive(t: Text, ops: seq<TextSetter>)
    requires FormattingExclusive(t)
    ensures FormattingExclusive(ApplyAllText(t, ops))
    decreases |ops|
  {
    if |ops| > 0 {
      ApplyAllKeepsExclusive(ApplyText(t, ops[0]), ops[1..]);
    }
  }

  /**
   * The last of the two formatting setters decides: after `SetEntities` only
   * the entities are set, after `SetParseMode` only the parse mode, whatever
   * came before and whatever `SetDisableWebPagePreview` calls follow.
   */
  lemma {:induction false} LastFormattingWins(t: Text, ops: seq<TextSetter>, i: nat)
    requires i < |ops| && !ops[i].SetDisableWebPagePreview?
    requires forall j :: i < j < |ops| ==> ops[j].SetDisableWebPagePreview?
    ensures ops[i].SetEntities? ==>
              ApplyAllText(t, ops).entities == Some(ops[i].es) && ApplyAllText(t, ops).parseMode.None?
    ensures ops[i].SetParseMode? ==>
              ApplyAllText(t, ops).parseMode == Some(ops[i].mode) && ApplyAllText(t, ops).entities.None?
    decreases |ops|
  {
    if i > 0 {
      LastFormattingWins(ApplyText(t, ops[0]), ops[1..], i - 1);
    } else {
      PreviewKeepsFormatting(ApplyText(t, ops[0]), ops[1..]);
    }
  }

  /** `disable_web_page_preview` calls change neither the entities nor the parse mode. */
  lemma {:induction false} PreviewKeepsFormatting(t: Text, ops: seq<TextSetter>)
    requires forall j :: 0 <= j < |ops| ==> ops[j].SetDisableWebPagePreview?
    ensures ApplyAllText(t, ops).entities == t.entities
    ensures ApplyAllText(t, ops).parseMode == t.parseMode
    decreases |ops|
  {
    if |ops| > 0 {
      PreviewKeepsFormatting(ApplyText(t, ops[0]), ops[1..]);
    }
  }

  /** A text given entities and then a parse mode keeps only the parse mode. */
  lemma SerializeTextParseModeLast()
    ensures Text.New("text").WithEntities([TextEntity("bold", 0, 10)]).WithParseMode(Html)
              .WithDisableWebPagePreview(true).ToJson()
            == map["message_text" := Str("text"), "parse_mode" := Str("HTML"),
                   "disable_web_page_preview" := Bool(true)]
  {
  }

  /** The same text with the setters in the opposite order keeps the entities instead. */
  lemma SerializeTextEntitiesLast()
    ensures Text.New("text").WithParseMode(Markdown).WithEntities([TextEntity("bold", 0, 10)]).ToJson()
            == map["message_text" := Str("text"), "entities" := TextEntitiesToJson([TextEntity("bold", 0, 10)])]
  {
  }

  /** A venue: coordinates, title and address, optionally Foursquare and Google Places data. */
  datatype Venue = Venue(
    latitude: Float,
    longitude: Float,
    title: string,
    address: string,
    foursquareId: Option<string>,
    foursquareType: Option<string>,
    googlePlaceId: Option<string>,
    googlePlaceType: Option<string>)
  {
    static const Keys: seq<string> :=
      ["latitude", "longitude", "title", "address", "foursquare_id", "foursquare_type",
       "google_place_id", "google_place_type"]

    static lemma KeysDistinct()
      ensures Distinct(Keys)
    {
      var ks: seq<string> := ["google_place_type"];
      DistinctCons("google_place_id", ks);
      ks := ["google_place_id"] + ks;
      DistinctCons("foursquare_type", ks);
      ks := ["foursquare_type"] + ks;
      DistinctCons("foursquare_id", ks);
      ks := ["foursquare_id"] + ks;
      DistinctCons("address", ks);
      ks := ["address"] + ks;
      DistinctCons("title", ks);
      ks := ["title"] + ks;
      DistinctCons("longitude", ks);
      ks := ["longitude"] + ks;
      DistinctCons("latitude", ks);
      ks := ["latitude"] + ks;
      assert ks == Keys;
    }

    function Values(): (vs: seq<Option<Value>>)
      ensures |vs| == |Keys|
    {
      [Some(Num(latitude)), Some(Num(longitude)), Some(Str(title)), Some(Str(address)),
       OptStr(foursquareId), OptStr(foursquareType), OptStr(googlePlaceId), OptStr(googlePlaceType)]
    }

    /** A new venue has every option absent. */
    static function New(latitude: Float, longitude: Float, title: string, address: string): (v: Venue)
      ensures v.latitude == latitude && v.longitude == longitude
      ensures v.title == title && v.address == address
      ensures v.ToJson().Keys == {"latitude", "longitude", "title", "address"}
    {
      var v := Venue(latitude, longitude, title, address, None, None, None, None);
      v.RequiredFields();
      v.OptionalFields();
      v
    }

    /** Only the venue's own keys are written. */
    function ToJson(): (m: JsonObject)
      ensures m.Keys <= {"latitude", "longitude", "title", "address", "foursquare_id", "foursquare_type",
                         "google_place_id", "google_place_type"}
    {
      ObjectOfKeys(Keys, Values());
      ObjectOf(Keys, Values())
    }

    /** The coordinates, title and address are always written. */
    lemma RequiredFields()
      ensures "latitude" in ToJson() && ToJson()["latitude"] == Num(latitude)
      ensures "longitude" in ToJson() && ToJson()["longitude"] == Num(longitude)
      ensures "title" in ToJson() && ToJson()["title"] == Str(title)
      ensures "address" in ToJson() && ToJson()["address"] == Str(address)
    {
      KeysDistinct();
      ObjectOfAt(Keys, Values(), 0);
      ObjectOfAt(Keys, Values(), 1);
      ObjectOfAt(Keys, Values(), 2);
      ObjectOfAt(Keys, Values(), 3);
    }

    /** Each optional string is written exactly when it is set. */
    lemma OptionalFields()
      ensures "foursquare_id" in ToJson() <==> foursquareId.Some?
      ensures "foursquare_type" in ToJson() <==> foursquareType.Some?
      ensures "google_place_id" in ToJson() <==> googlePlaceId.Some?
      ensures "google_place_type" in ToJson() <==> googlePlaceType.Some?
      ensures foursquareId.Some? ==> ToJson()["foursquare_id"] == Str(foursquareId.value)
      ensures foursquareType.Some? ==> ToJson()["foursquare_type"] == Str(foursquareType.value)
      ensures googlePlaceId.Some? ==> ToJson()["google_place_id"] == Str(googlePlaceId.value)
      ensures googlePlaceType.Some? ==> ToJson()["google_place_type"] == Str(googlePlaceType.value)
    {
      KeysDistinct();
      ObjectOfAt(Keys, Values(), 4);
      ObjectOfAt(Keys, Values(), 5);
      ObjectOfAt(Keys, Values(), 6);
      ObjectOfAt(Keys, Values(), 7);
    }

    function WithFoursquareId(id: string): (r: Venue)
      ensures r.foursquareId == Some(id) && r.(foursquareId := foursquareId) == this
      ensures r.ToJson() == ToJson()["foursquare_id" := Str(id)]
    {
      var r := this.(foursquareId := Some(id));
      assert r.Values() == Values()[4 := Some(Str(id))];
      KeysDistinct();
      ObjectOfUpdate(Keys, Values(), 4, Str(id));
      r
    }

    function WithFoursquareType(kind: string): (r: Venue)
      ensures r.foursquareType == Some(kind) && r.(foursquareType := foursquareType) == this
      ensures r.ToJson() == ToJson()["foursquare_type" := Str(kind)]
    {
      var r := this.(foursquareType := Some(kind));
      assert r.Values() == Values()[5 := Some(Str(kind))];
      KeysDistinct();
      ObjectOfUpdate(Keys, Values(), 5, Str(kind));
      r
    }

    function WithGooglePlaceId(id: string): (r: Venue)
      ensures r.googlePlaceId == Some(id) && r.(googlePlaceId := googlePlaceId) == this
      ensures r.ToJson() == ToJson()["google_place_id" := Str(id)]
    {
      var r := this.(googlePlaceId := Some(id));
      assert r.Values() == Values()[6 := Some(Str(id))];
      KeysDistinct();
      ObjectOfUpdate(Keys, Values(), 6, Str(id));
      r
    }

    function WithGooglePlaceType(kind: string): (r: Venue)
      ensures r.googlePlaceType == Some(kind) && r.(googlePlaceType := googlePlaceType) == this
      ensures r.ToJson() == ToJson()["google_place_type" := Str(kind)]
    {
      var r := this.(googlePlaceType := Some(kind));
      assert r.Values() == Values()[7 := Some(Str(kind))];
      KeysDistinct();
      ObjectOfUpdate(Keys, Values(), 7, Str(kind));
      r
    }
  }

  /** The untagged sum: each variant serialises as its own object, with no tag added. */
  datatype InputMessageContent =
    | ContactContent(contact: Contact)
    | TextContent(text: Text)
    | VenueContent(venue: Venue)
  {
    function ToJson(): (m: JsonObject)
      ensures ContactContent? ==> m == contact.ToJson()
      ensures TextContent? ==> m == text.ToJson()
      ensures VenueContent? ==> m == venue.ToJson()
      ensures "type" !in m
    {
      match this
      case ContactContent(c) => c.ToJson()
      case TextContent(t) => t.ToJson()
      case VenueContent(v) => v.ToJson()
    }
  }

  /** The library's `serialize_contact` test. */
  lemma SerializeContact()
    ensures ContactContent(Contact.New("+79001231212", "Vasya").WithLastName("Pupkin").WithVcard("vcard")).ToJson()
            == map["phone_number" := Str("+79001231212"), "first_name" := Str("Vasya"),
                   "last_name" := Str("Pupkin"), "vcard" := Str("vcard")]
    ensures ContactContent(Contact.New("+79001231212", "Vasya")).ToJson()
            == map["phone_number" := Str("+79001231212"), "first_name" := Str("Vasya")]
  {
  }
}

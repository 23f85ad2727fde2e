/**
 * Receiving updates: long polling with `getUpdates`, and the webhook
 * methods `setWebhook`, `deleteWebhook` and `getWebhookInfo`.
 *
 * The builders take their receiver by value and hand back the updated
 * value, so they are record updates here; `add_allowed_update` inserts into
 * a hash set in place and is a method.
 */
module Updates {
  import opened Common
  import opened Json
  import opened Primitives
  import opened Requests

  /** The kinds of update a bot can subscribe to. */
  datatype AllowedUpdate =
    | Message
    | EditedMessage
    | ChannelPost
    | EditedChannelPost
    | InlineQuery
    | ChosenInlineResult
    | CallbackQuery
    | ShippingQuery
    | PreCheckoutQuery

  /** The snake_case name an allowed update is serialised as. */
  function UpdateName(u: AllowedUpdate): (name: string)
    ensures ParseUpdateName(name) == Some(u)
  {
    match u
    case Message => "message"
    case EditedMessage => "edited_message"
    case ChannelPost => "channel_post"
    case EditedChannelPost => "edited_channel_post"
    case InlineQuery => "inline_query"
    case ChosenInlineResult => "chosen_inline_result"
    case CallbackQuery => "callback_query"
    case ShippingQuery => "shipping_query"
    case PreCheckoutQuery => "pre_checkout_query"
  }

  /** Reading a name back: the inverse of `UpdateName` on the names it produces. */
  function ParseUpdateName(name: string): Option<AllowedUpdate> {
    if name == "message" then Some(Message)
    else if name == "edited_message" then Some(EditedMessage)
    else if name == "channel_post" then Some(ChannelPost)
    else if name == "edited_channel_post" then Some(EditedChannelPost)
    else if name == "inline_query" then Some(InlineQuery)
    else if name == "chosen_inline_result" then Some(ChosenInlineResult)
    else if name == "callback_query" then Some(CallbackQuery)
    else if name == "shipping_query" then Some(ShippingQuery)
    else if name == "pre_checkout_query" then Some(PreCheckoutQuery)
    else None
  }

  /** No two kinds share a name, so the serialised set has one name per member. */
  lemma UpdateNameInjective(a: AllowedUpdate, b: AllowedUpdate)
    ensures UpdateName(a) == UpdateName(b) <==> a == b
  {
  }

  /** A hash set is written as an array in no fixed order: a set of names. */
  function UpdatesToJson(s: set<AllowedUpdate>): (v: Value)
    ensures v.Unordered?
    ensures forall u :: Str(UpdateName(u)) in v.elements <==> u in s
  {
    Unordered(set u | u in s :: Str(UpdateName(u)))
  }

  /** Nothing but the members' names is written: each element is the name of a member. */
  lemma UpdatesToJsonOnlyNames(s: set<AllowedUpdate>)
    ensures forall x :: x in UpdatesToJson(s).elements ==> exists u :: u in s && x == Str(UpdateName(u))
  {
  }

  function OptUpdates(o: Option<set<AllowedUpdate>>): (v: Option<Value>)
    ensures v.Some? <==> o.Some?
    ensures o.Some? ==> v.value == UpdatesToJson(o.value)
  {
    if o.Some? then Some(UpdatesToJson(o.value)) else None
  }

  /** The members of an optional set, none when it is absent. */
  function Members(o: Option<set<AllowedUpdate>>): set<AllowedUpdate> {
    if o.Some? then o.value else {}
  }

  /**
   * `add_allowed_update`: insert into the set that is there, or start a new
   * one holding just `u`. Earlier members stay; a repeated member collapses.
   */
  method InsertAllowedUpdate(current: Option<set<AllowedUpdate>>, u: AllowedUpdate)
    returns (updates: set<AllowedUpdate>)
    ensures current.None? ==> updates == {u}
    ensures updates == Members(current) + {u}
    ensures |updates| == if u in Members(current) then |Members(current)| else |Members(current)| + 1
  {
    match current {
      case Some(existing) =>
        updates := existing;
      case None =>
        updates := {};
    }
    if u !in updates {
      updates := updates + {u};
    }
  }

  /** A `std::time::Duration`: whole seconds in a `u64` and the nanoseconds below one second. */
  type Duration = d: (nat, nat) | d.0 < 0x1_0000_0000_0000_0000 && d.1 < 1_000_000_000
    witness (0, 0)

  /** `Duration::from_secs`. */
  function FromSecs(secs: nat): Duration
    requires secs < 0x1_0000_0000_0000_0000
  {
    (secs, 0)
  }

  /** `u as i64` on a `u64`: the two's complement reading of the same 64 bits. */
  function AsI64(u: nat): (r: Integer)
    requires u < 0x1_0000_0000_0000_0000
    ensures (r - u) % 0x1_0000_0000_0000_0000 == 0
    ensures u < IntegerLimit ==> r == u
  {
    if u < IntegerLimit then u else u - 0x1_0000_0000_0000_0000
  }

  /** `getUpdates`: every parameter is optional and omitted when absent. */
  datatype GetUpdates = GetUpdates(
    offset: Option<Integer>,
    limit: Option<Integer>,
    timeout: Option<Integer>,
    allowedUpdates: Option<set<AllowedUpdate>>)
  {
    static const Keys: seq<string> := ["offset", "limit", "timeout", "allowed_updates"]

    static lemma KeysDistinct()
      ensures Distinct(Keys)
    {
    }

    /** The serialised value of each field, in the order of `Keys`. */
    function Values(): (vs: seq<Option<Value>>)
      ensures |vs| == |Keys|
    {
      [OptInt(offset), OptInt(limit), OptInt(timeout), OptUpdates(allowedUpdates)]
    }

    static function Default(): (g: GetUpdates)
      ensures g.ToJson() == map[]
    {
      var g := GetUpdates(None, None, None, None);
      ObjectOfNone(Keys, g.Values());
      g
    }

    function ToJson(): (m: JsonObject)
      ensures "offset" in m <==> offset.Some?
      ensures "limit" in m <==> limit.Some?
      ensures "timeout" in m <==> timeout.Some?
      ensures "allowed_updates" in m <==> allowedUpdates.Some?
      ensures offset.Some? ==> m["offset"] == Int(offset.value)
      ensures limit.Some? ==> m["limit"] == Int(limit.value)
      ensures timeout.Some? ==> m["timeout"] == Int(timeout.value)
      ensures allowedUpdates.Some? ==> m["allowed_updates"] == UpdatesToJson(allowedUpdates.value)
      ensures m.Keys <= {"offset", "limit", "timeout", "allowed_updates"}
    {
      var vs := Values();
      KeysDistinct();
      ObjectOfAt(Keys, vs, 0);
      ObjectOfAt(Keys, vs, 1);
      ObjectOfAt(Keys, vs, 2);
      ObjectOfAt(Keys, vs, 3);
      ObjectOfKeys(Keys, vs);
      ObjectOf(Keys, vs)
    }

    function WithOffset(o: Integer): (r: GetUpdates)
      ensures r.offset == Some(o) && r.(offset := offset) == this
      ensures r.ToJson() == ToJson()["offset" := Int(o)]
    {
      var r := this.(offset := Some(o));
      assert r.Values() == Values()[0 := Some(Int(o))];
      KeysDistinct();
      ObjectOfUpdate(Keys, Values(), 0, Int(o));
      r
    }

    function WithLimit(l: Integer): (r: GetUpdates)
      ensures r.limit == Some(l) && r.(limit := limit) == this
      ensures r.ToJson() == ToJson()["limit" := Int(l)]
    {
      var r := this.(limit := Some(l));
      assert r.Values() == Values()[1 := Some(Int(l))];
      KeysDistinct();
      ObjectOfUpdate(Keys, Values(), 1, Int(l));
      r
    }

    /** The timeout keeps the duration's whole seconds only, cast to `i64`. */
    function WithTimeout(d: Duration): (r: GetUpdates)
      ensures r.(timeout := timeout) == this
      ensures d.0 < IntegerLimit ==> r.timeout == Some(d.0)
      ensures r.timeout.Some? && (r.timeout.value - d.0) % 0x1_0000_0000_0000_0000 == 0
      ensures r.ToJson() == ToJson()["timeout" := Int(r.timeout.value)]
    {
      var t := AsI64(d.0);
      var r := this.(timeout := Some(t));
      assert r.Values() == Values()[2 := Some(Int(t))];
      KeysDistinct();
      ObjectOfUpdate(Keys, Values(), 2, Int(t));
      r
    }

    function WithAllowedUpdates(s: set<AllowedUpdate>): (r: GetUpdates)
      ensures r.allowedUpdates == Some(s) && r.(allowedUpdates := allowedUpdates) == this
      ensures r.ToJson() == ToJson()["allowed_updates" := UpdatesToJson(s)]
    {
      var r := this.(allowedUpdates := Some(s));
      assert r.Values() == Values()[3 := Some(UpdatesToJson(s))];
      KeysDistinct();
      ObjectOfUpdate(Keys, Values(), 3, UpdatesToJson(s));
      r
    }

    method AddAllowedUpdate(u: AllowedUpdate) returns (r: GetUpdates)
      ensures r.allowedUpdates.Some? && r.(allowedUpdates := allowedUpdates) == this
      ensures allowedUpdates.None? ==> r.allowedUpdates == Some({u})
      ensures r.allowedUpdates == Some(Members(allowedUpdates) + {u})
      ensures r.ToJson() == ToJson()["allowed_updates" := UpdatesToJson(r.allowedUpdates.value)]
    {
      var updates := InsertAllowedUpdate(allowedUpdates, u);
      r := WithAllowedUpdates(updates);
    }

    /** Always a JSON POST, even with no parameter set. */
    function IntoRequest(): (r: Request)
      ensures r.GetMethod() == Post && r.methodName == "getUpdates"
      ensures r.body == JsonBody(ToJson())
    {
      JsonRequest("getUpdates", ToJson())
    }
  }

  /** `setWebhook`: the url is required, everything else optional and omitted when absent. */
  datatype SetWebhook = SetWebhook(
    url: string,
    certificate: Option<string>,
    ipAddress: Option<string>,
    maxConnections: Option<Integer>,
    allowedUpdates: Option<set<AllowedUpdate>>,
    dropPendingUpdates: Option<bool>)
  {
    static const Keys: seq<string> :=
      ["url", "certificate", "ip_address", "max_connections", "allowed_updates", "drop_pending_updates"]

    static lemma KeysDistinct()
      ensures Distinct(Keys)
    {
    }

    /** The serialised value of each field, in the order of `Keys`; the url is always there. */
    function Values(): (vs: seq<Option<Value>>)
      ensures |vs| == |Keys|
    {
      [Some(Str(url)), OptStr(certificate), OptStr(ipAddress), OptInt(maxConnections),
       OptUpdates(allowedUpdates), OptBool(dropPendingUpdates)]
    }

    /** A new request leaves every option absent: the body holds just the url. */
    static function New(url: string): (w: SetWebhook)
      ensures w.url == url
      ensures w.ToJson() == map["url" := Str(url)]
    {
      var w := SetWebhook(url, None, None, None, None, None);
      ObjectOfNone(Keys[1..], w.Values()[1..]);
      w
    }

    function ToJson(): (m: JsonObject)
      ensures "url" in m && m["url"] == Str(url)
      ensures "certificate" in m <==> certificate.Some?
      ensures "ip_address" in m <==> ipAddress.Some?
      ensures "max_connections" in m <==> maxConnections.Some?
      ensures "allowed_updates" in m <==> allowedUpdates.Some?
      ensures "drop_pending_updates" in m <==> dropPendingUpdates.Some?
      ensures certificate.Some? ==> m["certificate"] == Str(certificate.value)
      ensures ipAddress.Some? ==> m["ip_address"] == Str(ipAddress.value)
      ensures maxConnections.Some? ==> m["max_connections"] == Int(maxConnections.value)
      ensures allowedUpdates.Some? ==> m["allowed_updates"] == UpdatesToJson(allowedUpdates.value)
      ensures dropPendingUpdates.Some? ==> m["drop_pending_updates"] == Bool(dropPendingUpdates.value)
      ensures m.Keys <= {"url", "certificate", "ip_address", "max_connections", "allowed_updates",
                         "drop_pending_updates"}
    {
      var vs := Values();
      KeysDistinct();
      ObjectOfAt(Keys, vs, 0);
      ObjectOfAt(Keys, vs, 1);
      ObjectOfAt(Keys, vs, 2);
      ObjectOfAt(Keys, vs, 3);
      ObjectOfAt(Keys, vs, 4);
      ObjectOfAt(Keys, vs, 5);
      ObjectOfKeys(Keys, vs);
      ObjectOf(Keys, vs)
    }

    function WithCertificate(c: string): (r: SetWebhook)
      ensures r.certificate == Some(c) && r.(certificate := certificate) == this
      ensures r.ToJson() == ToJson()["certificate" := Str(c)]
    {
      var r := this.(certificate := Some(c));
      assert r.Values() == Values()[1 := Some(Str(c))];
      KeysDistinct();
      ObjectOfUpdate(Keys, Values(), 1, Str(c));
      r
    }

    function WithIpAddress(a: string): (r: SetWebhook)
      ensures r.ipAddress == Some(a) && r.(ipAddress := ipAddress) == this
      ensures r.ToJson() == ToJson()["ip_address" := Str(a)]
    {
      var r := this.(ipAddress := Some(a));
      assert r.Values() == Values()[2 := Some(Str(a))];
      KeysDistinct();
      ObjectOfUpdate(Keys, Values(), 2, Str(a));
      r
    }

    function WithMaxConnections(n: Integer): (r: SetWebhook)
      ensures r.maxConnections == Some(n) && r.(maxConnections := maxConnections) == this
      ensures r.ToJson() == ToJson()["max_connections" := Int(n)]
    {
      var r := this.(maxConnections := Some(n));
      assert r.Values() == Values()[3 := Some(Int(n))];
      KeysDistinct();
      ObjectOfUpdate(Keys, Values(), 3, Int(n));
      r
    }

    function WithAllowedUpdates(s: set<AllowedUpdate>): (r: SetWebhook)
      ensures r.allowedUpdates == Some(s) && r.(allowedUpdates := allowedUpdates) == this
      ensures r.ToJson() == ToJson()["allowed_updates" := UpdatesToJson(s)]
    {
      var r := this.(allowedUpdates := Some(s));
      assert r.Values() == Values()[4 := Some(UpdatesToJson(s))];
      KeysDistinct();
      ObjectOfUpdate(Keys, Values(), 4, UpdatesToJson(s));
      r
    }

    method AddAllowedUpdate(u: AllowedUpdate) returns (r: SetWebhook)
      ensures r.allowedUpdates.Some? && r.(allowedUpdates := allowedUpdates) == this
      ensures allowedUpdates.None? ==> r.allowedUpdates == Some({u})
      ensures r.allowedUpdates == Some(Members(allowedUpdates) + {u})
      ensures r.ToJson() == ToJson()["allowed_updates" := UpdatesToJson(r.allowedUpdates.value)]
    {
      var updates := InsertAllowedUpdate(allowedUpdates, u);
      r := WithAllowedUpdates(updates);
    }

    function WithDropPendingUpdates(b: bool): (r: SetWebhook)
      ensures r.dropPendingUpdates == Some(b) && r.(dropPendingUpdates := dropPendingUpdates) == this
      ensures r.ToJson() == ToJson()["drop_pending_updates" := Bool(b)]
    {
      var r := this.(dropPendingUpdates := Some(b));
      assert r.Values() == Values()[5 := Some(Bool(b))];
      KeysDistinct();
      ObjectOfUpdate(Keys, Values(), 5, Bool(b));
      r
    }

    function IntoRequest(): (r: Request)
      ensures r.GetMethod() == Post && r.methodName == "setWebhook"
      ensures r.body == JsonBody(ToJson())
    {
      JsonRequest("setWebhook", ToJson())
    }
  }

  /** `deleteWebhook`: its one field is written even when absent, but then no body is sent. */
  datatype DeleteWebhook = DeleteWebhook(dropPendingUpdates: Option<bool>) {
    static function Default(): (d: DeleteWebhook)
      ensures d.dropPendingUpdates.None?
      ensures d.IntoRequest() == EmptyRequest("deleteWebhook")
    {
      DeleteWebhook(None)
    }

    /** The field has no `skip_serializing_if`: absent, it would be written as null. */
    function ToJson(): JsonObject {
      map["drop_pending_updates" := if dropPendingUpdates.Some? then Bool(dropPendingUpdates.value) else Null]
    }

    function WithDropPendingUpdates(b: bool): (r: DeleteWebhook)
      ensures r.dropPendingUpdates == Some(b)
      ensures r.ToJson() == map["drop_pending_updates" := Bool(b)]
    {
      this.(dropPendingUpdates := Some(b))
    }

    /**
     * A POST with a JSON body exactly when the flag is present, whatever its
     * value; otherwise a GET with no body.
     */
    function IntoRequest(): (r: Request)
      ensures r.methodName == "deleteWebhook"
      ensures r.GetMethod() == Post <==> dropPendingUpdates.Some?
      ensures dropPendingUpdates.Some? ==> r.body == JsonBody(map["drop_pending_updates" := Bool(dropPendingUpdates.value)])
      ensures dropPendingUpdates.None? ==> r.body == NoBody
    {
      if dropPendingUpdates.Some? then JsonRequest("deleteWebhook", ToJson())
      else EmptyRequest("deleteWebhook")
    }
  }

  /** The verb of `deleteWebhook` depends on the flag's presence only, never on its value. */
  lemma DeleteWebhookVerbIgnoresValue(a: bool, b: bool)
    ensures DeleteWebhook(Some(a)).IntoRequest().GetMethod() == DeleteWebhook(Some(b)).IntoRequest().GetMethod()
    ensures DeleteWebhook(Some(a)).IntoRequest().GetMethod() != DeleteWebhook(None).IntoRequest().GetMethod()
  {
  }

  /** `getWebhookInfo` has no parameters. */
  datatype GetWebhookInfo = GetWebhookInfo {
    function IntoRequest(): (r: Request)
      ensures r.GetMethod() == Get && r.methodName == "getWebhookInfo" && r.body == NoBody
    {
      EmptyRequest("getWebhookInfo")
    }
  }

  /** Every kind of update. */
  const AllKinds: set<AllowedUpdate> :=
    {Message, EditedMessage, ChannelPost, EditedChannelPost, InlineQuery, ChosenInlineResult,
     CallbackQuery, ShippingQuery, PreCheckoutQuery}

  /** There are nine kinds, and every kind is one of them. */
  lemma AllKindsCount(u: AllowedUpdate)
    ensures u in AllKinds
    ensures |AllKinds| == 9
  {
    var s := {Message, EditedMessage, ChannelPost, EditedChannelPost};
    assert |s| == 4;
    var t := s + {InlineQuery, ChosenInlineResult};
    assert |t| == 6;
    var w := t + {CallbackQuery, ShippingQuery};
    assert |w| == 8;
    assert AllKinds == w + {PreCheckoutQuery};
  }

  /** The set of all kinds serialises as the nine names the library's tests expect. */
  lemma AllKindsNames()
    ensures UpdatesToJson(AllKinds) == Unordered(
      {Str("callback_query"), Str("channel_post"), Str("chosen_inline_result"),
       Str("edited_channel_post"), Str("edited_message"), Str("inline_query"),
       Str("message"), Str("pre_checkout_query"), Str("shipping_query")})
  {
  }

  /**
   * A set built from five distinct kinds (one inserted twice), then four more
   * added one by one: all nine kinds, nine members.
   */
  method AccumulateUpdates(g: GetUpdates) returns (r: GetUpdates)
    ensures r.allowedUpdates == Some(AllKinds)
    ensures |r.allowedUpdates.value| == 9
  {
    var updates: set<AllowedUpdate> := {};
    updates := updates + {Message};
    updates := updates + {Message};
    updates := updates + {EditedMessage};
    updates := updates + {ChannelPost};
    updates := updates + {EditedChannelPost};
    updates := updates + {ChosenInlineResult};
    var first := {Message, EditedMessage, ChannelPost, EditedChannelPost, ChosenInlineResult};
    assert updates == first;
    r := g.WithAllowedUpdates(updates);
    r := r.AddAllowedUpdate(InlineQuery);
    assert r.allowedUpdates.value == first + {InlineQuery};
    r := r.AddAllowedUpdate(CallbackQuery);
    assert r.allowedUpdates.value == first + {InlineQuery, CallbackQuery};
    r := r.AddAllowedUpdate(PreCheckoutQuery);
    assert r.allowedUpdates.value == first + {InlineQuery, CallbackQuery, PreCheckoutQuery};
    r := r.AddAllowedUpdate(ShippingQuery);
    AllKindsCount(Message);
    assert r.allowedUpdates.value == AllKinds;
  }

  /** The nanoseconds of a duration never reach the timeout: two durations with the same whole seconds set the same one. */
  lemma TimeoutIgnoresNanos(g: GetUpdates, d: Duration, e: Duration)
    requires d.0 == e.0
    ensures g.WithTimeout(d) == g.WithTimeout(e)
    ensures g.WithTimeout(d).ToJson() == g.WithTimeout(e).ToJson()
  {
  }

  /** The library's `get_updates` test, first and last parts. */
  lemma GetUpdatesRequests()
    ensures GetUpdates.Default().IntoRequest() == Request("getUpdates", JsonBody(map[]))
    ensures GetUpdates.Default().WithOffset(0).WithLimit(10).WithTimeout(FromSecs(10)).ToJson()
            == map["offset" := Int(0), "limit" := Int(10), "timeout" := Int(10)]
  {
  }

  /** The library's `set_webhook` and `delete_webhook` tests. */
  lemma WebhookRequests()
    ensures SetWebhook.New("url").IntoRequest() == Request("setWebhook", JsonBody(map["url" := Str("url")]))
    ensures DeleteWebhook.Default().IntoRequest().GetMethod() == Get
    ensures DeleteWebhook.Default().WithDropPendingUpdates(false).IntoRequest()
            == Request("deleteWebhook", JsonBody(map["drop_pending_updates" := Bool(false)]))
  {
  }
}

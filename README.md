# tgbot core in Dafny

A model of the core of the `tgbot` Rust client for the Telegram Bot API,
with proofs of what its builders and validators promise:

- **Bot commands** (`BotCommand::new`): the name length is checked before
  the description length, each error carries the offending byte length,
  and the `Display` text names the field, its bounds and the length it got.
  The command scopes form an internally tagged sum. Every `type` tag is
  the snake_case form of its variant's name. Reading a serialised scope
  back gives the same scope.
- **Receiving updates** (`getUpdates`, `setWebhook`, `deleteWebhook`,
  `getWebhookInfo`):
  - Each setter writes one parameter and nothing else.
  - `add_allowed_update` inserts into a set in place, or starts a
    one-element set.
  - `deleteWebhook` is a JSON POST exactly when its flag is present, and a
    GET with no body otherwise.
  - The other methods have a fixed request shape.
- **`sendVoice`**: a class over a multipart form map.
  - Each setter writes one field in place.
  - The parse mode and the caption entities remove each other, so they
    never travel together, and the last one set wins.
  - A failed entity or markup serialisation leaves the form untouched.
- **Inline message content** (contact, text, venue), **force-reply
  markup** and **document input media**: records built by value.
  - An absent option is left out of the serialised object.
  - On a text, entities and a parse mode exclude each other.
  - On a document, the parse mode does not clear the caption.

JSON objects are maps from key to value (`Json.Value`). A record whose
fields are marked `skip_serializing_if = "Option::is_none"` serialises
through `Json.ObjectOf`. Its lemmas say once, for every record, that a
field is written exactly when present and that changing one field changes
one key.

Requests are modelled abstractly as a method name and a body that is
empty, a JSON object or a form. `Requests.Request.GetMethod` defines the
HTTP verb from the body, GET for an empty body and POST otherwise, as the
library's tests observe it.

Some members are definitions of behaviour that lives outside these files,
and the model states nothing further about them:
- `Updates.FromSecs` is `Duration::from_secs`: the given seconds and no
  nanoseconds.
- `Primitives.TextEntitiesToJson` writes an entity list as an array of
  entity objects, in order.
- `Updates.DeleteWebhook.ToJson` is serde's derived serialiser for a field
  without an omission rule. It always writes `drop_pending_updates`, as
  null when the flag is absent. Such an object is never sent, because
  without the flag the request has no body.

Text lengths in bot commands are UTF-8 byte counts (`seq<byte>`). The
library's `Integer` is a signed 64-bit integer, and the `u64`-to-`i64` cast
in `timeout` is written out as two's complement wrap-around.

## Model

| member | source | states |
|---|---|---|
| BotCommands.New | src/types/bot_command.rs:25-44 | succeeds iff 1 <= name length <= 32 and 3 <= description length <= 256; on success the accessors return the inputs unchanged; an error carries the length of the field it blames, and the description is blamed only when the name is fine |
| BotCommands.NameCheckedFirst | src/types/bot_command.rs:34-37 | a name of bad length yields `BadNameLen` with that length whatever the description |
| BotCommands.Boundaries | src/types/bot_command.rs:5-8 | names of 1 and 32 bytes and descriptions of 3 and 256 bytes are accepted; names of 0 and 33 and descriptions of 2 and 257 are rejected with their lengths |
| BotCommands.MessagePrefix | src/types/bot_command.rs:72-81 | the shared message text puts the field's first letter at a fixed position, so the two messages differ there |
| BotCommands.Message | src/types/bot_command.rs:68-84 | the message names the field it blames (its ninth character is that of "name" or "description") and ends with the decimal text of the length it got |
| BotCommands.MessageDeterminesError | src/types/bot_command.rs:68-84 | two errors have the same message iff they are equal: the message names the field and the exact length |
| BotCommands.MessagePrefixes | src/types/bot_command.rs:72-81 | the bounds in the messages read 1 and 32 for names, 3 and 256 for descriptions |
| BotCommands.TestMessages | src/types/bot_command.rs:157-171 | the messages for lengths 0 and 33 (name) and 1 and 257 (description) are the texts the library's tests expect |
| BotCommands.TypeNameIsSnakeCase | src/types/bot_command.rs:86-120 | the `type` tag of every scope is the snake_case form of its variant's name |
| BotCommands.ToJson | src/types/bot_command.rs:87-89 | a scope is written as an object whose `type` key holds its tag |
| BotCommands.ChatScope | src/types/bot_command.rs:124-129 | builds the chat variant holding exactly the given chat id, written with `type` and `chat_id` only |
| BotCommands.ChatAdministratorsScope | src/types/bot_command.rs:132-137 | builds the chat-administrators variant holding exactly the given chat id, written with `type` and `chat_id` only |
| BotCommands.ChatMemberScope | src/types/bot_command.rs:140-148 | builds the chat-member variant holding exactly the given chat and user ids, written with `type`, `chat_id` and `user_id` |
| BotCommands.Parse | src/types/bot_command.rs:86-120 | a value that parses to a scope is an object whose `type` key holds that scope's tag |
| BotCommands.RoundTrip | src/types/bot_command.rs:176-190 | parsing the serialised scope gives back the same scope |
| BotCommands.ParseSound | src/types/bot_command.rs:86-120 | whatever parses to a scope holds every key and value that scope serialises to |
| BotCommands.ParseComplete | src/types/bot_command.rs:86-120 | any object holding everything a scope serialises to parses to that scope, whatever other keys it has |
| BotCommands.ParseAccepts | src/types/bot_command.rs:86-120 | a value parses to a scope iff it is an object extending that scope's serialised form |
| Decimal.NatToStringInjective | src/types/bot_command.rs:72-81 | distinct lengths are written as distinct decimal texts |
| Decimal.IntToStringRoundTrip | src/methods/send/voice.rs:65-68 | the decimal text of an integer reads back as that integer |
| Decimal.IntToStringInjective | src/methods/send/voice.rs:78-81 | distinct integers get distinct form texts |
| Primitives.ParseChatId | src/types/bot_command.rs:102-105 | reading a chat id succeeds exactly on the values a chat id is written as, and gives back the written id |
| Primitives.ChatIdRoundTrip | src/types/bot_command.rs:181-189 | a chat id written and read back is unchanged |
| Json.ObjectOfKeys | src/methods/updates.rs:12-22 | a serialised record holds only its own field names |
| Json.ObjectOfAt | src/methods/updates.rs:12-22 | a field is written iff its option is present, and then with its value |
| Json.ObjectOfUpdate | src/methods/updates.rs:40-43 | setting one field to a present value changes the object at that key alone |
| Json.ObjectOfClear | src/types/inline_mode/message_content.rs:155-159 | making one field absent removes its key and changes nothing else |
| Json.ObjectOfNone | src/types/input_media/document.rs:59-62 | a record with every field absent serialises to the empty object |
| Requests.JsonRequest | src/methods/updates.rs:27-29 | a JSON request is a POST carrying the given object |
| Requests.FormRequest | src/methods/send/voice.rs:101-103 | a form request is a POST carrying the given form |
| Requests.EmptyRequest | src/methods/updates.rs:234-236 | an empty request is a GET with no body |
| Updates.UpdateName | src/methods/updates.rs:287-299 | every kind's name reads back as that kind |
| Updates.UpdateNameInjective | src/methods/updates.rs:287-299 | two kinds share a name iff they are the same kind |
| Updates.UpdatesToJson | src/methods/updates.rs:20-21 | a set of kinds is written as an unordered array in which a kind's name appears iff the kind is a member |
| Updates.UpdatesToJsonOnlyNames | src/methods/updates.rs:20-21 | every element of that array is the name of a member, so it holds exactly the members' names |
| Updates.InsertAllowedUpdate | src/methods/updates.rs:76-88 | on an absent set the result is the one-element set; otherwise the old members plus the new one, one more member unless it was already there |
| Updates.AsI64 | src/methods/updates.rs:58-60 | the `u64` to `i64` cast keeps values below 2^63 and is congruent modulo 2^64 |
| Updates.GetUpdates.Default | src/methods/updates.rs:12-22 | the default request serialises to the empty object |
| Updates.GetUpdates.ToJson | src/methods/updates.rs:12-22 | each parameter is written iff present, with its value; no other key is written |
| Updates.GetUpdates.WithOffset | src/methods/updates.rs:40-43 | sets the offset, leaves every other field, and changes the object at `offset` alone |
| Updates.GetUpdates.WithLimit | src/methods/updates.rs:49-52 | sets the limit, leaves every other field, and changes the object at `limit` alone |
| Updates.GetUpdates.WithTimeout | src/methods/updates.rs:58-61 | sets the timeout to the duration's whole seconds (cast to `i64`), leaves every other field, and changes the object at `timeout` alone |
| Updates.GetUpdates.WithAllowedUpdates | src/methods/updates.rs:70-73 | replaces the set, leaves every other field, and changes the object at `allowed_updates` alone |
| Updates.GetUpdates.AddAllowedUpdate | src/methods/updates.rs:76-88 | the set becomes the old members plus the new one (a singleton when there was none); nothing else changes |
| Updates.GetUpdates.IntoRequest | src/methods/updates.rs:27-29 | always a JSON POST to `getUpdates` carrying the serialised parameters |
| Updates.TimeoutIgnoresNanos | src/methods/updates.rs:58-61 | durations with the same whole seconds set the same timeout |
| Updates.SetWebhook.New | src/methods/updates.rs:122-131 | a new request holds the url and serialises to exactly `{"url": url}` |
| Updates.SetWebhook.ToJson | src/methods/updates.rs:100-113 | the url is always written; each option iff present, with its value; no other key |
| Updates.SetWebhook.WithCertificate | src/methods/updates.rs:134-137 | sets the certificate only, and changes the object at `certificate` alone |
| Updates.SetWebhook.WithIpAddress | src/methods/updates.rs:141-144 | sets the IP address only, and changes the object at `ip_address` alone |
| Updates.SetWebhook.WithMaxConnections | src/methods/updates.rs:150-153 | sets the connection limit only, and changes the object at `max_connections` alone |
| Updates.SetWebhook.WithAllowedUpdates | src/methods/updates.rs:164-167 | replaces the set only, and changes the object at `allowed_updates` alone |
| Updates.SetWebhook.AddAllowedUpdate | src/methods/updates.rs:170-182 | the set becomes the old members plus the new one (a singleton when there was none); nothing else changes |
| Updates.SetWebhook.WithDropPendingUpdates | src/methods/updates.rs:185-188 | sets the flag only, and changes the object at `drop_pending_updates` alone |
| Updates.SetWebhook.IntoRequest | src/methods/updates.rs:194-196 | always a JSON POST to `setWebhook` carrying the serialised parameters |
| Updates.DeleteWebhook.Default | src/methods/updates.rs:202-205 | the default has no flag and becomes a GET with no body |
| Updates.DeleteWebhook.WithDropPendingUpdates | src/methods/updates.rs:209-212 | sets the flag; the object then holds exactly that flag |
| Updates.DeleteWebhook.IntoRequest | src/methods/updates.rs:218-224 | a POST iff the flag is present, with the flag as its JSON body; a GET with no body otherwise |
| Updates.DeleteWebhookVerbIgnoresValue | src/methods/updates.rs:218-224 | the verb depends on whether the flag is present, never on its value |
| Updates.GetWebhookInfo.IntoRequest | src/methods/updates.rs:234-236 | always a GET to `getWebhookInfo` with no body |
| Updates.AllKindsCount | src/methods/updates.rs:286-300 | there are nine kinds of update and every kind is among them |
| Updates.AllKindsNames | src/methods/updates.rs:286-300 | the set of all kinds is written as the nine names the tests expect |
| Updates.AccumulateUpdates | src/methods/updates.rs:257-273 | five distinct kinds (one inserted twice) plus four more added one by one give all nine kinds, nine members |
| Updates.GetUpdatesRequests | src/methods/updates.rs:246-279 | the default request is a POST with an empty object; offset 0, limit 10 and a 10-second timeout are written as 0, 10 and 10 |
| Updates.WebhookRequests | src/methods/updates.rs:310-401 | `setWebhook` with url "url" carries `{"url": "url"}`; `deleteWebhook` is a GET by default and a POST with `{"drop_pending_updates": false}` once the flag is set to false |
| Voice.Apply | src/methods/send/voice.rs:40-95 | a setter's field holds its value, the field it clears is gone, a formatting setter leaves the formatting exclusive, and a well-formed form stays well-formed |
| Voice.ApplyFrame | src/methods/send/voice.rs:40-95 | every field a setter neither writes nor clears keeps its presence and value |
| Voice.ApplyAllKeepsWellFormed | src/methods/send/voice.rs:48-62 | from a well-formed form, any sequence of setters keeps chat id and voice present and never holds both parse mode and caption entities |
| Voice.NonFormattingKeepsFormatting | src/methods/send/voice.rs:65-95 | setters other than the two formatting ones leave the presence of both formatting fields unchanged |
| Voice.LastFormattingWins | src/methods/send/voice.rs:48-62 | after any sequence, the last formatting setter's field is present and the other formatting field is absent |
| Voice.ApplyAllUntouched | src/methods/send/voice.rs:40-95 | a field no setter writes or clears keeps its presence and value through the whole sequence |
| Voice.ApplyAllLastWrite | src/methods/send/voice.rs:126-140 | a field holds the value of the last setter that wrote it, when no later setter touches it |
| Voice.Initial | src/methods/send/voice.rs:28-37 | a new form is well-formed and its keys are exactly chat_id and voice |
| Voice.SendVoice.constructor | src/methods/send/voice.rs:28-37 | a new request holds the initial form, which is well-formed |
| Voice.SendVoice.SetCaption | src/methods/send/voice.rs:40-43 | writes the caption field alone and keeps the form well-formed |
| Voice.SendVoice.SetCaptionEntities | src/methods/send/voice.rs:48-53 | when serialisation fails, returns its error with the form unchanged; otherwise writes the entities, removes the parse mode and keeps the form well-formed |
| Voice.SendVoice.SetParseMode | src/methods/send/voice.rs:58-62 | writes the parse mode, removes the caption entities and keeps the form well-formed |
| Voice.SendVoice.SetDuration | src/methods/send/voice.rs:65-68 | writes the duration's decimal text alone and keeps the form well-formed |
| Voice.SendVoice.SetDisableNotification | src/methods/send/voice.rs:72-75 | writes the flag's text alone and keeps the form well-formed |
| Voice.SendVoice.SetReplyToMessageId | src/methods/send/voice.rs:78-81 | writes the message id's decimal text alone and keeps the form well-formed |
| Voice.SendVoice.SetAllowSendingWithoutReply | src/methods/send/voice.rs:85-88 | writes the flag's text alone and keeps the form well-formed |
| Voice.SendVoice.SetReplyMarkup | src/methods/send/voice.rs:91-95 | when serialisation fails, returns its error with the form unchanged; otherwise writes the markup text alone |
| Voice.SendVoice.IntoRequest | src/methods/send/voice.rs:101-103 | a form POST to `sendVoice` carrying every field set so far |
| Voice.CaptionScenario | src/methods/send/voice.rs:147-158 | after a parse mode then caption entities, the parse mode is gone and the entities are there |
| Voice.SendVoiceTexts | src/methods/send/voice.rs:129-140 | chat id 1, caption, Markdown, 100, true, message id 1 and the markup are written as the texts the test expects |
| MessageContent.Contact.New | src/types/inline_mode/message_content.rs:40-47 | a new contact serialises to exactly its phone number and first name |
| MessageContent.Contact.ToJson | src/types/inline_mode/message_content.rs:23-31 | phone number and first name are always written; last name and vCard iff present; no other key |
| MessageContent.Contact.WithLastName | src/types/inline_mode/message_content.rs:50-53 | sets the last name only, and changes the object at `last_name` alone |
| MessageContent.Contact.WithVcard | src/types/inline_mode/message_content.rs:56-59 | sets the vCard only, and changes the object at `vcard` alone |
| MessageContent.Text.New | src/types/inline_mode/message_content.rs:143-150 | a new text serialises to exactly its message text, with exclusive formatting |
| MessageContent.Text.ToJson | src/types/inline_mode/message_content.rs:126-135 | the text is always written; entities, parse mode and preview flag iff present; no other key |
| MessageContent.Text.WithEntities | src/types/inline_mode/message_content.rs:155-159 | sets the entities and clears the parse mode: the object gains `entities` and loses `parse_mode`, nothing else changes |
| MessageContent.Text.WithParseMode | src/types/inline_mode/message_content.rs:164-168 | sets the parse mode and clears the entities: the object gains `parse_mode` and loses `entities`, nothing else changes |
| MessageContent.Text.WithDisableWebPagePreview | src/types/inline_mode/message_content.rs:171-174 | sets the preview flag only, and changes the object at `disable_web_page_preview` alone |
| MessageContent.ApplyText | src/types/inline_mode/message_content.rs:152-174 | every text setter keeps the formatting exclusive; each formatting setter leaves its own option set and the other cleared; the preview setter leaves both |
| MessageContent.ApplyAllKeepsExclusive | src/types/inline_mode/message_content.rs:143-174 | from a new text, entities and a parse mode are never both set after any sequence of setters |
| MessageContent.LastFormattingWins | src/types/inline_mode/message_content.rs:152-168 | whichever formatting setter comes last is the only formatting option set, whatever preceded it |
| MessageContent.PreviewKeepsFormatting | src/types/inline_mode/message_content.rs:171-174 | preview setters change neither the entities nor the parse mode |
| MessageContent.SerializeTextParseModeLast | src/types/inline_mode/message_content.rs:309-322 | entities, then HTML, then the preview flag serialise to the text, `parse_mode` "HTML" and the flag |
| MessageContent.SerializeTextEntitiesLast | src/types/inline_mode/message_content.rs:324-341 | Markdown then entities serialise to the text and the entities only |
| MessageContent.Venue.New | src/types/inline_mode/message_content.rs:203-214 | a new venue holds the given coordinates, title and address, and its object has exactly those four keys |
| MessageContent.Venue.ToJson | src/types/inline_mode/message_content.rs:177-192 | no key other than the venue's eight field names is written |
| MessageContent.Venue.RequiredFields | src/types/inline_mode/message_content.rs:179-183 | coordinates, title and address are always written, with their values |
| MessageContent.Venue.OptionalFields | src/types/inline_mode/message_content.rs:184-191 | each Foursquare and Google Places string is written iff present, with its value |
| MessageContent.Venue.WithFoursquareId | src/types/inline_mode/message_content.rs:217-220 | sets the Foursquare id only, and changes the object at `foursquare_id` alone |
| MessageContent.Venue.WithFoursquareType | src/types/inline_mode/message_content.rs:226-229 | sets the Foursquare type only, and changes the object at `foursquare_type` alone |
| MessageContent.Venue.WithGooglePlaceId | src/types/inline_mode/message_content.rs:232-235 | sets the Google Places id only, and changes the object at `google_place_id` alone |
| MessageContent.Venue.WithGooglePlaceType | src/types/inline_mode/message_content.rs:240-243 | sets the Google Places type only, and changes the object at `google_place_type` alone |
| MessageContent.InputMessageContent.ToJson | src/types/inline_mode/message_content.rs:9-20 | the untagged sum serialises as its variant's own object, with no `type` key added |
| MessageContent.SerializeContact | src/types/inline_mode/message_content.rs:250-278 | the test contact serialises to its four fields, and without last name and vCard to the two required ones |
| ForceReplyMarkup.ForceReply.New | src/types/reply_markup/force_reply.rs:25-31 | `new(v)` serialises to exactly `{"force_reply": v}` |
| ForceReplyMarkup.ForceReply.ToJson | src/types/reply_markup/force_reply.rs:8-15 | the flag is always written; placeholder and selective iff present, false included; no other key |
| ForceReplyMarkup.ForceReply.WithInputFieldPlaceholder | src/types/reply_markup/force_reply.rs:34-40 | sets the placeholder only, and changes the object at `input_field_placeholder` alone |
| ForceReplyMarkup.ForceReply.WithSelective | src/types/reply_markup/force_reply.rs:48-51 | sets the selective flag only, and changes the object at `selective` alone |
| ForceReplyMarkup.FalseIsWritten | src/types/reply_markup/force_reply.rs:79-81 | a selective flag of false is written, not omitted |
| ForceReplyMarkup.AllSettersThreeKeys | src/types/reply_markup/force_reply.rs:65-77 | with both setters applied, in either order, the object has exactly the three keys |
| InputMedia.InputMediaDocument.Default | src/types/input_media/document.rs:5-13 | the default has every field absent and serialises to the empty object |
| InputMedia.InputMediaDocument.ToJson | src/types/input_media/document.rs:5-13 | each field is written iff present, with its value; no other key |
| InputMedia.InputMediaDocument.WithCaption | src/types/input_media/document.rs:17-20 | sets the caption only, and changes the object at `caption` alone |
| InputMedia.InputMediaDocument.WithParseMode | src/types/input_media/document.rs:23-26 | sets the parse mode and keeps the caption, changing the object at `parse_mode` alone |
| InputMedia.InputMediaDocument.WithDisableContentTypeDetection | src/types/input_media/document.rs:32-35 | sets the detection switch only, and changes the object at `disable_content_type_detection` alone |
| InputMedia.AllSetters | src/types/input_media/document.rs:44-57 | with all three setters applied the object holds exactly caption, parse mode and the switch |
| InputMedia.SettersCommute | src/types/input_media/document.rs:17-35 | the three setters touch disjoint fields, so any two commute |
| InputMedia.SerializeDocument | src/types/input_media/document.rs:42-57 | the test document serialises to caption "caption", parse mode "Markdown" and detection disabled |

## Left out

- `InputMessageContentLocation` and the `Location` variant of `InputMessageContent`: every field is a float or is checked only through rounded float comparisons.
- Venue coordinates are carried as opaque 64-bit patterns (`Common.Float`); no float arithmetic or rounding is modelled.
- src/types/game.rs delegates to text parsing whose source is not shown, and src/types/inline_mode/mod.rs holds deserialise-only records with no behaviour; neither is part of this model.
- The request module (`Request`, `Form`, `build_url`, the HTTP transport) is not part of this model. A request is a method name and a body, and the verb is derived from the body as the tests observe it.
- `serialize_text_entities` and `ReplyMarkup::serialize` are foreign calls. Their outcome is a parameter of the voice setters (`Result<string, E>`), so any failure they report is covered, but their text is not computed.
- serde_json text formatting is not modelled: objects are maps and strings are compared as values. A hash set is written as an unordered set of names, so iteration order is not modelled either.
- Text entities carry only their kind, offset and length; the optional url, user and language fields of an entity are not modelled, since the core never sets them.
- Deserialising a `BotCommand`, and every field of `BotCommandScope` other than its tag and ids, are not modelled.
- `AllowedUpdate` has the nine kinds the update tests use; the library's other kinds are not modelled.
- Voice.SendVoice.SetCaptionEntities: the Rust method consumes the builder, so on error the caller loses it; the model keeps the object and states that its form is unchanged.
- Voice.SendVoice.SetReplyMarkup: same as above for a failed markup serialisation.
- Voice.SendVoiceTexts: the full `send_voice` chain is not replayed as one scenario. Each setter's text is stated, and Voice.ApplyAllLastWrite and Voice.ApplyAllUntouched show that the request carries each of them.
- Voice.SendVoice.SetDisableNotification: the library inserts the boolean through its own form conversion and `allow_sending_without_reply` uses `to_string`; both are modelled as the texts "true" and "false".

# Skype activity adapter — a Dafny model

This project models `SkypeAPIClient`, the adapter between Skype's Bot Framework
activities and the HyperChat connector. The adapter holds one conversation's identity
fields. These are the conversation id and name, the bot (`from`), the user
(`recipient`), the locale, the id of the message being answered, and the service URL.
The model covers:

- the two paths that fill these fields:
  - a Skype webhook payload, where the payload's `recipient` is the bot and its `from`
    is the user;
  - a HyperChat event array, which uses the same names without the swap;
- the identifiers derived from the fields: the sanitiser `cleanString`, the external id
  `skype--<conversation>--<user>` and its parser, the synthetic e-mail address and the
  session id;
- the `getMessageData` snapshot;
- the activities sent back to Skype: a typing indicator, then the message.

Files:

- `php_values.dfy` (module `PhpValues`) holds the PHP values the adapter handles, as a
  datatype. It also defines three pieces of PHP behaviour: `empty()`, reading a key with
  `->` (`Prop`) or `[]` (`Index`), and PHP's string conversion. `AsObjects` relates the
  two ways `json_decode` decodes the same text: into stdClass objects, or into arrays.
  - `Object` is a stdClass object, which is what `json_decode` makes of a JSON object.
    It is never `empty()`.
  - `Dict` is an associative array, which is empty exactly when it has no keys.
  - `empty()` treats `""` and `"0"` alike as absent.
- `identifiers.dfy` (module `Identifiers`) holds `cleanString` and PHP's
  `explode('--', …)`. It also holds `Implode`, which is proved to be `Explode`'s
  inverse, and `getIdFromExternalId`.
- `skype_api_client.dfy` (module `SkypeApi`) holds the class `SkypeApiClient`. It has
  the identity fields, a `serviceUrl` field and a ghost `outbox`, which records every
  activity handed to the parent's `send`. Both population paths are methods, each
  proved against a function that gives the resulting fields (`FromRequest`,
  `FromHyperChat`). The pure getters are functions that read the object. The send
  methods append to `outbox`, and their frame lets them change nothing else.

## Behaviour as written

The model follows the code, including where a natural reading of the component
expects otherwise:

- **The fields start as null**, although one would expect them never to be null.
  They stay null until a population path runs on non-empty input (`Unset`). After that, every field is `''` or a non-empty value, as
  `AllPopulated` states.
- **The bot's name is lost on the webhook path.** Line 38 tests a top-level
  `recipientName` key, which a Skype payload does not have. Line 61 does the same for the
  user's name on the HyperChat path (`NameNeedsTopLevelKey`). So for a payload whose
  recipient is named `"Bot"`, `fromName` is `''`, not `"Bot"` (`WebhookExample`).
- **The HyperChat path never stores a conversation name.** Line 58 indexes with the
  array `['name']`.
- **The HyperChat path is not the same mapping as the webhook path.** It swaps `from`
  and `recipient` back, and it reads `replyToId` instead of `id`
  (`HyperChatMirrorsRequest`). The webhook path reads with `->`, so it finds nothing
  in a payload decoded into arrays (`ArrayPayloadYieldsNothing`). The two paths also
  disagree on `{}`, because an empty array is `empty()` and an object is not
  (`EmptyObjectBreaksMirror`).
- **The external-id round trip holds only under a condition.** It holds when the
  cleaned conversation id does not end in `-` and the cleaned user id contains no `--`.
  Two lemmas show concrete inputs that break it: `TrailingDashBreaksRoundTrip` and
  `InnerSeparatorBreaksRoundTrip`.
- **`getIdFromExternalId` returns false, not null, for `"skype"`.**
- **`showBotTyping` always sends, whatever its flag.**
- **A text of `"0"` is dropped by `sendMessage`.**

## Model

| member | source | states |
|---|---|---|
| `PhpValues.Empty` | lib/SkypeConnector/ExternalAPI/SkypeAPIClient.php:29-44 | definition of PHP's `empty()`: null, false, 0, `""`, `"0"` and the empty array; a stdClass object never; properties in `PhpValues.EmptyOfObjects` |
| `PhpValues.Prop` | lib/SkypeConnector/ExternalAPI/SkypeAPIClient.php:34-44 | `$v->key` reads null on anything that is not an object, an array included, and for a missing property (also the read at lines 81-84) |
| `PhpValues.Index` | lib/SkypeConnector/ExternalAPI/SkypeAPIClient.php:57-70 | `$v['key']` reads the entry of an associative array, or null for a missing key; on anything else the model reads null, which is what PHP gives inside `empty()` for null, scalars and lists; an `empty()` value reads an `empty()` value (also lines 132-133, 175-186 and 206-208; strings and objects read outside `empty()` are under "## Left out") |
| `PhpValues.AsObjects` | lib/SkypeConnector/ExternalAPI/SkypeAPIClient.php:32 | definition: the object decoding `json_decode($request)` of the text whose array decoding is given; properties in `PhpValues.PropOfObjects` |
| `PhpValues.PropOfObjects` | lib/SkypeConnector/ExternalAPI/SkypeAPIClient.php:32-34 | `->key` on the object decoding reads the object decoding of `['key']` on the array decoding |
| `PhpValues.EmptyOfObjects` | lib/SkypeConnector/ExternalAPI/SkypeAPIClient.php:34 | for a decoding with no `{}`, `empty()` gives the same answer on both decodings |
| `PhpValues.Text` | lib/SkypeConnector/ExternalAPI/SkypeAPIClient.php:214-217 | definition of the string `preg_replace` and `.` make of a value: null and false give `""`, true `"1"`, an integer its decimal numeral, an array `"Array"`; the string made of a scalar is `empty()` exactly when the scalar is |
| `Identifiers.Explode` | lib/SkypeConnector/ExternalAPI/SkypeAPIClient.php:122 | PHP's `explode('--', s)` always returns at least one piece; properties in `Identifiers.ImplodeExplode`, `Identifiers.ExplodeImplode` and `Identifiers.ExplodeSeparable` |
| `Identifiers.Implode` | lib/SkypeConnector/ExternalAPI/SkypeAPIClient.php:122 | definition of the inverse of `explode('--')`: the pieces joined with `--`; properties in `Identifiers.ImplodeExplode` and `Identifiers.ExplodeImplode` |
| `Identifiers.IdFromExternalId` | lib/SkypeConnector/ExternalAPI/SkypeAPIClient.php:120-127 | definition of `getIdFromExternalId`: null unless the first piece is `skype`, then the last remaining piece, or false if none remains; properties in `Identifiers.IdFromExternalIdNullIff`, `Identifiers.IdFromExternalIdEdgeCases`, `Identifiers.IdFromExternalIdHasNoSeparator` and `Identifiers.ComposedIdRoundTrip` |
| `Identifiers.Clean` | lib/SkypeConnector/ExternalAPI/SkypeAPIClient.php:214-217 | the sanitised string has only characters in [A-Za-z0-9-] and is no longer than the input |
| `Identifiers.CleanIsSubsequence` | lib/SkypeConnector/ExternalAPI/SkypeAPIClient.php:214-217 | the sanitised string is the input with some characters deleted |
| `Identifiers.CleanKeepsIdChars` | lib/SkypeConnector/ExternalAPI/SkypeAPIClient.php:214-217 | each character of [A-Za-z0-9-] occurs in the result as often as in the input; every other character disappears |
| `Identifiers.CleanFixesIdStrings` | lib/SkypeConnector/ExternalAPI/SkypeAPIClient.php:214-217 | sanitising leaves a string unchanged if and only if it is already over [A-Za-z0-9-] |
| `Identifiers.CleanIdempotent` | lib/SkypeConnector/ExternalAPI/SkypeAPIClient.php:214-217 | sanitising twice is the same as sanitising once |
| `Identifiers.ExplodeJoin` | lib/SkypeConnector/ExternalAPI/SkypeAPIClient.php:122 | `explode('--')` of a join at `--` splits there whenever the left part does not end in a dash |
| `Identifiers.ImplodeExplode` | lib/SkypeConnector/ExternalAPI/SkypeAPIClient.php:122 | joining the pieces of `explode('--', s)` with `--` gives back `s` |
| `Identifiers.ExplodeImplode` | lib/SkypeConnector/ExternalAPI/SkypeAPIClient.php:122 | exploding a joined list gives the list back, for every list with no `--` in a piece and no dash ending a piece but the last |
| `Identifiers.ExplodeSeparable` | lib/SkypeConnector/ExternalAPI/SkypeAPIClient.php:122 | every result of `explode('--')` is such a list, so explode and implode are inverse bijections |
| `Identifiers.IdFromExternalIdNullIff` | lib/SkypeConnector/ExternalAPI/SkypeAPIClient.php:120-127 | the parser returns null exactly when the id is neither `skype` nor starts with `skype--` |
| `Identifiers.IdFromExternalIdEdgeCases` | lib/SkypeConnector/ExternalAPI/SkypeAPIClient.php:120-127 | `""` gives null; `"skype"` gives false (`end` of an empty array) |
| `Identifiers.IdFromExternalIdHasNoSeparator` | lib/SkypeConnector/ExternalAPI/SkypeAPIClient.php:120-127 | a returned id never contains `--` |
| `Identifiers.ComposedIdRoundTrip` | lib/SkypeConnector/ExternalAPI/SkypeAPIClient.php:120-127 | `skype--a--b` parses to `b` when `a` does not end in a dash and `b` has no `--` |
| `Identifiers.TrailingDashBreaksRoundTrip` | lib/SkypeConnector/ExternalAPI/SkypeAPIClient.php:99-104 | with conversation part `a-` and user `b` the parser returns `-b`, not `b` |
| `Identifiers.InnerSeparatorBreaksRoundTrip` | lib/SkypeConnector/ExternalAPI/SkypeAPIClient.php:99-104 | with user `x--y` the parser returns only `y` |
| `SkypeApi.FromRequest` | lib/SkypeConnector/ExternalAPI/SkypeAPIClient.php:27-45 | after the webhook path every field is `''` or a non-empty value, never null |
| `SkypeApi.RequestMapping` | lib/SkypeConnector/ExternalAPI/SkypeAPIClient.php:34-44 | bot id from payload `recipient.id`; user id and name from payload `from`; reply id from top-level `id`; `''` when the source is missing or `empty()` |
| `SkypeApi.FromHyperChat` | lib/SkypeConnector/ExternalAPI/SkypeAPIClient.php:50-73 | after the HyperChat path every field is `''` or non-empty, and the conversation name is always `''` |
| `SkypeApi.NameNeedsTopLevelKey` | lib/SkypeConnector/ExternalAPI/SkypeAPIClient.php:38 | without a top-level `recipientName` key, the webhook path stores `''` as the bot's name and the HyperChat path stores `''` as the user's name |
| `SkypeApi.HyperChatMirrorsRequest` | lib/SkypeConnector/ExternalAPI/SkypeAPIClient.php:50-73 | for a JSON text without `{}`, the HyperChat path on its array decoding and the webhook path on its object decoding agree field by field with the two parties exchanged; the conversation name is dropped, and the reply id comes from `replyToId` instead of `id` |
| `SkypeApi.ArrayPayloadYieldsNothing` | lib/SkypeConnector/ExternalAPI/SkypeAPIClient.php:34-44 | the webhook path reads with `->`, so a payload that is not a stdClass object yields `''` for every field |
| `SkypeApi.NestedOfObjects` | lib/SkypeConnector/ExternalAPI/SkypeAPIClient.php:34-64 | a two-level `->` read of the object decoding is the object decoding of the `[]` read of the array decoding |
| `SkypeApi.TopOfObjects` | lib/SkypeConnector/ExternalAPI/SkypeAPIClient.php:43-67 | the same for a top-level read |
| `SkypeApi.EmptyObjectBreaksMirror` | lib/SkypeConnector/ExternalAPI/SkypeAPIClient.php:50-73 | `{"locale": {}}` gives locale `''` on the HyperChat path but an empty object on the webhook path |
| `SkypeApi.WebhookExample` | lib/SkypeConnector/ExternalAPI/SkypeAPIClient.php:27-45 | a concrete payload gives conversation `c1`, bot `bot1` with name `''`, user `u#1` named `Al`, reply id `m5` |
| `SkypeApi.ServiceUrlFromRequest` | lib/SkypeConnector/ExternalAPI/SkypeAPIClient.php:78-85 | null exactly when the payload's `serviceUrl` is missing or `empty()`, otherwise that value |
| `SkypeApi.SessionIdFromRequest` | lib/SkypeConnector/ExternalAPI/SkypeAPIClient.php:129-137 | null exactly when `conversation.id` is missing or `empty()`; otherwise the sanitised id, over [A-Za-z0-9-] |
| `SkypeApi.SkypeApiClient.constructor` | lib/SkypeConnector/ExternalAPI/SkypeAPIClient.php:18-22 | given `json_decode` of the request, the service URL comes from the payload and is null for an empty request; the fields stay null for an empty request and are otherwise the webhook path's; nothing has been sent |
| `SkypeApi.SkypeApiClient.SetActivityPropertiesFromRequest` | lib/SkypeConnector/ExternalAPI/SkypeAPIClient.php:27-45 | an `empty()` request changes nothing; otherwise the fields become `FromRequest` of the decoded payload; service URL and outbox unchanged |
| `SkypeApi.SkypeApiClient.SetActivityPropertiesFromHyperChat` | lib/SkypeConnector/ExternalAPI/SkypeAPIClient.php:50-73 | a non-array or empty input changes nothing; otherwise the fields become `FromHyperChat`, and the service URL changes only when the event's `serviceUrl` is non-empty |
| `SkypeApi.FullNameIsSenderName` | lib/SkypeConnector/ExternalAPI/SkypeAPIClient.php:90-93 | after the webhook path the full name is the payload sender's name |
| `SkypeApi.SkypeApiClient.ExternalId` | lib/SkypeConnector/ExternalAPI/SkypeAPIClient.php:99-104 | the external id starts with `skype--` and is itself over [A-Za-z0-9-] |
| `SkypeApi.ExternalIdRoundTrip` | lib/SkypeConnector/ExternalAPI/SkypeAPIClient.php:99-104 | parsing the external id gives the cleaned user id when the cleaned conversation id does not end in `-` and the cleaned user id has no `--` |
| `SkypeApi.ExternalIdRoundTripAlnum` | lib/SkypeConnector/ExternalAPI/SkypeAPIClient.php:99-104 | for purely alphanumeric ids, parsing the external id gives the user id itself |
| `SkypeApi.ExternalIdExample` | lib/SkypeConnector/ExternalAPI/SkypeAPIClient.php:99-104 | conversation `c1` and user `u#1` give `skype--c1--u1` |
| `SkypeApi.IdFromExternalIdExample` | lib/SkypeConnector/ExternalAPI/SkypeAPIClient.php:120-127 | `skype--c1--u1` parses to `u1`; `other--c1--u1` to null |
| `SkypeApi.EmailShape` | lib/SkypeConnector/ExternalAPI/SkypeAPIClient.php:139-144 | the address ends in `@skype.com` and has exactly one `@` and one `_` |
| `SkypeApi.EmailInjective` | lib/SkypeConnector/ExternalAPI/SkypeAPIClient.php:139-144 | equal addresses mean equal cleaned user names and equal cleaned user ids |
| `SkypeApi.SnapshotRehydrates` | lib/SkypeConnector/ExternalAPI/SkypeAPIClient.php:106-115 | feeding the snapshot array to the HyperChat path restores the ids, the bot's name and the reply id (each `''` if it was `empty()`), and loses the conversation name, the user's name and the locale; the service URL rides along |
| `SkypeApi.SkypeApiClient.FullName` | lib/SkypeConnector/ExternalAPI/SkypeAPIClient.php:90-93 | definition: the user's name field; properties in `SkypeApi.FullNameIsSenderName` |
| `SkypeApi.SkypeApiClient.Email` | lib/SkypeConnector/ExternalAPI/SkypeAPIClient.php:139-144 | definition of the address clean(name) `_` clean(id) `@skype.com`; properties in `SkypeApi.EmailShape` and `SkypeApi.EmailInjective` |
| `SkypeApi.SkypeApiClient.MessageData` | lib/SkypeConnector/ExternalAPI/SkypeAPIClient.php:106-115 | definition of the array `getMessageData` encodes; properties in `SkypeApi.SnapshotRehydrates` |
| `SkypeApi.SkypeApiClient.TypingActivity` | lib/SkypeConnector/ExternalAPI/SkypeAPIClient.php:152-158 | definition of the typing activity; properties in `SkypeApi.MessageActivityShape` |
| `SkypeApi.SkypeApiClient.MessageActivity` | lib/SkypeConnector/ExternalAPI/SkypeAPIClient.php:168-186 | definition of the message activity; properties in `SkypeApi.MessageActivityShape`, `SkypeApi.TextMessageCarriesOnlyText` and `SkypeApi.AttachmentMessageShape` |
| `SkypeApi.OptionalEntry` | lib/SkypeConnector/ExternalAPI/SkypeAPIClient.php:175-186 | definition: a key of the message is carried only when it is not `empty()`; properties in `SkypeApi.MessageActivityShape` |
| `SkypeApi.SkypeApiClient.Send` | lib/SkypeConnector/ExternalAPI/SkypeAPIClient.php:159 | the activity is appended after every earlier one and nothing else changes |
| `SkypeApi.TextMessage` | lib/SkypeConnector/ExternalAPI/SkypeAPIClient.php:195 | definition of `["text" => text]`; properties in `SkypeApi.TextMessageCarriesOnlyText` |
| `SkypeApi.AttachmentMessage` | lib/SkypeConnector/ExternalAPI/SkypeAPIClient.php:203-211 | definition of the one-attachment array; properties in `SkypeApi.AttachmentMessageShape` |
| `SkypeApi.Attachment` | lib/SkypeConnector/ExternalAPI/SkypeAPIClient.php:205-209 | definition of the attachment built from the event's `type`, `contentBase64` and `name`; properties in `SkypeApi.AttachmentMessageShape` |
| `SkypeApi.SkypeApiClient.ShowBotTyping` | lib/SkypeConnector/ExternalAPI/SkypeAPIClient.php:150-160 | exactly one typing activity with the current addressing is appended, whatever the flag; no field changes |
| `SkypeApi.SkypeApiClient.SendMessage` | lib/SkypeConnector/ExternalAPI/SkypeAPIClient.php:165-188 | exactly two activities are appended, the typing activity and then the message activity; no field changes |
| `SkypeApi.MessageActivityShape` | lib/SkypeConnector/ExternalAPI/SkypeAPIClient.php:165-188 | the message activity has kind `message` and the typing activity's addressing, and carries each of text, suggestedActions, attachments and attachmentLayout if and only if it is non-empty in the message, with its value |
| `SkypeApi.SkypeApiClient.SendTextMessage` | lib/SkypeConnector/ExternalAPI/SkypeAPIClient.php:193-196 | sends the typing activity and then the message built from `["text" => text]` |
| `SkypeApi.TextMessageCarriesOnlyText` | lib/SkypeConnector/ExternalAPI/SkypeAPIClient.php:193-196 | that message carries the text, if it is non-empty, and no other optional key; a text of `"0"` is dropped |
| `SkypeApi.SkypeApiClient.SendAttachmentMessageFromHyperChat` | lib/SkypeConnector/ExternalAPI/SkypeAPIClient.php:201-212 | sends the typing activity and then the message built from the one-attachment array |
| `SkypeApi.AttachmentMessageShape` | lib/SkypeConnector/ExternalAPI/SkypeAPIClient.php:201-212 | that message carries exactly one attachment (contentType, contentUrl and name from the event's type, contentBase64 and name) and no other optional key |

## Left out

- JSON text. `json_decode` and `json_encode` are not modelled. The population paths and
  the constructor take the decoded value as a parameter. `MessageData` is the array
  that `getMessageData` passes to `json_encode`.
- The request body from `php://input`. `SessionIdFromRequest` takes the body, decoded
  into arrays, as a parameter.
- The parent class `SkypeBot` is not part of this model:
  - The credentials (`$appId`, `$appPassword`), authentication and the HTTP call are
    left out.
  - `send` is an append to the ghost `outbox`. Its return value, which `showBotTyping`
    and `sendMessage` pass back, is not modelled.
  - `setServiceUrl` and the URL given to the parent constructor are modelled as storing
    the value unchanged.
- PHP notices and warnings (undefined key, property of a non-object, array-to-string
  conversion) are left out. The model keeps the value that PHP carries on with: null
  for an undefined key and for `->` on an array.
- `PhpValues.Index`: `[]` on a stdClass object throws an Error in PHP, even inside
  `empty()`. The model reads null there instead. So `SkypeApi.FromHyperChat`,
  `SkypeApi.OptionalEntry` (and with it `SkypeApi.SkypeApiClient.SendMessage`) and
  `SkypeApi.Attachment` give `''`, an absent key or null where PHP would stop with an
  error. This happens when the message handed to `sendMessage` or
  `sendAttachmentMessageFromHyperChat` is a stdClass object, or when the HyperChat
  array contains one. `SkypeApi.SessionIdFromRequest` never meets an object, because
  it reads the array decoding.
- `SkypeApi.Attachment`: lines 206-208 read `$message[...]` outside `empty()`. For a
  non-empty string `$message`, PHP 7 reads its first character for each of the three
  entries, with an "Illegal string offset" warning, and PHP 8 throws. The model reads
  null for all three. For the same reason, a list or scalar `$message` gives null
  entries in the model, where PHP 8 may throw instead of warning.
- JSON numbers with a fraction or an exponent are left out. Numbers are integers.
- `PhpValues.Text`: integers are unbounded. `json_decode` turns a JSON integer beyond
  PHP_INT_MAX (2^63 - 1) into a float, which prints as, for example, `1.0E+19`. The
  model prints every digit, and that string reaches `ExternalId`, `Email` and
  `SessionIdFromRequest` through `Clean`.
- Default arguments are not modelled: `$appId`, `$appPassword` and `$request` default
  to null (line 18), `$show` to true (line 150) and `$message` to `array()` (line 165).
  Every model operation takes its arguments explicitly. A null request is `Null`,
  which is `empty()`, and an empty message is `Dict(map[])`.
- Characters, not bytes. The sanitiser pattern works on bytes without the `u` flag, and
  a byte of a multi-byte UTF-8 character is never in [A-Za-z0-9-]. So removing whole
  characters gives the same result for well-formed UTF-8 input.
- Line 123 compares with `==`. Only plain string equality is modelled, not PHP's other
  loose-comparison cases.
- `SkypeApi.FromHyperChat`: line 58 reads `$data['conversation'][['name']]` whenever the
  conversation name is non-empty. PHP 7 stores null there with a warning. PHP 8 throws a
  TypeError, which leaves the later fields unassigned. The model stores `''`.
- `SkypeApi.SessionIdFromRequest`: when `conversation.id` is a non-empty array,
  `preg_replace` returns an array. The model returns the sanitised string `"Array"`.
- `PhpValues.Text`: PHP cannot convert a stdClass object to a string. So the
  identifiers raise an error when an id or name holds an object. The model uses `""`.
- `$type` is the constant `MessageType`, since nothing assigns it.

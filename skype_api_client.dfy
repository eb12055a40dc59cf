/** The Skype activity adapter: a conversation's identity fields, the two paths that
    fill them (a Skype webhook payload and a HyperChat event), the identifiers derived
    from them, and the activities sent back to Skype. */
module SkypeApi {
  import opened PhpValues
  import opened Identifiers

  /** The adapter's `$type`: the kind of every message activity. */
  const MessageType: string := "message"
  const TypingType: string := "typing"

  /** An `array("id" => ..., "name" => ...)` pair of an activity. */
  datatype Party = Party(id: Value, name: Value)

  /** An outbound activity. The four optional keys are `None` when the activity does
      not carry them. */
  datatype Activity = Activity(
    kind: string,
    from: Party,
    conversation: Party,
    recipient: Party,
    replyToId: Value,
    text: Option<Value>,
    suggestedActions: Option<Value>,
    attachments: Option<Value>,
    attachmentLayout: Option<Value>)

  /** The adapter's identity fields, in one record. */
  datatype Identity = Identity(
    conversationId: Value,
    conversationName: Value,
    fromId: Value,
    fromName: Value,
    recipientId: Value,
    recipientName: Value,
    locale: Value,
    replyToId: Value)

  /** The fields before any population path has run: PHP leaves them null. */
  const Unset: Identity := Identity(Null, Null, Null, Null, Null, Null, Null, Null)

  /** A value as a population path stores it: '' or a value that is not `empty()`. */
  predicate Populated(v: Value) {
    v == Str("") || !Empty(v)
  }

  predicate AllPopulated(id: Identity) {
    && Populated(id.conversationId) && Populated(id.conversationName)
    && Populated(id.fromId) && Populated(id.fromName)
    && Populated(id.recipientId) && Populated(id.recipientName)
    && Populated(id.locale) && Populated(id.replyToId)
  }

  /** `!empty(v.outer) && !empty(v.outer.inner) ? v.outer.inner : ''`, each `.` read
      as `how` says. */
  function Nested(v: Value, how: Access, outer: string, inner: string): Value {
    var o := Read(v, how, outer);
    if !Empty(o) && !Empty(Read(o, how, inner)) then Read(o, how, inner) else Str("")
  }

  /** `!empty(v.key) ? v.key : ''` */
  function Top(v: Value, how: Access, key: string): Value {
    if !Empty(Read(v, how, key)) then Read(v, how, key) else Str("")
  }

  /** `!empty(v.gate) && !empty(v.outer.inner) ? v.outer.inner : ''`, the shape of
      lines 38 and 61, whose guard tests a top-level key other than the one read. */
  function Gated(v: Value, how: Access, gate: string, outer: string, inner: string): Value {
    var o := Read(v, how, outer);
    if !Empty(Read(v, how, gate)) && !Empty(Read(o, how, inner)) then Read(o, how, inner) else Str("")
  }

  /** The identity a webhook payload yields (`setActivityPropertiesFromRequest`,
      given the decoded payload). The payload's recipient is the bot and becomes
      `from`; the payload's sender is the user and becomes `recipient`. */
  function FromRequest(decoded: Value): (r: Identity)
    ensures AllPopulated(r)
  {
    Identity(
      conversationId := Nested(decoded, Arrow, "conversation", "id"),
      conversationName := Nested(decoded, Arrow, "conversation", "name"),
      fromId := Nested(decoded, Arrow, "recipient", "id"),
      fromName := Gated(decoded, Arrow, "recipientName", "recipient", "name"),
      recipientId := Nested(decoded, Arrow, "from", "id"),
      recipientName := Nested(decoded, Arrow, "from", "name"),
      locale := Top(decoded, Arrow, "locale"),
      replyToId := Top(decoded, Arrow, "id"))
  }

  /** The identity a HyperChat event array yields (`setActivityPropertiesFromHyperChat`):
      `from` and `recipient` are taken as they are, and the reply id comes from the
      `replyToId` key. Line 58 reads `$data['conversation'][['name']]`, an array used as
      an array key, so a conversation name is never stored; the model stores ''. */
  function FromHyperChat(data: Value): (r: Identity)
    ensures AllPopulated(r)
    ensures r.conversationName == Str("")
  {
    Identity(
      conversationId := Nested(data, Bracket, "conversation", "id"),
      conversationName := Str(""),
      fromId := Nested(data, Bracket, "from", "id"),
      fromName := Nested(data, Bracket, "from", "name"),
      recipientId := Nested(data, Bracket, "recipient", "id"),
      recipientName := Gated(data, Bracket, "recipientName", "recipient", "name"),
      locale := Top(data, Bracket, "locale"),
      replyToId := Top(data, Bracket, "replyToId"))
  }

  /** `getServiceUrl`, given the decoded payload: its `serviceUrl`, or null when that
      is missing or `empty()`. */
  function ServiceUrlFromRequest(decoded: Value): (r: Value)
    ensures r.Null? <==> Empty(Prop(decoded, "serviceUrl"))
    ensures !r.Null? ==> r == Prop(decoded, "serviceUrl")
  {
    if Empty(Prop(decoded, "serviceUrl")) then Null else Prop(decoded, "serviceUrl")
  }

  /** `buildSessionIdFromRequest`, given the request body as `json_decode($body, true)`
      returns it: the sanitised `conversation.id`, or null when that is missing or
      `empty()`. */
  function SessionIdFromRequest(body: Value): (r: Value)
    ensures r.Null? <==> Empty(Index(Index(body, "conversation"), "id"))
    ensures r.Str? ==> IsIdString(r.s) && r.s == Clean(Text(Index(Index(body, "conversation"), "id")))
    ensures r.Null? || r.Str?
  {
    var conversation := Index(body, "conversation");
    if !Empty(conversation) && !Empty(Index(conversation, "id")) then
      Str(Clean(Text(Index(conversation, "id"))))
    else
      Null
  }

  /** `$message[key]` as `sendMessage` copies it: only when it is not `empty()`. */
  function OptionalEntry(message: Value, key: string): Option<Value> {
    if Empty(Index(message, key)) then None else Some(Index(message, key))
  }

  /** The array `sendTextMessage` hands to `sendMessage`. */
  function TextMessage(text: Value): Value {
    Dict(map["text" := text])
  }

  /** The array `sendAttachmentMessageFromHyperChat` hands to `sendMessage`: one
      attachment built from the HyperChat message's type, base64 content and name. */
  function AttachmentMessage(message: Value): Value {
    Dict(map["attachments" := List([Attachment(message)])])
  }

  function Attachment(message: Value): Value {
    Dict(map[
      "contentType" := Index(message, "type"),
      "contentUrl" := Index(message, "contentBase64"),
      "name" := Index(message, "name")])
  }

  /** The value a population path stores for a snapshot entry fed back to it. */
  function Normalized(v: Value): Value {
    if Empty(v) then Str("") else v
  }

  class SkypeApiClient {
    var conversationId: Value
    var conversationName: Value
    var fromId: Value
    var fromName: Value
    var recipientId: Value
    var recipientName: Value
    var locale: Value
    var replyToId: Value
    /** The base URL of the Skype service, kept by the parent class; null until known. */
    var serviceUrl: Value
    /** Every activity handed to the parent's `send`, oldest first. */
    ghost var outbox: seq<Activity>

    function Fields(): Identity
      reads this
    {
      Identity(conversationId, conversationName, fromId, fromName,
               recipientId, recipientName, locale, replyToId)
    }

    /** `__construct($appId, $appPassword, $request)`: the service URL comes from the
        payload, then the webhook path fills the fields. `decoded` is
        `json_decode($request)`, so an `empty()` request decodes to an `empty()` value
        (null, or 0 for "0"). */
    constructor (request: Value, decoded: Value)
      requires Empty(request) ==> Empty(decoded)
      ensures serviceUrl == ServiceUrlFromRequest(decoded)
      ensures Empty(request) ==> serviceUrl == Null
      ensures Fields() == if Empty(request) then Unset else FromRequest(decoded)
      ensures outbox == []
    {
      conversationId, conversationName := Null, Null;
      fromId, fromName := Null, Null;
      recipientId, recipientName := Null, Null;
      locale, replyToId := Null, Null;
      serviceUrl := ServiceUrlFromRequest(decoded);
      outbox := [];
      new;
      SetActivityPropertiesFromRequest(request, decoded);
    }

    /** `setActivityPropertiesFromRequest`: nothing happens for an `empty()` request;
        otherwise every field is replaced from the decoded payload. */
    method SetActivityPropertiesFromRequest(request: Value, decoded: Value)
      modifies this
      ensures Fields() == if Empty(request) then old(Fields()) else FromRequest(decoded)
      ensures serviceUrl == old(serviceUrl) && outbox == old(outbox)
    {
      if Empty(request) {
        return;
      }
      conversationId := Nested(decoded, Arrow, "conversation", "id");
      conversationName := Nested(decoded, Arrow, "conversation", "name");
      fromId := Nested(decoded, Arrow, "recipient", "id");
      fromName := Gated(decoded, Arrow, "recipientName", "recipient", "name");
      recipientId := Nested(decoded, Arrow, "from", "id");
      recipientName := Nested(decoded, Arrow, "from", "name");
      locale := Top(decoded, Arrow, "locale");
      replyToId := Top(decoded, Arrow, "id");
    }

    /** `setActivityPropertiesFromHyperChat`: nothing happens unless `data` is a
        non-empty array; otherwise every field is replaced, and the service URL too
        when the event carries a non-empty one. */
    method SetActivityPropertiesFromHyperChat(data: Value)
      modifies this
      ensures Empty(data) || !IsArray(data) ==>
                Fields() == old(Fields()) && serviceUrl == old(serviceUrl)
      ensures !Empty(data) && IsArray(data) ==>
                && Fields() == FromHyperChat(data)
                && serviceUrl == if Empty(Index(data, "serviceUrl")) then old(serviceUrl) else Index(data, "serviceUrl")
      ensures outbox == old(outbox)
    {
      if Empty(data) || !IsArray(data) {
        return;
      }
      conversationId := Nested(data, Bracket, "conversation", "id");
      // $data['conversation'][['name']]: an illegal offset, never the name
      conversationName := Str("");
      recipientId := Nested(data, Bracket, "recipient", "id");
      recipientName := Gated(data, Bracket, "recipientName", "recipient", "name");
      fromId := Nested(data, Bracket, "from", "id");
      fromName := Nested(data, Bracket, "from", "name");
      locale := Top(data, Bracket, "locale");
      replyToId := Top(data, Bracket, "replyToId");
      if !Empty(Index(data, "serviceUrl")) {
        serviceUrl := Index(data, "serviceUrl");
      }
    }

    /** `getFullName`: the user's display name. */
    function FullName(): Value
      reads this
    {
      recipientName
    }

    /** `getExternalId`: "skype--" + clean(conversation id) + "--" + clean(user id). */
    function ExternalId(): (r: string)
      reads this
      ensures IsIdString(r)
      ensures |r| >= 9 && r[..7] == "skype--"
    {
      var user := Clean(Text(recipientId));
      var conversation := Clean(Text(conversationId));
      IdStringConcat("skype--", conversation);
      IdStringConcat("skype--" + conversation, "--");
      IdStringConcat("skype--" + conversation + "--", user);
      "skype--" + conversation + "--" + user
    }

    /** `getEmail`: clean(user name) + "_" + clean(user id) + "@skype.com". */
    function Email(): string
      reads this
    {
      Clean(Text(recipientName)) + "_" + Clean(Text(recipientId)) + "@skype.com"
    }

    /** `getMessageData`: the array it passes to `json_encode`. */
    function MessageData(): Value
      reads this
    {
      Dict(map[
        "from" := Dict(map["id" := fromId, "name" := fromName]),
        "conversation" := Dict(map["id" := conversationId, "name" := conversationName]),
        "recipient" := Dict(map["id" := recipientId, "name" := recipientName]),
        "replyToId" := replyToId,
        "serviceUrl" := serviceUrl])
    }

    /** The activity `showBotTyping` sends. */
    function TypingActivity(): Activity
      reads this
    {
      Activity(TypingType, Party(fromId, fromName), Party(conversationId, conversationName),
               Party(recipientId, recipientName), replyToId, None, None, None, None)
    }

    /** The second activity `sendMessage(message)` sends: the current addressing and
        each optional key that is not `empty()` in `message`. */
    function MessageActivity(message: Value): Activity
      reads this
    {
      Activity(MessageType, Party(fromId, fromName), Party(conversationId, conversationName),
               Party(recipientId, recipientName), replyToId,
               OptionalEntry(message, "text"), OptionalEntry(message, "suggestedActions"),
               OptionalEntry(message, "attachments"), OptionalEntry(message, "attachmentLayout"))
    }

    /** The parent's `send`: the activity goes out, after every earlier one. */
    method Send(activity: Activity)
      modifies this`outbox
      ensures outbox == old(outbox) + [activity]
    {
      outbox := outbox + [activity];
    }

    /** `showBotTyping($show)`: sends a typing activity whatever `show` says. */
    method ShowBotTyping(show: bool)
      modifies this`outbox
      ensures outbox == old(outbox) + [TypingActivity()]
      ensures Fields() == old(Fields()) && serviceUrl == old(serviceUrl)
    {
      Send(TypingActivity());
    }

    /** `sendMessage($message)`: a typing activity, then the message activity. */
    method SendMessage(message: Value)
      modifies this`outbox
      ensures outbox == old(outbox) + [TypingActivity(), MessageActivity(message)]
      ensures Fields() == old(Fields()) && serviceUrl == old(serviceUrl)
    {
      ShowBotTyping(true);
      var activity := Activity(MessageType, Party(fromId, fromName), Party(conversationId, conversationName),
                               Party(recipientId, recipientName), replyToId, None, None, None, None);
      if !Empty(Index(message, "text")) {
        activity := activity.(text := Some(Index(message, "text")));
      }
      if !Empty(Index(message, "suggestedActions")) {
        activity := activity.(suggestedActions := Some(Index(message, "suggestedActions")));
      }
      if !Empty(Index(message, "attachments")) {
        activity := activity.(attachments := Some(Index(message, "attachments")));
      }
      if !Empty(Index(message, "attachmentLayout")) {
        activity := activity.(attachmentLayout := Some(Index(message, "attachmentLayout")));
      }
      Send(activity);
    }

    /** `sendTextMessage($text)`. */
    method SendTextMessage(text: Value)
      modifies this`outbox
      ensures outbox == old(outbox) + [TypingActivity(), MessageActivity(TextMessage(text))]
      ensures Fields() == old(Fields()) && serviceUrl == old(serviceUrl)
    {
      SendMessage(TextMessage(text));
    }

    /** `sendAttachmentMessageFromHyperChat($message)`. */
    method SendAttachmentMessageFromHyperChat(message: Value)
      modifies this`outbox
      ensures outbox == old(outbox) + [TypingActivity(), MessageActivity(AttachmentMessage(message))]
      ensures Fields() == old(Fields()) && serviceUrl == old(serviceUrl)
    {
      SendMessage(AttachmentMessage(message));
    }
  }

  // ---------------------------------------------------------------------------
  // Properties of the population paths
  // ---------------------------------------------------------------------------

  /** The webhook path's mapping table: the payload's recipient is the bot, its
      sender the user; a field whose source is missing or `empty()` is ''. */
  lemma RequestMapping(decoded: Value)
    ensures var r := FromRequest(decoded);
      && (Empty(Prop(Prop(decoded, "recipient"), "id")) ==> r.fromId == Str(""))
      && (!Empty(Prop(Prop(decoded, "recipient"), "id")) ==> r.fromId == Prop(Prop(decoded, "recipient"), "id"))
      && (Empty(Prop(Prop(decoded, "from"), "id")) ==> r.recipientId == Str(""))
      && (!Empty(Prop(Prop(decoded, "from"), "id")) ==> r.recipientId == Prop(Prop(decoded, "from"), "id"))
      && (Empty(Prop(Prop(decoded, "from"), "name")) ==> r.recipientName == Str(""))
      && (!Empty(Prop(Prop(decoded, "from"), "name")) ==> r.recipientName == Prop(Prop(decoded, "from"), "name"))
      && (Empty(Prop(decoded, "id")) ==> r.replyToId == Str(""))
      && (!Empty(Prop(decoded, "id")) ==> r.replyToId == Prop(decoded, "id"))
  {
  }

  /** Lines 38 and 61: the bot's name (webhook path) and the user's name (HyperChat
      path) are stored only when the payload has a top-level `recipientName` key,
      which a Skype activity does not have. */
  lemma NameNeedsTopLevelKey(v: Value)
    ensures Empty(Prop(v, "recipientName")) ==> FromRequest(v).fromName == Str("")
    ensures Empty(Index(v, "recipientName")) ==> FromHyperChat(v).recipientName == Str("")
  {
  }

  /** The webhook path reads with `->`, so a payload decoded into arrays yields ''
      for every field. */
  lemma ArrayPayloadYieldsNothing(v: Value)
    requires !v.Object?
    ensures FromRequest(v) == Identity(Str(""), Str(""), Str(""), Str(""), Str(""), Str(""), Str(""), Str(""))
  {
  }

  /** Reading `outer.inner` with `->` from the object decoding gives the object
      decoding of what `[]` reads from the array decoding. */
  lemma {:induction false} NestedOfObjects(d: Value, outer: string, inner: string)
    requires ArrayTree(d)
    ensures Nested(AsObjects(d), Arrow, outer, inner) == AsObjects(Nested(d, Bracket, outer, inner))
  {
    var o := Index(d, outer);
    PropOfObjects(d, outer);
    IndexKeepsArrayTree(d, outer);
    EmptyOfObjects(o);
    PropOfObjects(o, inner);
    IndexKeepsArrayTree(o, inner);
    EmptyOfObjects(Index(o, inner));
  }

  lemma {:induction false} TopOfObjects(d: Value, key: string)
    requires ArrayTree(d)
    ensures Top(AsObjects(d), Arrow, key) == AsObjects(Top(d, Bracket, key))
  {
    PropOfObjects(d, key);
    IndexKeepsArrayTree(d, key);
    EmptyOfObjects(Index(d, key));
  }

  /** The HyperChat path is the webhook path with `from` and `recipient` swapped back,
      except that it drops the conversation name and reads the reply id from
      `replyToId` instead of `id`. The webhook path is given the same JSON decoded
      into objects (`AsObjects`), as `json_decode` without its second argument does. */
  lemma {:induction false} HyperChatMirrorsRequest(d: Value)
    requires ArrayTree(d)
    ensures var h, r := FromHyperChat(d), FromRequest(AsObjects(d));
      && r.conversationId == AsObjects(h.conversationId)
      && r.recipientId == AsObjects(h.fromId) && r.recipientName == AsObjects(h.fromName)
      && r.fromId == AsObjects(h.recipientId) && r.fromName == AsObjects(h.recipientName)
      && r.locale == AsObjects(h.locale)
      && r.replyToId == AsObjects(Top(d, Bracket, "id"))
      && h.replyToId == Top(d, Bracket, "replyToId")
      && r.conversationName == AsObjects(Nested(d, Bracket, "conversation", "name"))
      && h.conversationName == Str("")
  {
    NestedOfObjects(d, "conversation", "id");
    NestedOfObjects(d, "conversation", "name");
    NestedOfObjects(d, "from", "id");
    NestedOfObjects(d, "from", "name");
    NestedOfObjects(d, "recipient", "id");
    NestedOfObjects(d, "recipient", "name");
    TopOfObjects(d, "recipientName");
    TopOfObjects(d, "locale");
    TopOfObjects(d, "id");
  }

  /** Why HyperChatMirrorsRequest excludes `{}`: `{"locale": {}}` gives '' as an
      array but an empty object when decoded into objects, since an object is never
      `empty()`. */
  lemma EmptyObjectBreaksMirror()
    ensures FromHyperChat(Dict(map["locale" := Dict(map[])])).locale == Str("")
    ensures FromRequest(AsObjects(Dict(map["locale" := Dict(map[])]))).locale == Object(map[])
  {
  }

  /** Feeding the `getMessageData` array back into the HyperChat path restores the
      ids, the sender's name and the reply id (each as '' when it was `empty()`), but
      loses the conversation name, the user's name and the locale. */
  lemma {:induction false} SnapshotRehydrates(c: SkypeApiClient)
    ensures FromHyperChat(c.MessageData()) == Identity(
      conversationId := Normalized(c.conversationId),
      conversationName := Str(""),
      fromId := Normalized(c.fromId),
      fromName := Normalized(c.fromName),
      recipientId := Normalized(c.recipientId),
      recipientName := Str(""),
      locale := Str(""),
      replyToId := Normalized(c.replyToId))
    ensures !Empty(c.MessageData()) && IsArray(c.MessageData())
    ensures Index(c.MessageData(), "serviceUrl") == c.serviceUrl
  {
    var data := c.MessageData();
    assert Index(data, "from") == Dict(map["id" := c.fromId, "name" := c.fromName]);
    assert Index(data, "conversation") == Dict(map["id" := c.conversationId, "name" := c.conversationName]);
    assert Index(data, "recipient") == Dict(map["id" := c.recipientId, "name" := c.recipientName]);
    assert Index(data, "recipientName") == Null;
    assert Index(data, "locale") == Null;
    assert !Empty(Index(data, "from")) by { assert "id" in Index(data, "from").entries; }
    assert !Empty(Index(data, "conversation")) by { assert "id" in Index(data, "conversation").entries; }
    assert !Empty(Index(data, "recipient")) by { assert "id" in Index(data, "recipient").entries; }
  }

  /** A Skype message from user "u#1" to bot "bot1", decoded as objects. */
  const ExamplePayload: Value := Object(map[
    "conversation" := Object(map["id" := Str("c1")]),
    "recipient" := Object(map["id" := Str("bot1"), "name" := Str("Bot")]),
    "from" := Object(map["id" := Str("u#1"), "name" := Str("Al")]),
    "id" := Str("m5")])

  /** What the webhook path makes of ExamplePayload: the ids swapped into place and
      the bot's name dropped, since the payload has no top-level `recipientName`. */
  lemma WebhookExample()
    ensures FromRequest(ExamplePayload) == Identity(
      conversationId := Str("c1"), conversationName := Str(""),
      fromId := Str("bot1"), fromName := Str(""),
      recipientId := Str("u#1"), recipientName := Str("Al"),
      locale := Str(""), replyToId := Str("m5"))
  {
  }

  /** The example's external id: the "#" of "u#1" is dropped. */
  lemma ExternalIdExample(c: SkypeApiClient)
    requires c.conversationId == Str("c1") && c.recipientId == Str("u#1")
    ensures c.ExternalId() == "skype--c1--u1"
  {
  }

  /** The example's external id parses back to "u1"; an id of another platform parses
      to null. */
  lemma IdFromExternalIdExample()
    ensures IdFromExternalId("skype--c1--u1") == Str("u1")
    ensures IdFromExternalId("other--c1--u1") == Null
  {
    assert IdFromExternalId("skype--c1--u1") == Str("u1") by {
      assert !HasSeparator("u1") && !EndsWithDash("c1");
      ComposedIdRoundTrip("c1", "u1");
      assert "skype--" + "c1" + "--" + "u1" == "skype--c1--u1";
    }
    assert IdFromExternalId("other--c1--u1") == Null by {
      IdFromExternalIdNullIff("other--c1--u1");
      assert "other--c1--u1"[0] == 'o';
    }
  }

  // ---------------------------------------------------------------------------
  // Properties of the derived identifiers
  // ---------------------------------------------------------------------------

  /** `getFullName` is the user's name, which the webhook path takes from the
      payload's sender. */
  lemma FullNameIsSenderName(c: SkypeApiClient, decoded: Value)
    requires c.Fields() == FromRequest(decoded)
    ensures c.FullName() == Nested(decoded, Arrow, "from", "name")
  {
  }

  /** `getIdFromExternalId(getExternalId())` gives back the cleaned user id when the
      cleaned conversation id does not end in a dash and the cleaned user id has no
      "--". */
  lemma {:induction false} ExternalIdRoundTrip(c: SkypeApiClient)
    requires !EndsWithDash(Clean(Text(c.conversationId)))
    requires !HasSeparator(Clean(Text(c.recipientId)))
    ensures IdFromExternalId(c.ExternalId()) == Str(Clean(Text(c.recipientId)))
  {
    ComposedIdRoundTrip(Clean(Text(c.conversationId)), Clean(Text(c.recipientId)));
  }

  lemma {:induction false} AlnumHasNoDashes(s: string)
    requires IsAlnumString(s)
    ensures Clean(s) == s
    ensures !EndsWithDash(s) && !HasSeparator(s)
    decreases |s|
  {
    assert IsIdString(s);
    CleanFixesIdStrings(s);
    if |s| >= 2 {
      AlnumHasNoDashes(s[1..]);
    }
  }

  /** For purely alphanumeric ids the round trip returns the user id itself. */
  lemma {:induction false} ExternalIdRoundTripAlnum(c: SkypeApiClient)
    requires IsAlnumString(Text(c.conversationId))
    requires IsAlnumString(Text(c.recipientId))
    ensures IdFromExternalId(c.ExternalId()) == Str(Text(c.recipientId))
  {
    AlnumHasNoDashes(Text(c.conversationId));
    AlnumHasNoDashes(Text(c.recipientId));
    ExternalIdRoundTrip(c);
  }

  /** `getEmail` ends in "@skype.com" and has exactly one "@" and one "_". */
  lemma {:induction false} EmailShape(c: SkypeApiClient)
    ensures var e := c.Email();
      && |e| >= 11 && e[|e| - 10..] == "@skype.com"
      && multiset(e)['@'] == 1
      && multiset(e)['_'] == 1
  {
    var name, id := Clean(Text(c.recipientName)), Clean(Text(c.recipientId));
    CleanKeepsIdChars(Text(c.recipientName), '@');
    CleanKeepsIdChars(Text(c.recipientId), '@');
    CleanKeepsIdChars(Text(c.recipientName), '_');
    CleanKeepsIdChars(Text(c.recipientId), '_');
    var e := c.Email();
    assert e == name + "_" + id + "@skype.com";
    assert multiset(e) == multiset(name) + multiset("_") + multiset(id) + multiset("@skype.com");
    assert e[|e| - 10..] == "@skype.com";
  }

  lemma UnderscoreMarksNameEnd(shorter: string, id: string, longer: string, id': string)
    requires IsIdString(longer) && |shorter| < |longer|
    ensures shorter + "_" + id + "@skype.com" != longer + "_" + id' + "@skype.com"
  {
    var e, e' := shorter + "_" + id + "@skype.com", longer + "_" + id' + "@skype.com";
    assert e[|shorter|] == '_';
    assert e'[|shorter|] == longer[|shorter|];
  }

  /** Two clients with the same `getEmail` have the same cleaned user name and id:
      "_" is outside the cleaned alphabet, so it marks where the name ends. */
  lemma {:induction false} EmailInjective(c: SkypeApiClient, d: SkypeApiClient)
    requires c.Email() == d.Email()
    ensures Clean(Text(c.recipientName)) == Clean(Text(d.recipientName))
    ensures Clean(Text(c.recipientId)) == Clean(Text(d.recipientId))
  {
    var n1, i1 := Clean(Text(c.recipientName)), Clean(Text(c.recipientId));
    var n2, i2 := Clean(Text(d.recipientName)), Clean(Text(d.recipientId));
    var e := c.Email();
    assert e == n1 + "_" + i1 + "@skype.com";
    assert e == n2 + "_" + i2 + "@skype.com";
    if |n1| < |n2| {
      UnderscoreMarksNameEnd(n1, i1, n2, i2);
      assert false;
    } else if |n2| < |n1| {
      UnderscoreMarksNameEnd(n2, i2, n1, i1);
      assert false;
    }
    assert n1 == e[..|n1|] == n2;
    assert i1 == e[|n1| + 1..|e| - 10] == i2;
  }

  // ---------------------------------------------------------------------------
  // Properties of the outbound activities
  // ---------------------------------------------------------------------------

  /** A message activity is addressed like the typing activity sent before it, and
      carries an optional key exactly when that key is not `empty()` in the message. */
  lemma MessageActivityShape(c: SkypeApiClient, message: Value)
    ensures var a, t := c.MessageActivity(message), c.TypingActivity();
      && a.kind == MessageType && t.kind == TypingType
      && a.from == t.from == Party(c.fromId, c.fromName)
      && a.conversation == t.conversation == Party(c.conversationId, c.conversationName)
      && a.recipient == t.recipient == Party(c.recipientId, c.recipientName)
      && a.replyToId == t.replyToId == c.replyToId
      && (a.text.Some? <==> !Empty(Index(message, "text")))
      && (a.suggestedActions.Some? <==> !Empty(Index(message, "suggestedActions")))
      && (a.attachments.Some? <==> !Empty(Index(message, "attachments")))
      && (a.attachmentLayout.Some? <==> !Empty(Index(message, "attachmentLayout")))
      && (a.text.Some? ==> a.text.value == Index(message, "text"))
      && (a.suggestedActions.Some? ==> a.suggestedActions.value == Index(message, "suggestedActions"))
      && (a.attachments.Some? ==> a.attachments.value == Index(message, "attachments"))
      && (a.attachmentLayout.Some? ==> a.attachmentLayout.value == Index(message, "attachmentLayout"))
  {
  }

  /** `sendTextMessage` sends the text and no other optional key; a text PHP calls
      empty, "" or "0", is dropped and the message goes out bare. */
  lemma TextMessageCarriesOnlyText(c: SkypeApiClient, text: Value)
    ensures c.MessageActivity(TextMessage(text)) ==
              c.TypingActivity().(kind := MessageType, text := if Empty(text) then None else Some(text))
    ensures c.MessageActivity(TextMessage(Str("0"))).text == None
  {
  }

  /** `sendAttachmentMessageFromHyperChat` always sends exactly one attachment, built
      from the HyperChat message's type, base64 content and name, and nothing else. */
  lemma AttachmentMessageShape(c: SkypeApiClient, message: Value)
    ensures c.MessageActivity(AttachmentMessage(message)) ==
              c.TypingActivity().(kind := MessageType, attachments := Some(List([Attachment(message)])))
  {
  }
}

/**
 * The routes app.js defines itself: the CORS origin check, the webhook
 * subscription handshake (GET /webhook), inbound event handling
 * (POST /webhook) and the message listing (GET /api/messages).
 */
module App {
  import opened Wrappers
  import opened JsString
  import opened Validation
  import opened MessageModel
  import opened Ordering
  import opened Http

  /** The front-end origins the CORS policy admits. */
  const AllowedOrigins: seq<string> := ["http://localhost:4000", "http://localhost:5174", "http://localhost:5173"]

  /**
   * The CORS `origin` callback: a request without an Origin header (or with
   * an empty one, which is just as falsy) is admitted, and so is one whose
   * origin is in the list (`includes` compares strings by value).
   */
  predicate CorsAllows(origin: Option<string>) {
    !Truthy(origin) || origin.value in AllowedOrigins
  }

  /** The admitted origins, spelled out: absent, empty, or one of the three localhost origins. */
  lemma CorsAllowsExactly(origin: Option<string>)
    ensures CorsAllows(origin) <==>
      || origin.None? || origin.value == ""
      || origin.value == "http://localhost:4000"
      || origin.value == "http://localhost:5174"
      || origin.value == "http://localhost:5173"
  {
    assert AllowedOrigins[0] == "http://localhost:4000";
    assert AllowedOrigins[1] == "http://localhost:5174";
    assert AllowedOrigins[2] == "http://localhost:5173";
  }

  /** The `hub.mode` value of a subscription request. */
  const Subscribe := "subscribe"

  /**
   * GET /webhook as written: the challenge is echoed with 200 exactly when
   * the mode is "subscribe" and the token equals the configured
   * `VERIFY_TOKEN`, compared with `===`, so two absent values are equal.
   * Otherwise `sendStatus(403)` answers with the text "Forbidden".
   */
  function VerifyWebhook(mode: Option<string>, token: Option<string>, challenge: Option<string>, verifyToken: Option<string>): (r: Response)
    ensures r.status == 200 <==> mode == Some(Subscribe) && token == verifyToken
    ensures r.status == 200 ==> r.body == PlainText(challenge.GetOr(""))
    ensures r.status != 200 ==> r == Response(403, PlainText("Forbidden"))
  {
    if mode == Some(Subscribe) && token == verifyToken then Response(200, PlainText(challenge.GetOr("")))
    else Response(403, PlainText("Forbidden"))
  }

  /** With no `VERIFY_TOKEN` configured, a subscription request without a token passes the handshake. */
  lemma VerifyAcceptsMissingToken(challenge: string)
    ensures VerifyWebhook(Some(Subscribe), None, Some(challenge), None) == Response(200, PlainText(challenge))
  {
  }

  /**
   * GET /webhook as evidently intended: the handshake succeeds only against
   * a configured secret. It agrees with `VerifyWebhook` whenever a secret is
   * configured.
   */
  function VerifyWebhookConfigured(mode: Option<string>, token: Option<string>, challenge: Option<string>, verifyToken: Option<string>): (r: Response)
    ensures r.status == 200 <==> mode == Some(Subscribe) && verifyToken.Some? && token == verifyToken
    ensures r.status == 200 ==> token.Some? && r.body == PlainText(challenge.GetOr(""))
    ensures verifyToken.Some? ==> r == VerifyWebhook(mode, token, challenge, verifyToken)
    ensures verifyToken.None? ==> r == Response(403, PlainText("Forbidden"))
  {
    if verifyToken.None? then Response(403, PlainText("Forbidden"))
    else VerifyWebhook(mode, token, challenge, verifyToken)
  }

  // The inbound webhook payload; every property may be missing.

  datatype Metadata = Metadata(phoneNumberId: Option<string>, displayPhoneNumber: Option<string>)
  datatype TextContent = TextContent(body: Option<string>)
  datatype InboundMessage = InboundMessage(from: Option<string>, msgType: Option<string>, text: Option<TextContent>)
  datatype ChangeValue = ChangeValue(metadata: Option<Metadata>, messages: Option<seq<InboundMessage>>)
  datatype Change = Change(value: Option<ChangeValue>)
  datatype Entry = Entry(changes: Option<seq<Change>>)
  datatype InboundPayload = InboundPayload(entry: Option<seq<Entry>>)

  /** The `TypeError` of reading a property of `undefined`. */
  datatype TypeError = PropertyOfUndefined

  /**
   * The condition of POST /webhook: `entry`, `entry[0].changes`,
   * `changes[0].value.messages` and `messages[0]` all present.
   */
  predicate GuardHolds(p: InboundPayload) {
    && p.entry.Some? && |p.entry.value| > 0
    && p.entry.value[0].changes.Some? && |p.entry.value[0].changes.value| > 0
    && p.entry.value[0].changes.value[0].value.Some?
    && p.entry.value[0].changes.value[0].value.value.messages.Some?
    && |p.entry.value[0].changes.value[0].value.value.messages.value| > 0
  }

  /**
   * Evaluates the condition with JavaScript's short-circuit `&&`. Reading
   * `changes` of a missing first entry, `value` of a missing first change,
   * or `messages` of a missing `value` throws.
   */
  function Guard(p: InboundPayload): (r: Result<bool, TypeError>)
    ensures r == Ok(true) <==> GuardHolds(p)
    ensures r.Err? <==>
      && p.entry.Some?
      && (|p.entry.value| == 0
          || (p.entry.value[0].changes.Some?
              && (|p.entry.value[0].changes.value| == 0 || p.entry.value[0].changes.value[0].value.None?)))
  {
    match p.entry
    case None => Ok(false)
    case Some(entries) =>
      if |entries| == 0 then Err(PropertyOfUndefined)
      else match entries[0].changes
        case None => Ok(false)
        case Some(changes) =>
          if |changes| == 0 then Err(PropertyOfUndefined)
          else match changes[0].value
            case None => Err(PropertyOfUndefined)
            case Some(value) =>
              match value.messages
              case None => Ok(false)
              case Some(messages) => Ok(|messages| > 0)
  }

  function FirstValue(p: InboundPayload): ChangeValue
    requires GuardHolds(p)
  {
    p.entry.value[0].changes.value[0].value.value
  }

  function FirstMessage(p: InboundPayload): InboundMessage
    requires GuardHolds(p)
  {
    FirstValue(p).messages.value[0]
  }

  /** The object literal `{ phoneNumberId, from, message }` handed to `Message.create`. */
  datatype InboundFields = InboundFields(phoneNumberId: Option<string>, from: Option<string>, message: Option<string>)
  {
    /**
     * None of its keys is a path of the message schema, so strict mode keeps
     * nothing: validation sees only the four required paths missing.
     */
    function Draft(): (d: MessageDraft)
      ensures Violations(d) == {Required([Key("sender")]), Required([Key("receiver")]), Required([Key("to")]), Required([Key("type")])}
    {
      EmptyDraft
    }
  }

  /**
   * The reads under the condition: `value.metadata.phone_number_id` throws
   * when `metadata` is missing and `messages[0].text.body` throws when `text`
   * is missing; a missing leaf property is just `undefined`.
   */
  function Extract(p: InboundPayload): (r: Result<InboundFields, TypeError>)
    requires GuardHolds(p)
    ensures r.Ok? <==> FirstValue(p).metadata.Some? && FirstMessage(p).text.Some?
    ensures r.Ok? ==>
      && r.value.phoneNumberId == FirstValue(p).metadata.value.phoneNumberId
      && r.value.from == FirstMessage(p).from
      && r.value.message == FirstMessage(p).text.value.body
  {
    var value := FirstValue(p);
    var message := FirstMessage(p);
    match value.metadata
    case None => Err(PropertyOfUndefined)
    case Some(metadata) =>
      match message.text
      case None => Err(PropertyOfUndefined)
      case Some(text) => Ok(InboundFields(metadata.phoneNumberId, message.from, text.body))
  }

  const Acknowledgement := Response(200, PlainText("EVENT_RECEIVED"))

  /** What one webhook delivery leads to: the `create` calls made, the collection afterwards and the reply. */
  datatype WebhookOutcome = WebhookOutcome(creates: seq<InboundFields>, store: seq<Record>, reply: Reply)

  /**
   * POST /webhook. The write's outcome is an input; a failing read or a
   * rejected `create` leaves the handler without a reply.
   */
  function HandleWebhook(p: InboundPayload, store: seq<Record>, now: int, storeAvailable: bool): (out: WebhookOutcome)
    // Whenever the handler answers, it answers 200 "EVENT_RECEIVED".
    ensures out.reply.Responded? ==> out.reply.response == Acknowledgement
    // Without a first message there is nothing to store, and the event is acknowledged.
    ensures Guard(p) == Ok(false) ==> out == WebhookOutcome([], store, Responded(Acknowledgement))
    ensures Guard(p).Err? ==> out == WebhookOutcome([], store, NoReply)
    // A first message without text, or a value without metadata, throws before any write.
    ensures GuardHolds(p) && Extract(p).Err? ==> out == WebhookOutcome([], store, NoReply)
    // Otherwise exactly one create, with the fields of the first message.
    ensures GuardHolds(p) && Extract(p).Ok? ==> out.creates == [Extract(p).value]
    // A create that fails (validation or write) rejects the handler's promise: no reply, nothing stored.
    ensures GuardHolds(p) && Extract(p).Ok? && Save(store, Extract(p).value.Draft(), now, storeAvailable).result.Err? ==>
      out.reply == NoReply && out.store == store
    // A create that succeeds stores what the save stores, and the event is acknowledged.
    ensures GuardHolds(p) && Extract(p).Ok? && Save(store, Extract(p).value.Draft(), now, storeAvailable).result.Ok? ==>
      out.store == Save(store, Extract(p).value.Draft(), now, storeAvailable).store && out.reply == Responded(Acknowledgement)
    ensures out.store == store
         || (|out.creates| == 1 && Cast(out.creates[0].Draft(), now).Ok?
             && out.store == store + [Cast(out.creates[0].Draft(), now).value]
             && out.reply == Responded(Acknowledgement))
  {
    match Guard(p)
    case Err(_) => WebhookOutcome([], store, NoReply)
    case Ok(holds) =>
      if !holds then WebhookOutcome([], store, Responded(Acknowledgement))
      else match Extract(p)
        case Err(_) => WebhookOutcome([], store, NoReply)
        case Ok(fields) =>
          var saved := Save(store, fields.Draft(), now, storeAvailable);
          if saved.result.Ok? then WebhookOutcome([fields], saved.store, Responded(Acknowledgement))
          else WebhookOutcome([fields], store, NoReply)
  }

  /**
   * The object `create` receives never satisfies the schema: its keys are not
   * schema paths, so `sender`, `receiver`, `to` and `type` are all missing.
   */
  lemma InboundCreateRejected(f: InboundFields, now: int)
    ensures Cast(f.Draft(), now).Err?
    ensures Required([Key("sender")]) in Cast(f.Draft(), now).error
  {
    EmptyDraftRejected(now);
  }

  /**
   * Consequently POST /webhook never adds to the collection, and a delivery
   * that reaches the `create` is never acknowledged.
   */
  lemma WebhookNeverStores(p: InboundPayload, store: seq<Record>, now: int, storeAvailable: bool)
    ensures HandleWebhook(p, store, now, storeAvailable).store == store
    ensures GuardHolds(p) && Extract(p).Ok? ==> HandleWebhook(p, store, now, storeAvailable).reply == NoReply
  {
    if GuardHolds(p) && Extract(p).Ok? {
      InboundCreateRejected(Extract(p).value, now);
    }
  }

  /** Keeps only the first entry, its first change and that change's first message. */
  function FirstOnly(p: InboundPayload): InboundPayload {
    match p.entry
    case None => p
    case Some(entries) =>
      if |entries| == 0 then p
      else InboundPayload(Some([FirstEntryOnly(entries[0])]))
  }

  function FirstEntryOnly(e: Entry): Entry {
    match e.changes
    case None => e
    case Some(changes) =>
      if |changes| == 0 then e
      else Entry(Some([FirstChangeOnly(changes[0])]))
  }

  function FirstChangeOnly(c: Change): Change {
    match c.value
    case None => c
    case Some(v) =>
      match v.messages
      case None => c
      case Some(ms) =>
        if |ms| == 0 then c
        else Change(Some(ChangeValue(v.metadata, Some([ms[0]]))))
  }

  /** Array elements after the first entry, change and message never affect the outcome. */
  lemma OnlyFirstElementsMatter(p: InboundPayload, store: seq<Record>, now: int, storeAvailable: bool)
    ensures HandleWebhook(FirstOnly(p), store, now, storeAvailable) == HandleWebhook(p, store, now, storeAvailable)
  {
    var q := FirstOnly(p);
    assert Guard(q) == Guard(p);
    if GuardHolds(p) {
      assert FirstValue(q).metadata == FirstValue(p).metadata;
      assert FirstMessage(q) == FirstMessage(p);
    }
  }

  /**
   * GET /api/messages: every stored message, ordered by non-increasing
   * timestamp. A failing query rejects the handler's promise.
   */
  function ListMessages(store: seq<Record>, storeAvailable: bool): (r: Reply)
    ensures !storeAvailable ==> r == NoReply
    ensures storeAvailable ==>
      && r.Responded? && r.response.status == 200 && r.response.body.Records?
      && SortedBy(r.response.body.records, Descending)
      && multiset(r.response.body.records) == multiset(store)
  {
    if storeAvailable then Responded(Response(200, Records(SortByTimestamp(store, Descending)))) else NoReply
  }
}

/**
 * `sendMessage` and `getMessages` (src/controllers/messageController.js):
 * validation of an outbound send request, the provider request body, the
 * branches on the provider's reply, the best-effort message record, and the
 * conversation query.
 */
module MessageController {
  import opened Wrappers
  import opened JsString
  import opened MessageModel
  import opened Ordering
  import opened Http

  /** The fixed party on the business side of every conversation. */
  const Admin := "Admin"

  const TemplateRequired := "Template name and language are required for template messages"
  const TextRequired := "Text body is required for text messages"
  const ImageRequired := "Image link or ID is required for image messages"
  const InvalidType := "Invalid message type"
  const InternalError := "Internal server error"
  const ReceiverRequired := "Receiver is required"
  const FetchFailed := "Failed to fetch messages"

  /** A template component as the client sends it; `parameters` are passed on untouched. */
  datatype ComponentArg = ComponentArg(componentType: Option<string>, text: Option<string>, parameters: Option<seq<string>>)

  datatype TemplateArg = TemplateArg(name: Option<string>, language: Option<string>, components: Option<seq<ComponentArg>>)

  datatype TextArg = TextArg(body: Option<string>, previewUrl: Option<bool>)

  datatype ImageArg = ImageArg(link: Option<string>, id: Option<string>, caption: Option<string>)

  /** The JSON body of a send request; a missing property is `None`. */
  datatype SendRequest = SendRequest(
    messagingProduct: Option<string>,
    to: Option<string>,
    msgType: Option<string>,
    template: Option<TemplateArg>,
    text: Option<TextArg>,
    image: Option<ImageArg>)

  /** The type-specific part of the provider request body. */
  datatype Payload =
    | TemplatePayload(name: string, language: string, components: seq<ComponentArg>)
    | TextPayload(text: TextArg)
    | ImagePayload(image: ImageArg)

  /** The body posted to the provider's messages endpoint. */
  datatype OutboundBody = OutboundBody(messagingProduct: Option<string>, to: Option<string>, msgType: string, payload: Payload)

  /**
   * Validates a send request by its `type` and builds the provider request
   * body, or yields the message of the 400 answer. `messaging_product`, `to`
   * and `type` are copied unchanged; a template's `components` default to the
   * empty array; `text` and `image` objects are passed on verbatim.
   */
  function BuildRequest(req: SendRequest): (r: Result<OutboundBody, string>)
    ensures r.Ok? ==>
      && r.value.messagingProduct == req.messagingProduct
      && r.value.to == req.to
      && req.msgType == Some(r.value.msgType)
    ensures req.msgType !in {Some("template"), Some("text"), Some("image")} ==> r == Err(InvalidType)
    ensures req.msgType == Some("template") ==>
      && (r.Ok? <==> req.template.Some? && Truthy(req.template.value.name) && Truthy(req.template.value.language))
      && (r.Err? ==> r.error == TemplateRequired)
      && (r.Ok? ==> r.value.payload.TemplatePayload?
                    && Some(r.value.payload.name) == req.template.value.name
                    && Some(r.value.payload.language) == req.template.value.language
                    && (req.template.value.components.None? ==> r.value.payload.components == [])
                    && (req.template.value.components.Some? ==> r.value.payload.components == req.template.value.components.value))
    ensures req.msgType == Some("text") ==>
      && (r.Ok? <==> req.text.Some? && Truthy(req.text.value.body))
      && (r.Err? ==> r.error == TextRequired)
      && (r.Ok? ==> r.value.payload == TextPayload(req.text.value))
    ensures req.msgType == Some("image") ==>
      && (r.Ok? <==> req.image.Some? && (Truthy(req.image.value.link) || Truthy(req.image.value.id)))
      && (r.Err? ==> r.error == ImageRequired)
      && (r.Ok? ==> r.value.payload == ImagePayload(req.image.value))
  {
    if req.msgType == Some("template") then
      if req.template.None? || !Truthy(req.template.value.name) || !Truthy(req.template.value.language) then
        Err(TemplateRequired)
      else
        var t := req.template.value;
        Ok(OutboundBody(req.messagingProduct, req.to, "template",
                        TemplatePayload(t.name.value, t.language.value, t.components.GetOr([]))))
    else if req.msgType == Some("text") then
      if req.text.None? || !Truthy(req.text.value.body) then Err(TextRequired)
      else Ok(OutboundBody(req.messagingProduct, req.to, "text", TextPayload(req.text.value)))
    else if req.msgType == Some("image") then
      if req.image.None? || (!Truthy(req.image.value.link) && !Truthy(req.image.value.id)) then Err(ImageRequired)
      else Ok(OutboundBody(req.messagingProduct, req.to, "image", ImagePayload(req.image.value)))
    else
      Err(InvalidType)
  }

  /** The index `components.find(comp => comp.type === "body")` stops at, if any. */
  function FirstBodyIndex(cs: seq<ComponentArg>): (r: Option<nat>)
    ensures r.Some? ==> r.value < |cs| && cs[r.value].componentType == Some("body")
    ensures r.Some? ==> forall j :: 0 <= j < r.value ==> cs[j].componentType != Some("body")
    ensures r.None? ==> forall j :: 0 <= j < |cs| ==> cs[j].componentType != Some("body")
  {
    if cs == [] then None
    else if cs[0].componentType == Some("body") then Some(0)
    else match FirstBodyIndex(cs[1..])
      case None => None
      case Some(i) => Some(i + 1)
  }

  /**
   * The object given to `new Message(...)` after a successful send. Besides
   * the schema paths it carries `templateName` and `templateParameters`.
   */
  datatype NewMessage = NewMessage(
    sender: string,
    receiver: Option<string>,
    to: Option<string>,
    msgType: string,
    body: Option<string>,
    templateName: Option<string>,
    templateParameters: Option<seq<ComponentArg>>,
    direction: string)
  {
    /**
     * What the schema sees of it: strict mode drops `templateName` and
     * `templateParameters`; the schema paths arrive as given, and the paths
     * the object does not set are left to their defaults.
     */
    function Draft(): (d: MessageDraft)
      ensures d.sender == Some(sender) && d.receiver == receiver && d.to == to
      ensures d.msgType == Some(msgType) && d.body == body && d.direction == Some(direction)
      ensures d.timestamp.None? && d.status.None? && d.statusTimestamp.None? && d.errorInfo.None?
    {
      MessageDraft(Some(sender), receiver, to, Some(msgType), body, None, Some(direction), None, None, None)
    }
  }

  /** The template fields never reach validation or the stored record. */
  lemma TemplateFieldsDropped(m: NewMessage, name: Option<string>, parameters: Option<seq<ComponentArg>>)
    ensures m.(templateName := name, templateParameters := parameters).Draft() == m.Draft()
  {
  }

  /**
   * The message record built for a request the provider accepted. Its body is
   * the text for a text message; otherwise, when the request carries a
   * template object, the text of the first component whose type is exactly
   * "body" (absent when there is none); otherwise the empty string.
   */
  function NewMessageFor(req: SendRequest): (m: NewMessage)
    requires BuildRequest(req).Ok?
    ensures m.sender == Admin && m.receiver == req.to && m.to == req.to && m.direction == "sent"
    ensures req.msgType == Some(m.msgType) && m.msgType in {"template", "text", "image"}
    ensures req.msgType == Some("text") ==> m.body == req.text.value.body && Truthy(m.body)
    ensures req.msgType != Some("text") && req.template.Some? ==>
      match req.template.value.components
      case None => m.body.None?
      case Some(cs) =>
        || (exists i :: && 0 <= i < |cs| && cs[i].componentType == Some("body")
                        && (forall j :: 0 <= j < i ==> cs[j].componentType != Some("body"))
                        && m.body == cs[i].text)
        || ((forall i :: 0 <= i < |cs| ==> cs[i].componentType != Some("body")) && m.body.None?)
    ensures req.msgType != Some("text") && req.template.None? ==> m.body == Some("")
    ensures m.templateName.Some? <==> req.msgType == Some("template")
    ensures m.templateName.Some? ==> m.templateName == req.template.value.name
    ensures m.templateParameters.Some? ==> req.msgType == Some("template")
    ensures req.msgType == Some("template") ==> m.templateParameters == req.template.value.components
  {
    var msgType := BuildRequest(req).value.msgType;
    var body :=
      if msgType == "text" then req.text.value.body
      else if req.template.Some? then
        match req.template.value.components
        case None => None
        case Some(cs) =>
          match FirstBodyIndex(cs)
          case None => None
          case Some(i) => cs[i].text
      else Some("");
    var isTemplate := msgType == "template";
    NewMessage(Admin, req.to, req.to, msgType, body,
               if isTemplate then req.template.value.name else None,
               if isTemplate then req.template.value.components else None,
               "sent")
  }

  /**
   * The schema accepts the record of an accepted request exactly when `to`
   * is present and not blank; the stored record then belongs to the
   * conversation between Admin and the trimmed `to`.
   */
  lemma SentDraftAccepted(req: SendRequest, now: int)
    requires BuildRequest(req).Ok?
    ensures var c := Cast(NewMessageFor(req).Draft(), now);
            && (c.Ok? <==> req.to.Some? && Trim(req.to.value) != "")
            && (c.Ok? ==>
                  && c.value.sender == Admin && c.value.receiver == Trim(req.to.value) && c.value.to == c.value.receiver
                  && c.value.direction == Direction.Sent && c.value.status == Status.Sent
                  && c.value.timestamp == now
                  && Some(TypeName(c.value.msgType)) == req.msgType)
  {
    var m := NewMessageFor(req);
    var d := m.Draft();
    SentDraftAcceptable(req);
    if Acceptable(d) {
      var r := Build(d, now);
      AdminTrimmed();
      SentTrimmed();
      SendTypeNamed(m.msgType);
      DirectionNameInjective(r.direction, Direction.Sent);
    }
  }

  lemma SentDraftAcceptable(req: SendRequest)
    requires BuildRequest(req).Ok?
    ensures Acceptable(NewMessageFor(req).Draft()) <==> req.to.Some? && Trim(req.to.value) != ""
  {
    var m := NewMessageFor(req);
    var d := m.Draft();
    assert d.sender == Some(Admin) && d.receiver == req.to && d.to == req.to;
    assert d.msgType == Some(m.msgType) && d.direction == Some("sent") && d.status.None?;
    AdminTrimmed();
    SentTrimmed();
    SendTypeNamed(m.msgType);
    assert Trim(d.sender.value) != "" by { assert |Admin| == 5; }
    assert d.msgType.Some? && exists t :: TypeName(t) == Trim(d.msgType.value);
    assert exists dir :: DirectionName(dir) == Trim(d.direction.value) by {
      assert DirectionName(Direction.Sent) == Trim(d.direction.value);
    }
  }

  /** The constant strings the controller writes into a record are their own trim. */
  lemma AdminTrimmed()
    ensures Trim(Admin) == Admin
  {
    TrimOfTrimmed(Admin);
  }

  lemma SentTrimmed()
    ensures Trim("sent") == "sent" && DirectionName(Direction.Sent) == "sent"
  {
    TrimOfTrimmed("sent");
  }

  /** The three types a request may have are their own trim and name members of the `type` enum. */
  lemma SendTypeNamed(msgType: string)
    requires msgType in {"template", "text", "image"}
    ensures Trim(msgType) == msgType
    ensures exists t :: TypeName(t) == msgType
  {
    TrimOfTrimmed(msgType);
    if msgType == "template" {
      assert TypeName(MessageType.Template) == msgType;
    } else if msgType == "text" {
      assert TypeName(MessageType.Text) == msgType;
    } else {
      assert TypeName(MessageType.Image) == msgType;
    }
  }

  /** The reply of the provider's messages endpoint, or the failure of the call itself. */
  datatype ProviderReply =
    /** `fetch` rejected (network failure) */
    | Unreachable
    /** an HTTP response; `json` is its parsed body, `None` when it is not JSON */
    | HttpReply(status: int, statusText: string, json: Option<string>)

  /** `response.ok`: a 2xx status. */
  predicate IsOk(status: int) {
    200 <= status <= 299
  }

  /**
   * What one send request leads to: the body posted to the provider (if the
   * provider was called), the answer, the message object built for the
   * record (if any) and the collection afterwards.
   */
  datatype SendOutcome = SendOutcome(
    providerCall: Option<OutboundBody>,
    response: Response,
    built: Option<NewMessage>,
    store: seq<Record>)

  /**
   * `sendMessage`. The provider's reply and the outcome of the store write
   * are inputs; `now` is the clock reading the record defaults to.
   */
  function SendMessage(req: SendRequest, provider: ProviderReply, store: seq<Record>, now: int, storeAvailable: bool): (out: SendOutcome)
    // A request that fails validation is answered 400 without calling the provider or writing.
    ensures BuildRequest(req).Err? ==>
      out == SendOutcome(None, Response(400, Json(BuildRequest(req).error)), None, store)
    // A valid request is always posted, with the body built from it.
    ensures BuildRequest(req).Ok? ==> out.providerCall == Some(BuildRequest(req).value)
    // A reply that is not ok is answered with the provider's status, and nothing is written.
    ensures BuildRequest(req).Ok? && provider.HttpReply? && !IsOk(provider.status) ==>
      && out.response == Response(provider.status, ProviderFailure(provider.status, provider.statusText, provider.json))
      && out.built.None? && out.store == store
    // A call that fails, or an ok reply that is not JSON, is answered 500 without a write.
    ensures BuildRequest(req).Ok? && (provider.Unreachable? || (IsOk(provider.status) && provider.json.None?)) ==>
      out.response == Response(500, Json(InternalError)) && out.built.None? && out.store == store
    // An accepted send answers the provider's data whatever happens to the record.
    ensures BuildRequest(req).Ok? && provider.HttpReply? && IsOk(provider.status) && provider.json.Some? ==>
      && out.response == Response(200, ProviderData(provider.json.value))
      && out.built == Some(NewMessageFor(req))
    // The collection only ever gains the one record built for this request.
    ensures out.store == store
         || (out.built.Some? && Cast(out.built.value.Draft(), now).Ok?
             && out.store == store + [Cast(out.built.value.Draft(), now).value])
    ensures out.store != store <==>
      && BuildRequest(req).Ok? && provider.HttpReply? && IsOk(provider.status) && provider.json.Some?
      && storeAvailable && Cast(NewMessageFor(req).Draft(), now).Ok?
  {
    match BuildRequest(req)
    case Err(message) => SendOutcome(None, Response(400, Json(message)), None, store)
    case Ok(body) =>
      match provider
      case Unreachable => SendOutcome(Some(body), Response(500, Json(InternalError)), None, store)
      case HttpReply(status, statusText, json) =>
        if !IsOk(status) then
          SendOutcome(Some(body), Response(status, ProviderFailure(status, statusText, json)), None, store)
        else if json.None? then
          SendOutcome(Some(body), Response(500, Json(InternalError)), None, store)
        else
          var m := NewMessageFor(req);
          var saved := Save(store, m.Draft(), now, storeAvailable);
          SendOutcome(Some(body), Response(200, ProviderData(json.value)), Some(m), saved.store)
  }

  /** Whether the record could be written never changes what the client is told or what the provider receives. */
  lemma SaveFailureInvisible(req: SendRequest, provider: ProviderReply, store: seq<Record>, now: int)
    ensures SendMessage(req, provider, store, now, true).response == SendMessage(req, provider, store, now, false).response
    ensures SendMessage(req, provider, store, now, true).providerCall == SendMessage(req, provider, store, now, false).providerCall
  {
  }

  /** A message between `a` and `b`, in either direction. */
  predicate Between(r: Record, a: string, b: string) {
    (r.sender == a && r.receiver == b) || (r.sender == b && r.receiver == a)
  }

  /** The `$or` filter of the conversation query, keeping the collection's order. */
  function Conversation(store: seq<Record>, a: string, b: string): (r: seq<Record>)
    ensures forall x :: multiset(r)[x] == if Between(x, a, b) then multiset(store)[x] else 0
    ensures forall i :: 0 <= i < |r| ==> Between(r[i], a, b)
  {
    if store == [] then []
    else
      assert store == [store[0]] + store[1..];
      (if Between(store[0], a, b) then [store[0]] else []) + Conversation(store[1..], a, b)
  }

  /** The conversation filter does not depend on which party is named first. */
  lemma {:induction false} ConversationSymmetric(store: seq<Record>, a: string, b: string)
    ensures Conversation(store, a, b) == Conversation(store, b, a)
  {
    if store != [] {
      ConversationSymmetric(store[1..], a, b);
    }
  }

  /**
   * `getMessages`: a missing or empty `receiver` is answered 400; otherwise
   * the answer holds exactly the messages between Admin and the receiver, in
   * either direction, ordered by non-decreasing timestamp. Mongoose casts a
   * query filter value through the path's setters, so the `receiver` compared
   * against the trimmed `sender`/`receiver` paths is itself trimmed; the
   * emptiness guard sees the raw value. A failing query is answered 500.
   */
  function GetMessages(receiver: Option<string>, store: seq<Record>, storeAvailable: bool): (r: Response)
    ensures !Truthy(receiver) ==> r == Response(400, Json(ReceiverRequired))
    ensures Truthy(receiver) && !storeAvailable ==> r == Response(500, Json(FetchFailed))
    ensures Truthy(receiver) && storeAvailable ==>
      && r.status == 200 && r.body.Records?
      && SortedBy(r.body.records, Ascending)
      && (forall x :: multiset(r.body.records)[x] == if Between(x, Admin, Trim(receiver.value)) then multiset(store)[x] else 0)
      && (forall x :: x in r.body.records <==> x in store && Between(x, Admin, Trim(receiver.value)))
  {
    if !Truthy(receiver) then Response(400, Json(ReceiverRequired))
    else if !storeAvailable then Response(500, Json(FetchFailed))
    else
      var rs := SortByTimestamp(Conversation(store, Admin, Trim(receiver.value)), Ascending);
      assert forall x :: x in rs <==> x in multiset(rs);
      assert forall x :: x in store <==> x in multiset(store);
      Response(200, Records(rs))
  }

  /** Whitespace before or after the `receiver` query value does not change the answer. */
  lemma ReceiverPaddingIgnored(before: string, receiver: string, after: string, store: seq<Record>, storeAvailable: bool)
    requires AllWhitespace(before, 0, |before|) && AllWhitespace(after, 0, |after|)
    requires IsTrimmed(receiver) && receiver != ""
    ensures GetMessages(Some(before + receiver + after), store, storeAvailable) == GetMessages(Some(receiver), store, storeAvailable)
  {
    var padded := before + receiver + after;
    TrimPadded(before, receiver, after);
    TrimOfTrimmed(receiver);
    assert |padded| >= |receiver| > 0;
    SameTrimSameAnswer(padded, receiver, store, storeAvailable);
  }

  /** `getMessages` sees a non-empty receiver only through its trim. */
  lemma SameTrimSameAnswer(x: string, y: string, store: seq<Record>, storeAvailable: bool)
    requires x != "" && y != "" && Trim(x) == Trim(y)
    ensures GetMessages(Some(x), store, storeAvailable) == GetMessages(Some(y), store, storeAvailable)
  {
  }
}

# WhatsApp admin backend: message and template core

This project models the message-handling core of a small Express/Mongoose
backend. The backend sits between an admin front end and the WhatsApp Cloud
API. The model covers:

- **Sending a message** (`sendMessage` in
  `src/controllers/messageController.js`). The request is validated for its
  type (`template`, `text` or `image`) and forwarded to the provider. The
  provider's answer is relayed, and the outbound message is stored as a
  `Message` document. A failed store is swallowed.
- **Reading a conversation** (`getMessages`). It returns every message
  between `"Admin"` and a receiver, sorted by timestamp, oldest first.
- **The webhook and listing routes** in `app.js`:
  - the CORS origin check;
  - the `GET /webhook` subscription handshake;
  - the `POST /webhook` inbound-message handler;
  - the `GET /api/messages` listing, newest first.
- **The two Mongoose schemas**, `Message` and `MessageTemplate`. Validation is
  modelled as Mongoose runs it:
  - the `trim` setter runs first;
  - a `required` string fails when it is missing or empty;
  - an enum check lets a missing value through;
  - a default fills only a missing value;
  - keys that are not in the schema are dropped (strict mode);
  - `timestamps: true` stamps `createdAt` and `updatedAt`.

Modules:

- `Wrappers` holds `Option` and `Result`.
- `JsString` holds `String.prototype.trim` and JavaScript string truthiness.
- `Validation` holds validator violations.
- `MessageModel` and `TemplateModel` hold the schemas, their cast/validate
  step and saving.
- `Ordering` holds sorting by timestamp.
- `Http` holds responses.
- `MessageController` and `App` hold the route handlers.

Effects become parameters:

- The provider's HTTP answer is a `ProviderReply`.
- The clock is `now: int`.
- Whether the database write succeeds is `storeAvailable: bool`.
- The collection is a `seq<Record>` that a handler returns, updated.
- A handler whose promise rejects with nothing to catch it gets no answer
  from Express 4 (see "## Left out" for the Express version this assumes);
  the model writes that as `NoReply`.

Behaviour of the code worth knowing:

- A failed verification handshake answers `sendStatus(403)`, whose body is the
  text `Forbidden`.
- The inbound webhook's `Message.create({phoneNumberId, from, message})`
  always fails validation. None of the three keys is a schema path, so all
  three are dropped, and `sender`, `receiver`, `to` and `type` are missing.
  The handler therefore never stores anything, and whenever it reaches the
  create it leaves the request unanswered. The proofs are
  `App.InboundFields.Draft`, `App.InboundCreateRejected` and
  `App.WebhookNeverStores`.
- `getMessages` compares the trimmed `receiver` query value with the stored
  paths, because Mongoose casts a filter value through the path's `trim`
  setter; only the emptiness check sees the raw value.

## Model

| member | source | states |
|---|---|---|
| JsString.Trim | src/models/messageModel.js:88 | the result is a slice of the input, only whitespace is cut off on either side, and the result neither starts nor ends with whitespace |
| JsString.TrimIdempotent | src/models/messageModel.js:88 | trimming an already trimmed value changes nothing, so a stored trimmed path is stable under re-saving |
| JsString.TrimOfTrimmed | src/models/messageModel.js:88 | a string with no whitespace at either end is its own trim |
| JsString.TrimPadded | src/models/messageModel.js:88 | whitespace around a non-empty trimmed core is exactly what the setter removes |
| JsString.TrimOpt | src/models/messageModel.js:97 | the setter runs only on a present value: presence is kept, and a present value is trimmed |
| Validation.RequireString | src/models/messageModel.js:88-90 | a required String path reports a violation exactly when the value is missing or empty, and reports only a `required` violation at that path |
| MessageModel.ParseType | src/models/messageModel.js:91-96 | a name parses exactly when it is one of the six enum names, and parsing inverts `TypeName` |
| MessageModel.ParseDirection | src/models/messageModel.js:106-111 | a name parses exactly when it is `sent` or `received`, inverting `DirectionName` |
| MessageModel.ParseStatus | src/models/messageModel.js:113-117 | a name parses exactly when it is one of the four status names, inverting `StatusName` |
| MessageModel.TypeViolations | src/models/messageModel.js:91-96 | `type` has no violation exactly when it is present and its trimmed value names an enum member |
| MessageModel.DirectionViolations | src/models/messageModel.js:106-111 | `direction` has no violation exactly when it is missing or names an enum member |
| MessageModel.StatusViolations | src/models/messageModel.js:113-117 | `status` (not trimmed) has no violation exactly when it is missing or names an enum member |
| MessageModel.Report | src/models/messageModel.js:86-131 | given each path's value after its setters, a required path (`sender`, `receiver`, `to`, `type`) is reported exactly when its value is missing or empty, and every violation lies on one of the six validated paths |
| MessageModel.Violations | src/models/messageModel.js:86-131 | validation of a draft runs the `trim` setters first: a required path is reported exactly when its trimmed value is missing or empty, and only the validated paths are ever reported |
| MessageModel.ViolationsEmptyIff | src/models/messageModel.js:86-131 | validation reports nothing exactly when the draft is acceptable: required strings are non-blank, `type` names an enum member after trimming, and `direction`/`status`, when given, name members |
| MessageModel.RejectedHasViolation | src/models/messageModel.js:86-131 | an unacceptable draft always yields at least one violation |
| MessageModel.Build | src/models/messageModel.js:86-131 | an accepted draft becomes a well-formed record: paths are trimmed, enums are parsed, `timestamp` defaults to now, `direction` and `status` default to sent, and `createdAt == updatedAt == now` |
| MessageModel.Cast | src/models/messageModel.js:86-131 | casting succeeds exactly when the draft is acceptable; a failure carries a non-empty violation set; a success is the built record |
| MessageModel.CastRoundTrip | src/models/messageModel.js:86-131 | casting the draft of a well-formed record, at its creation time, gives back that same record |
| MessageModel.EmptyDraftRejected | src/models/messageModel.js:88 | a document with no schema keys fails, among others with `sender` required |
| MessageModel.Save | src/models/messageModel.js:133 | a save succeeds exactly when validation passes and the write goes through; it then appends the cast record, and otherwise leaves the collection unchanged |
| MessageModel.SavePreservesWellFormed | src/models/messageModel.js:86-131 | saving keeps every stored record well-formed |
| TemplateModel.ParseCategory | src/models/templateModel.js:9-13 | a name parses exactly when it is one of the three category names, inverting `CategoryName` |
| TemplateModel.ParseComponentType | src/models/templateModel.js:24-28 | a name parses exactly when it is `BODY`, `FOOTER` or `BUTTONS` |
| TemplateModel.RequireEnum | src/models/templateModel.js:9-13 | a required enum path passes exactly when present, non-empty and a member |
| TemplateModel.ComponentViolations | src/models/templateModel.js:22-34 | a component subdocument has no violation exactly when its type is a member and its text is present and non-empty |
| TemplateModel.ComponentsViolations | src/models/templateModel.js:22-34 | the component array has no violation exactly when every element from the given index on is acceptable |
| TemplateModel.Violations | src/models/templateModel.js:3-35 | the template has no violation exactly when name, category, allowCategoryChange, language and every component are acceptable |
| TemplateModel.CastComponents | src/models/templateModel.js:22-34 | the cast array has the same length, and each element's type name and text are those of the input |
| TemplateModel.Cast | src/models/templateModel.js:3-35 | casting succeeds exactly when acceptable; fields are copied; a missing component array becomes empty |
| TemplateModel.Insert | src/models/templateModel.js:4-8 | an insert succeeds exactly when valid and the name is not yet taken; a taken name gives a duplicate-key error; success appends and keeps names unique |
| TemplateModel.InsertedNameRefused | src/models/templateModel.js:4-8 | after a successful insert, a second valid template with the same name is refused as a duplicate |
| Ordering.Insert | src/controllers/messageController.js:227 | inserting into a sorted sequence keeps it sorted and adds exactly that record |
| Ordering.SortByTimestamp | src/controllers/messageController.js:227 | the result is sorted by timestamp in the requested direction and is a permutation of the input |
| MessageController.BuildRequest | src/controllers/messageController.js:116-147 | a template needs a name and a language, with components defaulting to empty; text needs a body; an image needs a link or an id; any other type is `Invalid message type`; the outbound body carries exactly the payload of its type |
| MessageController.FirstBodyIndex | src/controllers/messageController.js:192 | finds the first component whose type is `body`, and none exists before it; when nothing is found, no component has that type |
| MessageController.NewMessage.Draft | src/controllers/messageController.js:183-197 | strict mode: the schema paths of the object reach validation as given, and the paths it leaves unset (`timestamp`, `status`, `status_timestamp`, `error_info`) are left to their defaults |
| MessageController.TemplateFieldsDropped | src/controllers/messageController.js:194-195 | `templateName` and `templateParameters` are not schema paths, so their values never influence what is validated or stored |
| MessageController.NewMessageFor | src/controllers/messageController.js:182-197 | the stored message is from Admin to `to`, direction `sent`; its body is the text body; for a template object, the text of the first component whose type is exactly `body` (absent when that component has no text or no such component exists); otherwise an empty string; the template fields are set only for template messages |
| MessageController.SentDraftAcceptable | src/controllers/messageController.js:182-197 | once the template fields are dropped by strict mode, the message passes validation exactly when `to` is non-blank |
| MessageController.SentDraftAccepted | src/controllers/messageController.js:182-199 | the saved record is from Admin, to the trimmed recipient, of the requested type, sent, with status sent, stamped now |
| MessageController.SendMessage | src/controllers/messageController.js:103-211 | a validation error is a 400 with no provider call; a non-ok provider status is relayed and nothing is stored; an unreachable provider or a non-JSON success is a 500; a success relays the data; the store changes exactly on success with a valid record and a working store, and then by appending that record |
| MessageController.SaveFailureInvisible | src/controllers/messageController.js:201-206 | whether the database write fails makes no difference to the response or to the provider call |
| MessageController.Conversation | src/controllers/messageController.js:222-226 | the selected records are exactly the stored records between the two parties, with their multiplicities |
| MessageController.ConversationSymmetric | src/controllers/messageController.js:223-226 | the `$or` filter is symmetric in the two parties |
| MessageController.GetMessages | src/controllers/messageController.js:213-234 | a missing or empty receiver is a 400; a failing store is a 500; otherwise the answer is the conversation between Admin and the trimmed receiver (Mongoose trims the filter value through the path's setter), oldest first, with exactly its records |
| MessageController.SameTrimSameAnswer | src/controllers/messageController.js:213-227 | two non-empty receiver values with the same trim get the same answer |
| MessageController.ReceiverPaddingIgnored | src/controllers/messageController.js:222-226 | whitespace before and after a non-empty `receiver` query value does not change the answer |
| App.CorsAllowsExactly | app.js:98-115 | an origin is allowed exactly when it is missing, empty or one of the three localhost origins |
| App.VerifyWebhook | app.js:133-143 | the handshake answers 200 with the challenge exactly when the mode is `subscribe` and the token equals the configured one; otherwise 403 `Forbidden` |
| App.VerifyAcceptsMissingToken | app.js:138 | with no token configured, a request with no token passes the handshake |
| App.VerifyWebhookConfigured | app.js:138 | the corrected handshake never accepts when no token is configured, and agrees with the original whenever one is |
| App.Guard | app.js:151-156 | the guard holds exactly when the path to the first message exists; it throws exactly when `entry[0]`, `changes[0]` or its `value` is undefined |
| App.Extract | app.js:157-160 | the field reads succeed exactly when `metadata` and `text` are present, and then yield the phone number id, the sender and the text body |
| App.HandleWebhook | app.js:146-173 | without a first message the answer is `EVENT_RECEIVED`; a thrown read or a failed create leaves the request unanswered; otherwise exactly one create with the first message's fields; a successful create leaves the collection as the save left it and acknowledges the event, so the collection either stays as it was or gains exactly the cast record |
| App.InboundFields.Draft | app.js:167 | none of `phoneNumberId`, `from`, `message` is a schema path, so validation reports exactly the four required paths `sender`, `receiver`, `to`, `type` as missing |
| App.InboundCreateRejected | app.js:167 | the inbound create always fails validation, with `sender` required among the violations |
| App.WebhookNeverStores | app.js:146-173 | the webhook never adds a record, and a request that reaches the create gets no answer |
| App.OnlyFirstElementsMatter | app.js:151-160 | only the first entry, change and message of a payload influence the outcome |
| App.ListMessages | app.js:176-179 | with a working store, the answer is every stored record, newest first; with a failing store there is no answer |

## Left out

- The provider calls `getUserData`, `getPhoneNumbers` and `getMessageTemplates`, and the account and template controllers. Each is one request to the provider, whose answer is I/O this model does not describe, so their branches are left out with it. Those branches are:
  `getAccountDetails` and `getAppDetails` answer 500 when the access token or the business account id is not configured (`src/controllers/accountController.js:42-51` and `:86-89`; the API URL is a template string and is never empty);
  `getAppDetails` returns the access token in its response body next to the provider's data (`src/controllers/accountController.js:108`);
  `getMessageTemplates` answers with the provider's `data` member when there is one, and otherwise with the whole answer (`src/controllers/messageController.js:93-97`).
- The admin router (`src/routes/adminRoute.js`), including its wiring of `getMessages` to a POST route. As written it cannot load: it imports `getSessionStatus`, `uploadFile`, `deleteMedia` and `getMedia`, which `src/controllers/messageController.js:235-241` does not export, and `createTemplate`, `handleUpload` and `upload` by name, while `src/controllers/templateController.js:65` has only a default export. Under ES modules linking fails, and since `app.js:89` imports the router, the server never starts and no route is reachable; under a CommonJS transpile the named import `createTemplate` is undefined, so `router.post("/templates", createTemplate)` at `src/routes/adminRoute.js:29` throws at load instead, because Express refuses an undefined route handler. The model describes the handlers as they behave once the router's imports resolve.
- Express and MongoDB wiring: the server start, the connection, and the welcome route. These are I/O with no decisions in them.
- The CORS rejection path. Express's default error handler turns it into a 500; the model states only which origins are allowed.
- Session status, the 24-hour customer-service window and delivery-status webhooks. No code implements them.
- The empty-object (Mixed) paths `template` and `media` and the `metadata` Mixed path of the message schema. Strict mode would keep them, but no code shown here sets any of them.
- Document ids (`_id`) and Mongoose's version key. The model identifies records by value.
- App.HandleWebhook, App.WebhookNeverStores, App.ListMessages: a rejected handler promise is modelled as no reply, which is Express 4 behaviour (no version is pinned). Under Express 5 the default error handler answers 500 instead, and on Node 15 or later an unhandled rejection ends the process unless a handler is installed.
- Request values are typed as strings or booleans and `Option` merges `null` with `undefined`. A numeric `to`, which Mongoose would cast to a string for `receiver`/`to`, cannot be expressed, nor can the truthiness of a non-string `name`, `language`, `body`, `link` or `id` under `!x`; and a `null` path value, which Mongoose stores instead of applying the default, is modelled like a missing one.
- MessageModel.ErrorInfo: `code` is an `Option<int>`, while the schema's `error_info.code` is a Mongoose Number path (`src/models/messageModel.js:122`) that also holds non-integers and casts numeric strings. The model therefore states "the code is a number" only for integers. No code shown here writes `error_info`, so no modelled outcome depends on it.
- Logging: every `console.log` and `console.error` call is dropped. Each only prints values that are already computed, and none of them can change a response or the store.
- Dates are integers supplied by the caller. A `Date` cast from arbitrary input is not modelled.
- Query-string values are modelled as strings. Express can also produce arrays or objects, which `!receiver` would treat as truthy.
- MessageController.SendMessage: the response messages that format the provider's status and status text into a string are modelled as a `ProviderFailure` body carrying the status, the status text and the details, not as the formatted string.
- MessageController.SendMessage: the provider's JSON is opaque text. Its content is only relayed, never interpreted.
- TemplateModel.Insert: uniqueness of `name` is modelled as a check against the collection. In MongoDB it is a unique index that rejects the write with a duplicate-key error after validation; the order of the two failures is the same.

## Findings

| source | as written | input that shows it | evidently intended | confidence | as-written member | corrected member |
|---|---|---|---|---|---|---|
| app.js:138 | `token === process.env.VERIFY_TOKEN` also holds when both are `undefined` | `VERIFY_TOKEN` unset and `GET /webhook?hub.mode=subscribe&hub.challenge=x` with no token: answers 200 `x` | the handshake succeeds only against a configured token | not executed | App.VerifyAcceptsMissingToken | App.VerifyWebhookConfigured |

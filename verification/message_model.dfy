/**
 * The live `messageSchema` (src/models/messageModel.js): the stored message
 * record, the plain object a caller hands to `new Message(...)` or
 * `Message.create(...)`, and the cast that turns the second into the first
 * (trim setters, defaults, required and enum validators, strict mode).
 */
module MessageModel {
  import opened Wrappers
  import opened JsString
  import opened Validation

  /** The `type` enum. */
  datatype MessageType = Text | Image | Video | Document | Template | Other

  function TypeName(t: MessageType): string {
    match t
    case Text => "text"
    case Image => "image"
    case Video => "video"
    case Document => "document"
    case Template => "template"
    case Other => "other"
  }

  /** The enum validator of `type`: the member named by `s`, if any. */
  function ParseType(s: string): (r: Option<MessageType>)
    ensures r.Some? ==> TypeName(r.value) == s
    ensures r.None? ==> forall t :: TypeName(t) != s
  {
    if s == "text" then Some(Text)
    else if s == "image" then Some(Image)
    else if s == "video" then Some(Video)
    else if s == "document" then Some(Document)
    else if s == "template" then Some(Template)
    else if s == "other" then Some(Other)
    else None
  }

  /** The `direction` enum. */
  datatype Direction = Sent | Received

  function DirectionName(d: Direction): string {
    if d.Sent? then "sent" else "received"
  }

  function ParseDirection(s: string): (r: Option<Direction>)
    ensures r.Some? ==> DirectionName(r.value) == s
    ensures r.None? ==> forall d :: DirectionName(d) != s
  {
    if s == "sent" then Some(Direction.Sent)
    else if s == "received" then Some(Received)
    else None
  }

  /** The `status` enum (delivery status of a message). */
  datatype Status = Sent | Delivered | Read | Failed

  function StatusName(s: Status): string {
    if s.Sent? then "sent"
    else if s.Delivered? then "delivered"
    else if s.Read? then "read"
    else "failed"
  }

  function ParseStatus(s: string): (r: Option<Status>)
    ensures r.Some? ==> StatusName(r.value) == s
    ensures r.None? ==> forall st :: StatusName(st) != s
  {
    if s == "sent" then Some(Status.Sent)
    else if s == "delivered" then Some(Delivered)
    else if s == "read" then Some(Read)
    else if s == "failed" then Some(Failed)
    else None
  }

  /** The optional `error_info` sub-document. */
  datatype ErrorInfo = ErrorInfo(code: Option<int>, title: Option<string>, message: Option<string>, details: Option<string>)

  /**
   * A stored message. Dates are abstract integers; `createdAt`/`updatedAt`
   * come from the schema's `timestamps` option.
   */
  datatype Record = Record(
    sender: string,
    receiver: string,
    to: string,
    msgType: MessageType,
    body: Option<string>,
    timestamp: int,
    direction: Direction,
    status: Status,
    statusTimestamp: Option<int>,
    errorInfo: Option<ErrorInfo>,
    createdAt: int,
    updatedAt: int)

  /**
   * The schema paths of the object given to the model constructor. Keys the
   * schema does not declare are not represented: strict mode discards them.
   */
  datatype MessageDraft = MessageDraft(
    sender: Option<string>,
    receiver: Option<string>,
    to: Option<string>,
    msgType: Option<string>,
    body: Option<string>,
    timestamp: Option<int>,
    direction: Option<string>,
    status: Option<string>,
    statusTimestamp: Option<int>,
    errorInfo: Option<ErrorInfo>)

  /** A draft with no schema path set: what strict mode keeps of an object with only unknown keys. */
  const EmptyDraft := MessageDraft(None, None, None, None, None, None, None, None, None, None)

  /** The `trim` setters of the `error_info` string paths. */
  function TrimErrorInfo(e: ErrorInfo): ErrorInfo {
    ErrorInfo(e.code, TrimOpt(e.title), TrimOpt(e.message), TrimOpt(e.details))
  }

  predicate OptTrimmed(o: Option<string>) {
    o.Some? ==> IsTrimmed(o.value)
  }

  /**
   * What every stored record satisfies: required strings are present,
   * non-empty and trimmed; the optional trimmed strings are trimmed.
   */
  predicate WellFormed(r: Record) {
    && r.sender != "" && IsTrimmed(r.sender)
    && r.receiver != "" && IsTrimmed(r.receiver)
    && r.to != "" && IsTrimmed(r.to)
    && OptTrimmed(r.body)
    && (r.errorInfo.Some? ==>
          OptTrimmed(r.errorInfo.value.title) && OptTrimmed(r.errorInfo.value.message)
          && OptTrimmed(r.errorInfo.value.details))
  }

  /** The `type` path: required, trimmed, then checked against the enum. */
  function TypeViolations(v: Option<string>): (errs: set<Violation>)
    ensures errs == {} <==> v.Some? && ParseType(v.value).Some?
    ensures Required([Key("type")]) in errs <==> !StringPresent(v)
    ensures forall e :: e in errs ==> e.path == [Key("type")]
  {
    if !StringPresent(v) then {Required([Key("type")])}
    else if ParseType(v.value).None? then {NotInEnum([Key("type")], v.value)}
    else {}
  }

  /** The `direction` path: optional (it has a default), trimmed, enum-checked. */
  function DirectionViolations(v: Option<string>): (errs: set<Violation>)
    ensures errs == {} <==> (v.Some? ==> ParseDirection(v.value).Some?)
    ensures forall e :: e in errs ==> e == NotInEnum([Key("direction")], v.value)
  {
    if v.Some? && ParseDirection(v.value).None? then {NotInEnum([Key("direction")], v.value)} else {}
  }

  /** The `status` path: optional (it has a default), enum-checked, not trimmed. */
  function StatusViolations(v: Option<string>): (errs: set<Violation>)
    ensures errs == {} <==> (v.Some? ==> ParseStatus(v.value).Some?)
    ensures forall e :: e in errs ==> e == NotInEnum([Key("status")], v.value)
  {
    if v.Some? && ParseStatus(v.value).None? then {NotInEnum([Key("status")], v.value)} else {}
  }

  /** The paths the message schema validates. */
  const ValidatedPaths: set<seq<Segment>> :=
    {[Key("sender")], [Key("receiver")], [Key("to")], [Key("type")], [Key("direction")], [Key("status")]}

  /**
   * The validator failures of the schema's paths, given each path's value
   * after its setters: a required path is reported exactly when its value is
   * missing or empty, and nothing outside the validated paths is reported.
   */
  function Report(sender: Option<string>, receiver: Option<string>, to: Option<string>, msgType: Option<string>,
                  direction: Option<string>, status: Option<string>): (errs: set<Violation>)
    ensures Required([Key("sender")]) in errs <==> !StringPresent(sender)
    ensures Required([Key("receiver")]) in errs <==> !StringPresent(receiver)
    ensures Required([Key("to")]) in errs <==> !StringPresent(to)
    ensures Required([Key("type")]) in errs <==> !StringPresent(msgType)
    ensures forall e :: e in errs ==> e.path in ValidatedPaths
  {
    RequiredPathsDistinct();
    RequireString([Key("sender")], sender) + RequireString([Key("receiver")], receiver)
    + RequireString([Key("to")], to) + TypeViolations(msgType)
    + DirectionViolations(direction) + StatusViolations(status)
  }

  /** Every validator failure of a draft, after the trim setters have run. */
  function Violations(d: MessageDraft): (errs: set<Violation>)
    ensures Required([Key("sender")]) in errs <==> !StringPresent(TrimOpt(d.sender))
    ensures Required([Key("receiver")]) in errs <==> !StringPresent(TrimOpt(d.receiver))
    ensures Required([Key("to")]) in errs <==> !StringPresent(TrimOpt(d.to))
    ensures Required([Key("type")]) in errs <==> !StringPresent(TrimOpt(d.msgType))
    ensures forall e :: e in errs ==> e.path in ValidatedPaths
  {
    Report(TrimOpt(d.sender), TrimOpt(d.receiver), TrimOpt(d.to), TrimOpt(d.msgType), TrimOpt(d.direction), d.status)
  }

  /** The four required paths are pairwise different. */
  lemma RequiredPathsDistinct()
    ensures [Key("sender")] != [Key("receiver")] && [Key("sender")] != [Key("to")] && [Key("sender")] != [Key("type")]
    ensures [Key("receiver")] != [Key("to")] && [Key("receiver")] != [Key("type")] && [Key("to")] != [Key("type")]
  {
    assert |"sender"| == 6 && |"receiver"| == 8 && |"to"| == 2 && |"type"| == 4;
    assert [Key("sender")][0] != [Key("receiver")][0] && [Key("sender")][0] != [Key("to")][0];
    assert [Key("sender")][0] != [Key("type")][0] && [Key("receiver")][0] != [Key("to")][0];
    assert [Key("receiver")][0] != [Key("type")][0] && [Key("to")][0] != [Key("type")][0];
  }

  /**
   * The drafts the schema accepts: the three required strings are non-empty
   * once trimmed, the trimmed `type` names a member of its enum, and a
   * `direction` (trimmed) or `status` (as given), when present, names a
   * member of its enum.
   */
  predicate Acceptable(d: MessageDraft) {
    && d.sender.Some? && Trim(d.sender.value) != ""
    && d.receiver.Some? && Trim(d.receiver.value) != ""
    && d.to.Some? && Trim(d.to.value) != ""
    && d.msgType.Some? && (exists t :: TypeName(t) == Trim(d.msgType.value))
    && (d.direction.Some? ==> exists dir :: DirectionName(dir) == Trim(d.direction.value))
    && (d.status.Some? ==> exists st :: StatusName(st) == d.status.value)
  }

  lemma ViolationsEmptyIff(d: MessageDraft)
    ensures Violations(d) == {} <==> Acceptable(d)
  {
    if Acceptable(d) {
      AcceptedHasNoViolation(d);
    } else {
      RejectedHasViolation(d);
    }
  }

  lemma AcceptedHasNoViolation(d: MessageDraft)
    requires Acceptable(d)
    ensures Violations(d) == {}
  {
    var t :| TypeName(t) == Trim(d.msgType.value);
    assert ParseType(Trim(d.msgType.value)).Some?;
    if d.direction.Some? {
      var x :| DirectionName(x) == Trim(d.direction.value);
      assert ParseDirection(Trim(d.direction.value)).Some?;
    }
    if d.status.Some? {
      var x :| StatusName(x) == d.status.value;
      assert ParseStatus(d.status.value).Some?;
    }
  }

  lemma RejectedHasViolation(d: MessageDraft)
    requires !Acceptable(d)
    ensures Violations(d) != {}
  {
    if !(d.sender.Some? && Trim(d.sender.value) != "") {
      assert Required([Key("sender")]) in Violations(d);
    } else if !(d.receiver.Some? && Trim(d.receiver.value) != "") {
      assert Required([Key("receiver")]) in Violations(d);
    } else if !(d.to.Some? && Trim(d.to.value) != "") {
      assert Required([Key("to")]) in Violations(d);
    } else if !(d.msgType.Some? && (exists t :: TypeName(t) == Trim(d.msgType.value))) {
      TypeRejected(d);
    } else if d.direction.Some? && !(exists x :: DirectionName(x) == Trim(d.direction.value)) {
      DirectionRejected(d);
    } else {
      StatusRejected(d);
    }
  }

  lemma TypeRejected(d: MessageDraft)
    requires !(d.msgType.Some? && (exists t :: TypeName(t) == Trim(d.msgType.value)))
    ensures Violations(d) != {}
  {
    var errs := TypeViolations(TrimOpt(d.msgType));
    if errs == {} {
      assert false;
    }
    var v :| v in errs;
    assert v in Violations(d);
  }

  lemma DirectionRejected(d: MessageDraft)
    requires d.direction.Some? && !(exists x :: DirectionName(x) == Trim(d.direction.value))
    ensures Violations(d) != {}
  {
    var p := ParseDirection(Trim(d.direction.value));
    if p.Some? {
      assert false;
    }
    assert NotInEnum([Key("direction")], Trim(d.direction.value)) in Violations(d);
  }

  lemma StatusRejected(d: MessageDraft)
    requires d.status.Some? && !(exists x :: StatusName(x) == d.status.value)
    ensures Violations(d) != {}
  {
    var p := ParseStatus(d.status.value);
    if p.Some? {
      assert false;
    }
    assert NotInEnum([Key("status")], d.status.value) in Violations(d);
  }

  /** The record an accepted draft becomes. */
  function Build(d: MessageDraft, now: int): (r: Record)
    requires Acceptable(d)
    ensures WellFormed(r)
    ensures r.sender == Trim(d.sender.value)
    ensures r.receiver == Trim(d.receiver.value)
    ensures r.to == Trim(d.to.value)
    ensures TypeName(r.msgType) == Trim(d.msgType.value)
    ensures r.body == TrimOpt(d.body)
    ensures r.timestamp == d.timestamp.GetOr(now)
    ensures d.direction.None? ==> r.direction == Direction.Sent
    ensures d.direction.Some? ==> DirectionName(r.direction) == Trim(d.direction.value)
    ensures d.status.None? ==> r.status == Status.Sent
    ensures d.status.Some? ==> StatusName(r.status) == d.status.value
    ensures r.statusTimestamp == d.statusTimestamp
    ensures d.errorInfo.None? ==> r.errorInfo.None?
    ensures d.errorInfo.Some? ==> r.errorInfo == Some(TrimErrorInfo(d.errorInfo.value))
    ensures r.createdAt == now && r.updatedAt == now
  {
    var msgType := ParseType(Trim(d.msgType.value));
    assert msgType.Some? by {
      var t :| TypeName(t) == Trim(d.msgType.value);
    }
    var direction :=
      if d.direction.Some? then
        var p := ParseDirection(Trim(d.direction.value));
        assert p.Some? by { var x :| DirectionName(x) == Trim(d.direction.value); }
        p.value
      else Direction.Sent;
    var status :=
      if d.status.Some? then
        var p := ParseStatus(d.status.value);
        assert p.Some? by { var x :| StatusName(x) == d.status.value; }
        p.value
      else Status.Sent;
    var errorInfo := if d.errorInfo.Some? then Some(TrimErrorInfo(d.errorInfo.value)) else None;
    Record(
      Trim(d.sender.value), Trim(d.receiver.value), Trim(d.to.value),
      msgType.value, TrimOpt(d.body), d.timestamp.GetOr(now),
      direction, status, d.statusTimestamp, errorInfo, now, now)
  }

  /**
   * Builds and validates a document from a draft at time `now`: the trim
   * setters run, defaults fill absent paths, and validation either accepts
   * the document or reports every rejected path.
   */
  function Cast(d: MessageDraft, now: int): (r: Result<Record, set<Violation>>)
    ensures r.Ok? <==> Acceptable(d)
    ensures r.Err? ==> r.error != {}
    ensures r.Ok? ==> r.value == Build(d, now)
  {
    ViolationsEmptyIff(d);
    var errs := Violations(d);
    if errs != {} then Err(errs) else Ok(Build(d, now))
  }

  /** The draft that sets every schema path of `r` to its stored value. */
  function DraftOf(r: Record): MessageDraft {
    MessageDraft(
      Some(r.sender), Some(r.receiver), Some(r.to), Some(TypeName(r.msgType)), r.body,
      Some(r.timestamp), Some(DirectionName(r.direction)), Some(StatusName(r.status)),
      r.statusTimestamp, r.errorInfo)
  }

  /**
   * Casting is the inverse of reading a stored record back as a draft: a
   * well-formed record saved at its own creation time comes back unchanged.
   */
  lemma CastRoundTrip(r: Record)
    requires WellFormed(r) && r.createdAt == r.updatedAt
    ensures Cast(DraftOf(r), r.createdAt) == Ok(r)
  {
    DraftOfAcceptable(r);
    BuildDraftOf(r);
  }

  lemma DraftOfAcceptable(r: Record)
    requires WellFormed(r)
    ensures Acceptable(DraftOf(r))
  {
    TrimOfTrimmed(r.sender);
    TrimOfTrimmed(r.receiver);
    TrimOfTrimmed(r.to);
    TypeNameTrimmed(r.msgType);
    DirectionNameTrimmed(r.direction);
  }

  lemma BuildDraftOf(r: Record)
    requires WellFormed(r) && r.createdAt == r.updatedAt
    requires Acceptable(DraftOf(r))
    ensures Build(DraftOf(r), r.createdAt) == r
  {
    var b := Build(DraftOf(r), r.createdAt);
    TrimOfTrimmed(r.sender);
    TrimOfTrimmed(r.receiver);
    TrimOfTrimmed(r.to);
    TypeNameTrimmed(r.msgType);
    DirectionNameTrimmed(r.direction);
    if r.body.Some? { TrimOfTrimmed(r.body.value); }
    if r.errorInfo.Some? { TrimErrorInfoTrimmed(r.errorInfo.value); }
    TypeNameInjective(b.msgType, r.msgType);
    DirectionNameInjective(b.direction, r.direction);
    StatusNameInjective(b.status, r.status);
  }

  lemma TrimErrorInfoTrimmed(e: ErrorInfo)
    requires OptTrimmed(e.title) && OptTrimmed(e.message) && OptTrimmed(e.details)
    ensures TrimErrorInfo(e) == e
  {
    if e.title.Some? { TrimOfTrimmed(e.title.value); }
    if e.message.Some? { TrimOfTrimmed(e.message.value); }
    if e.details.Some? { TrimOfTrimmed(e.details.value); }
  }

  lemma TypeNameTrimmed(t: MessageType)
    ensures Trim(TypeName(t)) == TypeName(t)
  {
    TrimOfTrimmed(TypeName(t));
  }

  lemma DirectionNameTrimmed(d: Direction)
    ensures Trim(DirectionName(d)) == DirectionName(d)
  {
    TrimOfTrimmed(DirectionName(d));
  }

  /** Each enum member has its own name, so matching by name recovers the member. */
  lemma TypeNameInjective(a: MessageType, b: MessageType)
    requires TypeName(a) == TypeName(b)
    ensures a == b
  {
  }

  lemma DirectionNameInjective(a: Direction, b: Direction)
    requires DirectionName(a) == DirectionName(b)
    ensures a == b
  {
  }

  lemma StatusNameInjective(a: Status, b: Status)
    requires StatusName(a) == StatusName(b)
    ensures a == b
  {
  }

  /** An object with none of the schema paths set fails validation on the required paths. */
  lemma EmptyDraftRejected(now: int)
    ensures Cast(EmptyDraft, now).Err?
    ensures Required([Key("sender")]) in Cast(EmptyDraft, now).error
  {
  }

  /** Why a save did not store anything. */
  datatype SaveError = Invalid(violations: set<Violation>) | StoreFailed

  /** The store after a save attempt, and the saved record or the failure. */
  datatype Saved = Saved(store: seq<Record>, result: Result<Record, SaveError>)

  /**
   * `save()`/`create()` against the collection, modelled as an append to a
   * sequence: validation runs first, then the write, which may fail
   * (`storeAvailable == false`). A failed save leaves the collection as it was.
   */
  function Save(store: seq<Record>, d: MessageDraft, now: int, storeAvailable: bool): (s: Saved)
    ensures s.result.Ok? <==> Cast(d, now).Ok? && storeAvailable
    ensures s.result.Ok? ==> s.result.value == Cast(d, now).value && s.store == store + [s.result.value]
    ensures s.result.Err? ==> s.store == store
    ensures Cast(d, now).Err? ==> s.result == Err(Invalid(Cast(d, now).error))
  {
    match Cast(d, now)
    case Err(errs) => Saved(store, Err(Invalid(errs)))
    case Ok(rec) => if storeAvailable then Saved(store + [rec], Ok(rec)) else Saved(store, Err(StoreFailed))
  }

  /** Saving keeps every record of the collection well-formed. */
  lemma SavePreservesWellFormed(store: seq<Record>, d: MessageDraft, now: int, storeAvailable: bool)
    requires forall i :: 0 <= i < |store| ==> WellFormed(store[i])
    ensures var s := Save(store, d, now, storeAvailable).store;
            forall i :: 0 <= i < |s| ==> WellFormed(s[i])
  {
  }
}

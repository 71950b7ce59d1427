/**
 * The validated shape of a webhook payload (src/schemas.py) and the validator
 * that turns a decoded JSON body into it.  A field typed `str`, `int`, `bool`
 * or `datetime` accepts exactly a JSON string, integer, boolean or parsed
 * timestamp; an `Optional` field also accepts a missing key or `null`.  Keys
 * the schema does not name are ignored.  Failure reports the first violation
 * in the order the fields are declared.
 */
module Schemas {

  import opened Wrappers
  import opened Json

  datatype ErrorKind = Missing | WrongType | NotAnObject

  /** Where validation failed (the path of keys from the body) and why. */
  datatype Violation = Violation(loc: seq<string>, kind: ErrorKind)

  /** The showing sub-record: only `uid` is required. */
  datatype ShowingData = ShowingData(
    uid: string,
    createdAt: Option<Time>,
    showtime: Option<Time>,
    showingTimeZone: Option<string>,
    showingTimeZoneUtcOffset: Option<int>,
    name: Option<string>,
    phone: Option<string>,
    email: Option<string>,
    notes: Option<string>,
    listingUid: Option<string>,
    listingFullAddress: Option<string>,
    isSelfShow: Option<bool>,
    confirmedAt: Option<Time>,
    canceledAt: Option<Time>,
    selfShowCodeDistributedAt: Option<Time>)

  /** The event: `id`, `action` and `created_at` are required. */
  datatype EventData = EventData(
    id: string,
    action: string,
    actor: Option<string>,
    teamMemberName: Option<string>,
    teamMemberUid: Option<string>,
    createdAt: Time,
    showing: Option<ShowingData>)

  datatype WebhookPayload = WebhookPayload(event: EventData)

  /** The body of the reply to a webhook delivery. */
  datatype WebhookResponse = WebhookResponse(status: string, message: string, eventId: Option<string>)

  /** A required field: the key must be present and of the right kind (`null` is not). */
  function Required<T>(o: map<string, Value>, key: string, loc: seq<string>, cast: Value -> Option<T>): Result<T, Violation>
  {
    if key !in o then Err(Violation(loc + [key], Missing))
    else match cast(o[key])
      case Some(x) => Ok(x)
      case None => Err(Violation(loc + [key], WrongType))
  }

  /** An optional field: a missing key or `null` is `None`. */
  function Optional<T>(o: map<string, Value>, key: string, loc: seq<string>, cast: Value -> Option<T>): Result<Option<T>, Violation>
  {
    if key !in o || o[key] == JNull then Ok(None)
    else match cast(o[key])
      case Some(x) => Ok(Some(x))
      case None => Err(Violation(loc + [key], WrongType))
  }

  /** Of the showing's fields only `uid` can be reported missing. */
  function ValidateShowing(o: map<string, Value>, loc: seq<string>): (r: Result<ShowingData, Violation>)
    ensures r.Err? ==> r.error.kind != NotAnObject
    ensures r.Err? && r.error.kind == Missing ==> r.error.loc == loc + ["uid"]
    ensures r.Err? ==> r.error.loc in {loc + ["uid"], loc + ["created_at"], loc + ["showtime"],
                                       loc + ["showing_time_zone"], loc + ["showing_time_zone_utc_offset"],
                                       loc + ["name"], loc + ["phone"], loc + ["email"], loc + ["notes"],
                                       loc + ["listing_uid"], loc + ["listing_full_address"], loc + ["is_self_show"],
                                       loc + ["confirmed_at"], loc + ["canceled_at"],
                                       loc + ["self_show_code_distributed_at"]}
  {
    var uid :- Required(o, "uid", loc, AsString);
    var createdAt :- Optional(o, "created_at", loc, AsTime);
    var showtime :- Optional(o, "showtime", loc, AsTime);
    var zone :- Optional(o, "showing_time_zone", loc, AsString);
    var offset :- Optional(o, "showing_time_zone_utc_offset", loc, AsInt);
    var name :- Optional(o, "name", loc, AsString);
    var phone :- Optional(o, "phone", loc, AsString);
    var email :- Optional(o, "email", loc, AsString);
    var notes :- Optional(o, "notes", loc, AsString);
    var listingUid :- Optional(o, "listing_uid", loc, AsString);
    var address :- Optional(o, "listing_full_address", loc, AsString);
    var selfShow :- Optional(o, "is_self_show", loc, AsBool);
    var confirmedAt :- Optional(o, "confirmed_at", loc, AsTime);
    var canceledAt :- Optional(o, "canceled_at", loc, AsTime);
    var codeAt :- Optional(o, "self_show_code_distributed_at", loc, AsTime);
    Ok(ShowingData(uid, createdAt, showtime, zone, offset, name, phone, email, notes,
                   listingUid, address, selfShow, confirmedAt, canceledAt, codeAt))
  }

  /** Of the event's fields only `id`, `action`, `created_at` and a showing's `uid` can be reported missing. */
  function ValidateEvent(o: map<string, Value>, loc: seq<string>): (r: Result<EventData, Violation>)
    ensures r.Err? ==> r.error.kind != NotAnObject
    ensures r.Err? && r.error.kind == Missing ==>
              r.error.loc in {loc + ["id"], loc + ["action"], loc + ["created_at"], loc + ["showing", "uid"]}
  {
    var id :- Required(o, "id", loc, AsString);
    var action :- Required(o, "action", loc, AsString);
    var actor :- Optional(o, "actor", loc, AsString);
    var memberName :- Optional(o, "team_member_name", loc, AsString);
    var memberUid :- Optional(o, "team_member_uid", loc, AsString);
    var createdAt :- Required(o, "created_at", loc, AsTime);
    assert loc + ["showing"] + ["uid"] == loc + ["showing", "uid"];
    var showing :-
      if "showing" !in o || o["showing"] == JNull then Ok(None)
      else match o["showing"]
        case JObject(f) =>
          (match ValidateShowing(f, loc + ["showing"])
             case Ok(s) => Ok(Some(s))
             case Err(v) => Err(v))
        case _ => Err(Violation(loc + ["showing"], WrongType));
    Ok(EventData(id, action, actor, memberName, memberUid, createdAt, showing))
  }

  /** `WebhookPayload(**payload)`: the body must be an object holding an `event` object. */
  function Validate(body: Value): (r: Result<WebhookPayload, Violation>)
    ensures r.Err? ==> (r.error.kind == NotAnObject <==> !body.JObject?)
    ensures r.Err? && r.error.kind == Missing ==>
              r.error.loc in {["event"], ["event", "id"], ["event", "action"], ["event", "created_at"],
                              ["event", "showing", "uid"]}
  {
    match body
    case JObject(o) =>
      assert ["event"] + ["id"] == ["event", "id"] && ["event"] + ["action"] == ["event", "action"];
      assert ["event"] + ["created_at"] == ["event", "created_at"];
      assert ["event"] + ["showing", "uid"] == ["event", "showing", "uid"];
      if "event" !in o then Err(Violation(["event"], Missing))
      else (match o["event"]
        case JObject(e) =>
          (match ValidateEvent(e, ["event"])
             case Ok(ev) => Ok(WebhookPayload(ev))
             case Err(v) => Err(v))
        case _ => Err(Violation(["event"], WrongType)))
    case _ => Err(Violation([], NotAnObject))
  }

  // ---- The canonical JSON of a validated payload ----

  function StringOrNull(o: Option<string>): Value { if o.Some? then JString(o.value) else JNull }
  function IntOrNull(o: Option<int>): Value { if o.Some? then JInt(o.value) else JNull }
  function BoolOrNull(o: Option<bool>): Value { if o.Some? then JBool(o.value) else JNull }
  function TimeOrNull(o: Option<Time>): Value { if o.Some? then JTime(o.value) else JNull }

  function ShowingJson(s: ShowingData): map<string, Value>
  {
    map[
      "uid" := JString(s.uid),
      "created_at" := TimeOrNull(s.createdAt),
      "showtime" := TimeOrNull(s.showtime),
      "showing_time_zone" := StringOrNull(s.showingTimeZone),
      "showing_time_zone_utc_offset" := IntOrNull(s.showingTimeZoneUtcOffset),
      "name" := StringOrNull(s.name),
      "phone" := StringOrNull(s.phone),
      "email" := StringOrNull(s.email),
      "notes" := StringOrNull(s.notes),
      "listing_uid" := StringOrNull(s.listingUid),
      "listing_full_address" := StringOrNull(s.listingFullAddress),
      "is_self_show" := BoolOrNull(s.isSelfShow),
      "confirmed_at" := TimeOrNull(s.confirmedAt),
      "canceled_at" := TimeOrNull(s.canceledAt),
      "self_show_code_distributed_at" := TimeOrNull(s.selfShowCodeDistributedAt)]
  }

  function EventJson(e: EventData): map<string, Value>
  {
    map[
      "id" := JString(e.id),
      "action" := JString(e.action),
      "actor" := StringOrNull(e.actor),
      "team_member_name" := StringOrNull(e.teamMemberName),
      "team_member_uid" := StringOrNull(e.teamMemberUid),
      "created_at" := JTime(e.createdAt),
      "showing" := if e.showing.Some? then JObject(ShowingJson(e.showing.value)) else JNull]
  }

  /** The JSON body a sender would post for payload `p`. */
  function ToJson(p: WebhookPayload): Value
  {
    JObject(map["event" := JObject(EventJson(p.event))])
  }

  // ---- Which bodies the validator accepts ----

  /**
   * The key `key` of `o` holds the JSON value `v`.  When `v` is `null` the
   * key may also be left out, since an `Optional` field defaults to `None`.
   */
  predicate FieldHolds(o: map<string, Value>, key: string, v: Value)
  {
    if v == JNull then key !in o || o[key] == JNull else key in o && o[key] == v
  }

  /** `o` is a JSON form of the showing `s`: `uid` is given, and each optional field holds its value or is null or left out. */
  predicate ShowingEncodes(o: map<string, Value>, s: ShowingData)
  {
    && "uid" in o && o["uid"] == JString(s.uid)
    && FieldHolds(o, "created_at", TimeOrNull(s.createdAt))
    && FieldHolds(o, "showtime", TimeOrNull(s.showtime))
    && FieldHolds(o, "showing_time_zone", StringOrNull(s.showingTimeZone))
    && FieldHolds(o, "showing_time_zone_utc_offset", IntOrNull(s.showingTimeZoneUtcOffset))
    && FieldHolds(o, "name", StringOrNull(s.name))
    && FieldHolds(o, "phone", StringOrNull(s.phone))
    && FieldHolds(o, "email", StringOrNull(s.email))
    && FieldHolds(o, "notes", StringOrNull(s.notes))
    && FieldHolds(o, "listing_uid", StringOrNull(s.listingUid))
    && FieldHolds(o, "listing_full_address", StringOrNull(s.listingFullAddress))
    && FieldHolds(o, "is_self_show", BoolOrNull(s.isSelfShow))
    && FieldHolds(o, "confirmed_at", TimeOrNull(s.confirmedAt))
    && FieldHolds(o, "canceled_at", TimeOrNull(s.canceledAt))
    && FieldHolds(o, "self_show_code_distributed_at", TimeOrNull(s.selfShowCodeDistributedAt))
  }

  /** `o` is a JSON form of the event `e`: the three required fields are given, the optional ones may be null or left out. */
  predicate EventEncodes(o: map<string, Value>, e: EventData)
  {
    && "id" in o && o["id"] == JString(e.id)
    && "action" in o && o["action"] == JString(e.action)
    && FieldHolds(o, "actor", StringOrNull(e.actor))
    && FieldHolds(o, "team_member_name", StringOrNull(e.teamMemberName))
    && FieldHolds(o, "team_member_uid", StringOrNull(e.teamMemberUid))
    && "created_at" in o && o["created_at"] == JTime(e.createdAt)
    && (if e.showing.None? then "showing" !in o || o["showing"] == JNull
        else "showing" in o && o["showing"].JObject? && ShowingEncodes(o["showing"].fields, e.showing.value))
  }

  /** `body` is a JSON form of the payload `p`. */
  predicate PayloadEncodes(body: Value, p: WebhookPayload)
  {
    && body.JObject? && "event" in body.fields && body.fields["event"].JObject?
    && EventEncodes(body.fields["event"].fields, p.event)
  }

  lemma RequiredString(o: map<string, Value>, key: string, loc: seq<string>, x: string)
    ensures Required(o, key, loc, AsString) == Ok(x) <==> key in o && o[key] == JString(x)
  {
  }

  lemma RequiredTime(o: map<string, Value>, key: string, loc: seq<string>, x: Time)
    ensures Required(o, key, loc, AsTime) == Ok(x) <==> key in o && o[key] == JTime(x)
  {
  }

  lemma OptionalString(o: map<string, Value>, key: string, loc: seq<string>, x: Option<string>)
    ensures Optional(o, key, loc, AsString) == Ok(x) <==> FieldHolds(o, key, StringOrNull(x))
  {
  }

  lemma OptionalInt(o: map<string, Value>, key: string, loc: seq<string>, x: Option<int>)
    ensures Optional(o, key, loc, AsInt) == Ok(x) <==> FieldHolds(o, key, IntOrNull(x))
  {
  }

  lemma OptionalBool(o: map<string, Value>, key: string, loc: seq<string>, x: Option<bool>)
    ensures Optional(o, key, loc, AsBool) == Ok(x) <==> FieldHolds(o, key, BoolOrNull(x))
  {
  }

  lemma OptionalTime(o: map<string, Value>, key: string, loc: seq<string>, x: Option<Time>)
    ensures Optional(o, key, loc, AsTime) == Ok(x) <==> FieldHolds(o, key, TimeOrNull(x))
  {
  }

  /** The showing sub-records that validate to `s` are exactly the JSON forms of `s`. */
  lemma {:induction false} ShowingAccepted(o: map<string, Value>, s: ShowingData, loc: seq<string>)
    ensures ValidateShowing(o, loc) == Ok(s) <==> ShowingEncodes(o, s)
  {
    RequiredString(o, "uid", loc, s.uid);
    OptionalTime(o, "created_at", loc, s.createdAt);
    OptionalTime(o, "showtime", loc, s.showtime);
    OptionalString(o, "showing_time_zone", loc, s.showingTimeZone);
    OptionalInt(o, "showing_time_zone_utc_offset", loc, s.showingTimeZoneUtcOffset);
    OptionalString(o, "name", loc, s.name);
    OptionalString(o, "phone", loc, s.phone);
    OptionalString(o, "email", loc, s.email);
    OptionalString(o, "notes", loc, s.notes);
    OptionalString(o, "listing_uid", loc, s.listingUid);
    OptionalString(o, "listing_full_address", loc, s.listingFullAddress);
    OptionalBool(o, "is_self_show", loc, s.isSelfShow);
    OptionalTime(o, "confirmed_at", loc, s.confirmedAt);
    OptionalTime(o, "canceled_at", loc, s.canceledAt);
    OptionalTime(o, "self_show_code_distributed_at", loc, s.selfShowCodeDistributedAt);
  }

  /** The events that validate to `e` are exactly the JSON forms of `e`. */
  lemma {:induction false} EventAccepted(o: map<string, Value>, e: EventData, loc: seq<string>)
    ensures ValidateEvent(o, loc) == Ok(e) <==> EventEncodes(o, e)
  {
    RequiredString(o, "id", loc, e.id);
    RequiredString(o, "action", loc, e.action);
    OptionalString(o, "actor", loc, e.actor);
    OptionalString(o, "team_member_name", loc, e.teamMemberName);
    OptionalString(o, "team_member_uid", loc, e.teamMemberUid);
    RequiredTime(o, "created_at", loc, e.createdAt);
    if "showing" in o && o["showing"].JObject? && e.showing.Some? {
      ShowingAccepted(o["showing"].fields, e.showing.value, loc + ["showing"]);
    }
  }

  /** The bodies that validate to `p` are exactly the JSON forms of `p`; every other body is rejected. */
  lemma {:induction false} ValidateAccepts(body: Value, p: WebhookPayload)
    ensures Validate(body) == Ok(p) <==> PayloadEncodes(body, p)
  {
    if body.JObject? && "event" in body.fields && body.fields["event"].JObject? {
      EventAccepted(body.fields["event"].fields, p.event, ["event"]);
    }
  }

  /** The canonical JSON of a showing is one of its JSON forms. */
  lemma ShowingJsonEncodes(s: ShowingData)
    ensures ShowingEncodes(ShowingJson(s), s)
  {
    ShowingJsonTimesAndContact(s);
    ShowingJsonListingAndStatus(s);
  }

  /** The first half of `ShowingJsonEncodes`: the uid, the times and zone, and the contact fields. */
  lemma ShowingJsonTimesAndContact(s: ShowingData)
    ensures var o := ShowingJson(s);
            && "uid" in o && o["uid"] == JString(s.uid)
            && FieldHolds(o, "created_at", TimeOrNull(s.createdAt))
            && FieldHolds(o, "showtime", TimeOrNull(s.showtime))
            && FieldHolds(o, "showing_time_zone", StringOrNull(s.showingTimeZone))
            && FieldHolds(o, "showing_time_zone_utc_offset", IntOrNull(s.showingTimeZoneUtcOffset))
            && FieldHolds(o, "name", StringOrNull(s.name))
            && FieldHolds(o, "phone", StringOrNull(s.phone))
  {
    var o := ShowingJson(s);
    assert "uid" in o && o["uid"] == JString(s.uid);
    assert FieldHolds(o, "created_at", TimeOrNull(s.createdAt));
    assert FieldHolds(o, "showtime", TimeOrNull(s.showtime));
    assert FieldHolds(o, "showing_time_zone", StringOrNull(s.showingTimeZone));
    assert FieldHolds(o, "showing_time_zone_utc_offset", IntOrNull(s.showingTimeZoneUtcOffset));
    assert FieldHolds(o, "name", StringOrNull(s.name));
  }

  /** The second half of `ShowingJsonEncodes`: the email, notes, listing and status fields. */
  lemma ShowingJsonListingAndStatus(s: ShowingData)
    ensures var o := ShowingJson(s);
            && FieldHolds(o, "email", StringOrNull(s.email))
            && FieldHolds(o, "notes", StringOrNull(s.notes))
            && FieldHolds(o, "listing_uid", StringOrNull(s.listingUid))
            && FieldHolds(o, "listing_full_address", StringOrNull(s.listingFullAddress))
            && FieldHolds(o, "is_self_show", BoolOrNull(s.isSelfShow))
            && FieldHolds(o, "confirmed_at", TimeOrNull(s.confirmedAt))
            && FieldHolds(o, "canceled_at", TimeOrNull(s.canceledAt))
            && FieldHolds(o, "self_show_code_distributed_at", TimeOrNull(s.selfShowCodeDistributedAt))
  {
    var o := ShowingJson(s);
    assert FieldHolds(o, "email", StringOrNull(s.email));
    assert FieldHolds(o, "notes", StringOrNull(s.notes));
    assert FieldHolds(o, "listing_uid", StringOrNull(s.listingUid));
    assert FieldHolds(o, "listing_full_address", StringOrNull(s.listingFullAddress));
    assert FieldHolds(o, "is_self_show", BoolOrNull(s.isSelfShow));
    assert FieldHolds(o, "confirmed_at", TimeOrNull(s.confirmedAt));
    assert FieldHolds(o, "canceled_at", TimeOrNull(s.canceledAt));
  }

  /** The canonical JSON of an event is one of its JSON forms. */
  lemma EventJsonEncodes(e: EventData)
    ensures EventEncodes(EventJson(e), e)
  {
    if e.showing.Some? {
      ShowingJsonEncodes(e.showing.value);
    }
  }

  /** Every payload the schema describes is accepted, and validation gives it back unchanged. */
  lemma {:induction false} ValidateToJson(p: WebhookPayload)
    ensures Validate(ToJson(p)) == Ok(p)
  {
    EventJsonEncodes(p.event);
    ValidateAccepts(ToJson(p), p);
  }

  /** An optional showing field whose key is left out validates to `None`. */
  lemma {:induction false} OmittedShowingFieldsAreNone(o: map<string, Value>, loc: seq<string>)
    requires ValidateShowing(o, loc).Ok?
    ensures var s := ValidateShowing(o, loc).value;
            && ("created_at" !in o ==> s.createdAt.None?)
            && ("showtime" !in o ==> s.showtime.None?)
            && ("showing_time_zone" !in o ==> s.showingTimeZone.None?)
            && ("showing_time_zone_utc_offset" !in o ==> s.showingTimeZoneUtcOffset.None?)
            && ("name" !in o ==> s.name.None?)
            && ("phone" !in o ==> s.phone.None?)
            && ("email" !in o ==> s.email.None?)
            && ("notes" !in o ==> s.notes.None?)
            && ("listing_uid" !in o ==> s.listingUid.None?)
            && ("listing_full_address" !in o ==> s.listingFullAddress.None?)
            && ("is_self_show" !in o ==> s.isSelfShow.None?)
            && ("confirmed_at" !in o ==> s.confirmedAt.None?)
            && ("canceled_at" !in o ==> s.canceledAt.None?)
            && ("self_show_code_distributed_at" !in o ==> s.selfShowCodeDistributedAt.None?)
  {
    ShowingAccepted(o, ValidateShowing(o, loc).value, loc);
  }

  /** An optional event field whose key is left out validates to `None`. */
  lemma {:induction false} OmittedEventFieldsAreNone(o: map<string, Value>, loc: seq<string>)
    requires ValidateEvent(o, loc).Ok?
    ensures var e := ValidateEvent(o, loc).value;
            && ("actor" !in o ==> e.actor.None?)
            && ("team_member_name" !in o ==> e.teamMemberName.None?)
            && ("team_member_uid" !in o ==> e.teamMemberUid.None?)
            && ("showing" !in o ==> e.showing.None?)
  {
    EventAccepted(o, ValidateEvent(o, loc).value, loc);
  }

  // ---- The rejections ----

  /** A body without an `event` object is rejected at `event`. */
  lemma EventRequired(o: map<string, Value>)
    requires "event" !in o || !o["event"].JObject?
    ensures Validate(JObject(o)).Err?
    ensures Validate(JObject(o)).error.loc == ["event"]
  {
  }

  /** An event without an `id` is rejected at `event.id`, whatever else it holds. */
  lemma MissingIdRejected(o: map<string, Value>, e: map<string, Value>)
    requires "event" in o && o["event"] == JObject(e) && "id" !in e
    ensures Validate(JObject(o)) == Err(Violation(["event", "id"], Missing))
  {
    assert ["event"] + ["id"] == ["event", "id"];
  }

  /** An `id` of another kind than a string, `null` included, is rejected at `event.id`. */
  lemma WrongKindIdRejected(o: map<string, Value>, e: map<string, Value>)
    requires "event" in o && o["event"] == JObject(e) && "id" in e && !e["id"].JString?
    ensures Validate(JObject(o)) == Err(Violation(["event", "id"], WrongType))
  {
    assert ["event"] + ["id"] == ["event", "id"];
  }

  /** An event with a string `id` but no `action` is rejected at `event.action`. */
  lemma MissingActionRejected(o: map<string, Value>, e: map<string, Value>)
    requires "event" in o && o["event"] == JObject(e)
    requires "id" in e && e["id"].JString? && "action" !in e
    ensures Validate(JObject(o)) == Err(Violation(["event", "action"], Missing))
  {
    assert ["event"] + ["action"] == ["event", "action"];
  }

  /** A key that an optional string field accepts: left out, null or a string. */
  predicate StringOrAbsent(o: map<string, Value>, key: string)
  {
    key !in o || o[key] == JNull || o[key].JString?
  }

  /**
   * An event valid in every field declared before `created_at` is rejected at
   * `event.created_at` when that key is missing, and as a type error when it
   * holds anything but a parsed timestamp.
   */
  lemma MissingCreatedAtRejected(o: map<string, Value>, e: map<string, Value>)
    requires "event" in o && o["event"] == JObject(e)
    requires "id" in e && e["id"].JString? && "action" in e && e["action"].JString?
    requires StringOrAbsent(e, "actor") && StringOrAbsent(e, "team_member_name") && StringOrAbsent(e, "team_member_uid")
    ensures "created_at" !in e ==> Validate(JObject(o)) == Err(Violation(["event", "created_at"], Missing))
    ensures "created_at" in e && !e["created_at"].JTime? ==>
              Validate(JObject(o)) == Err(Violation(["event", "created_at"], WrongType))
  {
    assert ["event"] + ["created_at"] == ["event", "created_at"];
  }

  /** A showing sub-record without a `uid` is rejected at `event.showing.uid`. */
  lemma {:induction false} MissingShowingUidRejected(ev: EventData, f: map<string, Value>)
    requires "uid" !in f
    ensures Validate(JObject(map["event" := JObject(EventJson(ev)["showing" := JObject(f)])]))
         == Err(Violation(["event", "showing", "uid"], Missing))
  {
    var m := EventJson(ev)["showing" := JObject(f)];
    EventJsonWithShowing(ev, JObject(f));
    RequiredString(m, "id", ["event"], ev.id);
    RequiredString(m, "action", ["event"], ev.action);
    OptionalString(m, "actor", ["event"], ev.actor);
    OptionalString(m, "team_member_name", ["event"], ev.teamMemberName);
    OptionalString(m, "team_member_uid", ["event"], ev.teamMemberUid);
    RequiredTime(m, "created_at", ["event"], ev.createdAt);
    assert ["event"] + ["showing"] + ["uid"] == ["event", "showing", "uid"];
    assert ValidateShowing(f, ["event"] + ["showing"]) == Err(Violation(["event", "showing", "uid"], Missing));
    assert ValidateEvent(m, ["event"]) == Err(Violation(["event", "showing", "uid"], Missing));
  }

  /** The canonical JSON of an event with its `showing` key replaced keeps every other field. */
  lemma EventJsonWithShowing(ev: EventData, x: Value)
    ensures var m := EventJson(ev)["showing" := x];
            && "id" in m && m["id"] == JString(ev.id)
            && "action" in m && m["action"] == JString(ev.action)
            && "actor" in m && m["actor"] == StringOrNull(ev.actor)
            && "team_member_name" in m && m["team_member_name"] == StringOrNull(ev.teamMemberName)
            && "team_member_uid" in m && m["team_member_uid"] == StringOrNull(ev.teamMemberUid)
            && "created_at" in m && m["created_at"] == JTime(ev.createdAt)
            && "showing" in m && m["showing"] == x
  {
  }
}

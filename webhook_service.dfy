/**
 * `WebhookService.process_webhook` and its two helpers (src/webhook_service.py).
 *
 * The functions `Ingest` and `Process` state what one delivery does to the
 * store; the methods `ProcessWebhook`, `UpsertListing` and `UpsertProspect`
 * do it step by step through a `Session`, and their postconditions tie the
 * committed tables to those functions.  The clock is the parameter `now`, and
 * a store failure is the parameter `fault`: the step at which the database
 * raises, if any.
 */
module WebhookService {

  import opened Wrappers
  import opened Json
  import opened Schemas
  import opened Database

  datatype IngestError = Malformed(violation: Violation) | StoreFailure

  /** What `process_webhook` returns, or the exception it re-raises. */
  datatype Outcome = Success(eventId: string) | Duplicate(eventId: string) | Failed(error: IngestError)

  datatype Transition = Transition(outcome: Outcome, tables: Tables)

  /** The database round trips of one delivery, each of which can raise. */
  datatype Step =
    | EventLookup | EventFlush
    | ShowingLookup
    | ListingLookup | ListingCount
    | ProspectLookup | ProspectCount
    | Commit

  /** Python truthiness of an optional string: present and not empty. */
  predicate NonEmpty(o: Option<string>)
  {
    o.Some? && o.value != ""
  }

  /** `showing_data.listing_uid and showing_data.listing_full_address`. */
  predicate ListingGate(sd: ShowingData)
  {
    NonEmpty(sd.listingUid) && NonEmpty(sd.listingFullAddress)
  }

  /** A contact field of an existing prospect is overwritten only by a non-empty value. */
  function Merge(stored: Option<string>, incoming: Option<string>): (r: Option<string>)
    ensures NonEmpty(incoming) ==> r == incoming
    ensures !NonEmpty(incoming) ==> r == stored
  {
    if NonEmpty(incoming) then incoming else stored
  }

  function NewEvent(e: EventData, raw: Value, now: Time): (r: Event)
    ensures r.eventId == e.id && r.action == e.action && r.actor == e.actor
    ensures r.teamMemberName == e.teamMemberName && r.teamMemberUid == e.teamMemberUid
    ensures r.createdAt == e.createdAt && r.receivedAt == now && r.rawPayload == raw
  {
    Event(e.id, e.action, e.actor, e.teamMemberName, e.teamMemberUid, e.createdAt, now, raw)
  }

  /** Every column the update branch assigns holds the payload's value. */
  predicate Carries(row: Showing, sd: ShowingData)
  {
    && row.showtime == sd.showtime
    && row.showingTimeZone == sd.showingTimeZone
    && row.showingTimeZoneUtcOffset == sd.showingTimeZoneUtcOffset
    && row.name == sd.name
    && row.phone == sd.phone
    && row.email == sd.email
    && row.notes == sd.notes
    && row.listingUid == sd.listingUid
    && row.listingFullAddress == sd.listingFullAddress
    && row.isSelfShow == sd.isSelfShow
    && row.confirmedAt == sd.confirmedAt
    && row.canceledAt == sd.canceledAt
    && row.selfShowCodeDistributedAt == sd.selfShowCodeDistributedAt
  }

  /** The new `Showing(...)` of the insert branch; `updated_at` takes its default. */
  function Inserted(sd: ShowingData, eventId: string, now: Time): Showing
  {
    Showing(sd.uid, eventId, sd.createdAt, sd.showtime, sd.showingTimeZone, sd.showingTimeZoneUtcOffset,
            sd.name, sd.phone, sd.email, sd.notes, sd.listingUid, sd.listingFullAddress,
            sd.isSelfShow, sd.confirmedAt, sd.canceledAt, sd.selfShowCodeDistributedAt, now)
  }

  /** The assignments of the update branch; `updated_at` takes its `onupdate` value. */
  function Replaced(row: Showing, sd: ShowingData, eventId: string, now: Time): Showing
  {
    row.(eventId := eventId, showtime := sd.showtime, showingTimeZone := sd.showingTimeZone,
         showingTimeZoneUtcOffset := sd.showingTimeZoneUtcOffset, name := sd.name, phone := sd.phone,
         email := sd.email, notes := sd.notes, listingUid := sd.listingUid,
         listingFullAddress := sd.listingFullAddress, isSelfShow := sd.isSelfShow,
         confirmedAt := sd.confirmedAt, canceledAt := sd.canceledAt,
         selfShowCodeDistributedAt := sd.selfShowCodeDistributedAt, updatedAt := now)
  }

  /** Insert the showing, or replace every field of the stored one but `created_at`. */
  function ApplyShowing(t: Tables, sd: ShowingData, eventId: string, now: Time): (r: Tables)
    ensures r.events == t.events && r.listings == t.listings && r.prospects == t.prospects
    ensures sd.uid in r.showings && r.showings == t.showings[sd.uid := r.showings[sd.uid]]
    ensures Carries(r.showings[sd.uid], sd) && r.showings[sd.uid].eventId == eventId
    ensures r.showings[sd.uid].updatedAt == now
    ensures sd.uid in t.showings ==>
              r.showings[sd.uid].uid == t.showings[sd.uid].uid && r.showings[sd.uid].createdAt == t.showings[sd.uid].createdAt
    ensures sd.uid !in t.showings ==> r.showings[sd.uid].uid == sd.uid && r.showings[sd.uid].createdAt == sd.createdAt
  {
    if sd.uid in t.showings then
      t.(showings := t.showings[sd.uid := Replaced(t.showings[sd.uid], sd, eventId, now)])
    else
      t.(showings := t.showings[sd.uid := Inserted(sd, eventId, now)])
  }

  /**
   * `_upsert_listing`: a stored listing keeps its address and first-seen time
   * and takes `recount` as its total; a new one starts with `initial`.
   */
  function ApplyListing(t: Tables, uid: string, address: string, now: Time, recount: nat, initial: nat): (r: Tables)
    ensures r.events == t.events && r.showings == t.showings && r.prospects == t.prospects
    ensures uid in r.listings && r.listings == t.listings[uid := r.listings[uid]]
    ensures r.listings[uid].lastSeenAt == now
    ensures uid in t.listings ==>
              && r.listings[uid].uid == t.listings[uid].uid
              && r.listings[uid].fullAddress == t.listings[uid].fullAddress
              && r.listings[uid].firstSeenAt == t.listings[uid].firstSeenAt
              && r.listings[uid].totalShowings == recount
    ensures uid !in t.listings ==> r.listings[uid] == Listing(uid, address, now, now, initial)
  {
    if uid in t.listings then
      var row := t.listings[uid].(lastSeenAt := now, totalShowings := recount);
      t.(listings := t.listings[uid := row])
    else
      t.(listings := t.listings[uid := Listing(uid, address, now, now, initial)])
  }

  /**
   * `_upsert_prospect`: a stored prospect keeps its first-contact time and
   * any contact field the delivery leaves blank, and takes `recount` as its
   * total; a new one starts with `initial` and the given name and phone.
   */
  function ApplyProspect(t: Tables, email: string, name: Option<string>, phone: Option<string>,
                         now: Time, recount: nat, initial: nat): (r: Tables)
    ensures r.events == t.events && r.showings == t.showings && r.listings == t.listings
    ensures email in r.prospects && r.prospects == t.prospects[email := r.prospects[email]]
    ensures r.prospects[email].lastContactAt == now
    ensures email in t.prospects ==>
              && r.prospects[email].email == t.prospects[email].email
              && r.prospects[email].name == Merge(t.prospects[email].name, name)
              && r.prospects[email].phone == Merge(t.prospects[email].phone, phone)
              && r.prospects[email].firstContactAt == t.prospects[email].firstContactAt
              && r.prospects[email].totalShowings == recount
    ensures email !in t.prospects ==> r.prospects[email] == Prospect(email, name, phone, now, now, initial)
  {
    if email in t.prospects then
      var p := t.prospects[email];
      var row := p.(name := Merge(p.name, name), phone := Merge(p.phone, phone),
                    lastContactAt := now, totalShowings := recount);
      t.(prospects := t.prospects[email := row])
    else
      t.(prospects := t.prospects[email := Prospect(email, name, phone, now, now, initial)])
  }

  /** The listing upsert of a delivery, when its gate holds; see `Aggregates` for `counted` and `countNew`. */
  function ListingStep(t: Tables, sd: ShowingData, now: Time, counted: map<string, Showing>, countNew: bool): (r: Tables)
    ensures r.events == t.events && r.showings == t.showings && r.prospects == t.prospects
    ensures !ListingGate(sd) ==> r == t
  {
    if ListingGate(sd) then
      var uid := sd.listingUid.value;
      var n := CountReferencing(counted, ListingRef(uid));
      ApplyListing(t, uid, sd.listingFullAddress.value, now, n, if countNew then n else 1)
    else t
  }

  /** The prospect upsert of a delivery, when it carries an email. */
  function ProspectStep(t: Tables, sd: ShowingData, now: Time, counted: map<string, Showing>, countNew: bool): (r: Tables)
    ensures r.events == t.events && r.showings == t.showings && r.listings == t.listings
    ensures !NonEmpty(sd.email) ==> r == t
  {
    if NonEmpty(sd.email) then
      var email := sd.email.value;
      var n := CountReferencing(counted, ProspectRef(email));
      ApplyProspect(t, email, sd.name, sd.phone, now, n, if countNew then n else 1)
    else t
  }

  /**
   * The listing and prospect upserts after the showing write.  `counted` is
   * the showings table the recount queries see; a new listing or prospect
   * starts at 1, or, when `countNew` holds, at the recount as well.
   */
  function Aggregates(t: Tables, sd: ShowingData, now: Time, counted: map<string, Showing>, countNew: bool): (r: Tables)
    ensures r.events == t.events && r.showings == t.showings
    ensures !ListingGate(sd) ==> r.listings == t.listings
    ensures !NonEmpty(sd.email) ==> r.prospects == t.prospects
  {
    ProspectStep(ListingStep(t, sd, now, counted, countNew), sd, now, counted, countNew)
  }

  /** The event row alone added to the store. */
  function WithEvent(t: Tables, e: EventData, raw: Value, now: Time): (r: Tables)
    ensures r.showings == t.showings && r.listings == t.listings && r.prospects == t.prospects
    ensures r.events == t.events[e.id := NewEvent(e, raw, now)]
  {
    t.(events := t.events[e.id := NewEvent(e, raw, now)])
  }

  /**
   * One delivery of a validated payload when the database raises nothing.
   * Only the Event is flushed before the recount queries run, so they count
   * the showings table as it stood before the delivery.
   */
  function Ingest(t: Tables, raw: Value, p: WebhookPayload, now: Time): (r: Transition)
    ensures p.event.id in t.events ==> r == Transition(Duplicate(p.event.id), t)
    ensures p.event.id !in t.events ==>
              && r.outcome == Success(p.event.id)
              && r.tables.events == t.events[p.event.id := NewEvent(p.event, raw, now)]
    ensures p.event.id !in t.events && p.event.showing.None? ==>
              r.tables == t.(events := r.tables.events)
  {
    var e := p.event;
    if e.id in t.events then Transition(Duplicate(e.id), t)
    else
      var flushed := WithEvent(t, e, raw, now);
      match e.showing
      case None => Transition(Success(e.id), flushed)
      case Some(sd) =>
        Transition(Success(e.id), Aggregates(ApplyShowing(flushed, sd, e.id, now), sd, now, flushed.showings, false))
  }

  /** Whether the showing part of a delivery (against the tables `t` it starts from) reaches step `s`. */
  predicate ShowingReached(t: Tables, sd: ShowingData, s: Step)
  {
    match s
    case ShowingLookup => true
    case ListingLookup => ListingGate(sd)
    case ListingCount => ListingGate(sd) && sd.listingUid.value in t.listings
    case ProspectLookup => NonEmpty(sd.email)
    case ProspectCount => NonEmpty(sd.email) && sd.email.value in t.prospects
    case _ => false
  }

  /** Whether a delivery of `p` against `t` reaches step `s`. */
  predicate Reached(t: Tables, p: WebhookPayload, s: Step)
  {
    var e := p.event;
    match s
    case EventLookup => true
    case EventFlush => e.id !in t.events
    case Commit => e.id !in t.events
    case _ => e.id !in t.events && e.showing.Some? && ShowingReached(t, e.showing.value, s)
  }

  /**
   * The showing part runs its round trips in order: the showing lookup
   * always, a listing recount only after its lookup found the row, a
   * prospect recount only after its lookup found the row, and no event step.
   */
  lemma ShowingStepsInOrder(t: Tables, sd: ShowingData)
    ensures ShowingReached(t, sd, ShowingLookup)
    ensures ShowingReached(t, sd, ListingLookup) <==> ListingGate(sd)
    ensures ShowingReached(t, sd, ListingCount) <==> ShowingReached(t, sd, ListingLookup) && sd.listingUid.value in t.listings
    ensures ShowingReached(t, sd, ProspectLookup) <==> NonEmpty(sd.email)
    ensures ShowingReached(t, sd, ProspectCount) <==> ShowingReached(t, sd, ProspectLookup) && sd.email.value in t.prospects
    ensures !ShowingReached(t, sd, EventLookup) && !ShowingReached(t, sd, EventFlush) && !ShowingReached(t, sd, Commit)
  {
  }

  /**
   * Every delivery makes the idempotency lookup; a duplicate makes no other
   * round trip, and a new event reaches the flush and the commit, and the
   * showing steps only when it carries a showing.
   */
  lemma DeliveryStepsInOrder(t: Tables, p: WebhookPayload, s: Step)
    ensures Reached(t, p, EventLookup)
    ensures p.event.id in t.events ==> (Reached(t, p, s) <==> s == EventLookup)
    ensures p.event.id !in t.events ==> Reached(t, p, EventFlush) && Reached(t, p, Commit)
    ensures s != EventLookup && s != EventFlush && s != Commit ==>
              (Reached(t, p, s) <==> p.event.id !in t.events && p.event.showing.Some? && ShowingReached(t, p.event.showing.value, s))
  {
  }

  /**
   * The whole of `process_webhook`: validation, then the delivery; any
   * exception rolls the transaction back, so a failed delivery leaves the
   * store as it was.
   */
  function Process(t: Tables, raw: Value, now: Time, fault: Option<Step>): (r: Transition)
    ensures r.outcome.Failed? ==> r.tables == t
    ensures Validate(raw).Err? ==> r == Transition(Failed(Malformed(Validate(raw).error)), t)
    ensures Validate(raw).Ok? && fault.Some? && Reached(t, Validate(raw).value, fault.value) ==>
              r == Transition(Failed(StoreFailure), t)
    ensures Validate(raw).Ok? && !(fault.Some? && Reached(t, Validate(raw).value, fault.value)) ==>
              r == Ingest(t, raw, Validate(raw).value, now)
  {
    match Validate(raw)
    case Err(v) => Transition(Failed(Malformed(v)), t)
    case Ok(p) =>
      if fault.Some? && Reached(t, p, fault.value) then Transition(Failed(StoreFailure), t)
      else Ingest(t, raw, p, now)
  }

  // ---- The service, step by step ----

  method UpsertListing(db: Session, uid: string, address: string, now: Time, fault: Option<Step>)
    returns (ok: bool)
    requires db.flushed.WellFormed() && db.pending.listings == db.flushed.listings
    modifies db
    ensures db.committed == old(db.committed) && db.flushed == old(db.flushed)
    ensures ok <==> !(fault == Some(ListingLookup) || (fault == Some(ListingCount) && uid in old(db.flushed).listings))
    ensures db.pending == if ok then ApplyListing(old(db.pending), uid, address, now,
                                                  CountReferencing(old(db.flushed).showings, ListingRef(uid)), 1)
                          else old(db.pending)
  {
    if fault == Some(ListingLookup) { return false; }
    var found := db.FindListing(uid);
    if found.Some? {
      if fault == Some(ListingCount) { return false; }
      var n := db.CountShowings(ListingRef(uid));
      db.PutListing(found.value.(lastSeenAt := now, totalShowings := n));
    } else {
      db.PutListing(Listing(uid, address, now, now, 1));
    }
    ok := true;
  }

  method UpsertProspect(db: Session, email: string, name: Option<string>, phone: Option<string>,
                        now: Time, fault: Option<Step>)
    returns (ok: bool)
    requires db.flushed.WellFormed() && db.pending.prospects == db.flushed.prospects
    modifies db
    ensures db.committed == old(db.committed) && db.flushed == old(db.flushed)
    ensures ok <==> !(fault == Some(ProspectLookup) || (fault == Some(ProspectCount) && email in old(db.flushed).prospects))
    ensures db.pending == if ok then ApplyProspect(old(db.pending), email, name, phone, now,
                                                   CountReferencing(old(db.flushed).showings, ProspectRef(email)), 1)
                          else old(db.pending)
  {
    if fault == Some(ProspectLookup) { return false; }
    var found := db.FindProspect(email);
    if found.Some? {
      var p := found.value;
      var newName := Merge(p.name, name);
      var newPhone := Merge(p.phone, phone);
      if fault == Some(ProspectCount) { return false; }
      var n := db.CountShowings(ProspectRef(email));
      db.PutProspect(p.(name := newName, phone := newPhone, lastContactAt := now, totalShowings := n));
    } else {
      db.PutProspect(Prospect(email, name, phone, now, now, 1));
    }
    ok := true;
  }

  /** Lines 64-125 of `process_webhook`: the showing write and the two upserts; `ok` is false when one raised. */
  method WriteShowing(db: Session, eventId: string, sd: ShowingData, now: Time, fault: Option<Step>)
    returns (ok: bool)
    requires db.flushed.WellFormed() && db.pending == db.flushed
    modifies db
    ensures db.committed == old(db.committed) && db.flushed == old(db.flushed)
    ensures ok <==> !(fault.Some? && ShowingReached(old(db.flushed), sd, fault.value))
    ensures ok ==> db.pending == Aggregates(ApplyShowing(old(db.flushed), sd, eventId, now), sd, now, old(db.flushed).showings, false)
  {
    ghost var flushed := db.flushed;
    if fault == Some(ShowingLookup) { return false; }
    var found := db.FindShowing(sd.uid);
    if found.Some? {
      db.PutShowing(Replaced(found.value, sd, eventId, now));
    } else {
      db.PutShowing(Inserted(sd, eventId, now));
    }
    assert db.pending == ApplyShowing(flushed, sd, eventId, now);
    ok := WriteAggregates(db, sd, now, fault);
  }

  /** Lines 110-125 of `process_webhook`: the listing upsert under its gate, then the prospect upsert under a non-empty email. */
  method WriteAggregates(db: Session, sd: ShowingData, now: Time, fault: Option<Step>) returns (ok: bool)
    requires db.flushed.WellFormed()
    requires db.pending.listings == db.flushed.listings && db.pending.prospects == db.flushed.prospects
    requires fault != Some(ShowingLookup)
    modifies db
    ensures db.committed == old(db.committed) && db.flushed == old(db.flushed)
    ensures ok <==> !(fault.Some? && ShowingReached(old(db.flushed), sd, fault.value))
    ensures ok ==> db.pending == Aggregates(old(db.pending), sd, now, old(db.flushed).showings, false)
  {
    ghost var start := db.pending;
    ghost var counted := db.flushed.showings;
    if ListingGate(sd) {
      ok := UpsertListing(db, sd.listingUid.value, sd.listingFullAddress.value, now, fault);
      if !ok { return; }
    }
    ghost var listed := ListingStep(start, sd, now, counted, false);
    assert db.pending == listed;
    if NonEmpty(sd.email) {
      ok := UpsertProspect(db, sd.email.value, sd.name, sd.phone, now, fault);
      if !ok { return; }
    }
    assert db.pending == ProspectStep(listed, sd, now, counted, false);
    ok := true;
  }

  /**
   * `process_webhook`, from validation to the response: the committed store
   * afterwards and the outcome are those `Process` gives.
   */
  method ProcessWebhook(payload: Value, db: Session, now: Time, fault: Option<Step>) returns (r: Outcome)
    requires db.Valid()
    modifies db
    ensures db.Valid()
    ensures Transition(r, db.committed) == Process(old(db.committed), payload, now, fault)
    ensures r.Failed? ==> db.committed == old(db.committed)
  {
    var v := Validate(payload);
    if v.Err? {
      db.Rollback();
      return Failed(Malformed(v.error));
    }
    r := Deliver(payload, v.value, db, now, fault);
  }

  /** A validated delivery: the event row, the showing part and the commit, or a rollback on the first fault. */
  method Deliver(raw: Value, p: WebhookPayload, db: Session, now: Time, fault: Option<Step>) returns (r: Outcome)
    requires db.Valid() && Validate(raw) == Ok(p)
    modifies db
    ensures db.Valid()
    ensures fault.Some? && Reached(old(db.committed), p, fault.value) ==>
              r == Failed(StoreFailure) && db.committed == old(db.committed)
    ensures !(fault.Some? && Reached(old(db.committed), p, fault.value)) ==>
              Transition(r, db.committed) == Ingest(old(db.committed), raw, p, now)
  {
    ghost var t := db.committed;
    var e := p.event;
    if fault == Some(EventLookup) {
      db.Rollback();
      return Failed(StoreFailure);
    }
    var existing := db.FindEvent(e.id);
    if existing.Some? {
      return Duplicate(e.id);
    }
    db.AddEvent(NewEvent(e, raw, now));
    if fault == Some(EventFlush) {
      db.Rollback();
      return Failed(StoreFailure);
    }
    db.Flush();
    r := FinishDelivery(raw, p, db, now, fault);
  }

  /** The part of `Deliver` after the event row is flushed. */
  method FinishDelivery(raw: Value, p: WebhookPayload, db: Session, now: Time, fault: Option<Step>) returns (r: Outcome)
    requires db.committed.WellFormed() && p.event.id !in db.committed.events
    requires db.flushed == db.pending == WithEvent(db.committed, p.event, raw, now)
    requires fault != Some(EventLookup) && fault != Some(EventFlush)
    modifies db
    ensures db.Valid()
    ensures fault.Some? && Reached(old(db.committed), p, fault.value) ==>
              r == Failed(StoreFailure) && db.committed == old(db.committed)
    ensures !(fault.Some? && Reached(old(db.committed), p, fault.value)) ==>
              Transition(r, db.committed) == Ingest(old(db.committed), raw, p, now)
  {
    ghost var t := db.committed;
    var e := p.event;
    if e.showing.Some? {
      var ok := WriteShowing(db, e.id, e.showing.value, now, fault);
      if !ok {
        db.Rollback();
        return Failed(StoreFailure);
      }
      assert fault.Some? ==> !ShowingReached(t, e.showing.value, fault.value);
    }
    if fault == Some(Commit) {
      db.Rollback();
      return Failed(StoreFailure);
    }
    assert db.pending == Ingest(t, raw, p, now).tables;
    IngestPreservesWellFormed(t, raw, p, now);
    db.Commit();
    r := Success(e.id);
  }

  // ---- Properties of one delivery ----

  lemma ShowingKeepsWellFormed(t: Tables, sd: ShowingData, eventId: string, now: Time)
    requires t.WellFormed() && eventId in t.events
    ensures ApplyShowing(t, sd, eventId, now).WellFormed()
  {
    var r := ApplyShowing(t, sd, eventId, now);
    forall uid | uid in r.showings ensures r.showings[uid].uid == uid && r.showings[uid].eventId in r.events {
      if uid != sd.uid { assert r.showings[uid] == t.showings[uid]; }
    }
  }

  lemma ListingKeepsWellFormed(t: Tables, uid: string, address: string, now: Time, recount: nat, initial: nat)
    requires t.WellFormed() && uid != "" && address != ""
    ensures ApplyListing(t, uid, address, now, recount, initial).WellFormed()
  {
    var r := ApplyListing(t, uid, address, now, recount, initial);
    forall k | k in r.listings ensures r.listings[k].uid == k && k != "" && r.listings[k].fullAddress != "" {
      if k != uid { assert r.listings[k] == t.listings[k]; }
    }
  }

  lemma ProspectKeepsWellFormed(t: Tables, email: string, name: Option<string>, phone: Option<string>,
                                now: Time, recount: nat, initial: nat)
    requires t.WellFormed() && email != ""
    ensures ApplyProspect(t, email, name, phone, now, recount, initial).WellFormed()
  {
    var r := ApplyProspect(t, email, name, phone, now, recount, initial);
    forall k | k in r.prospects ensures r.prospects[k].email == k && k != "" {
      if k != email { assert r.prospects[k] == t.prospects[k]; }
    }
  }

  lemma AggregatesKeepWellFormed(t: Tables, sd: ShowingData, now: Time, counted: map<string, Showing>, countNew: bool)
    requires t.WellFormed()
    ensures Aggregates(t, sd, now, counted, countNew).WellFormed()
  {
    if ListingGate(sd) {
      var uid := sd.listingUid.value;
      var n := CountReferencing(counted, ListingRef(uid));
      ListingKeepsWellFormed(t, uid, sd.listingFullAddress.value, now, n, if countNew then n else 1);
    }
    var withListing := ListingStep(t, sd, now, counted, countNew);
    if NonEmpty(sd.email) {
      var email := sd.email.value;
      var n := CountReferencing(counted, ProspectRef(email));
      ProspectKeepsWellFormed(withListing, email, sd.name, sd.phone, now, n, if countNew then n else 1);
    }
  }

  /** The store's constraints survive every delivery. */
  lemma {:induction false} IngestPreservesWellFormed(t: Tables, raw: Value, p: WebhookPayload, now: Time)
    requires t.WellFormed()
    ensures Ingest(t, raw, p, now).tables.WellFormed()
  {
    var e := p.event;
    if e.id !in t.events {
      var flushed := WithEvent(t, e, raw, now);
      assert flushed.WellFormed();
      if e.showing.Some? {
        var sd := e.showing.value;
        ShowingKeepsWellFormed(flushed, sd, e.id, now);
        AggregatesKeepWellFormed(ApplyShowing(flushed, sd, e.id, now), sd, now, flushed.showings, false);
      }
    }
  }

  /** Whatever the body and whatever the fault, a request leaves a store that meets the constraints in one that still does. */
  lemma ProcessPreservesWellFormed(t: Tables, raw: Value, now: Time, fault: Option<Step>)
    requires t.WellFormed()
    ensures Process(t, raw, now, fault).tables.WellFormed()
  {
    if Validate(raw).Ok? {
      IngestPreservesWellFormed(t, raw, Validate(raw).value, now);
    }
  }

  /** The showing row a delivery leaves behind: the payload's values, this event, `created_at` kept on update. */
  lemma IngestWritesShowing(t: Tables, raw: Value, p: WebhookPayload, now: Time)
    requires p.event.id !in t.events && p.event.showing.Some?
    ensures var sd := p.event.showing.value;
            var r := Ingest(t, raw, p, now).tables;
            && sd.uid in r.showings
            && r.showings == t.showings[sd.uid := r.showings[sd.uid]]
            && Carries(r.showings[sd.uid], sd)
            && r.showings[sd.uid].eventId == p.event.id
            && r.showings[sd.uid].updatedAt == now
            && (sd.uid in t.showings ==> r.showings[sd.uid].createdAt == t.showings[sd.uid].createdAt)
            && (sd.uid !in t.showings ==> r.showings[sd.uid].createdAt == sd.createdAt)
  {
  }

  /**
   * On update, `event_id` always changes, so SQLAlchemy always emits the
   * UPDATE and `updated_at` takes its `onupdate` value.
   */
  lemma UpdateChangesEventId(t: Tables, p: WebhookPayload)
    requires t.WellFormed() && p.event.id !in t.events
    requires p.event.showing.Some? && p.event.showing.value.uid in t.showings
    ensures t.showings[p.event.showing.value.uid].eventId != p.event.id
  {
  }

  /**
   * `_upsert_listing` runs only when the address and uid are both non-empty;
   * an existing listing is recounted over the showings as they stood before
   * the delivery.
   */
  lemma IngestUpsertsListing(t: Tables, raw: Value, p: WebhookPayload, now: Time)
    requires p.event.id !in t.events && p.event.showing.Some?
    ensures var sd := p.event.showing.value;
            var r := Ingest(t, raw, p, now).tables;
            && (!ListingGate(sd) ==> r.listings == t.listings)
            && (ListingGate(sd) ==>
                  var uid := sd.listingUid.value;
                  && uid in r.listings
                  && r.listings == t.listings[uid := r.listings[uid]]
                  && r.listings[uid].lastSeenAt == now
                  && (uid !in t.listings ==> r.listings[uid] == Listing(uid, sd.listingFullAddress.value, now, now, 1))
                  && (uid in t.listings ==>
                        && r.listings[uid].uid == t.listings[uid].uid
                        && r.listings[uid].fullAddress == t.listings[uid].fullAddress
                        && r.listings[uid].firstSeenAt == t.listings[uid].firstSeenAt
                        && r.listings[uid].totalShowings == CountReferencing(t.showings, ListingRef(uid))))
  {
  }

  /**
   * `_upsert_prospect` runs only when the email is non-empty; blank name or
   * phone keep the stored ones, and an existing prospect is recounted over
   * the showings as they stood before the delivery.
   */
  lemma IngestUpsertsProspect(t: Tables, raw: Value, p: WebhookPayload, now: Time)
    requires p.event.id !in t.events && p.event.showing.Some?
    ensures var sd := p.event.showing.value;
            var r := Ingest(t, raw, p, now).tables;
            && (!NonEmpty(sd.email) ==> r.prospects == t.prospects)
            && (NonEmpty(sd.email) ==>
                  var email := sd.email.value;
                  && email in r.prospects
                  && r.prospects == t.prospects[email := r.prospects[email]]
                  && r.prospects[email].lastContactAt == now
                  && (email !in t.prospects ==> r.prospects[email] == Prospect(email, sd.name, sd.phone, now, now, 1))
                  && (email in t.prospects ==>
                        var was := t.prospects[email];
                        && r.prospects[email].email == was.email
                        && r.prospects[email].name == Merge(was.name, sd.name)
                        && r.prospects[email].phone == Merge(was.phone, sd.phone)
                        && r.prospects[email].firstContactAt == was.firstContactAt
                        && r.prospects[email].totalShowings == CountReferencing(t.showings, ProspectRef(email))))
  {
  }

  /** A re-delivery of a processed event is reported as a duplicate and leaves every table as it was. */
  lemma {:induction false} RedeliveryIsDuplicate(t: Tables, raw: Value, now: Time, later: Time, fault: Option<Step>)
    requires Validate(raw).Ok?
    requires fault != Some(EventLookup)
    ensures var first := Process(t, raw, now, None);
            && (first.outcome.Success? || first.outcome.Duplicate?)
            && Process(first.tables, raw, later, fault)
               == Transition(Duplicate(Validate(raw).value.event.id), first.tables)
  {
    var p := Validate(raw).value;
    var first := Ingest(t, raw, p, now);
    assert p.event.id in first.tables.events;
    assert fault.Some? ==> !Reached(first.tables, p, fault.value);
  }

  // ---- The recount as written, and as intended ----

  /**
   * The recount misses the delivery's own showing: the existing listing's
   * total is one short of the rows that reference it afterwards, unless the
   * stored showing already referenced that listing.
   */
  lemma {:induction false} ListingRecountLags(t: Tables, raw: Value, p: WebhookPayload, now: Time)
    requires p.event.id !in t.events && p.event.showing.Some? && ListingGate(p.event.showing.value)
    requires p.event.showing.value.listingUid.value in t.listings
    ensures var sd := p.event.showing.value;
            var ref := ListingRef(sd.listingUid.value);
            var r := Ingest(t, raw, p, now).tables;
            var already := sd.uid in t.showings && References(t.showings[sd.uid], ref);
            r.listings[sd.listingUid.value].totalShowings + (if already then 0 else 1) == CountReferencing(r.showings, ref)
  {
    var sd := p.event.showing.value;
    var r := Ingest(t, raw, p, now).tables;
    IngestUpsertsListing(t, raw, p, now);
    IngestWritesShowing(t, raw, p, now);
    CountAfterPut(t.showings, sd.uid, r.showings[sd.uid], ListingRef(sd.listingUid.value));
  }

  /** The same lag for the prospect counter. */
  lemma {:induction false} ProspectRecountLags(t: Tables, raw: Value, p: WebhookPayload, now: Time)
    requires p.event.id !in t.events && p.event.showing.Some? && NonEmpty(p.event.showing.value.email)
    requires p.event.showing.value.email.value in t.prospects
    ensures var sd := p.event.showing.value;
            var ref := ProspectRef(sd.email.value);
            var r := Ingest(t, raw, p, now).tables;
            var already := sd.uid in t.showings && References(t.showings[sd.uid], ref);
            r.prospects[sd.email.value].totalShowings + (if already then 0 else 1) == CountReferencing(r.showings, ref)
  {
    var sd := p.event.showing.value;
    var r := Ingest(t, raw, p, now).tables;
    IngestUpsertsProspect(t, raw, p, now);
    IngestWritesShowing(t, raw, p, now);
    CountAfterPut(t.showings, sd.uid, r.showings[sd.uid], ProspectRef(sd.email.value));
  }

  /** A showing of listing `lst-1` with prospect `a@x.com`, delivered by event `id`. */
  function SampleDelivery(id: string, showingUid: string): WebhookPayload
  {
    var sd := ShowingData(showingUid, None, None, None, None, None, None, Some("a@x.com"), None,
                          Some("lst-1"), Some("1 Main St"), None, None, None, None);
    WebhookPayload(EventData(id, "showing_created", None, None, None, 0, Some(sd)))
  }

  lemma SingleMatch(m: map<string, Showing>, k: string, r: Ref)
    requires m.Keys == {k} && References(m[k], r)
    ensures CountReferencing(m, r) == 1
  {
    assert Matching(m, r) == {k};
  }

  /**
   * Two distinct showings of `lst-1`, delivered by two events: afterwards two
   * showings reference the listing, and its counter says 1.
   */
  lemma {:induction false} SecondShowingOfListingCountsOne()
    ensures var p1, p2 := SampleDelivery("evt-1", "shw-1"), SampleDelivery("evt-2", "shw-2");
            var t1 := Ingest(EmptyTables, ToJson(p1), p1, 1).tables;
            var t2 := Ingest(t1, ToJson(p2), p2, 2).tables;
            && "lst-1" in t1.listings && t1.listings["lst-1"].totalShowings == 1
            && "lst-1" in t2.listings && t2.listings["lst-1"].totalShowings == 1
            && CountReferencing(t2.showings, ListingRef("lst-1")) == 2
  {
    var p1, p2 := SampleDelivery("evt-1", "shw-1"), SampleDelivery("evt-2", "shw-2");
    var t1 := Ingest(EmptyTables, ToJson(p1), p1, 1).tables;
    IngestWritesShowing(EmptyTables, ToJson(p1), p1, 1);
    IngestUpsertsListing(EmptyTables, ToJson(p1), p1, 1);
    assert t1.showings.Keys == {"shw-1"};
    SingleMatch(t1.showings, "shw-1", ListingRef("lst-1"));
    assert "lst-1" in t1.listings && t1.listings["lst-1"].totalShowings == 1;
    var t2 := Ingest(t1, ToJson(p2), p2, 2).tables;
    IngestUpsertsListing(t1, ToJson(p2), p2, 2);
    assert t2.listings["lst-1"].totalShowings == CountReferencing(t1.showings, ListingRef("lst-1"));
    ListingRecountLags(t1, ToJson(p2), p2, 2);
  }

  /**
   * The evident intent: the showing write is flushed before the recounts,
   * and a new listing or prospect is counted rather than set to 1.
   */
  function IngestRecounted(t: Tables, raw: Value, p: WebhookPayload, now: Time): (r: Transition)
    ensures p.event.id in t.events ==> r == Transition(Duplicate(p.event.id), t)
    ensures p.event.id !in t.events ==>
              && r.outcome == Success(p.event.id)
              && r.tables.events == t.events[p.event.id := NewEvent(p.event, raw, now)]
  {
    var e := p.event;
    if e.id in t.events then Transition(Duplicate(e.id), t)
    else
      var flushed := WithEvent(t, e, raw, now);
      match e.showing
      case None => Transition(Success(e.id), flushed)
      case Some(sd) =>
        var written := ApplyShowing(flushed, sd, e.id, now);
        Transition(Success(e.id), Aggregates(written, sd, now, written.showings, true))
  }

  /** With the intended recount, the touched counters equal the rows that reference them after the delivery. */
  lemma RecountedCountersAreExact(t: Tables, raw: Value, p: WebhookPayload, now: Time)
    requires p.event.id !in t.events && p.event.showing.Some?
    ensures var sd := p.event.showing.value;
            var r := IngestRecounted(t, raw, p, now).tables;
            && (ListingGate(sd) ==>
                  r.listings[sd.listingUid.value].totalShowings
                  == CountReferencing(r.showings, ListingRef(sd.listingUid.value)))
            && (NonEmpty(sd.email) ==>
                  r.prospects[sd.email.value].totalShowings
                  == CountReferencing(r.showings, ProspectRef(sd.email.value)))
  {
  }

  /** The intended recount touches only the listing and the prospect the showing names; every other row keeps its counter. */
  lemma IngestRecountedFrame(t: Tables, raw: Value, p: WebhookPayload, now: Time)
    requires p.event.id !in t.events && p.event.showing.Some?
    ensures var sd := p.event.showing.value;
            var r := IngestRecounted(t, raw, p, now).tables;
            && (!ListingGate(sd) ==> r.listings == t.listings)
            && (ListingGate(sd) ==> r.listings == t.listings[sd.listingUid.value := r.listings[sd.listingUid.value]])
            && (!NonEmpty(sd.email) ==> r.prospects == t.prospects)
            && (NonEmpty(sd.email) ==> r.prospects == t.prospects[sd.email.value := r.prospects[sd.email.value]])
  {
  }

  /** Two listing tables that agree except in their counters. */
  predicate SameListingsButCounts(a: map<string, Listing>, b: map<string, Listing>)
  {
    a.Keys == b.Keys && forall k :: k in a ==> a[k].(totalShowings := 0) == b[k].(totalShowings := 0)
  }

  /** Two prospect tables that agree except in their counters. */
  predicate SameProspectsButCounts(a: map<string, Prospect>, b: map<string, Prospect>)
  {
    a.Keys == b.Keys && forall k :: k in a ==> a[k].(totalShowings := 0) == b[k].(totalShowings := 0)
  }

  lemma ListingStepDiffersOnlyInCounter(t: Tables, sd: ShowingData, now: Time,
                                        c1: map<string, Showing>, n1: bool, c2: map<string, Showing>, n2: bool)
    ensures SameListingsButCounts(ListingStep(t, sd, now, c1, n1).listings, ListingStep(t, sd, now, c2, n2).listings)
  {
    if ListingGate(sd) {
      var a, b := ListingStep(t, sd, now, c1, n1).listings, ListingStep(t, sd, now, c2, n2).listings;
      var uid := sd.listingUid.value;
      assert a.Keys == b.Keys == t.listings.Keys + {uid};
      forall k | k in a ensures a[k].(totalShowings := 0) == b[k].(totalShowings := 0) {
        if k != uid {
          assert a[k] == t.listings[k] == b[k];
        }
      }
    }
  }

  lemma ProspectStepDiffersOnlyInCounter(t1: Tables, t2: Tables, sd: ShowingData, now: Time,
                                         c1: map<string, Showing>, n1: bool, c2: map<string, Showing>, n2: bool)
    requires t1.prospects == t2.prospects
    ensures SameProspectsButCounts(ProspectStep(t1, sd, now, c1, n1).prospects, ProspectStep(t2, sd, now, c2, n2).prospects)
  {
    if NonEmpty(sd.email) {
      var a, b := ProspectStep(t1, sd, now, c1, n1).prospects, ProspectStep(t2, sd, now, c2, n2).prospects;
      var email := sd.email.value;
      assert a.Keys == b.Keys == t1.prospects.Keys + {email};
      forall k | k in a ensures a[k].(totalShowings := 0) == b[k].(totalShowings := 0) {
        if k != email {
          assert a[k] == t1.prospects[k] == b[k];
        }
      }
    }
  }

  lemma AggregatesDifferOnlyInCounters(t: Tables, sd: ShowingData, now: Time,
                                       c1: map<string, Showing>, n1: bool, c2: map<string, Showing>, n2: bool)
    ensures var a, b := Aggregates(t, sd, now, c1, n1), Aggregates(t, sd, now, c2, n2);
            && a.events == b.events && a.showings == b.showings
            && SameListingsButCounts(a.listings, b.listings)
            && SameProspectsButCounts(a.prospects, b.prospects)
  {
    var l1, l2 := ListingStep(t, sd, now, c1, n1), ListingStep(t, sd, now, c2, n2);
    ListingStepDiffersOnlyInCounter(t, sd, now, c1, n1, c2, n2);
    ProspectStepDiffersOnlyInCounter(l1, l2, sd, now, c1, n1, c2, n2);
  }

  /** The intended recount changes nothing but the counters. */
  lemma RecountedDiffersOnlyInCounters(t: Tables, raw: Value, p: WebhookPayload, now: Time)
    ensures var a, b := Ingest(t, raw, p, now), IngestRecounted(t, raw, p, now);
            && a.outcome == b.outcome
            && a.tables.events == b.tables.events
            && a.tables.showings == b.tables.showings
            && SameListingsButCounts(a.tables.listings, b.tables.listings)
            && SameProspectsButCounts(a.tables.prospects, b.tables.prospects)
  {
    if p.event.id !in t.events && p.event.showing.Some? {
      var sd := p.event.showing.value;
      var flushed := WithEvent(t, p.event, raw, now);
      var written := ApplyShowing(flushed, sd, p.event.id, now);
      AggregatesDifferOnlyInCounters(written, sd, now, flushed.showings, false, written.showings, true);
    }
  }
}

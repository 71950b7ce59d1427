/**
 * The four tables of src/database.py, keyed by their unique columns, and the
 * SQLAlchemy session the webhook service works through.  Surrogate integer
 * primary keys are not modelled: every lookup the core makes is by the
 * unique column.
 */
module Database {

  import opened Wrappers
  import opened Json

  /** A row of `events`; `event_id` is unique and every column but the metadata is non-null. */
  datatype Event = Event(
    eventId: string,
    action: string,
    actor: Option<string>,
    teamMemberName: Option<string>,
    teamMemberUid: Option<string>,
    createdAt: Time,
    receivedAt: Time,
    rawPayload: Value)

  /** A row of `showings`; `uid` is unique and `event_id` references `events.event_id`. */
  datatype Showing = Showing(
    uid: string,
    eventId: string,
    createdAt: Option<Time>,
    showtime: Option<Time>,
    showingTimeZone: Option<string>,
    showingTimeZoneUtcOffset: Option<int>,
    name: Option<string>,
    phone: Option<string>,
    email: Option<string>,
    notes: Option<string>,
    listingUid: Option<string>,
    listingFullAddress: Option<string>,
    isSelfShow: Option<bool>,
    confirmedAt: Option<Time>,
    canceledAt: Option<Time>,
    selfShowCodeDistributedAt: Option<Time>,
    updatedAt: Time)

  /** A row of `listings`; `uid` is unique and `full_address` is non-null. */
  datatype Listing = Listing(
    uid: string,
    fullAddress: string,
    firstSeenAt: Time,
    lastSeenAt: Time,
    totalShowings: nat)

  /** A row of `prospects`; `email` is unique and non-null. */
  datatype Prospect = Prospect(
    email: string,
    name: Option<string>,
    phone: Option<string>,
    firstContactAt: Time,
    lastContactAt: Time,
    totalShowings: nat)

  /** The whole store: each table as a map from its unique key to its row. */
  datatype Tables = Tables(
    events: map<string, Event>,
    showings: map<string, Showing>,
    listings: map<string, Listing>,
    prospects: map<string, Prospect>)
  {
    /**
     * The constraints the schema declares, plus the non-emptiness of the
     * aggregate keys and of the listing address, which the service only ever
     * writes when they are non-empty.
     */
    predicate WellFormed()
    {
      && (forall id :: id in events ==> events[id].eventId == id)
      && (forall uid :: uid in showings ==> showings[uid].uid == uid && showings[uid].eventId in events)
      && (forall uid :: uid in listings ==> listings[uid].uid == uid && uid != "" && listings[uid].fullAddress != "")
      && (forall e :: e in prospects ==> prospects[e].email == e && e != "")
    }
  }

  const EmptyTables := Tables(map[], map[], map[], map[])

  /** The store `create_all` starts from meets every constraint. */
  lemma EmptyTablesWellFormed()
    ensures EmptyTables.WellFormed()
  {
  }

  /** The column a derived aggregate is recounted on. */
  datatype Ref = ListingRef(uid: string) | ProspectRef(email: string)

  /** `Showing.listing_uid == uid` or `Showing.email == email`; a NULL column matches nothing. */
  predicate References(s: Showing, r: Ref)
  {
    match r
    case ListingRef(uid) => s.listingUid == Some(uid)
    case ProspectRef(email) => s.email == Some(email)
  }

  /** The keys of the showings that match `r`. */
  function Matching(showings: map<string, Showing>, r: Ref): set<string>
  {
    set k | k in showings && References(showings[k], r)
  }

  /** `SELECT count(*) FROM showings WHERE <r>`. */
  function CountReferencing(showings: map<string, Showing>, r: Ref): nat
  {
    |Matching(showings, r)|
  }

  /** The count never exceeds the table, and it is 0 exactly when no row references `r`. */
  lemma CountReferencingBounds(showings: map<string, Showing>, r: Ref)
    ensures CountReferencing(showings, r) <= |showings|
    ensures CountReferencing(showings, r) == 0 <==> forall k :: k in showings ==> !References(showings[k], r)
  {
    assert Matching(showings, r) <= showings.Keys;
    SubsetCardinality(Matching(showings, r), showings.Keys);
    assert |showings.Keys| == |showings|;
    if CountReferencing(showings, r) != 0 {
      var k :| k in Matching(showings, r);
      assert k in showings && References(showings[k], r);
    }
    forall k | k in showings && References(showings[k], r)
      ensures CountReferencing(showings, r) != 0
    {
      assert k in Matching(showings, r);
    }
  }

  lemma MatchingAfterPut(m: map<string, Showing>, k: string, v: Showing, r: Ref)
    ensures Matching(m[k := v], r) - {k} == Matching(m, r) - {k}
    ensures k in Matching(m[k := v], r) <==> References(v, r)
    ensures k in Matching(m, r) <==> k in m && References(m[k], r)
  {
    var m' := m[k := v];
    forall j | j != k ensures j in Matching(m', r) <==> j in Matching(m, r) {
      assert j in m' <==> j in m;
      if j in m { assert m'[j] == m[j]; }
    }
  }

  lemma {:induction false} SubsetCardinality(a: set<string>, b: set<string>)
    requires a <= b
    ensures |a| <= |b|
    decreases |b|
  {
    if b != {} {
      var k :| k in b;
      SizeWithout(a, k);
      SizeWithout(b, k);
      SubsetCardinality(a - {k}, b - {k});
    }
  }

  lemma SizeWithout(s: set<string>, k: string)
    ensures |s| == |s - {k}| + (if k in s then 1 else 0)
  {
    if k in s {
      assert s == (s - {k}) + {k};
    } else {
      assert s == s - {k};
    }
  }

  /** Writing one row changes a count by what the old row contributed and what the new row contributes. */
  lemma CountAfterPut(m: map<string, Showing>, k: string, v: Showing, r: Ref)
    ensures CountReferencing(m[k := v], r) + (if k in m && References(m[k], r) then 1 else 0)
         == CountReferencing(m, r) + (if References(v, r) then 1 else 0)
  {
    MatchingAfterPut(m, k, v, r);
    SizeWithout(Matching(m[k := v], r), k);
    SizeWithout(Matching(m, r), k);
  }

  /**
   * A session opened with `autoflush=False` (src/database.py:22).  A query is
   * SQL run against the database as this transaction sees it, which holds
   * what was committed plus what has been flushed; objects added or changed
   * in the session since the last flush are invisible to it until the next
   * flush or the commit.
   */
  class Session {
    /** The database as of the last commit: what a rollback returns to. */
    var committed: Tables
    /** What SQL inside this transaction sees. */
    var flushed: Tables
    /** The unit of work: `flushed` plus every row added or assigned since. */
    var pending: Tables

    /** Between requests there is no open work and the stored tables keep their constraints. */
    ghost predicate Valid()
      reads this
    {
      committed.WellFormed() && flushed == committed && pending == committed
    }

    constructor (t: Tables)
      requires t.WellFormed()
      ensures Valid() && committed == t
    {
      committed, flushed, pending := t, t, t;
    }

    method FindEvent(id: string) returns (e: Option<Event>)
      ensures e.Some? <==> id in flushed.events
      ensures e.Some? ==> e.value == flushed.events[id]
    {
      e := if id in flushed.events then Some(flushed.events[id]) else None;
    }

    method FindShowing(uid: string) returns (s: Option<Showing>)
      ensures s.Some? <==> uid in flushed.showings
      ensures s.Some? ==> s.value == flushed.showings[uid]
    {
      s := if uid in flushed.showings then Some(flushed.showings[uid]) else None;
    }

    method FindListing(uid: string) returns (l: Option<Listing>)
      ensures l.Some? <==> uid in flushed.listings
      ensures l.Some? ==> l.value == flushed.listings[uid]
    {
      l := if uid in flushed.listings then Some(flushed.listings[uid]) else None;
    }

    method FindProspect(email: string) returns (p: Option<Prospect>)
      ensures p.Some? <==> email in flushed.prospects
      ensures p.Some? ==> p.value == flushed.prospects[email]
    {
      p := if email in flushed.prospects then Some(flushed.prospects[email]) else None;
    }

    /** `query(func.count(Showing.id)).filter(...)`: counts flushed rows only. */
    method CountShowings(r: Ref) returns (n: nat)
      ensures n == CountReferencing(flushed.showings, r)
    {
      n := CountReferencing(flushed.showings, r);
    }

    method AddEvent(e: Event)
      modifies this
      ensures pending == old(pending).(events := old(pending).events[e.eventId := e])
      ensures flushed == old(flushed) && committed == old(committed)
    {
      pending := pending.(events := pending.events[e.eventId := e]);
    }

    /** `db.add` of a new showing, or assignments to the loaded one: either way a pending change. */
    method PutShowing(s: Showing)
      modifies this
      ensures pending == old(pending).(showings := old(pending).showings[s.uid := s])
      ensures flushed == old(flushed) && committed == old(committed)
    {
      pending := pending.(showings := pending.showings[s.uid := s]);
    }

    method PutListing(l: Listing)
      modifies this
      ensures pending == old(pending).(listings := old(pending).listings[l.uid := l])
      ensures flushed == old(flushed) && committed == old(committed)
    {
      pending := pending.(listings := pending.listings[l.uid := l]);
    }

    method PutProspect(p: Prospect)
      modifies this
      ensures pending == old(pending).(prospects := old(pending).prospects[p.email := p])
      ensures flushed == old(flushed) && committed == old(committed)
    {
      pending := pending.(prospects := pending.prospects[p.email := p]);
    }

    /** `db.flush()`: pending changes become visible to later queries, not yet committed. */
    method Flush()
      modifies this
      ensures flushed == old(pending) && pending == old(pending) && committed == old(committed)
    {
      flushed := pending;
    }

    method Commit()
      modifies this
      ensures committed == old(pending) && flushed == old(pending) && pending == old(pending)
    {
      flushed := pending;
      committed := pending;
    }

    /** `db.rollback()`: everything since the last commit, flushed or not, is discarded. */
    method Rollback()
      modifies this
      ensures committed == old(committed) && flushed == old(committed) && pending == old(committed)
    {
      flushed := committed;
      pending := committed;
    }
  }
}

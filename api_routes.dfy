/**
 * The read side of the store (src/api_routes.py): the showing filters, the
 * page window and total of `GET /api/v1/showings`, the upcoming-showings
 * window, and the per-listing and per-prospect showing lists.  Each query
 * takes the showings table already in the order its `ORDER BY` gives; the
 * filters are predicates on a row, the paging is slicing.  A query parameter
 * outside the range its `Query(...)` declares is refused (422).
 */
module ApiRoutes {

  import opened Wrappers
  import opened Json
  import opened Database
  import opened WebhookService

  // ---- Showing status ----

  predicate IsConfirmed(s: Showing)
  {
    s.confirmedAt.Some? && s.canceledAt.None?
  }

  predicate IsCanceled(s: Showing)
  {
    s.canceledAt.Some?
  }

  predicate IsPending(s: Showing)
  {
    s.confirmedAt.None? && s.canceledAt.None?
  }

  /** Every showing is in exactly one of the three status categories. */
  lemma StatusPartition(s: Showing)
    ensures IsConfirmed(s) || IsCanceled(s) || IsPending(s)
    ensures !(IsConfirmed(s) && IsCanceled(s)) && !(IsConfirmed(s) && IsPending(s)) && !(IsCanceled(s) && IsPending(s))
  {
  }

  datatype Status = Confirmed | Canceled | Pending

  /** `status_filter`: an empty or unrecognised value applies no status filter. */
  function ParseStatusFilter(v: Option<string>): (r: Option<Status>)
    ensures r == Some(Confirmed) <==> v == Some("confirmed")
    ensures r == Some(Canceled) <==> v == Some("canceled")
    ensures r == Some(Pending) <==> v == Some("pending")
  {
    if v == Some("confirmed") then Some(Confirmed)
    else if v == Some("canceled") then Some(Canceled)
    else if v == Some("pending") then Some(Pending)
    else None
  }

  predicate HasStatus(s: Showing, st: Status)
  {
    match st
    case Confirmed => IsConfirmed(s)
    case Canceled => IsCanceled(s)
    case Pending => IsPending(s)
  }

  // ---- Filters ----

  /**
   * The filter parameters of `get_showings`.  A string parameter filters
   * only when non-empty, a date or boolean one whenever given.
   */
  datatype ShowingQuery = ShowingQuery(
    listingUid: Option<string>,
    email: Option<string>,
    startDate: Option<Time>,
    endDate: Option<Time>,
    isSelfShow: Option<bool>,
    statusFilter: Option<string>)

  /** A SQL comparison with a NULL column is not true. */
  predicate AtOrAfter(t: Option<Time>, bound: Time)
  {
    t.Some? && t.value >= bound
  }

  predicate AtOrBefore(t: Option<Time>, bound: Time)
  {
    t.Some? && t.value <= bound
  }

  predicate MatchesQuery(q: ShowingQuery, s: Showing)
  {
    && (NonEmpty(q.listingUid) ==> References(s, ListingRef(q.listingUid.value)))
    && (NonEmpty(q.email) ==> References(s, ProspectRef(q.email.value)))
    && (q.startDate.Some? ==> AtOrAfter(s.showtime, q.startDate.value))
    && (q.endDate.Some? ==> AtOrBefore(s.showtime, q.endDate.value))
    && (q.isSelfShow.Some? ==> s.isSelfShow == q.isSelfShow)
    && (ParseStatusFilter(q.statusFilter).Some? ==> HasStatus(s, ParseStatusFilter(q.statusFilter).value))
  }

  /** A query whose string filters are absent or blank, with no date, self-show or recognised status filter. */
  predicate Unfiltered(q: ShowingQuery)
  {
    && !NonEmpty(q.listingUid) && !NonEmpty(q.email)
    && q.startDate.None? && q.endDate.None? && q.isSelfShow.None?
    && ParseStatusFilter(q.statusFilter).None?
  }

  /** Each active filter narrows the result; with none active every row matches. */
  lemma MatchesQueryFilters(q: ShowingQuery, s: Showing)
    ensures Unfiltered(q) ==> MatchesQuery(q, s)
    ensures MatchesQuery(q, s) && NonEmpty(q.listingUid) ==> s.listingUid == q.listingUid
    ensures MatchesQuery(q, s) && NonEmpty(q.email) ==> s.email == q.email
    ensures MatchesQuery(q, s) && q.startDate.Some? ==> s.showtime.Some? && s.showtime.value >= q.startDate.value
    ensures MatchesQuery(q, s) && q.endDate.Some? ==> s.showtime.Some? && s.showtime.value <= q.endDate.value
    ensures MatchesQuery(q, s) && q.isSelfShow.Some? ==> s.isSelfShow == q.isSelfShow
    ensures MatchesQuery(q, s) && q.statusFilter == Some("confirmed") ==> IsConfirmed(s)
    ensures MatchesQuery(q, s) && q.statusFilter == Some("canceled") ==> IsCanceled(s)
    ensures MatchesQuery(q, s) && q.statusFilter == Some("pending") ==> IsPending(s)
  {
  }

  /** The row filters of the showing endpoints. */
  datatype Criterion =
    | ByQuery(q: ShowingQuery)
    | ByRef(r: Ref)
    | UpcomingBetween(from: Time, until: Time)

  predicate Holds(c: Criterion, s: Showing)
  {
    match c
    case ByQuery(q) => MatchesQuery(q, s)
    case ByRef(r) => References(s, r)
    case UpcomingBetween(from, until) => AtOrAfter(s.showtime, from) && AtOrBefore(s.showtime, until) && s.canceledAt.None?
  }

  /** The rows of `xs` that satisfy `c`, in their order. */
  function Select(xs: seq<Showing>, c: Criterion): (r: seq<Showing>)
    ensures |r| <= |xs|
    ensures forall x :: x in r <==> x in xs && Holds(c, x)
  {
    if xs == [] then []
    else if Holds(c, xs[0]) then [xs[0]] + Select(xs[1..], c)
    else Select(xs[1..], c)
  }

  /** With no active filter, `get_showings` lists the whole table. */
  lemma {:induction false} UnfilteredSelectsAll(xs: seq<Showing>, q: ShowingQuery)
    requires Unfiltered(q)
    ensures Select(xs, ByQuery(q)) == xs
  {
    if xs != [] {
      MatchesQueryFilters(q, xs[0]);
      UnfilteredSelectsAll(xs[1..], q);
      assert [xs[0]] + xs[1..] == xs;
    }
  }

  /** Filtering keeps order: it distributes over concatenation. */
  lemma {:induction false} SelectAppend(a: seq<Showing>, b: seq<Showing>, c: Criterion)
    ensures Select(a + b, c) == Select(a, c) + Select(b, c)
  {
    if a == [] {
      assert a + b == b;
    } else {
      assert (a + b)[0] == a[0];
      assert (a + b)[1..] == a[1..] + b;
      SelectAppend(a[1..], b, c);
    }
  }

  /** Filtering twice by the same criterion changes nothing more. */
  lemma {:induction false} SelectIdempotent(xs: seq<Showing>, c: Criterion)
    ensures Select(Select(xs, c), c) == Select(xs, c)
  {
    if xs != [] {
      SelectIdempotent(xs[1..], c);
      if Holds(c, xs[0]) {
        var r := Select(xs, c);
        assert r[0] == xs[0] && r[1..] == Select(xs[1..], c);
      }
    }
  }

  // ---- Paging ----

  function Min(a: int, b: int): int
  {
    if a <= b then a else b
  }

  /** `OFFSET offset LIMIT limit`: past the end the window is empty. */
  function Window<T>(xs: seq<T>, offset: nat, limit: nat): (r: seq<T>)
    ensures |r| == if offset >= |xs| then 0 else Min(limit, |xs| - offset)
    ensures forall i :: 0 <= i < |r| ==> r[i] == xs[offset + i]
    ensures forall x :: x in r ==> x in xs
  {
    if offset >= |xs| then [] else xs[offset..offset + Min(limit, |xs| - offset)]
  }

  /** `LIMIT limit`. */
  function Take<T>(xs: seq<T>, limit: nat): (r: seq<T>)
    ensures |r| == Min(limit, |xs|)
    ensures forall i :: 0 <= i < |r| ==> r[i] == xs[i]
    ensures forall x :: x in r ==> x in xs
  {
    Window(xs, 0, limit)
  }

  /** Two adjacent windows make one. */
  lemma WindowsAdjoin<T>(xs: seq<T>, offset: nat, n: nat, m: nat)
    ensures Window(xs, offset, n) + Window(xs, offset + n, m) == Window(xs, offset, n + m)
  {
  }

  /** The window of `size` rows at offset `k * size` holds row `k * size + j` at position `j`. */
  lemma RowInWindow<T>(xs: seq<T>, k: nat, j: nat, size: nat)
    requires j < size && k * size + j < |xs|
    ensures var w := Window(xs, k * size, size);
            j < |w| && w[j] == xs[k * size + j]
  {
  }

  /** The row at position `i` of the ordered result is on page `i / size + 1`, at position `i % size`. */
  lemma PageOfRow<T>(xs: seq<T>, i: nat, size: nat)
    requires i < |xs| && 1 <= size
    ensures var w := Window(xs, (i / size) * size, size);
            i % size < |w| && w[i % size] == xs[i]
  {
    var k, j := i / size, i % size;
    assert k * size + j == i && 0 <= j < size;
    RowInWindow(xs, k, j, size);
  }

  // ---- Endpoints ----

  datatype QueryError = Unprocessable

  datatype PaginatedResponse = PaginatedResponse(total: nat, page: nat, pageSize: nat, items: seq<Showing>)

  /**
   * `get_showings`: the count of the filtered rows and the requested page of
   * them; `page >= 1` and `1 <= page_size <= 100`.
   */
  function GetShowings(ordered: seq<Showing>, q: ShowingQuery, page: int, pageSize: int): (r: Result<PaginatedResponse, QueryError>)
    ensures r.Err? <==> !(1 <= page && 1 <= pageSize <= 100)
    ensures r.Ok? ==>
              && r.value.total == |Select(ordered, ByQuery(q))|
              && r.value.page == page && r.value.pageSize == pageSize
              && |r.value.items| <= pageSize
              && (forall x :: x in r.value.items ==> x in ordered && MatchesQuery(q, x))
              && r.value.items == Window(Select(ordered, ByQuery(q)), (page - 1) * pageSize, pageSize)
  {
    if !(1 <= page && 1 <= pageSize <= 100) then Err(Unprocessable)
    else
      var matching := Select(ordered, ByQuery(q));
      Ok(PaginatedResponse(|matching|, page, pageSize, Window(matching, (page - 1) * pageSize, pageSize)))
  }

  /** Paging loses no row: every matching row is on exactly the page its position names. */
  lemma EveryMatchIsPaged(ordered: seq<Showing>, q: ShowingQuery, pageSize: int, i: nat)
    requires 1 <= pageSize <= 100 && i < |Select(ordered, ByQuery(q))|
    ensures var r := GetShowings(ordered, q, i / pageSize + 1, pageSize);
            r.Ok? && i % pageSize < |r.value.items| && r.value.items[i % pageSize] == Select(ordered, ByQuery(q))[i]
  {
    var sel := Select(ordered, ByQuery(q));
    var k := i / pageSize;
    assert k >= 0;
    var page := k + 1;
    PageOfRow(sel, i, pageSize);
    assert (page - 1) * pageSize == k * pageSize;
  }

  const SecondsPerDay: int := 86400

  /**
   * `get_upcoming_showings`: non-canceled rows with `now <= showtime <=
   * now + days`, at most `limit` of them; `1 <= days <= 90` and
   * `1 <= limit <= 500`.
   */
  function GetUpcomingShowings(ordered: seq<Showing>, now: Time, days: int, limit: int): (r: Result<seq<Showing>, QueryError>)
    ensures r.Err? <==> !(1 <= days <= 90 && 1 <= limit <= 500)
    ensures r.Ok? ==>
              && |r.value| <= limit
              && (forall x :: x in r.value ==>
                    && x in ordered && x.canceledAt.None?
                    && AtOrAfter(x.showtime, now) && AtOrBefore(x.showtime, now + days * SecondsPerDay))
    ensures r.Ok? ==>
              var qualifying := Select(ordered, UpcomingBetween(now, now + days * SecondsPerDay));
              && |r.value| == Min(limit, |qualifying|)
              && forall i :: 0 <= i < |r.value| ==> r.value[i] == qualifying[i]
  {
    if !(1 <= days <= 90 && 1 <= limit <= 500) then Err(Unprocessable)
    else Ok(Take(Select(ordered, UpcomingBetween(now, now + days * SecondsPerDay)), limit))
  }

  /** Below the limit, no upcoming row is dropped. */
  lemma UpcomingCompleteBelowLimit(ordered: seq<Showing>, now: Time, days: int, limit: int, x: Showing)
    requires 1 <= days <= 90 && 1 <= limit <= 500
    requires |Select(ordered, UpcomingBetween(now, now + days * SecondsPerDay))| <= limit
    requires x in ordered && x.canceledAt.None?
    requires AtOrAfter(x.showtime, now) && AtOrBefore(x.showtime, now + days * SecondsPerDay)
    ensures x in GetUpcomingShowings(ordered, now, days, limit).value
  {
    var sel := Select(ordered, UpcomingBetween(now, now + days * SecondsPerDay));
    assert Take(sel, limit) == sel;
  }

  /** `get_listing_showings` and `get_prospect_showings`: the rows with that column, at most `limit`; `1 <= limit <= 500`. */
  function GetShowingsOf(ordered: seq<Showing>, r: Ref, limit: int): (res: Result<seq<Showing>, QueryError>)
    ensures res.Err? <==> !(1 <= limit <= 500)
    ensures res.Ok? ==> |res.value| <= limit && forall x :: x in res.value ==> x in ordered && References(x, r)
    ensures res.Ok? ==>
              && |res.value| == Min(limit, |Select(ordered, ByRef(r))|)
              && forall i :: 0 <= i < |res.value| ==> res.value[i] == Select(ordered, ByRef(r))[i]
  {
    if !(1 <= limit <= 500) then Err(Unprocessable)
    else Ok(Take(Select(ordered, ByRef(r)), limit))
  }

  // ---- The lists and the counters agree on what belongs to a listing or prospect ----

  function Uids(xs: seq<Showing>): set<string>
  {
    if xs == [] then {} else {xs[0].uid} + Uids(xs[1..])
  }

  predicate DistinctUids(xs: seq<Showing>)
  {
    forall i, j :: 0 <= i < j < |xs| ==> xs[i].uid != xs[j].uid
  }

  /** `xs` lists the rows of the table `m`, each once. */
  predicate Enumerates(xs: seq<Showing>, m: map<string, Showing>)
  {
    && DistinctUids(xs)
    && (forall i :: 0 <= i < |xs| ==> xs[i].uid in m && m[xs[i].uid] == xs[i])
    && Uids(xs) == m.Keys
  }

  lemma {:induction false} UidsHasIndex(xs: seq<Showing>, u: string)
    ensures u in Uids(xs) <==> exists i :: 0 <= i < |xs| && xs[i].uid == u
  {
    if xs != [] {
      UidsHasIndex(xs[1..], u);
      if u in Uids(xs[1..]) {
        var i :| 0 <= i < |xs[1..]| && xs[1..][i].uid == u;
        assert xs[i + 1].uid == u;
      }
      forall i | 0 < i < |xs| && xs[i].uid == u
        ensures u in Uids(xs[1..])
      {
        assert xs[1..][i - 1].uid == u;
      }
    }
  }

  lemma {:induction false} DistinctUidsCount(xs: seq<Showing>)
    requires DistinctUids(xs)
    ensures |Uids(xs)| == |xs|
  {
    if xs != [] {
      assert DistinctUids(xs[1..]) by {
        forall i, j | 0 <= i < j < |xs[1..]| ensures xs[1..][i].uid != xs[1..][j].uid {
          assert xs[1..][i] == xs[i + 1] && xs[1..][j] == xs[j + 1];
        }
      }
      DistinctUidsCount(xs[1..]);
      UidsHasIndex(xs[1..], xs[0].uid);
    }
  }

  /** The uids of the selected rows are those of the rows of `m` that satisfy `ByRef(r)`. */
  lemma {:induction false} SelectUids(xs: seq<Showing>, m: map<string, Showing>, r: Ref)
    requires forall i :: 0 <= i < |xs| ==> xs[i].uid in m && m[xs[i].uid] == xs[i]
    ensures Uids(Select(xs, ByRef(r))) == set u | u in Uids(xs) && u in m && References(m[u], r)
  {
    if xs != [] {
      assert forall i :: 0 <= i < |xs[1..]| ==> xs[1..][i] == xs[i + 1];
      SelectUids(xs[1..], m, r);
      if References(xs[0], r) {
        assert Select(xs, ByRef(r)) == [xs[0]] + Select(xs[1..], ByRef(r));
        assert Select(xs, ByRef(r))[1..] == Select(xs[1..], ByRef(r));
      }
    }
  }

  lemma {:induction false} SelectKeepsDistinct(xs: seq<Showing>, c: Criterion)
    requires DistinctUids(xs)
    ensures DistinctUids(Select(xs, c))
  {
    if xs != [] {
      assert DistinctUids(xs[1..]) by {
        forall i, j | 0 <= i < j < |xs[1..]| ensures xs[1..][i].uid != xs[1..][j].uid {
          assert xs[1..][i] == xs[i + 1] && xs[1..][j] == xs[j + 1];
        }
      }
      SelectKeepsDistinct(xs[1..], c);
      var rest := Select(xs[1..], c);
      if Holds(c, xs[0]) {
        forall j | 0 <= j < |rest| ensures rest[j].uid != xs[0].uid {
          assert rest[j] in xs[1..];
          var k :| 0 <= k < |xs[1..]| && xs[1..][k] == rest[j];
          assert xs[k + 1] == rest[j];
        }
        var r := Select(xs, c);
        assert r == [xs[0]] + rest;
        forall i, j | 0 <= i < j < |r| ensures r[i].uid != r[j].uid {
          if i == 0 {
            assert r[j] == rest[j - 1];
          } else {
            assert r[i] == rest[i - 1] && r[j] == rest[j - 1];
          }
        }
      }
    }
  }

  /**
   * Over a listing of the whole table, the showings a listing or prospect
   * page shows (before its limit) are as many as its recount counts: both
   * use the same equality on `listing_uid` or `email`.
   */
  lemma ListsAgreeWithRecount(xs: seq<Showing>, m: map<string, Showing>, r: Ref)
    requires Enumerates(xs, m)
    ensures |Select(xs, ByRef(r))| == CountReferencing(m, r)
  {
    SelectUids(xs, m, r);
    SelectKeepsDistinct(xs, ByRef(r));
    DistinctUidsCount(Select(xs, ByRef(r)));
    assert Uids(Select(xs, ByRef(r))) == Matching(m, r);
  }

  /**
   * Over a listing of the whole table, the listing or prospect page holds
   * as many rows as the recount counts, up to its limit.
   */
  lemma ShowingsOfMatchRecount(xs: seq<Showing>, m: map<string, Showing>, r: Ref, limit: int)
    requires Enumerates(xs, m) && 1 <= limit <= 500
    ensures GetShowingsOf(xs, r, limit).Ok?
    ensures |GetShowingsOf(xs, r, limit).value| == Min(limit, CountReferencing(m, r))
  {
    ListsAgreeWithRecount(xs, m, r);
  }
}

# ShowMojo webhook ingestion, modelled in Dafny

ShowMojo posts lead and showing events to `POST /webhook`. The service first
checks the bearer token. It then validates the JSON body against the payload
schema and stores the delivery in one database transaction:

- one `events` row per external event id, which makes deliveries idempotent;
- an insert or a full replace of the `showings` row keyed by the showing's `uid`;
- an insert, or an update with a recount, of the `listings` row and the `prospects` row the showing names.

A read API lists showings with filters and paging.

The model is split into seven modules:

- `Wrappers`: the `Option` and `Result` types.
- `Json`: the decoded request body.
- `Schemas`: the pydantic payload schema, the validator `Validate`, and its inverse `ToJson`.
- `Database`: the tables keyed by their unique columns, their constraints (`Tables.WellFormed`), and the SQLAlchemy session. The session is the class `Database.Session`, with committed, flushed and pending states.
- `WebhookService`: the delivery as state-changing methods over the session (`ProcessWebhook`, `Deliver`, `WriteShowing`, `WriteAggregates`, `UpsertListing`, `UpsertProspect`). Each method is proved against a function on the tables (`Process`, `Ingest`, `Aggregates`, `ApplyListing`, `ApplyProspect`), and the properties of the delivery are lemmas about those functions.
- `App`: `verify_bearer_token`, the mapping from outcome to HTTP reply, and `receive_webhook`.
- `ApiRoutes`: the showing filters, status categories, paging window and count of the read API.

The session follows the settings in src/database.py:22. There is no autoflush, so a query sees only what has been committed or explicitly flushed. The service flushes only the new event row before its recount queries. So each counter written during a delivery is the count over the showings table as it stood before that delivery. A newly created listing or prospect always starts at 1. The model states both facts as they are written in the code. `## Findings` records the consequence, and `WebhookService.IngestRecounted` is the evidently intended variant.

Points where the code differs from what its docstrings and its tests suggest, and the model follows the code:

- A payload that fails validation ends in a 500, not a client error. `process_webhook` re-raises the validation error, and `receive_webhook` turns any non-HTTP exception into a 500.
- `id`, `action` and `uid` may be empty strings, because the schema declares them as plain `str`.
- Updating an existing showing overwrites `showtime` and every other payload field, absent values included, but keeps `created_at`.
- `updated_at` of a replaced showing is always the delivery time. The row's `event_id` always changes, because a new event can never already be referenced, so the UPDATE always runs (`WebhookService.UpdateChangesEventId`).

## Model

| member | source | states |
|---|---|---|
| Schemas.ValidateShowing | src/schemas.py:10-26 | Of the showing's fields only `uid` can be reported missing, and every failure is reported at one of its fifteen declared keys. |
| Schemas.ValidateEvent | src/schemas.py:29-37 | Of the event's fields only `id`, `action`, `created_at` and the showing's `uid` can be reported missing. |
| Schemas.Validate | src/schemas.py:40-42 | A body that is not an object is the only "not an object" failure, and a missing field is reported only at `event` or at one of the required fields. |
| Schemas.ShowingAccepted | src/schemas.py:10-26 | A sub-record validates to the showing `s` exactly when `uid` is the string `s.uid` and every optional key holds `s`'s value with its declared kind; a key whose value in `s` is absent may hold null or be left out. |
| Schemas.EventAccepted | src/schemas.py:29-37 | An object validates to the event `e` exactly when `id`, `action` and `created_at` hold `e`'s values, each optional key holds `e`'s value or, where that is absent, is null or left out, and `showing` is a JSON form of `e`'s showing. |
| Schemas.ValidateAccepts | src/schemas.py:10-42 | A body validates to the payload `p` exactly when it is an object whose `event` is a JSON form of `p`'s event; every other body is rejected. |
| Schemas.ValidateToJson | src/schemas.py:10-42 | Validating the JSON form of any payload returns that payload: every declared field is read back, and absent optional fields come back as absent. Empty `id`, `action` and `uid` are accepted. |
| Schemas.OmittedShowingFieldsAreNone | src/schemas.py:13-26 | In an accepted showing, every optional field whose key was left out is absent. |
| Schemas.OmittedEventFieldsAreNone | src/schemas.py:33-37 | In an accepted event, `actor`, the two team fields and `showing` are absent when their keys were left out. |
| Schemas.EventRequired | src/schemas.py:40-42 | A body with no `event` key, or whose `event` is not an object, is rejected at `event`. |
| Schemas.MissingIdRejected | src/schemas.py:31 | An event without `id` is rejected at `event.id`, whatever else it contains. |
| Schemas.WrongKindIdRejected | src/schemas.py:31 | An `id` that is not a string, null included, is rejected as a type error at `event.id`. |
| Schemas.MissingActionRejected | src/schemas.py:32 | An event with a string `id` but no `action` is rejected at `event.action`. |
| Schemas.MissingCreatedAtRejected | src/schemas.py:36 | An event valid in every field before `created_at` is rejected at `event.created_at`: as missing without the key, and as a type error when the key holds anything but a timestamp. |
| Schemas.MissingShowingUidRejected | src/schemas.py:12 | A showing sub-record without `uid` is rejected at `event.showing.uid`, while the rest of the event is valid. |
| Database.EmptyTablesWellFormed | src/database.py:33-95 | The empty store the schema creates meets every constraint of `Tables.WellFormed`. |
| Database.CountReferencingBounds | src/webhook_service.py:193-195 | A recount is at most the number of showings, and it is 0 exactly when no showing has that `listing_uid` or `email`. |
| Database.CountAfterPut | src/webhook_service.py:157-159 | Writing one showing row changes the number of rows that reference a listing or email by exactly the difference between the old row's and the new row's references. |
| Database.Session.FindEvent | src/webhook_service.py:40 | The idempotency lookup finds an event exactly when its id is in the flushed events, and returns that row; pending changes are not seen. |
| Database.Session.FindShowing | src/webhook_service.py:68 | The showing lookup finds a row exactly when its uid is in the flushed showings, and returns that row. |
| Database.Session.FindListing | src/webhook_service.py:152 | The listing lookup finds a row exactly when its uid is in the flushed listings, and returns that row. |
| Database.Session.FindProspect | src/webhook_service.py:184 | The prospect lookup finds a row exactly when its email is in the flushed prospects, and returns that row. |
| Database.Session.CountShowings | src/database.py:22 | The count query sees only the flushed showings, not rows added or changed since the last flush. |
| Database.Session.Flush | src/webhook_service.py:61 | After a flush, later queries see the pending changes; nothing is committed yet. |
| Database.Session.Rollback | src/webhook_service.py:137-140 | Rollback discards flushed and pending changes alike and returns to the last commit. |
| Database.Session.AddEvent | src/webhook_service.py:60 | The event row is added to the pending changes under its `event_id`; nothing is flushed or committed. |
| Database.Session.PutShowing | src/webhook_service.py:70-107 | The showing row is written into the pending changes under its `uid`, as an insert or as the in-place update of the stored row; nothing is flushed or committed. |
| Database.Session.PutListing | src/webhook_service.py:154-170 | The listing row is written into the pending changes under its `uid`; nothing is flushed or committed. |
| Database.Session.PutProspect | src/webhook_service.py:186-207 | The prospect row is written into the pending changes under its `email`; nothing is flushed or committed. |
| Database.Session.Commit | src/webhook_service.py:128 | After commit, the committed, flushed and pending states all equal the pending state before the call. |
| WebhookService.NewEvent | src/webhook_service.py:50-59 | The event row carries the payload's id, action, actor, team fields and `created_at`, the raw body, and the delivery time as `received_at`. |
| WebhookService.WithEvent | src/webhook_service.py:50-61 | Adding the event row changes only the events table, which gains exactly the new row under its id. |
| WebhookService.ApplyShowing | src/webhook_service.py:68-107 | Only the showing keyed by the delivery's `uid` changes. It holds every payload field and the current event id. An existing row keeps its `uid` and `created_at`; a new row takes `created_at` from the payload. `updated_at` is the delivery time. |
| WebhookService.ApplyListing | src/webhook_service.py:152-171 | Only the keyed listing changes. An existing listing keeps its address and `first_seen_at`, takes the recount and a new `last_seen_at`. A new listing gets the given address, both timestamps from the clock, and its initial count. |
| WebhookService.ApplyProspect | src/webhook_service.py:184-208 | Only the keyed prospect changes. Blank name or phone keep the stored value, `first_contact_at` is kept, and the total is the recount. A new prospect gets the given name and phone and its initial count. |
| WebhookService.Merge | src/webhook_service.py:188-191 | A stored contact field is replaced only by an incoming value that is present and non-empty. |
| WebhookService.ListingStep | src/webhook_service.py:111-116 | The listing upsert changes only the listings, and changes nothing when the showing lacks a non-empty `listing_uid` or address. |
| WebhookService.ProspectStep | src/webhook_service.py:119-125 | The prospect upsert changes only the prospects, and changes nothing when the showing lacks a non-empty `email`. |
| WebhookService.Aggregates | src/webhook_service.py:110-125 | The two upserts leave the events and showings unchanged; the listings are unchanged unless the listing gate holds, and the prospects unless the email is non-empty. |
| WebhookService.Ingest | src/webhook_service.py:36-135 | A known event id gives `duplicate` with every table unchanged. A new one gives `success`, adds exactly that event row, and, when no showing is present, changes no other table. |
| WebhookService.ShowingStepsInOrder | src/webhook_service.py:64-125 | The showing part always makes the showing lookup; it looks up the listing exactly under the listing gate and recounts it only when that lookup finds the row; likewise for the prospect under a non-empty email; it makes no event step and no commit. The lemma only unfolds `ShowingReached`; `WriteShowing`'s contract is what ties these steps to the code. |
| WebhookService.DeliveryStepsInOrder | src/webhook_service.py:39-128 | Every delivery makes the idempotency lookup. A duplicate makes no other round trip. A new event reaches the flush and the commit, and the showing steps exactly when it carries a showing and the showing part reaches them. The lemma only unfolds `Reached`; `Deliver`'s contract is what ties these steps to the code. |
| WebhookService.Process | src/webhook_service.py:34-140 | A validation failure gives `Failed` with the violation and the tables unchanged. For a valid payload, a fault at a step the delivery reaches gives `Failed(StoreFailure)` with the tables unchanged, and otherwise the result is exactly `Ingest`. |
| WebhookService.ProcessWebhook | src/webhook_service.py:23-140 | The session-level method commits exactly what `Process` gives. On failure the committed store is the one before the call, and the session is left with no open work. |
| WebhookService.Deliver | src/webhook_service.py:39-62 | After validation: the idempotency lookup, the event insert and flush, and a rollback on the first fault. With no fault reached the result is `Ingest`. |
| WebhookService.FinishDelivery | src/webhook_service.py:64-135 | After the event flush: the showing part, then commit, or a rollback that leaves the committed store as it was. |
| WebhookService.WriteShowing | src/webhook_service.py:64-125 | The showing write and the two gated upserts, recounting over the tables as flushed before the showing write. It fails exactly when a fault hits a step the delivery reaches. |
| WebhookService.WriteAggregates | src/webhook_service.py:110-125 | The listing upsert under its gate, then the prospect upsert under a non-empty email, both recounting over the flushed showings. It fails exactly when a fault hits the listing or prospect lookup or recount that the delivery reaches, and otherwise leaves the tables `Aggregates` gives. |
| WebhookService.UpsertListing | src/webhook_service.py:152-171 | The method leaves the pending listings as `ApplyListing`, with the count over the flushed showings and 1 for a new row. |
| WebhookService.UpsertProspect | src/webhook_service.py:184-208 | The method leaves the pending prospects as `ApplyProspect`, with the count over the flushed showings and 1 for a new row. |
| WebhookService.IngestPreservesWellFormed | src/database.py:33-95 | Every delivery keeps the store's constraints: keys equal their unique column, and each showing's `event_id` references an existing event. Listing uids and addresses and prospect emails are non-empty. |
| WebhookService.ProcessPreservesWellFormed | src/webhook_service.py:34-140 | Any request, valid or not and with or without a fault, leaves a store that meets the constraints in one that still meets them. |
| WebhookService.IngestWritesShowing | src/webhook_service.py:70-107 | After a delivery with a showing, that row carries every payload field and the new event id, has `updated_at` equal to the delivery time, and keeps `created_at` on update. Every other showing is unchanged. |
| WebhookService.UpdateChangesEventId | src/database.py:52 | A replaced showing always refers to a different event than before, because the delivery's event is new. |
| WebhookService.IngestUpsertsListing | src/webhook_service.py:111-116 | With no uid or no address, the listings are unchanged. Otherwise only that listing changes: a new one has count 1, and an existing one gets the count of showings that referenced it before the delivery. |
| WebhookService.IngestUpsertsProspect | src/webhook_service.py:119-125 | With no email, the prospects are unchanged. Otherwise only that prospect changes: name and phone are merged, `first_contact_at` is kept, and the count is over the showings before the delivery. A new prospect gets count 1. |
| WebhookService.RedeliveryIsDuplicate | src/webhook_service.py:39-47 | Delivering a processed payload again is a duplicate and changes no table, whatever fault the later steps would raise. |
| WebhookService.ListingRecountLags | src/webhook_service.py:157-159 | An existing listing's stored count, plus one unless the stored showing already referenced it, equals the number of showings that reference it after the delivery. |
| WebhookService.ProspectRecountLags | src/webhook_service.py:193-195 | The same one-row lag for a prospect's count. |
| WebhookService.SecondShowingOfListingCountsOne | src/webhook_service.py:157-168 | After two deliveries with different showings of the same listing, two showings reference it and its count is 1. |
| WebhookService.IngestRecounted | src/webhook_service.py:36-135 | The corrected delivery keeps the duplicate gate, and for a new event it reports `success` and adds exactly that event row. |
| WebhookService.RecountedCountersAreExact | src/webhook_service.py:157-168 | With the showing flushed before the recount and new rows counted too, each touched counter equals the number of showings that reference it after the delivery. |
| WebhookService.IngestRecountedFrame | src/webhook_service.py:110-125 | The corrected delivery changes at most the listing and the prospect the showing names; every other listing and prospect, counter included, is unchanged. |
| WebhookService.RecountedDiffersOnlyInCounters | src/webhook_service.py:110-125 | The corrected recount agrees with the code as written on the outcome, the events, the showings and every listing and prospect field except `total_showings`. |
| App.RemoveAll | src/main.py:84 | Removing every `Bearer ` never lengthens the text and leaves only characters of the original. |
| App.RemoveAllIsIdentityIff | src/main.py:84 | Removing every `Bearer ` leaves a text unchanged exactly when the text has no occurrence of it. |
| App.RemoveAllAfterPrefix | src/main.py:84 | A leading occurrence is removed first, and the rest is scanned on its own. |
| App.VerifyBearerToken | src/main.py:53-92 | No configured token accepts everything. A missing or empty header gives 401 "Missing Authorization header". A header without the prefix gives 401 "Invalid Authorization header format". A prefixed header that is not the token once every `Bearer ` is removed gives 401 "Invalid Bearer token". Every 401 has one of the three details. |
| App.AcceptedHeaders | src/main.py:77-92 | With a token configured, a header is accepted exactly when it is `Bearer ` followed by a text that equals the token once every further `Bearer ` is removed. |
| App.HonestHeaderAccepted | src/main.py:84-85 | `Bearer <token>` is accepted exactly when the token itself does not contain `Bearer `. |
| App.DoubledPrefixAccepted | src/main.py:84 | `Bearer Bearer tok` is accepted for the token `tok`. |
| App.WrongTokenRejected | tests/test_webhook.py:102-109 | The test's wrong token is refused with 401 "Invalid Bearer token". |
| App.PrefixOnlyAcceptsExactHeader | src/main.py:77-85 | The prefix-only check accepts exactly `Bearer ` followed by the configured token. |
| App.VerifyBearerTokenPrefixOnly | src/main.py:66-92 | The corrected check keeps every branch of the original: no configured token accepts everything, a missing or empty header and a header without the prefix get their 401 details, and a prefixed header whose remainder is not the token gets 401 "Invalid Bearer token". |
| App.ChecksAgreeOnHonestHeader | src/main.py:77-85 | Both checks accept the honest header when the token contains no `Bearer `. |
| App.Respond | src/main.py:148-164 | `success` and `duplicate` become a 200 reply whose status, message and event id are copied from the result. A failure becomes a 500. |
| App.Receive | src/main.py:122-164 | The token check is applied first: a refusal is a 401 with the tables unchanged. After it, an unparsable body is a 500 with the tables unchanged, and a parsed body gets `Respond` of the outcome of `Process` with the tables `Process` leaves. A 200 carries the validated event's id. |
| App.AuthorizedReplyCodes | src/main.py:122-164 | An authorized request is never a 401; it gets a 200 exactly when the body parses and validates and no store fault is reached, and a 500 otherwise. |
| App.ReceiveWebhook | src/main.py:122-164 | The handler over the session replies and commits exactly as `Receive` says. |
| App.TestBodyValidates | tests/test_webhook.py:52-66 | The test's body, which leaves out every optional key it does not use, validates to the payload with those fields absent. |
| App.DeliverTwice | tests/test_webhook.py:46-100 | The test's own body with the test token succeeds with `evt-123`. Sending it again gives a 200 `duplicate` and the tables do not change. |
| ApiRoutes.StatusPartition | src/api_routes.py:134-140 | Every showing is in exactly one of confirmed, canceled and pending. |
| ApiRoutes.ParseStatusFilter | src/api_routes.py:134-140 | Each of the three recognised values selects its category. An empty or unrecognised value selects none. |
| ApiRoutes.MatchesQueryFilters | src/api_routes.py:122-140 | A row that matches the query has the filtered `listing_uid`, `email` and `is_self_show`, a showtime inside the given bounds and the requested status. With every filter absent or blank, every row matches. |
| ApiRoutes.Select | src/api_routes.py:119-141 | A row is in the filtered list exactly when it is in the table and satisfies the filter. The filter never adds rows. |
| ApiRoutes.UnfilteredSelectsAll | src/api_routes.py:119-141 | With no active filter the filtered list is the whole table, in order. |
| ApiRoutes.SelectAppend | src/api_routes.py:147 | Filtering keeps the `ORDER BY` order: it distributes over concatenation. |
| ApiRoutes.SelectIdempotent | src/api_routes.py:119-141 | Filtering an already filtered list changes nothing. |
| ApiRoutes.Window | src/api_routes.py:146-147 | `OFFSET`/`LIMIT` gives the rows from the offset, as many as the limit allows, and none past the end. |
| ApiRoutes.WindowsAdjoin | src/api_routes.py:146-147 | Two adjacent windows make one window. |
| ApiRoutes.GetShowings | src/api_routes.py:94-157 | Out-of-range `page` or `page_size` is refused. Otherwise `total` counts every filtered row, and `items` is the page of at most `page_size` filtered rows at offset `(page-1)*page_size`. |
| ApiRoutes.EveryMatchIsPaged | src/api_routes.py:143-147 | The filtered row at position `i` appears on page `i / page_size + 1`, at position `i % page_size`. |
| ApiRoutes.GetUpcomingShowings | src/api_routes.py:172-188 | Out-of-range `days` or `limit` is refused. Otherwise the result is the first `min(limit, n)` of the `n` non-canceled rows with `now <= showtime <= now + days`, in showtime order. |
| ApiRoutes.UpcomingCompleteBelowLimit | src/api_routes.py:182-186 | When no more than `limit` rows qualify, every qualifying row is returned. |
| ApiRoutes.GetShowingsOf | src/api_routes.py:248-259 | Out-of-range `limit` is refused. Otherwise the list is the first `min(limit, n)` of the `n` rows with that `listing_uid` or `email`, in the table's order. |
| ApiRoutes.ShowingsOfMatchRecount | src/api_routes.py:332-334 | Over an ordering of the whole table, a listing or prospect list holds `min(limit, count)` rows, where `count` is the webhook service's recount. |
| ApiRoutes.ListsAgreeWithRecount | src/api_routes.py:332-334 | Over an ordering of the whole table, the listing or prospect page before its limit has exactly as many rows as the recount of the webhook service counts. |

## Left out

- Framework plumbing: FastAPI routing and dependency injection, CORS, the startup hook, the health endpoints, uvicorn and environment loading. This includes the query defaults: `page=1` and `page_size=50` (src/api_routes.py:96-97), `days=7` and `limit=100` (src/api_routes.py:174-175), and `limit=100` on the listing and prospect lists (src/api_routes.py:251, 328). The model takes every query parameter as given.
- Counters a showing moves away from. When an update gives a showing another `listing_uid` or `email` (src/webhook_service.py:72-85), only the new listing and prospect are recounted (src/webhook_service.py:111-125). The old ones keep a stale `total_showings`, in the code and in both the as-written and the corrected model.
- The database I/O: engine and pool creation, `get_db`, `init_db` and `create_all`.
- Logging, which has no effect on state or replies.
- The clock. Every `datetime.utcnow()` in a delivery is one `now` parameter.
- The configured token and the Authorization header. Both are parameters.
- JSON decoding. A body that does not parse is `None`, and the decoded body is a `Json.Value`.
- Store faults. A database exception is a `fault` parameter that names the step that raises. The exception's text in the 500 detail is not modelled.
- Pydantic datetime parsing and type coercion. A timestamp arrives as an already parsed `JTime`, and anything else in a datetime field is a type error. Strict matching of JSON kinds stands in for pydantic's lax coercions (for example the string `"5"` to an int, or `"yes"` to a bool), so some bodies pydantic accepts are rejected here.
- Column widths and the surrogate integer ids.
- The column defaults that no write relies on: `default=0` of `total_showings`, `received_at`, and the timestamps of listings and prospects, which the service always sets itself. `Showing.updated_at` does take its `default` and `onupdate`, and the model sets it to the delivery time on every insert and replace.
- `raw_payload`, which is kept as an uninterpreted `Json.Value`.
- Response serialization (`model_validate` and the response schemas).
- Validation errors list only the first violation in field order, where pydantic's `ValidationError` lists every one. The reply's detail text is not modelled, so no observable reply changes.
- Inputs outside the JSON model's domain. A JSON float cannot be represented, even under a key the schema ignores. Text that the date-time parser accepts always arrives as a timestamp, so a `str` field holding such text (a phone number of digits, say) is a type error here, where pydantic accepts it as a string. A JSON number in a datetime field, which pydantic reads as Unix time, is a type error here too.
- The configured token is a parameter of each request. In the code it is read once, when src/main.py is imported (src/main.py:47). The delivery tests set the environment variable afterwards, at tests/test_webhook.py:49, 76 and 104. `App.WrongTokenRejected` and `App.DeliverTwice` therefore model the configuration those tests intend, which may not be the one they run under.
- Concurrent deliveries, transaction isolation and cascade delete. A delivery is one sequential transaction.
- The read-your-writes cases of SQLAlchemy's identity map. Within one delivery no lookup ever targets a row that was changed but not flushed.
- SQL ordering with ties and NULLs. Each read endpoint receives the table already in its `ORDER BY` order.
- `ilike` search, the `func.date` grouping, `get_events`, `get_listings`, `get_prospects`, the single-row getters and the statistics endpoints.

## Findings

| source | as written | input that shows it | evidently intended | confidence | as-written member | corrected member |
|---|---|---|---|---|---|---|
| src/webhook_service.py:157-168 | The recount runs before the showing write is flushed, so it misses the current showing. A new listing or prospect is set to 1 regardless of earlier showings. | Two events with new showings `shw-1` and `shw-2` of listing `lst-1`: afterwards two showings reference `lst-1`, and its `total_showings` is 1. | The `total_showings` of the listing and the prospect a delivery touches equals the number of showings that reference them after the delivery. | high, not executed | WebhookService.SecondShowingOfListingCountsOne | WebhookService.RecountedCountersAreExact |
| src/main.py:84 | `replace` removes every `Bearer `, not only the prefix, so headers other than `Bearer <token>` are accepted. | Token `tok` with the header `Bearer Bearer tok`. | Only the leading `Bearer ` is stripped, so exactly `Bearer <token>` is accepted. | medium, not executed | App.DoubledPrefixAccepted | App.PrefixOnlyAcceptsExactHeader |

The service model (`WebhookService.Ingest`, `App.VerifyBearerToken`) follows the code as written. The corrected definitions are `WebhookService.IngestRecounted` and `App.VerifyBearerTokenPrefixOnly`. They stand beside it with their properties proved: `RecountedCountersAreExact` and `RecountedDiffersOnlyInCounters` for the recount, and `PrefixOnlyAcceptsExactHeader` and `ChecksAgreeOnHonestHeader` for the token check.

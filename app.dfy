/**
 * The HTTP face of the webhook listener (src/main.py): the bearer-token
 * check that guards `POST /webhook`, and the mapping from the service's
 * outcome to the reply.  The configured token and the request's
 * Authorization header are parameters; an empty configured token turns the
 * check off.
 */
module App {

  import opened Wrappers
  import opened Json
  import opened Schemas
  import opened Database
  import opened WebhookService

  // ---- Python's str.replace(pat, "") ----

  /** Whether `pat` occurs in `s` at position `i`. */
  predicate OccursAt(s: string, pat: string, i: int)
  {
    0 <= i && i + |pat| <= |s| && s[i..i + |pat|] == pat
  }

  ghost predicate Occurs(s: string, pat: string)
  {
    exists i :: OccursAt(s, pat, i)
  }

  /** Every non-overlapping occurrence of `pat` removed, scanning from the left. */
  function RemoveAll(s: string, pat: string): (r: string)
    requires pat != ""
    ensures |r| <= |s|
    ensures forall i :: 0 <= i < |r| ==> r[i] in s
    decreases |s|
  {
    if |s| < |pat| then s
    else if s[..|pat|] == pat then RemoveAll(s[|pat|..], pat)
    else [s[0]] + RemoveAll(s[1..], pat)
  }

  lemma {:induction false} RemoveAllShrinks(s: string, pat: string)
    requires pat != ""
    ensures |RemoveAll(s, pat)| <= |s|
    ensures Occurs(s, pat) ==> |RemoveAll(s, pat)| < |s|
    decreases |s|
  {
    if |s| < |pat| {
    } else if s[..|pat|] == pat {
      RemoveAllShrinks(s[|pat|..], pat);
    } else {
      RemoveAllShrinks(s[1..], pat);
      if Occurs(s, pat) {
        var i :| OccursAt(s, pat, i);
        assert i != 0;
        assert s[1..][i - 1..i - 1 + |pat|] == s[i..i + |pat|];
        assert OccursAt(s[1..], pat, i - 1);
      }
    }
  }

  lemma {:induction false} RemoveAllWithout(s: string, pat: string)
    requires pat != "" && !Occurs(s, pat)
    ensures RemoveAll(s, pat) == s
    decreases |s|
  {
    if |s| < |pat| {
    } else if s[..|pat|] == pat {
      assert OccursAt(s, pat, 0);
    } else {
      forall j | OccursAt(s[1..], pat, j)
        ensures false
      {
        assert s[1..][j..j + |pat|] == s[j + 1..j + 1 + |pat|];
        assert OccursAt(s, pat, j + 1);
      }
      RemoveAllWithout(s[1..], pat);
      assert [s[0]] + s[1..] == s;
    }
  }

  /** Removal leaves a string as it is exactly when the pattern does not occur in it. */
  lemma RemoveAllIsIdentityIff(s: string, pat: string)
    requires pat != ""
    ensures RemoveAll(s, pat) == s <==> !Occurs(s, pat)
  {
    RemoveAllShrinks(s, pat);
    if !Occurs(s, pat) {
      RemoveAllWithout(s, pat);
    }
  }

  /** A pattern whose first character is absent does not occur. */
  lemma FirstCharAbsent(s: string, pat: string)
    requires pat != "" && pat[0] !in s
    ensures !Occurs(s, pat)
  {
  }

  /** A leading occurrence is the first one removed. */
  lemma RemoveAllAfterPrefix(pat: string, c: string)
    requires pat != ""
    ensures RemoveAll(pat + c, pat) == RemoveAll(c, pat)
  {
    assert (pat + c)[..|pat|] == pat;
    assert (pat + c)[|pat|..] == c;
  }

  // ---- verify_bearer_token ----

  const BearerPrefix: string := "Bearer "

  datatype AuthResult = Authorized | Denied(detail: string)

  function StartsWith(s: string, prefix: string): bool
  {
    |prefix| <= |s| && s[..|prefix|] == prefix
  }

  /** `verify_bearer_token`: `Denied` stands for the 401 it raises. */
  function VerifyBearerToken(configured: string, authorization: Option<string>): (r: AuthResult)
    ensures configured == "" ==> r == Authorized
    ensures configured != "" && (authorization.None? || authorization == Some("")) ==>
              r == Denied("Missing Authorization header")
    ensures configured != "" && authorization.Some? && authorization.value != "" &&
            !StartsWith(authorization.value, BearerPrefix) ==>
              r == Denied("Invalid Authorization header format")
    ensures configured != "" && authorization.Some? && authorization.value != "" &&
            StartsWith(authorization.value, BearerPrefix) && RemoveAll(authorization.value, BearerPrefix) != configured ==>
              r == Denied("Invalid Bearer token")
    ensures r.Denied? ==> r.detail in {"Missing Authorization header", "Invalid Authorization header format",
                                       "Invalid Bearer token"}
  {
    if configured == "" then Authorized
    else if authorization.None? || authorization.value == "" then Denied("Missing Authorization header")
    else if !StartsWith(authorization.value, BearerPrefix) then Denied("Invalid Authorization header format")
    else if RemoveAll(authorization.value, BearerPrefix) != configured then Denied("Invalid Bearer token")
    else Authorized
  }

  /**
   * With a token configured, a header is accepted exactly when it is
   * `Bearer ` followed by text that, with every further `Bearer ` removed,
   * is the token.
   */
  lemma AcceptedHeaders(configured: string, header: string)
    requires configured != ""
    ensures VerifyBearerToken(configured, Some(header)).Authorized? <==>
              exists rest :: header == BearerPrefix + rest && RemoveAll(rest, BearerPrefix) == configured
  {
    if StartsWith(header, BearerPrefix) {
      var rest := header[|BearerPrefix|..];
      assert header == BearerPrefix + rest;
      RemoveAllAfterPrefix(BearerPrefix, rest);
    }
    forall rest | header == BearerPrefix + rest
      ensures StartsWith(header, BearerPrefix) && RemoveAll(header, BearerPrefix) == RemoveAll(rest, BearerPrefix)
    {
      RemoveAllAfterPrefix(BearerPrefix, rest);
    }
  }

  /** The header a sender builds from the configured token is accepted unless the token itself contains `Bearer `. */
  lemma HonestHeaderAccepted(configured: string)
    requires configured != ""
    ensures VerifyBearerToken(configured, Some(BearerPrefix + configured)).Authorized? <==> !Occurs(configured, BearerPrefix)
  {
    RemoveAllAfterPrefix(BearerPrefix, configured);
    RemoveAllIsIdentityIff(configured, BearerPrefix);
  }

  /** A sender's header with the wrong token is refused (tests/test_webhook.py:102-109). */
  lemma WrongTokenRejected()
    ensures VerifyBearerToken("27ac6aadb42bb1fa05ef6167c5572674", Some("Bearer wrong_token"))
            == Denied("Invalid Bearer token")
  {
    var s := "wrong_token";
    assert "Bearer wrong_token" == BearerPrefix + s;
    RemoveAllAfterPrefix(BearerPrefix, s);
    FirstCharAbsent(s, BearerPrefix);
    RemoveAllWithout(s, BearerPrefix);
  }

  /** Because every occurrence is removed, a doubled prefix is accepted as well. */
  lemma DoubledPrefixAccepted()
    ensures VerifyBearerToken("tok", Some("Bearer Bearer tok")) == Authorized
  {
    assert "Bearer Bearer tok" == BearerPrefix + (BearerPrefix + "tok");
    RemoveAllAfterPrefix(BearerPrefix, BearerPrefix + "tok");
    RemoveAllAfterPrefix(BearerPrefix, "tok");
  }

  /** The check the prefix test evidently intends: only the leading `Bearer ` is stripped. */
  function VerifyBearerTokenPrefixOnly(configured: string, authorization: Option<string>): (r: AuthResult)
    ensures configured == "" ==> r == Authorized
    ensures configured != "" && (authorization.None? || authorization == Some("")) ==>
              r == Denied("Missing Authorization header")
    ensures configured != "" && authorization.Some? && authorization.value != "" &&
            !StartsWith(authorization.value, BearerPrefix) ==>
              r == Denied("Invalid Authorization header format")
    ensures configured != "" && authorization.Some? && authorization.value != "" &&
            StartsWith(authorization.value, BearerPrefix) && authorization.value[|BearerPrefix|..] != configured ==>
              r == Denied("Invalid Bearer token")
    ensures r.Denied? ==> r.detail in {"Missing Authorization header", "Invalid Authorization header format",
                                       "Invalid Bearer token"}
  {
    if configured == "" then Authorized
    else if authorization.None? || authorization.value == "" then Denied("Missing Authorization header")
    else if !StartsWith(authorization.value, BearerPrefix) then Denied("Invalid Authorization header format")
    else if authorization.value[|BearerPrefix|..] != configured then Denied("Invalid Bearer token")
    else Authorized
  }

  /** With a token configured, the prefix-only check accepts exactly `Bearer ` followed by the token. */
  lemma PrefixOnlyAcceptsExactHeader(configured: string, authorization: Option<string>)
    requires configured != ""
    ensures VerifyBearerTokenPrefixOnly(configured, authorization).Authorized? <==>
              authorization == Some(BearerPrefix + configured)
  {
    if authorization == Some(BearerPrefix + configured) {
      assert (BearerPrefix + configured)[|BearerPrefix|..] == configured;
    }
    if VerifyBearerTokenPrefixOnly(configured, authorization).Authorized? {
      var h := authorization.value;
      assert h == h[..|BearerPrefix|] + h[|BearerPrefix|..];
    }
  }

  /** On the header built from a token that does not contain `Bearer `, both checks accept. */
  lemma ChecksAgreeOnHonestHeader(configured: string)
    requires configured != "" && !Occurs(configured, BearerPrefix)
    ensures VerifyBearerToken(configured, Some(BearerPrefix + configured))
            == VerifyBearerTokenPrefixOnly(configured, Some(BearerPrefix + configured))
            == Authorized
  {
    HonestHeaderAccepted(configured);
    PrefixOnlyAcceptsExactHeader(configured, Some(BearerPrefix + configured));
  }

  // ---- receive_webhook ----

  /**
   * The reply to `POST /webhook`: a 200 with a `WebhookResponse`, a 401
   * from the token check, or a 500 (an unparsable body or any exception from
   * processing; the exception's text is not modelled).
   */
  datatype Reply = Handled(body: WebhookResponse) | Unauthorized(detail: string) | ServerError

  function StatusCode(r: Reply): int
  {
    match r
    case Handled(_) => 200
    case Unauthorized(_) => 401
    case ServerError => 500
  }

  /** The service's result dictionary copied into the reply; a failure surfaces as a 500. */
  function Respond(o: Outcome): (r: Reply)
    ensures r.ServerError? <==> o.Failed?
    ensures o.Success? ==> r == Handled(WebhookResponse("success", "Webhook processed successfully", Some(o.eventId)))
    ensures o.Duplicate? ==> r == Handled(WebhookResponse("duplicate", "Event already processed", Some(o.eventId)))
  {
    match o
    case Success(id) => Handled(WebhookResponse("success", "Webhook processed successfully", Some(id)))
    case Duplicate(id) => Handled(WebhookResponse("duplicate", "Event already processed", Some(id)))
    case Failed(_) => ServerError
  }

  /** The reply and the committed store after one request. */
  datatype Exchange = Exchange(reply: Reply, tables: Tables)

  /**
   * One request: the token check runs first; `body` is `None` when the body
   * is not JSON.
   */
  function Receive(configured: string, authorization: Option<string>, body: Option<Value>,
                   t: Tables, now: Time, fault: Option<Step>): (x: Exchange)
    ensures VerifyBearerToken(configured, authorization).Denied? ==>
              x == Exchange(Unauthorized(VerifyBearerToken(configured, authorization).detail), t)
    ensures VerifyBearerToken(configured, authorization).Authorized? && body.None? ==> x == Exchange(ServerError, t)
    ensures VerifyBearerToken(configured, authorization).Authorized? && body.Some? ==>
              x == Exchange(Respond(Process(t, body.value, now, fault).outcome), Process(t, body.value, now, fault).tables)
    ensures !x.reply.Handled? ==> x.tables == t
    ensures x.reply.Handled? ==>
              && body.Some? && Validate(body.value).Ok?
              && x.reply.body.eventId == Some(Validate(body.value).value.event.id)
  {
    match VerifyBearerToken(configured, authorization)
    case Denied(detail) => Exchange(Unauthorized(detail), t)
    case Authorized =>
      match body
      case None => Exchange(ServerError, t)
      case Some(raw) =>
        var tr := Process(t, raw, now, fault);
        Exchange(Respond(tr.outcome), tr.tables)
  }

  /** `receive_webhook` over the session. */
  method ReceiveWebhook(configured: string, authorization: Option<string>, body: Option<Value>,
                        db: Session, now: Time, fault: Option<Step>) returns (reply: Reply)
    requires db.Valid()
    modifies db
    ensures db.Valid()
    ensures Exchange(reply, db.committed) == Receive(configured, authorization, body, old(db.committed), now, fault)
  {
    var auth := VerifyBearerToken(configured, authorization);
    if auth.Denied? {
      return Unauthorized(auth.detail);
    }
    if body.None? {
      return ServerError;
    }
    var outcome := ProcessWebhook(body.value, db, now, fault);
    reply := Respond(outcome);
  }

  /**
   * An authorized request is never a 401, and it gets a 200 exactly when it
   * has a valid body and no store fault is reached; every other case is a 500.
   */
  lemma AuthorizedReplyCodes(configured: string, authorization: Option<string>, body: Option<Value>,
                             t: Tables, now: Time, fault: Option<Step>)
    requires VerifyBearerToken(configured, authorization).Authorized?
    ensures var code := StatusCode(Receive(configured, authorization, body, t, now, fault).reply);
            && (code == 200 || code == 500)
            && (code == 200 <==> body.Some? && Validate(body.value).Ok? &&
                                 !(fault.Some? && Reached(t, Validate(body.value).value, fault.value)))
  {
    if body.Some? && Validate(body.value).Ok? && !(fault.Some? && Reached(t, Validate(body.value).value, fault.value)) {
      var p := Validate(body.value).value;
      assert Process(t, body.value, now, fault) == Ingest(t, body.value, p, now);
    }
  }

  // ---- The delivery tests, restated ----

  const TestToken: string := "27ac6aadb42bb1fa05ef6167c5572674"

  /**
   * The body of tests/test_webhook.py:52-66 with only the keys the test
   * writes; its `created_at` of 2025-10-31T10:00:00Z is the parsed instant.
   */
  function TestBody(): Value
  {
    JObject(map["event" := JObject(TestEventFields())])
  }

  function TestEventFields(): map<string, Value>
  {
    map[
      "id" := JString("evt-123"),
      "action" := JString("lead_created"),
      "actor" := JString("prospect"),
      "created_at" := JTime(1761904800),
      "showing" := JObject(TestShowingFields())]
  }

  function TestShowingFields(): map<string, Value>
  {
    map[
      "uid" := JString("shw-456"),
      "name" := JString("Test Prospect"),
      "email" := JString("test@example.com"),
      "listing_uid" := JString("lst-789"),
      "listing_full_address" := JString("123 Test St")]
  }

  function TestShowing(): ShowingData
  {
    ShowingData("shw-456", None, None, None, None, Some("Test Prospect"), None, Some("test@example.com"),
                None, Some("lst-789"), Some("123 Test St"), None, None, None, None)
  }

  /** The payload that body stands for; every field the test leaves out is absent. */
  function TestPayload(): WebhookPayload
  {
    WebhookPayload(EventData("evt-123", "lead_created", Some("prospect"), None, None, 1761904800, Some(TestShowing())))
  }

  lemma TestShowingEncodes()
    ensures ShowingEncodes(TestShowingFields(), TestShowing())
  {
    TestShowingPresent();
    TestShowingAbsent();
  }

  /** The five keys the test writes hold the showing's values. */
  lemma TestShowingPresent()
    ensures var o := TestShowingFields();
            && "uid" in o && o["uid"] == JString("shw-456")
            && "name" in o && o["name"] == JString("Test Prospect")
            && "email" in o && o["email"] == JString("test@example.com")
            && "listing_uid" in o && o["listing_uid"] == JString("lst-789")
            && "listing_full_address" in o && o["listing_full_address"] == JString("123 Test St")
  {
  }

  /** The other ten keys are left out of the test's showing. */
  lemma TestShowingAbsent()
    ensures var o := TestShowingFields();
            && "created_at" !in o && "showtime" !in o && "showing_time_zone" !in o
            && "showing_time_zone_utc_offset" !in o && "phone" !in o && "notes" !in o
            && "is_self_show" !in o && "confirmed_at" !in o && "canceled_at" !in o
            && "self_show_code_distributed_at" !in o
  {
  }

  /** The test's body, with its optional keys left out, is accepted as that payload. */
  lemma TestBodyValidates()
    ensures Validate(TestBody()) == Ok(TestPayload())
  {
    TestEventEncodes();
    assert PayloadEncodes(TestBody(), TestPayload());
    ValidateAccepts(TestBody(), TestPayload());
  }

  lemma TestEventEncodes()
    ensures EventEncodes(TestEventFields(), TestPayload().event)
  {
    var o, e := TestEventFields(), TestPayload().event;
    assert o["id"] == JString(e.id) && o["action"] == JString(e.action);
    assert FieldHolds(o, "actor", StringOrNull(e.actor));
    assert FieldHolds(o, "team_member_name", StringOrNull(e.teamMemberName));
    assert FieldHolds(o, "team_member_uid", StringOrNull(e.teamMemberUid));
    assert o["created_at"] == JTime(e.createdAt);
    assert o["showing"] == JObject(TestShowingFields());
    TestShowingEncodes();
  }

  lemma TokenHeaderAccepted()
    ensures VerifyBearerToken(TestToken, Some(BearerPrefix + TestToken)) == Authorized
  {
    RemoveAllAfterPrefix(BearerPrefix, TestToken);
    FirstCharAbsent(TestToken, BearerPrefix);
    RemoveAllWithout(TestToken, BearerPrefix);
  }

  /** A first delivery succeeds and a second one of the same event is a duplicate (tests/test_webhook.py:46-100). */
  lemma {:induction false} DeliverTwice(t: Tables, now: Time, later: Time, fault: Option<Step>)
    requires "evt-123" !in t.events
    requires fault != Some(EventLookup)
    ensures var hdr, body := Some(BearerPrefix + TestToken), Some(TestBody());
            var first := Receive(TestToken, hdr, body, t, now, None);
            var second := Receive(TestToken, hdr, body, first.tables, later, fault);
            && first.reply == Handled(WebhookResponse("success", "Webhook processed successfully", Some("evt-123")))
            && second.reply == Handled(WebhookResponse("duplicate", "Event already processed", Some("evt-123")))
            && StatusCode(second.reply) == 200
            && second.tables == first.tables
  {
    TokenHeaderAccepted();
    var raw := TestBody();
    TestBodyValidates();
    RedeliveryIsDuplicate(t, raw, now, later, fault);
  }
}

/**
 * One request through the router: the authentication middleware runs first on
 * every route, then the route's validation middleware, then its handler; an
 * error the handler passes to `next` reaches the error middleware, which
 * answers. The lemmas compose the service's error messages with the error
 * middleware's classification into the status codes a client sees.
 */
module Pipeline {
  import opened Wrappers
  import opened Strings
  import opened JsValues
  import opened Http
  import opened Cache
  import opened Schemas
  import opened Validate
  import opened Auth
  import opened ErrorHandler
  import opened PlausibleController
  import Svc = PlausibleService

  datatype Route = RealtimeRoute | TimeseriesRoute | BreakdownRoute | AggregateRoute | TestConnectionRoute

  /** The schema each route hands to `validate`. */
  function RouteRules(route: Route): Schema {
    match route
    case RealtimeRoute => RealtimeSchema
    case TimeseriesRoute => TimeseriesSchema
    case BreakdownRoute => BreakdownSchema
    case AggregateRoute => AggregateSchema
    case TestConnectionRoute => TestConnectionSchema
  }

  /** The response a handler's outcome turns into: its own answer, or the error middleware's. */
  function Answer(out: Outcome, nodeEnv: Option<string>): Response {
    match out
    case Respond(r) => r
    case NextError(e) => HandleError(e, nodeEnv)
  }

  /** What the route's handler does with a request that reached it. */
  function Handled(route: Route, m: Store, stdTtl: int, cfg: Svc.Config, authorization: Option<string>,
                   params: Container, query: Container, body: Container, bodyParsed: bool,
                   reply: (nat, Svc.Call) -> Svc.Reply, n: nat, clock: Clock): Served
  {
    var apiKey := HeaderApiKey(authorization);
    match route
    case RealtimeRoute =>
      var siteId := Field(query, "site_id");
      Serve(m, RealtimeKey(siteId), clock, stdTtl, RealtimeMiss(cfg, apiKey, siteId, reply, n, clock))
    case TimeseriesRoute =>
      var t := TimeseriesQueryOf(query);
      Serve(m, TimeseriesKey(t), clock, stdTtl, TimeseriesMiss(cfg, apiKey, t, reply, n))
    case BreakdownRoute =>
      var b := BreakdownQueryOf(params, query);
      Serve(m, BreakdownKey(b), clock, stdTtl, BreakdownMiss(cfg, apiKey, b, reply, n))
    case AggregateRoute =>
      var a := AggregateQueryOf(query);
      Serve(m, AggregateKey(a), clock, stdTtl, AggregateMiss(cfg, apiKey, a, reply, n))
    case TestConnectionRoute =>
      ConnectionTested(m, cfg, body, bodyParsed, reply, n)
  }

  /** What the connection test does: it never touches the store. */
  function ConnectionTested(m: Store, cfg: Svc.Config, body: Container, bodyParsed: bool,
                            reply: (nat, Svc.Call) -> Svc.Reply, n: nat): Served
  {
    if !bodyParsed then Served(NextError(UnparsedBody()), m, []) else
    var siteId := Field(body, "site_id");
    var c := Svc.RealtimeCall(cfg, Field(body, "api_key"), siteId);
    Served(Respond(ConnectionResponse(reply(n, c).Success?, siteId)), m, [c])
  }

  /** The route's handler, called on the request as validation left it. */
  method RunHandler(route: Route, cache: CacheManager, up: Svc.Upstream, cfg: Svc.Config, req: Request,
                    clock: Clock) returns (out: Outcome)
    modifies cache, up
    ensures var s := Handled(route, old(cache.entries), cache.stdTtl, cfg, req.authorization,
                             req.params, req.query, req.body, req.bodyParsed, up.reply, |old(up.log)|, clock);
      out == s.out && cache.entries == s.entries && up.log == old(up.log) + s.calls
  {
    match route {
      case RealtimeRoute => out := GetRealtime(cache, up, cfg, req, clock);
      case TimeseriesRoute => out := GetTimeseries(cache, up, cfg, req, clock);
      case BreakdownRoute => out := GetBreakdown(cache, up, cfg, req, clock);
      case AggregateRoute => out := GetAggregate(cache, up, cfg, req, clock);
      case TestConnectionRoute => out := TestConnection(up, cfg, req);
    }
  }

  /** An authenticated request: the route's validation, which lets it through unchanged, then
      its handler. */
  method ValidateAndHandle(route: Route, cache: CacheManager, up: Svc.Upstream, cfg: Svc.Config, req: Request,
                           clock: Clock) returns (out: Outcome)
    modifies req`params, req`query, req`body, cache, up
    ensures req.params == old(req.params) && req.query == old(req.query) && req.body == old(req.body)
    ensures var s := Handled(route, old(cache.entries), cache.stdTtl, cfg, req.authorization,
                             old(req.params), old(req.query), old(req.body), req.bodyParsed, up.reply, |old(up.log)|, clock);
      out == s.out && cache.entries == s.entries && up.log == old(up.log) + s.calls
  {
    BareSchemaPassesThrough(RouteRules(route), req.params, req.query, req.body);
    var checked := ValidateRequest(OfJoiObject(RouteRules(route)), req);
    if checked.Halt? {
      assert false;
    }
    out := RunHandler(route, cache, up, cfg, req, clock);
  }

  /** A request on `route`: authentication, validation, the handler, and the error middleware.
      A rejected header is answered before anything else happens; otherwise validation lets the
      request through unchanged and the handler decides. */
  method Dispatch(route: Route, cache: CacheManager, up: Svc.Upstream, cfg: Svc.Config, req: Request,
                  clock: Clock, nodeEnv: Option<string>) returns (resp: Response)
    modifies req`plausibleApiKey, req`params, req`query, req`body, cache, up
    ensures CheckBearer(req.authorization).Err? ==>
      resp == CheckBearer(req.authorization).error
      && req.plausibleApiKey == old(req.plausibleApiKey)
      && req.params == old(req.params) && req.query == old(req.query) && req.body == old(req.body)
      && cache.entries == old(cache.entries) && up.log == old(up.log)
    ensures CheckBearer(req.authorization).Ok? ==>
      var s := Handled(route, old(cache.entries), cache.stdTtl, cfg, req.authorization,
                       old(req.params), old(req.query), old(req.body), req.bodyParsed, up.reply, |old(up.log)|, clock);
      && req.plausibleApiKey == Some(CheckBearer(req.authorization).value)
      && req.params == old(req.params) && req.query == old(req.query) && req.body == old(req.body)
      && resp == Answer(s.out, nodeEnv) && cache.entries == s.entries && up.log == old(up.log) + s.calls
  {
    ghost var parts := (req.params, req.query, req.body);
    var step := ValidateApiKey(req);
    if step.Halt? {
      return step.response;
    }
    assert (req.params, req.query, req.body) == parts;
    var out := ValidateAndHandle(route, cache, up, cfg, req, clock);
    resp := Answer(out, nodeEnv);
  }

  // ---------------------------------------------------------------------------
  // upstream failures as the client sees them

  /** The characters of a decimal integer are digits and the minus sign. */
  lemma IntTextChars(n: int)
    ensures forall c :: c in IntToString(n) ==> c == '-' || '0' <= c <= '9'
  {
    if n < 0 {
      assert IntToString(n) == "-" + NatToString(-n);
    }
  }

  /** The status of a plain `Error` is decided by the two phrases its message may hold. */
  lemma PlainErrorStatus(message: string, nodeEnv: Option<string>)
    ensures Contains(message, "API invalide") ==> HandleError(NewError(message), nodeEnv).status == 401
    ensures !Contains(message, "API invalide") && Contains(message, "Plausible") ==>
      HandleError(NewError(message), nodeEnv).status == 502
    ensures !Contains(message, "API invalide") && !Contains(message, "Plausible") ==>
      HandleError(NewError(message), nodeEnv).status == 500
  {
  }

  /** A message names neither the key nor the provider. */
  predicate NamesNeither(m: string) {
    !Contains(m, "API invalide") && !Contains(m, "Plausible")
  }

  /** The text has no capital A and no capital P. */
  predicate NoCapitalAP(s: string) {
    forall i :: 0 <= i < |s| ==> s[i] != 'A' && s[i] != 'P'
  }

  lemma {:induction false} NoCapitalAPConcat(a: string, b: string)
    requires NoCapitalAP(a) && NoCapitalAP(b)
    ensures NoCapitalAP(a + b)
  {
    forall i | 0 <= i < |a + b| ensures (a + b)[i] != 'A' && (a + b)[i] != 'P' {
      if i < |a| {
        assert (a + b)[i] == a[i];
      } else {
        assert (a + b)[i] == b[i - |a|];
      }
    }
  }

  /** A message without a capital A and a capital P names neither the key nor the provider. */
  lemma NeitherPhrase(message: string)
    requires NoCapitalAP(message)
    ensures NamesNeither(message)
  {
    assert "API invalide"[0] !in message;
    NotContainsByCharAt(message, "API invalide", 0);
    NotContainsByCharAt(message, "Plausible", 0);
  }

  /** An error that is neither a validation nor an authorization error and carries no status
      code answers 500 when its message names neither the key nor the provider. */
  lemma UnnamedMessageStatus(err: JsError, nodeEnv: Option<string>)
    requires err.name != "ValidationError" && err.name != "UnauthorizedError" && err.statusCode == None
    requires NamesNeither(err.message)
    ensures HandleError(err, nodeEnv).status == 500
  {
  }

  /** The rejected-key message names the key. */
  lemma UnauthorizedNamesKey()
    ensures Contains(Svc.MsgUnauthorized, "API invalide")
  {
    ContainsAt(Svc.MsgUnauthorized, "API invalide", 4);
  }

  /** No answer gives a message that names the provider but not the key. */
  lemma UnreachableNamesProvider()
    ensures !Contains(Svc.MsgUnreachable, "API invalide") && Contains(Svc.MsgUnreachable, "Plausible")
  {
    var m := Svc.MsgUnreachable;
    forall i | 0 <= i < |m| ensures m[i] != 'v' {}
    NotContainsByCharAt(Svc.MsgUnreachable, "API invalide", 6);
    ContainsAt(Svc.MsgUnreachable, "Plausible", 28);
  }

  /** The generic message for an unclassified status names the provider but not the key. */
  lemma StatusMessageNamesProvider(status: int)
    ensures var m := Svc.StatusPrefix + IntToString(status);
      !Contains(m, "API invalide") && Contains(m, "Plausible")
  {
    var digits := IntToString(status);
    IntTextChars(status);
    assert 'v' !in Svc.StatusPrefix + digits;
    NotContainsByCharAt(Svc.StatusPrefix + digits, "API invalide", 6);
    ContainsAt(Svc.StatusPrefix + digits, "Plausible", 11);
  }

  lemma QuotaNamesNeither()
    ensures NamesNeither(Svc.MsgQuota)
  {
    assert NoCapitalAP(Svc.MsgQuota);
    NeitherPhrase(Svc.MsgQuota);
  }

  lemma NotFoundNamesNeither()
    ensures NamesNeither(Svc.MsgNotFound)
  {
    assert NoCapitalAP(Svc.MsgNotFound);
    NeitherPhrase(Svc.MsgNotFound);
  }

  lemma InvalidQueryNamesNeither()
    ensures NamesNeither(Svc.MsgInvalidQuery)
  {
    var m := Svc.MsgInvalidQuery;
    forall i | 0 <= i < |m| ensures m[i] != 'A' && m[i] != 'b' {}
    NotContainsByCharAt(Svc.MsgInvalidQuery, "API invalide", 0);
    NotContainsByCharAt(Svc.MsgInvalidQuery, "Plausible", 6);
  }

  lemma RateLimitedNamesNeither()
    ensures NamesNeither(Svc.MsgRateLimited)
  {
    assert NoCapitalAP(Svc.MsgRateLimited);
    NeitherPhrase(Svc.MsgRateLimited);
  }

  /** The messages of the four other classified statuses name neither the key nor the
      provider. */
  lemma ClassifiedMessageNamesNeither(status: int, data: JsVal)
    requires status in {402, 404, 422, 429}
    ensures NamesNeither(Svc.FailureMessage(Svc.HttpStatus(status, data)))
  {
    if status == 402 {
      QuotaNamesNeither();
    } else if status == 404 {
      NotFoundNamesNeither();
    } else if status == 422 {
      InvalidQueryNamesNeither();
    } else {
      RateLimitedNamesNeither();
    }
  }

  /** The status each kind of upstream failure ends in: a rejected key is a 401; no answer,
      or an unclassified status without an `error` text, is a 502; the four other classified
      statuses name neither the key nor the provider, so they fall through to a 500. */
  lemma UpstreamFailureStatus(f: Svc.Failure, nodeEnv: Option<string>)
    ensures f.HttpStatus? && f.status == 401 ==>
      HandleError(Svc.HandlePlausibleError(f), nodeEnv).status == 401
    ensures f.HttpStatus? && f.status in {402, 404, 422, 429} ==>
      HandleError(Svc.HandlePlausibleError(f), nodeEnv).status == 500
    ensures f.NoResponse? ==> HandleError(Svc.HandlePlausibleError(f), nodeEnv).status == 502
    ensures f.HttpStatus? && !Svc.KnownStatus(f.status) && !Truthy(Prop(f.data, "error")) ==>
      HandleError(Svc.HandlePlausibleError(f), nodeEnv).status == 502
  {
    var m := Svc.FailureMessage(f);
    assert Svc.HandlePlausibleError(f) == NewError(m);
    PlainErrorStatus(m, nodeEnv);
    match f
    case HttpStatus(status, data) =>
      if status == 401 {
        Svc.KnownStatusMessages(data);
        UnauthorizedNamesKey();
      } else if status in {402, 404, 422, 429} {
        ClassifiedMessageNamesNeither(status, data);
      } else if !Svc.KnownStatus(status) && !Truthy(Prop(data, "error")) {
        Svc.OtherStatusMessage(status, data);
        StatusMessageNamesProvider(status);
      }
    case NoResponse =>
      UnreachableNamesProvider();
    case Local(_) =>
  }

  /** A success whose payload is null cannot be read; the error is caught as a configuration
      error and answers 500. */
  lemma NullPayloadStatus(body: JsVal, nodeEnv: Option<string>)
    ensures Svc.QueryOutcome(Svc.Success(Null), body).Err?
    ensures HandleError(Svc.QueryOutcome(Svc.Success(Null), body).error, nodeEnv).status == 500
  {
    var m := Svc.ConfigPrefix + CannotRead("null", "results");
    assert NoCapitalAP(Svc.ConfigPrefix) && NoCapitalAP("null") && NoCapitalAP("results");
    CannotReadLacks("null", "results");
    NoCapitalAPConcat(Svc.ConfigPrefix, CannotRead("null", "results"));
    NeitherPhrase(m);
    assert Svc.QueryOutcome(Svc.Success(Null), body) == Err(NewError(m));
  }

  /** On a miss, an upstream failure reaches the client as the error middleware's answer to
      the service's error, and nothing is stored under the key. */
  lemma MissedFailureAnswer(m: Store, key: string, clock: Clock, stdTtl: int, c: Svc.Call, f: Svc.Failure,
                            ttl: int, params: Option<seq<(string, JsVal)>>, nodeEnv: Option<string>)
    requires !Hit(m, key, clock.lookupAt)
    ensures var s := Serve(m, key, clock, stdTtl, Answered(c, Err(Svc.HandlePlausibleError(f)), ttl, params));
      Answer(s.out, nodeEnv) == HandleError(Svc.HandlePlausibleError(f), nodeEnv)
      && s.entries == AfterGet(m, key, clock.lookupAt) && s.calls == [c]
  {
  }

  /** A timeseries request that misses the cache and whose upstream rejects the key is
      answered 401, after exactly one upstream call. */
  lemma TimeseriesRejectedKey(m: Store, stdTtl: int, cfg: Svc.Config, authorization: Option<string>,
                              params: Container, query: Container, body: Container, bodyParsed: bool,
                              reply: (nat, Svc.Call) -> Svc.Reply, n: nat, clock: Clock, nodeEnv: Option<string>)
    requires !Hit(m, TimeseriesKey(TimeseriesQueryOf(query)), clock.lookupAt)
    requires Field(query, "metrics") == Undefined || Field(query, "metrics").Str?
    requires forall i, c :: reply(i, c).Failed? && reply(i, c).failure.HttpStatus? && reply(i, c).failure.status == 401
    ensures var s := Handled(TimeseriesRoute, m, stdTtl, cfg, authorization, params, query, body, bodyParsed, reply, n, clock);
      Answer(s.out, nodeEnv).status == 401 && |s.calls| == 1
  {
    var t := TimeseriesQueryOf(query);
    var p := Svc.TimeseriesParams(t.siteId, t.period, SplitMetrics(t.metrics).value, t.interval);
    var c := Svc.TimeseriesCall(cfg, HeaderApiKey(authorization), p);
    var f := reply(n, c).failure;
    assert TimeseriesMiss(cfg, HeaderApiKey(authorization), t, reply, n)
      == Answered(c, Err(Svc.HandlePlausibleError(f)), TimeseriesTtl, Some(TimeseriesEcho(t)));
    MissedFailureAnswer(m, TimeseriesKey(t), clock, stdTtl, c, f, TimeseriesTtl, Some(TimeseriesEcho(t)), nodeEnv);
    UpstreamFailureStatus(f, nodeEnv);
  }

  /** The runtime's text for reading a property of null or undefined has a capital A or a
      capital P only where the value's name or the key has one. */
  lemma CannotReadLacks(what: string, key: string)
    requires NoCapitalAP(what) && NoCapitalAP(key)
    ensures NoCapitalAP(CannotRead(what, key))
  {
    assert NoCapitalAP("Cannot read properties of ") && NoCapitalAP(" (reading '") && NoCapitalAP("')");
    NoCapitalAPConcat("Cannot read properties of ", what);
    NoCapitalAPConcat("Cannot read properties of " + what, " (reading '");
    NoCapitalAPConcat("Cannot read properties of " + what + " (reading '", key);
    NoCapitalAPConcat("Cannot read properties of " + what + " (reading '" + key, "')");
  }

  /** Likewise the runtime's text for destructuring an undefined value. */
  lemma CannotDestructureLacks(key: string, what: string)
    requires NoCapitalAP(key) && NoCapitalAP(what)
    ensures NoCapitalAP(CannotDestructure(key, what))
  {
    var a, b, c := "Cannot destructure property '", "' of '", "' as it is undefined.";
    assert NoCapitalAP(a) && NoCapitalAP(b) && NoCapitalAP(c);
    NoCapitalAPConcat(a, key);
    NoCapitalAPConcat(a + key, b);
    NoCapitalAPConcat(a + key + b, what);
    NoCapitalAPConcat(a + key + b + what, c);
  }

  /** Likewise the runtime's text for calling a value that is not a function. */
  lemma NotAFunctionLacks(callee: string)
    requires NoCapitalAP(callee)
    ensures NoCapitalAP(NotAFunction(callee))
  {
    assert NoCapitalAP(" is not a function");
    NoCapitalAPConcat(callee, " is not a function");
  }

  lemma NotAFunctionNamesNeither()
    ensures NamesNeither(NotAFunction("metrics.split"))
  {
    assert NoCapitalAP("metrics.split");
    NotAFunctionLacks("metrics.split");
    NeitherPhrase(NotAFunction("metrics.split"));
  }

  /** The texts of the errors `metrics.split` throws name neither the key nor the provider. */
  lemma SplitErrorNamesNeither(metrics: JsVal)
    requires !metrics.Str?
    ensures NamesNeither(SplitMetrics(metrics).error.message)
  {
    if metrics == Null {
      assert NoCapitalAP("null") && NoCapitalAP("split");
      CannotReadLacks("null", "split");
      NeitherPhrase(CannotRead("null", "split"));
    } else if metrics == Undefined {
      assert NoCapitalAP("undefined") && NoCapitalAP("split");
      CannotReadLacks("undefined", "split");
      NeitherPhrase(CannotRead("undefined", "split"));
    } else {
      NotAFunctionNamesNeither();
    }
  }

  /** An error the handler throws before calling the service (a `metrics` value that is not a
      string) is a `TypeError`, and answers 500. */
  lemma UnsplittableMetricsStatus(metrics: JsVal, nodeEnv: Option<string>)
    requires !metrics.Str?
    ensures HandleError(SplitMetrics(metrics).error, nodeEnv).status == 500
  {
    SplitErrorNamesNeither(metrics);
    UnnamedMessageStatus(SplitMetrics(metrics).error, nodeEnv);
  }

  /** A connection test whose body no parser set throws before it probes: nothing is called,
      nothing is stored, and the answer is a 500. */
  lemma UnparsedBodyStatus(m: Store, stdTtl: int, cfg: Svc.Config, authorization: Option<string>,
                           params: Container, query: Container, body: Container,
                           reply: (nat, Svc.Call) -> Svc.Reply, n: nat, clock: Clock, nodeEnv: Option<string>)
    ensures var s := Handled(TestConnectionRoute, m, stdTtl, cfg, authorization, params, query, body, false, reply, n, clock);
      Answer(s.out, nodeEnv).status == 500 && s.calls == [] && s.entries == m
  {
    assert Handled(TestConnectionRoute, m, stdTtl, cfg, authorization, params, query, body, false, reply, n, clock)
      == ConnectionTested(m, cfg, body, false, reply, n);
    UnparsedBodyAnswer(nodeEnv);
  }

  lemma UnparsedBodyAnswer(nodeEnv: Option<string>)
    ensures HandleError(UnparsedBody(), nodeEnv).status == 500
  {
    UnparsedBodyNamesNeither();
    UnnamedMessageStatus(UnparsedBody(), nodeEnv);
  }

  lemma UnparsedBodyNamesNeither()
    ensures NamesNeither(UnparsedBody().message)
  {
    assert NoCapitalAP("api_key") && NoCapitalAP("req.body");
    CannotDestructureLacks("api_key", "req.body");
    NeitherPhrase(CannotDestructure("api_key", "req.body"));
  }

  /** The error a hit throws names neither the key nor the provider. */
  lemma HitLogFailureNamesNeither()
    ensures NamesNeither(HitLogFailure().message)
  {
    assert NoCapitalAP("logger.info");
    NotAFunctionLacks("logger.info");
    NeitherPhrase(NotAFunction("logger.info"));
  }

  /** A cache hit on any data route ends as a 500, with no upstream call and the store as it
      was. */
  lemma ServeHitStatus(m: Store, key: string, clock: Clock, stdTtl: int, miss: Miss, nodeEnv: Option<string>)
    requires Hit(m, key, clock.lookupAt)
    ensures var s := Serve(m, key, clock, stdTtl, miss);
      Answer(s.out, nodeEnv).status == 500 && s.calls == [] && s.entries == m
  {
    ServeHit(m, key, clock, stdTtl, miss);
    HitLogFailureNamesNeither();
    UnnamedMessageStatus(HitLogFailure(), nodeEnv);
  }

  /** Two identical realtime requests, the second within 30 seconds of the first's store: the
      first answers 200 with the envelope, and the second, a hit, answers 500; the upstream is
      called once. */
  lemma RepeatedRealtimeFails(m: Store, stdTtl: int, cfg: Svc.Config, authorization: Option<string>,
                              params: Container, query: Container, body: Container, bodyParsed: bool,
                              reply: (nat, Svc.Call) -> Svc.Reply, n: nat, c1: Clock, c2: Clock, nodeEnv: Option<string>)
    requires !Hit(m, RealtimeKey(Field(query, "site_id")), c1.lookupAt)
    requires reply(n, Svc.RealtimeCall(cfg, HeaderApiKey(authorization), Field(query, "site_id"))).Success?
    requires c2.lookupAt <= c1.storedAt + RealtimeTtl * 1000
    ensures var s1 := Handled(RealtimeRoute, m, stdTtl, cfg, authorization, params, query, body, bodyParsed, reply, n, c1);
      var s2 := Handled(RealtimeRoute, s1.entries, stdTtl, cfg, authorization, params, query, body, bodyParsed, reply, n + |s1.calls|, c2);
      && Answer(s1.out, nodeEnv).status == 200 && Answer(s2.out, nodeEnv).status == 500
      && |s1.calls + s2.calls| == 1
  {
    var siteId := Field(query, "site_id");
    var apiKey := HeaderApiKey(authorization);
    var key := RealtimeKey(siteId);
    var miss1 := RealtimeMiss(cfg, apiKey, siteId, reply, n, c1);
    var s1 := Serve(m, key, c1, stdTtl, miss1);
    assert Handled(RealtimeRoute, m, stdTtl, cfg, authorization, params, query, body, bodyParsed, reply, n, c1) == s1;
    RealtimeRepeatOneCall(m, siteId, cfg, apiKey, reply, n, c1, c2, stdTtl);
    var s2 := Serve(s1.entries, key, c2, stdTtl, RealtimeMiss(cfg, apiKey, siteId, reply, n + |s1.calls|, c2));
    assert Handled(RealtimeRoute, s1.entries, stdTtl, cfg, authorization, params, query, body, bodyParsed, reply, n + |s1.calls|, c2) == s2;
    HitLogFailureNamesNeither();
    UnnamedMessageStatus(HitLogFailure(), nodeEnv);
  }
}

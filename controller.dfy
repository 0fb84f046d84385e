/**
 * The route handlers. Each data handler reads its parameters with defaults,
 * builds a cache key from them, answers from the cache when it holds a truthy
 * value for the key, and otherwise asks the upstream client, stores the payload
 * with a per-type TTL and answers with an envelope `{success, data, params?,
 * timestamp}`. The connection test asks the upstream once and never uses the cache.
 */
module PlausibleController {
  import opened Wrappers
  import opened Strings
  import opened JsValues
  import opened Http
  import opened Cache
  import Svc = PlausibleService

  /** A destructuring default `{ x = d } = obj`: it applies only when the property is undefined. */
  function OrDefault(v: JsVal, d: JsVal): (r: JsVal)
    ensures r == d || r == v
    ensures v != Undefined ==> r == v
  {
    if v == Undefined then d else v
  }

  const DefaultPeriod := "7d"
  const DefaultMetrics := "visitors"
  const AggregateMetrics := "visitors,pageviews,bounce_rate,visit_duration"
  const DefaultInterval := "date"
  const DefaultLimit := 10

  /** The TTLs, in seconds, each handler stores its payload with. */
  const RealtimeTtl := 30
  const TimeseriesTtl := 300
  const BreakdownTtl := 600
  const AggregateTtl := 300

  // ---------------------------------------------------------------------------
  // parameters with their defaults

  datatype TimeseriesQuery = TimeseriesQuery(siteId: JsVal, period: JsVal, metrics: JsVal, interval: JsVal)
  datatype BreakdownQuery = BreakdownQuery(siteId: JsVal, property: JsVal, period: JsVal, metrics: JsVal, limit: JsVal)
  datatype AggregateQuery = AggregateQuery(siteId: JsVal, period: JsVal, metrics: JsVal)

  function TimeseriesQueryOf(q: Container): TimeseriesQuery {
    TimeseriesQuery(
      Field(q, "site_id"),
      OrDefault(Field(q, "period"), Str(DefaultPeriod)),
      OrDefault(Field(q, "metrics"), Str(DefaultMetrics)),
      OrDefault(Field(q, "interval"), Str(DefaultInterval)))
  }

  /** `property` is read from the path parameters, everything else from the query string. */
  function BreakdownQueryOf(params: Container, q: Container): BreakdownQuery {
    BreakdownQuery(
      Field(q, "site_id"),
      Field(params, "property"),
      OrDefault(Field(q, "period"), Str(DefaultPeriod)),
      OrDefault(Field(q, "metrics"), Str(DefaultMetrics)),
      OrDefault(Field(q, "limit"), Num(DefaultLimit)))
  }

  function AggregateQueryOf(q: Container): AggregateQuery {
    AggregateQuery(
      Field(q, "site_id"),
      OrDefault(Field(q, "period"), Str(DefaultPeriod)),
      OrDefault(Field(q, "metrics"), Str(AggregateMetrics)))
  }

  // ---------------------------------------------------------------------------
  // cache keys: template literals over the defaulted parameters

  function RealtimeKey(siteId: JsVal): string {
    "realtime:" + ToStr(siteId)
  }

  function TimeseriesKey(t: TimeseriesQuery): string {
    "timeseries:" + ToStr(t.siteId) + ":" + ToStr(t.period) + ":" + ToStr(t.metrics) + ":" + ToStr(t.interval)
  }

  function BreakdownKey(b: BreakdownQuery): string {
    "breakdown:" + ToStr(b.siteId) + ":" + ToStr(b.property) + ":" + ToStr(b.period) + ":" + ToStr(b.metrics) + ":" + ToStr(b.limit)
  }

  function AggregateKey(a: AggregateQuery): string {
    "aggregate:" + ToStr(a.siteId) + ":" + ToStr(a.period) + ":" + ToStr(a.metrics)
  }

  /** The text of each parameter that goes into a key, in key order. */
  function TimeseriesParts(t: TimeseriesQuery): seq<string> {
    [ToStr(t.siteId), ToStr(t.period), ToStr(t.metrics), ToStr(t.interval)]
  }

  function BreakdownParts(b: BreakdownQuery): seq<string> {
    [ToStr(b.siteId), ToStr(b.property), ToStr(b.period), ToStr(b.metrics), ToStr(b.limit)]
  }

  function AggregateParts(a: AggregateQuery): seq<string> {
    [ToStr(a.siteId), ToStr(a.period), ToStr(a.metrics)]
  }

  // ---------------------------------------------------------------------------
  // what the handlers compute before calling the service

  /** `req.headers.authorization?.replace('Bearer ', '')` */
  function HeaderApiKey(authorization: Option<string>): JsVal {
    match authorization
    case None => Undefined
    case Some(h) => Str(ReplaceFirst(h, "Bearer ", ""))
  }

  /** `metrics.split(',')`: an array of strings for a string; any other value has no
      `split` method, and null (undefined cannot occur after the default) has no properties. */
  function SplitMetrics(metrics: JsVal): (r: Result<JsVal, JsError>)
    ensures r.Ok? <==> metrics.Str?
    ensures r.Ok? ==> r.value == Arr(StrList(Split(metrics.s, ',')))
    ensures r.Err? ==> r.error.name == "TypeError"
  {
    match metrics
    case Str(s) => Ok(Arr(StrList(Split(s, ','))))
    case Null => Err(NewTypeError(CannotRead("null", "split")))
    case Undefined => Err(NewTypeError(CannotRead("undefined", "split")))
    case _ => Err(NewTypeError(NotAFunction("metrics.split")))
  }

  /** `parseInt(v)`: the integer the text of `v` starts with, or NaN. */
  function ParseIntValue(v: JsVal): (r: JsVal)
    ensures r.Num? || r == NaN
    ensures r.Num? <==> ParseInt(ToStr(v)).Some?
  {
    match ParseInt(ToStr(v))
    case Some(n) => Num(n)
    case None => NaN
  }

  // ---------------------------------------------------------------------------
  // the answers

  /** `{success: true, data, params?, timestamp}` */
  function Envelope(data: JsVal, params: Option<seq<(string, JsVal)>>, timestamp: string): (r: JsVal)
    ensures r.Obj? && Prop(r, "success") == Bool(true) && Prop(r, "data") == data
    ensures Prop(r, "params") == if params.Some? then Obj(params.value) else Undefined
    ensures Prop(r, "timestamp") == Str(timestamp)
  {
    if params.Some? then
      var fields := [("success", Bool(true)), ("data", data), ("params", Obj(params.value)), ("timestamp", Str(timestamp))];
      LookupFirst(fields, "data", 1);
      LookupFirst(fields, "params", 2);
      LookupFirst(fields, "timestamp", 3);
      Obj(fields)
    else
      var fields := [("success", Bool(true)), ("data", data), ("timestamp", Str(timestamp))];
      LookupFirst(fields, "data", 1);
      LookupFirst(fields, "timestamp", 2);
      assert "params" !in Keys(fields);
      Obj(fields)
  }

  function TimeseriesEcho(t: TimeseriesQuery): seq<(string, JsVal)> {
    [("site_id", t.siteId), ("period", t.period), ("metrics", t.metrics), ("interval", t.interval)]
  }

  function BreakdownEcho(b: BreakdownQuery): seq<(string, JsVal)> {
    [("site_id", b.siteId), ("property", b.property), ("period", b.period), ("metrics", b.metrics), ("limit", b.limit)]
  }

  function AggregateEcho(a: AggregateQuery): seq<(string, JsVal)> {
    [("site_id", a.siteId), ("period", a.period), ("metrics", a.metrics)]
  }

  /** The instants a request observes: the cache lookup and the cache store (ms, after the
      upstream answered), and the two ISO timestamps, from the service and the envelope. */
  datatype Clock = Clock(lookupAt: int, storedAt: int, serviceIso: string, envelopeIso: string)

  /** What a handler does on a miss: it throws before calling the service, or it calls the
      upstream with `call`, which settles as `result`; a payload is stored for `ttl` seconds and
      answered inside an envelope that carries `params` when there are any. */
  datatype Miss =
    | Throws(error: JsError)
    | Answered(call: Svc.Call, result: Result<JsVal, JsError>, ttl: int, params: Option<seq<(string, JsVal)>>)

  /** The effect of one request: the answer, the new cache store and the upstream calls made. */
  datatype Served = Served(out: Outcome, entries: Store, calls: seq<Svc.Call>)

  /** The request is answered from the cache: the key holds a live, truthy value. */
  predicate Hit(m: Store, key: string, now: int) {
    key in m && Live(m[key], now) && Truthy(m[key].value)
  }

  /** The cache-aside rule shared by the four data handlers. On a hit the handler logs before
      answering, and that call throws, so the error goes to `next`. */
  function Serve(m: Store, key: string, clock: Clock, stdTtl: int, miss: Miss): Served {
    if Hit(m, key, clock.lookupAt) then
      Served(NextError(HitLogFailure()), m, [])
    else
      var swept := AfterGet(m, key, clock.lookupAt);
      match miss
      case Throws(e) => Served(NextError(e), swept, [])
      case Answered(c, Err(e), _, _) => Served(NextError(e), swept, [c])
      case Answered(c, Ok(data), ttl, params) =>
        Served(Respond(Json(Envelope(data, params, clock.envelopeIso))), Stored(swept, key, data, Some(ttl), stdTtl, clock.storedAt), [c])
  }

  /** A miss whose upstream call settles: the answer, the store and the single call. */
  lemma ServeAnswered(m: Store, key: string, clock: Clock, stdTtl: int, c: Svc.Call,
                      result: Result<JsVal, JsError>, ttl: int, params: Option<seq<(string, JsVal)>>)
    requires !Hit(m, key, clock.lookupAt)
    ensures var s := Serve(m, key, clock, stdTtl, Answered(c, result, ttl, params));
      && s.calls == [c]
      && (result.Err? ==> s.out == NextError(result.error) && s.entries == AfterGet(m, key, clock.lookupAt))
      && (result.Ok? ==>
            s.out == Respond(Json(Envelope(result.value, params, clock.envelopeIso)))
            && s.entries == Stored(AfterGet(m, key, clock.lookupAt), key, result.value, Some(ttl), stdTtl, clock.storedAt))
  {
  }

  function RealtimeMiss(cfg: Svc.Config, apiKey: JsVal, siteId: JsVal, reply: (nat, Svc.Call) -> Svc.Reply, n: nat, clock: Clock): Miss {
    var c := Svc.RealtimeCall(cfg, apiKey, siteId);
    Answered(c, Svc.RealtimeOutcome(reply(n, c), siteId, clock.serviceIso), RealtimeTtl, None)
  }

  function TimeseriesMiss(cfg: Svc.Config, apiKey: JsVal, t: TimeseriesQuery, reply: (nat, Svc.Call) -> Svc.Reply, n: nat): Miss {
    match SplitMetrics(t.metrics)
    case Err(e) => Throws(e)
    case Ok(ms) =>
      var p := Svc.TimeseriesParams(t.siteId, t.period, ms, t.interval);
      var c := Svc.TimeseriesCall(cfg, apiKey, p);
      Answered(c, Svc.QueryOutcome(reply(n, c), Obj(Svc.TimeseriesBody(p))), TimeseriesTtl, Some(TimeseriesEcho(t)))
  }

  function BreakdownMiss(cfg: Svc.Config, apiKey: JsVal, b: BreakdownQuery, reply: (nat, Svc.Call) -> Svc.Reply, n: nat): Miss {
    match SplitMetrics(b.metrics)
    case Err(e) => Throws(e)
    case Ok(ms) =>
      var p := Svc.BreakdownParams(b.siteId, b.property, b.period, ms, ParseIntValue(b.limit));
      var c := Svc.BreakdownCall(cfg, apiKey, p);
      Answered(c, Svc.QueryOutcome(reply(n, c), Obj(Svc.BreakdownBody(p))), BreakdownTtl, Some(BreakdownEcho(b)))
  }

  function AggregateMiss(cfg: Svc.Config, apiKey: JsVal, a: AggregateQuery, reply: (nat, Svc.Call) -> Svc.Reply, n: nat): Miss {
    match SplitMetrics(a.metrics)
    case Err(e) => Throws(e)
    case Ok(ms) =>
      var p := Svc.AggregateParams(a.siteId, a.period, ms);
      var c := Svc.AggregateCall(cfg, apiKey, p);
      Answered(c, Svc.QueryOutcome(reply(n, c), Obj(Svc.AggregateBody(p))), AggregateTtl, Some(AggregateEcho(a)))
  }

  /** The connection test's answer. */
  function ConnectionResponse(ok: bool, siteId: JsVal): (r: Response)
    ensures r.status == if ok then 200 else 401
    ensures Prop(r.body, "success") == Bool(ok)
    ensures ok ==> Prop(r.body, "site_id") == siteId
  {
    if ok then
      var body := [("success", Bool(true)), ("message", Str("Connexion réussie à l'API Plausible")), ("site_id", siteId)];
      LookupFirst(body, "site_id", 2);
      Json(Obj(body))
    else
      Response(401, Obj([("success", Bool(false)), ("error", Str("Échec de la connexion")), ("message", Str("Clé API ou site ID invalide"))]))
  }

  /** The `TypeError` the connection test throws on an undefined body. */
  function UnparsedBody(): (e: JsError)
    ensures e.name == "TypeError" && e.message == CannotDestructure("api_key", "req.body") && e.statusCode == None
  {
    NewTypeError(CannotDestructure("api_key", "req.body"))
  }

  /** The controller's `logger` is the logging middleware function itself, which has no
      `info` property: the log call on a hit throws before `res.json` is reached. */
  function HitLogFailure(): (e: JsError)
    ensures e.name == "TypeError" && e.message == NotAFunction("logger.info") && e.statusCode == None
  {
    NewTypeError(NotAFunction("logger.info"))
  }

  // ---------------------------------------------------------------------------
  // the handlers

  method GetRealtime(cache: CacheManager, up: Svc.Upstream, cfg: Svc.Config, req: Request, clock: Clock) returns (out: Outcome)
    modifies cache, up
    ensures var siteId := Field(req.query, "site_id");
      var s := Serve(old(cache.entries), RealtimeKey(siteId), clock, cache.stdTtl,
                     RealtimeMiss(cfg, HeaderApiKey(req.authorization), siteId, up.reply, |old(up.log)|, clock));
      out == s.out && cache.entries == s.entries && up.log == old(up.log) + s.calls
  {
    var siteId := Field(req.query, "site_id");
    var apiKey := HeaderApiKey(req.authorization);
    var key := RealtimeKey(siteId);
    ghost var m := cache.entries;
    var cached := cache.Get(key, clock.lookupAt);
    if cached.Some? && Truthy(cached.value) {
      assert Hit(m, key, clock.lookupAt);
      return NextError(HitLogFailure());
    }
    assert !Hit(m, key, clock.lookupAt);
    ghost var n := |up.log|;
    var data := Svc.GetRealtime(cfg, up, apiKey, siteId, clock.serviceIso);
    ServeAnswered(m, key, clock, cache.stdTtl, Svc.RealtimeCall(cfg, apiKey, siteId), data, RealtimeTtl, None);
    if data.Err? {
      return NextError(data.error);
    }
    var _ := cache.Set(key, data.value, Some(RealtimeTtl), clock.storedAt);
    out := Respond(Json(Envelope(data.value, None, clock.envelopeIso)));
  }

  method GetTimeseries(cache: CacheManager, up: Svc.Upstream, cfg: Svc.Config, req: Request, clock: Clock) returns (out: Outcome)
    modifies cache, up
    ensures var t := TimeseriesQueryOf(req.query);
      var s := Serve(old(cache.entries), TimeseriesKey(t), clock, cache.stdTtl,
                     TimeseriesMiss(cfg, HeaderApiKey(req.authorization), t, up.reply, |old(up.log)|));
      out == s.out && cache.entries == s.entries && up.log == old(up.log) + s.calls
  {
    var t := TimeseriesQueryOf(req.query);
    var apiKey := HeaderApiKey(req.authorization);
    var key := TimeseriesKey(t);
    ghost var m := cache.entries;
    var cached := cache.Get(key, clock.lookupAt);
    if cached.Some? && Truthy(cached.value) {
      assert Hit(m, key, clock.lookupAt);
      return NextError(HitLogFailure());
    }
    assert !Hit(m, key, clock.lookupAt);
    var metrics := SplitMetrics(t.metrics);
    if metrics.Err? {
      return NextError(metrics.error);
    }
    ghost var n := |up.log|;
    var p := Svc.TimeseriesParams(t.siteId, t.period, metrics.value, t.interval);
    var data := Svc.GetTimeseries(cfg, up, apiKey, p);
    assert TimeseriesMiss(cfg, apiKey, t, up.reply, n)
      == Answered(Svc.TimeseriesCall(cfg, apiKey, p), data, TimeseriesTtl, Some(TimeseriesEcho(t)));
    ServeAnswered(m, key, clock, cache.stdTtl, Svc.TimeseriesCall(cfg, apiKey, p), data, TimeseriesTtl, Some(TimeseriesEcho(t)));
    if data.Err? {
      return NextError(data.error);
    }
    var _ := cache.Set(key, data.value, Some(TimeseriesTtl), clock.storedAt);
    out := Respond(Json(Envelope(data.value, Some(TimeseriesEcho(t)), clock.envelopeIso)));
  }

  method GetBreakdown(cache: CacheManager, up: Svc.Upstream, cfg: Svc.Config, req: Request, clock: Clock) returns (out: Outcome)
    modifies cache, up
    ensures var b := BreakdownQueryOf(req.params, req.query);
      var s := Serve(old(cache.entries), BreakdownKey(b), clock, cache.stdTtl,
                     BreakdownMiss(cfg, HeaderApiKey(req.authorization), b, up.reply, |old(up.log)|));
      out == s.out && cache.entries == s.entries && up.log == old(up.log) + s.calls
  {
    var b := BreakdownQueryOf(req.params, req.query);
    var apiKey := HeaderApiKey(req.authorization);
    var key := BreakdownKey(b);
    ghost var m := cache.entries;
    var cached := cache.Get(key, clock.lookupAt);
    if cached.Some? && Truthy(cached.value) {
      assert Hit(m, key, clock.lookupAt);
      return NextError(HitLogFailure());
    }
    assert !Hit(m, key, clock.lookupAt);
    var metrics := SplitMetrics(b.metrics);
    if metrics.Err? {
      return NextError(metrics.error);
    }
    var limit := ParseIntValue(b.limit);
    ghost var n := |up.log|;
    var p := Svc.BreakdownParams(b.siteId, b.property, b.period, metrics.value, limit);
    var data := Svc.GetBreakdown(cfg, up, apiKey, p);
    assert BreakdownMiss(cfg, apiKey, b, up.reply, n)
      == Answered(Svc.BreakdownCall(cfg, apiKey, p), data, BreakdownTtl, Some(BreakdownEcho(b)));
    ServeAnswered(m, key, clock, cache.stdTtl, Svc.BreakdownCall(cfg, apiKey, p), data, BreakdownTtl, Some(BreakdownEcho(b)));
    if data.Err? {
      return NextError(data.error);
    }
    var _ := cache.Set(key, data.value, Some(BreakdownTtl), clock.storedAt);
    out := Respond(Json(Envelope(data.value, Some(BreakdownEcho(b)), clock.envelopeIso)));
  }

  method GetAggregate(cache: CacheManager, up: Svc.Upstream, cfg: Svc.Config, req: Request, clock: Clock) returns (out: Outcome)
    modifies cache, up
    ensures var a := AggregateQueryOf(req.query);
      var s := Serve(old(cache.entries), AggregateKey(a), clock, cache.stdTtl,
                     AggregateMiss(cfg, HeaderApiKey(req.authorization), a, up.reply, |old(up.log)|));
      out == s.out && cache.entries == s.entries && up.log == old(up.log) + s.calls
  {
    var a := AggregateQueryOf(req.query);
    var apiKey := HeaderApiKey(req.authorization);
    var key := AggregateKey(a);
    ghost var m := cache.entries;
    var cached := cache.Get(key, clock.lookupAt);
    if cached.Some? && Truthy(cached.value) {
      assert Hit(m, key, clock.lookupAt);
      return NextError(HitLogFailure());
    }
    assert !Hit(m, key, clock.lookupAt);
    var metrics := SplitMetrics(a.metrics);
    if metrics.Err? {
      return NextError(metrics.error);
    }
    ghost var n := |up.log|;
    var p := Svc.AggregateParams(a.siteId, a.period, metrics.value);
    var data := Svc.GetAggregate(cfg, up, apiKey, p);
    assert AggregateMiss(cfg, apiKey, a, up.reply, n)
      == Answered(Svc.AggregateCall(cfg, apiKey, p), data, AggregateTtl, Some(AggregateEcho(a)));
    ServeAnswered(m, key, clock, cache.stdTtl, Svc.AggregateCall(cfg, apiKey, p), data, AggregateTtl, Some(AggregateEcho(a)));
    if data.Err? {
      return NextError(data.error);
    }
    var _ := cache.Set(key, data.value, Some(AggregateTtl), clock.storedAt);
    out := Respond(Json(Envelope(data.value, Some(AggregateEcho(a)), clock.envelopeIso)));
  }

  /** The connection test reads the key and the site from the body; it has no cache argument,
      so it cannot touch the cache. Destructuring an undefined body throws before the probe. */
  method TestConnection(up: Svc.Upstream, cfg: Svc.Config, req: Request) returns (out: Outcome)
    modifies up
    ensures !req.bodyParsed ==> up.log == old(up.log) && out == NextError(UnparsedBody())
    ensures req.bodyParsed ==>
      var apiKey := Field(req.body, "api_key");
      var siteId := Field(req.body, "site_id");
      var c := Svc.RealtimeCall(cfg, apiKey, siteId);
      up.log == old(up.log) + [c] && out == Respond(ConnectionResponse(up.reply(|old(up.log)|, c).Success?, siteId))
  {
    if !req.bodyParsed {
      return NextError(UnparsedBody());
    }
    var apiKey := Field(req.body, "api_key");
    var siteId := Field(req.body, "site_id");
    var isValid := Svc.TestConnection(cfg, up, apiKey, siteId);
    out := Respond(ConnectionResponse(isValid, siteId));
  }

  // ---------------------------------------------------------------------------
  // properties of the cache-aside rule

  /** A hit never answers with the cached value: the log call's `TypeError` is passed on,
      no upstream call is made and the store is left as it was. */
  lemma ServeHit(m: Store, key: string, clock: Clock, stdTtl: int, miss: Miss)
    requires Hit(m, key, clock.lookupAt)
    ensures Serve(m, key, clock, stdTtl, miss) == Served(NextError(HitLogFailure()), m, [])
  {
  }

  /** A miss whose upstream call succeeds makes exactly that call, stores the payload (not the
      envelope) for the handler's TTL, answers with the envelope, and leaves every other key
      as it was. */
  lemma ServeStores(m: Store, key: string, clock: Clock, stdTtl: int, miss: Miss, later: int, other: string)
    requires !Hit(m, key, clock.lookupAt) && miss.Answered? && miss.result.Ok?
    ensures var s := Serve(m, key, clock, stdTtl, miss);
      && s.calls == [miss.call]
      && s.out == Respond(Json(Envelope(miss.result.value, miss.params, clock.envelopeIso)))
      && key in s.entries && s.entries[key].value == miss.result.value
      && Peek(s.entries, key, later)
         == (if later <= clock.storedAt + EffectiveTtl(Some(miss.ttl), stdTtl) * 1000 then Some(miss.result.value) else None)
      && (other != key ==> Peek(s.entries, other, later) == Peek(m, other, later))
  {
    var swept := AfterGet(m, key, clock.lookupAt);
    SetThenGet(swept, key, miss.result.value, Some(miss.ttl), stdTtl, clock.storedAt, later);
    if other != key {
      SetKeepsOthers(swept, key, miss.result.value, Some(miss.ttl), stdTtl, clock.storedAt, other, later);
    }
  }

  /** A miss that fails, before or at the upstream call, passes the error on and stores
      nothing: afterwards the key is a hit at no instant. */
  lemma ServeFailureNotCached(m: Store, key: string, clock: Clock, stdTtl: int, miss: Miss, later: int)
    requires !Hit(m, key, clock.lookupAt) && (miss.Throws? || miss.result.Err?)
    ensures var s := Serve(m, key, clock, stdTtl, miss);
      && s.out == NextError(if miss.Throws? then miss.error else miss.result.error)
      && s.calls == (if miss.Throws? then [] else [miss.call])
      && s.entries == AfterGet(m, key, clock.lookupAt)
      && !Hit(s.entries, key, later)
  {
  }

  /** Two identical requests, the second within the TTL of the payload the first stored: the
      upstream is called once, and the second request, a hit, passes the log call's error on
      instead of answering. */
  lemma RepeatWithinTtl(m: Store, key: string, c1: Clock, c2: Clock, stdTtl: int, miss1: Miss, miss2: Miss)
    requires !Hit(m, key, c1.lookupAt) && miss1.Answered? && miss1.result.Ok? && Truthy(miss1.result.value)
    requires c2.lookupAt <= c1.storedAt + EffectiveTtl(Some(miss1.ttl), stdTtl) * 1000
    ensures var s1 := Serve(m, key, c1, stdTtl, miss1);
      var s2 := Serve(s1.entries, key, c2, stdTtl, miss2);
      && s1.calls + s2.calls == [miss1.call]
      && s2.out == NextError(HitLogFailure())
      && s2.entries == s1.entries
  {
    var s1 := Serve(m, key, c1, stdTtl, miss1);
    ServeStores(m, key, c1, stdTtl, miss1, c2.lookupAt, key);
    assert Hit(s1.entries, key, c2.lookupAt);
  }

  /** A failed request leaves nothing behind, so repeating it calls the upstream again. */
  lemma RetryAfterFailure(m: Store, key: string, c1: Clock, c2: Clock, stdTtl: int, miss1: Miss, miss2: Miss)
    requires !Hit(m, key, c1.lookupAt) && (miss1.Throws? || miss1.result.Err?) && miss2.Answered?
    ensures var s1 := Serve(m, key, c1, stdTtl, miss1);
      Serve(s1.entries, key, c2, stdTtl, miss2).calls == [miss2.call]
  {
    ServeFailureNotCached(m, key, c1, stdTtl, miss1, c2.lookupAt);
  }

  /** For the timeseries handler: a first request whose upstream call succeeds, repeated
      within 300 seconds of the store, makes exactly one upstream call in all, and the repeat
      passes the log call's error on. */
  lemma TimeseriesRepeatOneCall(m: Store, t: TimeseriesQuery, cfg: Svc.Config, apiKey: JsVal,
                                reply: (nat, Svc.Call) -> Svc.Reply, n: nat, c1: Clock, c2: Clock, stdTtl: int)
    requires !Hit(m, TimeseriesKey(t), c1.lookupAt)
    requires TimeseriesMiss(cfg, apiKey, t, reply, n).Answered? && TimeseriesMiss(cfg, apiKey, t, reply, n).result.Ok?
    requires c2.lookupAt <= c1.storedAt + TimeseriesTtl * 1000
    ensures var key := TimeseriesKey(t);
      var s1 := Serve(m, key, c1, stdTtl, TimeseriesMiss(cfg, apiKey, t, reply, n));
      var s2 := Serve(s1.entries, key, c2, stdTtl, TimeseriesMiss(cfg, apiKey, t, reply, n + |s1.calls|));
      |s1.calls + s2.calls| == 1 && s2.out == NextError(HitLogFailure())
  {
    var miss1 := TimeseriesMiss(cfg, apiKey, t, reply, n);
    var s1 := Serve(m, TimeseriesKey(t), c1, stdTtl, miss1);
    RepeatWithinTtl(m, TimeseriesKey(t), c1, c2, stdTtl, miss1, TimeseriesMiss(cfg, apiKey, t, reply, n + |s1.calls|));
  }

  /** The same for the realtime handler, whose payload is kept for 30 seconds. */
  lemma RealtimeRepeatOneCall(m: Store, siteId: JsVal, cfg: Svc.Config, apiKey: JsVal,
                              reply: (nat, Svc.Call) -> Svc.Reply, n: nat, c1: Clock, c2: Clock, stdTtl: int)
    requires !Hit(m, RealtimeKey(siteId), c1.lookupAt)
    requires reply(n, Svc.RealtimeCall(cfg, apiKey, siteId)).Success?
    requires c2.lookupAt <= c1.storedAt + RealtimeTtl * 1000
    ensures var key := RealtimeKey(siteId);
      var s1 := Serve(m, key, c1, stdTtl, RealtimeMiss(cfg, apiKey, siteId, reply, n, c1));
      var s2 := Serve(s1.entries, key, c2, stdTtl, RealtimeMiss(cfg, apiKey, siteId, reply, n + |s1.calls|, c2));
      |s1.calls + s2.calls| == 1 && s2.out == NextError(HitLogFailure())
  {
    var miss1 := RealtimeMiss(cfg, apiKey, siteId, reply, n, c1);
    var s1 := Serve(m, RealtimeKey(siteId), c1, stdTtl, miss1);
    RepeatWithinTtl(m, RealtimeKey(siteId), c1, c2, stdTtl, miss1, RealtimeMiss(cfg, apiKey, siteId, reply, n + |s1.calls|, c2));
  }

  // ---------------------------------------------------------------------------
  // properties of the keys

  /** Joining behind a prefix, one part at a time. */
  lemma JoinAfter(pre: string, x: string, rest: seq<string>, c: char)
    requires |rest| >= 1
    ensures pre + Join([x] + rest, c) == pre + x + [c] + Join(rest, c)
  {
    JoinCons(x, rest, c);
  }

  /** Each key is its kind's prefix followed by the parameter texts joined with ':'. */
  lemma TimeseriesKeyJoin(t: TimeseriesQuery)
    ensures TimeseriesKey(t) == "timeseries:" + Join(TimeseriesParts(t), ':')
  {
    var p := TimeseriesParts(t);
    var pre := "timeseries:";
    assert p == [p[0]] + [p[1], p[2], p[3]];
    JoinAfter(pre, p[0], [p[1], p[2], p[3]], ':');
    assert [p[1], p[2], p[3]] == [p[1]] + [p[2], p[3]];
    JoinAfter(pre + p[0] + ":", p[1], [p[2], p[3]], ':');
    assert [p[2], p[3]] == [p[2]] + [p[3]];
    JoinAfter(pre + p[0] + ":" + p[1] + ":", p[2], [p[3]], ':');
  }

  lemma BreakdownKeyJoin(b: BreakdownQuery)
    ensures BreakdownKey(b) == "breakdown:" + Join(BreakdownParts(b), ':')
  {
    var p := BreakdownParts(b);
    var pre := "breakdown:";
    assert p == [p[0]] + [p[1], p[2], p[3], p[4]];
    JoinAfter(pre, p[0], [p[1], p[2], p[3], p[4]], ':');
    assert [p[1], p[2], p[3], p[4]] == [p[1]] + [p[2], p[3], p[4]];
    JoinAfter(pre + p[0] + ":", p[1], [p[2], p[3], p[4]], ':');
    assert [p[2], p[3], p[4]] == [p[2]] + [p[3], p[4]];
    JoinAfter(pre + p[0] + ":" + p[1] + ":", p[2], [p[3], p[4]], ':');
    assert [p[3], p[4]] == [p[3]] + [p[4]];
    JoinAfter(pre + p[0] + ":" + p[1] + ":" + p[2] + ":", p[3], [p[4]], ':');
  }

  lemma AggregateKeyJoin(a: AggregateQuery)
    ensures AggregateKey(a) == "aggregate:" + Join(AggregateParts(a), ':')
  {
    var p := AggregateParts(a);
    var pre := "aggregate:";
    assert p == [p[0]] + [p[1], p[2]];
    JoinAfter(pre, p[0], [p[1], p[2]], ':');
    assert [p[1], p[2]] == [p[1]] + [p[2]];
    JoinAfter(pre + p[0] + ":", p[1], [p[2]], ':');
  }

  /** Keys of different kinds never coincide: their prefixes differ in the first character. */
  lemma KeyKindsDiffer(siteId: JsVal, t: TimeseriesQuery, b: BreakdownQuery, a: AggregateQuery)
    ensures RealtimeKey(siteId) != TimeseriesKey(t) && RealtimeKey(siteId) != BreakdownKey(b)
    ensures RealtimeKey(siteId) != AggregateKey(a) && TimeseriesKey(t) != BreakdownKey(b)
    ensures TimeseriesKey(t) != AggregateKey(a) && BreakdownKey(b) != AggregateKey(a)
  {
    assert RealtimeKey(siteId)[0] == 'r' && TimeseriesKey(t)[0] == 't';
    assert BreakdownKey(b)[0] == 'b' && AggregateKey(a)[0] == 'a';
  }

  lemma PrefixCancel(pre: string, x: string, y: string)
    requires pre + x == pre + y
    ensures x == y
  {
    assert x == (pre + x)[|pre|..];
    assert y == (pre + y)[|pre|..];
  }

  /** When no parameter text contains ':', equal timeseries keys mean equal parameter texts. */
  lemma TimeseriesKeyInjective(t1: TimeseriesQuery, t2: TimeseriesQuery)
    requires Free(TimeseriesParts(t1), ':') && Free(TimeseriesParts(t2), ':')
    requires TimeseriesKey(t1) == TimeseriesKey(t2)
    ensures TimeseriesParts(t1) == TimeseriesParts(t2)
  {
    TimeseriesKeyJoin(t1);
    TimeseriesKeyJoin(t2);
    PrefixCancel("timeseries:", Join(TimeseriesParts(t1), ':'), Join(TimeseriesParts(t2), ':'));
    JoinInjective(TimeseriesParts(t1), TimeseriesParts(t2), ':');
  }

  lemma BreakdownKeyInjective(b1: BreakdownQuery, b2: BreakdownQuery)
    requires Free(BreakdownParts(b1), ':') && Free(BreakdownParts(b2), ':')
    requires BreakdownKey(b1) == BreakdownKey(b2)
    ensures BreakdownParts(b1) == BreakdownParts(b2)
  {
    BreakdownKeyJoin(b1);
    BreakdownKeyJoin(b2);
    PrefixCancel("breakdown:", Join(BreakdownParts(b1), ':'), Join(BreakdownParts(b2), ':'));
    JoinInjective(BreakdownParts(b1), BreakdownParts(b2), ':');
  }

  lemma AggregateKeyInjective(a1: AggregateQuery, a2: AggregateQuery)
    requires Free(AggregateParts(a1), ':') && Free(AggregateParts(a2), ':')
    requires AggregateKey(a1) == AggregateKey(a2)
    ensures AggregateParts(a1) == AggregateParts(a2)
  {
    AggregateKeyJoin(a1);
    AggregateKeyJoin(a2);
    PrefixCancel("aggregate:", Join(AggregateParts(a1), ':'), Join(AggregateParts(a2), ':'));
    JoinInjective(AggregateParts(a1), AggregateParts(a2), ':');
  }

  /** Without that condition keys collide: site "a:b" with period "7d" and site "a" with period
      "b:7d" share a key, although they ask the upstream about different sites. */
  lemma TimeseriesKeyCollision()
    ensures var t1 := TimeseriesQuery(Str("a:b"), Str("7d"), Str("visitors"), Str("date"));
      var t2 := TimeseriesQuery(Str("a"), Str("b:7d"), Str("visitors"), Str("date"));
      t1.siteId != t2.siteId && TimeseriesKey(t1) == TimeseriesKey(t2)
  {
    assert "a:b" + ":" + "7d" == "a" + ":" + "b:7d";
  }

  /** A repeated query parameter arrives as an array, whose text is its elements joined with
      ',': `site_id=x&site_id=y` shares the key of `site_id=x,y`. */
  lemma RepeatedParameterCollision()
    ensures var repeated := Arr([Str("x"), Str("y")]);
      repeated != Str("x,y") && RealtimeKey(repeated) == RealtimeKey(Str("x,y"))
  {
    var items := [Str("x"), Str("y")];
    var texts := seq(|items|, i requires 0 <= i < |items| => ElementStr(items[i]));
    assert texts == ["x"] + ["y"];
    JoinCons("x", ["y"], ',');
    assert ToStr(Arr(items)) == "x" + [','] + "y";
  }

  lemma TenText()
    ensures IntToString(10) == "10"
  {
    assert NatToString(10) == NatToString(1) + [DigitChar(0)];
  }

  lemma AppendSix(pre: string, a: string, b: string, c: string, d: string, e: string, f: string)
    ensures pre + a + b + c + d + e + f == pre + (a + b + c + d + e + f)
  {
  }

  /** Parameters are defaulted before the key is built: a timeseries query with only a site
      reads as the 7-day visitors by date. */
  lemma TimeseriesDefaultQuery(site: string)
    ensures TimeseriesQueryOf(map["site_id" := Str(site)]) == TimeseriesQuery(Str(site), Str("7d"), Str("visitors"), Str("date"))
  {
    var q := map["site_id" := Str(site)];
    assert "period" !in q && "metrics" !in q && "interval" !in q;
  }

  lemma TimeseriesDefaultKey(site: string)
    ensures TimeseriesKey(TimeseriesQueryOf(map["site_id" := Str(site)])) == "timeseries:" + site + ":7d:visitors:date"
  {
    TimeseriesDefaultQuery(site);
    AppendSix("timeseries:" + site, ":", "7d", ":", "visitors", ":", "date");
    assert ":" + "7d" + ":" + "visitors" + ":" + "date" == ":7d:visitors:date";
  }

  /** A breakdown request with only a site and a property reads as the 7-day visitors, limit 10. */
  lemma BreakdownDefaultQuery(site: string, property: string)
    ensures BreakdownQueryOf(map["property" := Str(property)], map["site_id" := Str(site)])
      == BreakdownQuery(Str(site), Str(property), Str("7d"), Str("visitors"), Num(10))
  {
    var q := map["site_id" := Str(site)];
    assert "period" !in q && "metrics" !in q && "limit" !in q;
  }

  lemma BreakdownDefaultKey(site: string, property: string)
    ensures BreakdownKey(BreakdownQueryOf(map["property" := Str(property)], map["site_id" := Str(site)]))
      == "breakdown:" + site + ":" + property + ":7d:visitors:10"
  {
    BreakdownDefaultQuery(site, property);
    TenText();
    AppendSix("breakdown:" + site + ":" + property, ":", "7d", ":", "visitors", ":", "10");
    assert ":" + "7d" + ":" + "visitors" + ":" + "10" == ":7d:visitors:10";
  }

  /** An aggregate query with only a site reads as the 7-day four-metric aggregate. */
  lemma AggregateDefaultQuery(site: string)
    ensures AggregateQueryOf(map["site_id" := Str(site)]) == AggregateQuery(Str(site), Str("7d"), Str(AggregateMetrics))
  {
    var q := map["site_id" := Str(site)];
    assert "period" !in q && "metrics" !in q;
  }

  lemma AggregateDefaultKey(site: string)
    ensures AggregateKey(AggregateQueryOf(map["site_id" := Str(site)]))
      == "aggregate:" + site + ":7d:" + AggregateMetrics
  {
    AggregateDefaultQuery(site);
    assert ":" + "7d" + ":" == ":7d:";
  }

  /** Omitting a defaulted parameter and sending its default text is the same request: same
      key and same upstream call. */
  lemma DefaultPeriodMatchesExplicit(q: Container)
    ensures TimeseriesQueryOf(q - {"period"}) == TimeseriesQueryOf(q["period" := Str("7d")])
    ensures AggregateQueryOf(q - {"period"}) == AggregateQueryOf(q["period" := Str("7d")])
  {
    var q1 := q - {"period"};
    var q2 := q["period" := Str("7d")];
    assert Field(q1, "site_id") == Field(q2, "site_id");
    assert Field(q1, "metrics") == Field(q2, "metrics");
    assert Field(q1, "interval") == Field(q2, "interval");
  }

  lemma DefaultIntervalMatchesExplicit(q: Container)
    ensures TimeseriesQueryOf(q - {"interval"}) == TimeseriesQueryOf(q["interval" := Str("date")])
  {
    var q1 := q - {"interval"};
    var q2 := q["interval" := Str("date")];
    assert Field(q1, "site_id") == Field(q2, "site_id");
    assert Field(q1, "metrics") == Field(q2, "metrics");
    assert Field(q1, "period") == Field(q2, "period");
  }

  /** For `limit`, the default number 10 and the text "10" give the same key and the same
      parsed limit; only the echo in the envelope differs. */
  lemma DefaultLimitMatchesExplicit(q: Container, params: Container)
    ensures var b1 := BreakdownQueryOf(params, q - {"limit"});
      var b2 := BreakdownQueryOf(params, q["limit" := Str("10")]);
      BreakdownKey(b1) == BreakdownKey(b2) && ParseIntValue(b1.limit) == ParseIntValue(b2.limit) == Num(10)
  {
    var q1 := q - {"limit"};
    var q2 := q["limit" := Str("10")];
    assert Field(q1, "site_id") == Field(q2, "site_id");
    assert Field(q1, "metrics") == Field(q2, "metrics");
    assert Field(q1, "period") == Field(q2, "period");
    var b1 := BreakdownQueryOf(params, q1);
    var b2 := BreakdownQueryOf(params, q2);
    assert b1.limit == Num(10) && b2.limit == Str("10");
    TenText();
    assert ToStr(b1.limit) == ToStr(b2.limit);
    assert BreakdownParts(b1) == BreakdownParts(b2);
    BreakdownKeyJoin(b1);
    BreakdownKeyJoin(b2);
    ParseIntOfString(10);
  }

  /** A parameter the handler does not read changes neither the key nor the request made. */
  lemma OtherFieldsIgnored(q: Container, k: string, v: JsVal)
    requires k != "site_id" && k != "period" && k != "metrics" && k != "interval" && k != "limit"
    ensures TimeseriesQueryOf(q[k := v]) == TimeseriesQueryOf(q)
    ensures AggregateQueryOf(q[k := v]) == AggregateQueryOf(q)
    ensures forall params: Container :: BreakdownQueryOf(params, q[k := v]) == BreakdownQueryOf(params, q)
  {
  }

  // ---------------------------------------------------------------------------
  // properties of the request each handler sends

  /** `metrics.split(',')` gives separator-free pieces that join back to the string. */
  lemma SplitMetricsParts(s: string)
    ensures SplitMetrics(Str(s)).Ok?
    ensures var items := SplitMetrics(Str(s)).value.items;
      |items| >= 1 && (forall i :: 0 <= i < |items| ==> items[i].Str?)
      && Join(seq(|items|, i requires 0 <= i < |items| => items[i].s), ',') == s
      && forall i :: 0 <= i < |items| ==> ',' !in items[i].s
  {
    var parts := Split(s, ',');
    JoinSplit(s, ',');
    var items := SplitMetrics(Str(s)).value.items;
    assert seq(|items|, i requires 0 <= i < |items| => items[i].s) == parts;
  }

  /** The timeseries handler throws a TypeError before any call when `metrics` is not a
      string; otherwise it posts the split metrics, the period as date range and the interval
      only when it is given, and echoes the un-split parameters in the envelope. */
  lemma TimeseriesRequest(cfg: Svc.Config, apiKey: JsVal, t: TimeseriesQuery, reply: (nat, Svc.Call) -> Svc.Reply, n: nat)
    ensures !t.metrics.Str? ==> TimeseriesMiss(cfg, apiKey, t, reply, n).Throws?
    ensures !t.metrics.Str? ==> TimeseriesMiss(cfg, apiKey, t, reply, n).error.name == "TypeError"
    ensures t.metrics.Str? ==>
      var m := TimeseriesMiss(cfg, apiKey, t, reply, n);
      && m.Answered? && m.ttl == 300
      && m.call.verb == Svc.Post && m.call.url == Svc.Url(cfg, "/" + cfg.apiVersion + "/query")
      && m.call.authorization == "Bearer " + ToStr(apiKey)
      && Prop(m.call.payload, "site_id") == t.siteId && Prop(m.call.payload, "date_range") == t.period
      && Prop(m.call.payload, "metrics") == Arr(StrList(Split(t.metrics.s, ',')))
      && Prop(m.call.payload, "interval") == (if Svc.Given(t.interval) then t.interval else Undefined)
      && m.params == Some(TimeseriesEcho(t)) && Lookup(TimeseriesEcho(t), "metrics") == t.metrics
  {
    if t.metrics.Str? {
      var ms := SplitMetrics(t.metrics).value;
      var p := Svc.TimeseriesParams(t.siteId, t.period, ms, t.interval);
      var m := TimeseriesMiss(cfg, apiKey, t, reply, n);
      assert m.call == Svc.TimeseriesCall(cfg, apiKey, p);
      assert m.call.payload == Obj(Svc.TimeseriesBody(p));
    }
    LookupFirst(TimeseriesEcho(t), "metrics", 2);
  }

  /** An empty interval is not defaulted (the default applies only to undefined), so it is
      left out of the timeseries body; an absent one is sent as "date". */
  lemma TimeseriesIntervalRule(q: Container)
    ensures Field(q, "interval") == Str("") ==> !Svc.Given(TimeseriesQueryOf(q).interval)
    ensures Field(q, "interval") == Undefined ==> TimeseriesQueryOf(q).interval == Str("date")
  {
  }

  /** The breakdown handler always sends a limit: the default 10 or the parsed text, which is a
      number or NaN and so is never left out. */
  lemma BreakdownRequest(cfg: Svc.Config, apiKey: JsVal, b: BreakdownQuery, reply: (nat, Svc.Call) -> Svc.Reply, n: nat)
    ensures !b.metrics.Str? ==> BreakdownMiss(cfg, apiKey, b, reply, n).Throws?
    ensures b.metrics.Str? ==>
      var m := BreakdownMiss(cfg, apiKey, b, reply, n);
      && m.Answered? && m.ttl == 600
      && m.call.url == Svc.Url(cfg, "/" + cfg.apiVersion + "/breakdown")
      && Prop(m.call.payload, "property") == b.property
      && Prop(m.call.payload, "metrics") == Arr(StrList(Split(b.metrics.s, ',')))
      && Prop(m.call.payload, "limit") == ParseIntValue(b.limit)
      && "limit" in Keys(m.call.payload.fields)
  {
    if b.metrics.Str? {
      var ms := SplitMetrics(b.metrics).value;
      var p := Svc.BreakdownParams(b.siteId, b.property, b.period, ms, ParseIntValue(b.limit));
      var c := Svc.BreakdownCall(cfg, apiKey, p);
      assert BreakdownMiss(cfg, apiKey, b, reply, n)
        == Answered(c, Svc.QueryOutcome(reply(n, c), Obj(Svc.BreakdownBody(p))), BreakdownTtl, Some(BreakdownEcho(b)));
      Svc.BreakdownBodyKeys(p);
    }
  }

  /** The envelope echoes the limit as received; the default limit is sent as the number 10. */
  lemma BreakdownEchoesLimit(b: BreakdownQuery)
    ensures Lookup(BreakdownEcho(b), "limit") == b.limit
    ensures b.limit == Num(DefaultLimit) ==> ParseIntValue(b.limit) == Num(10)
  {
    LookupFirst(BreakdownEcho(b), "limit", 4);
    if b.limit == Num(DefaultLimit) {
      DefaultLimitParses();
    }
  }

  lemma DefaultLimitParses()
    ensures ParseIntValue(Num(DefaultLimit)) == Num(10)
  {
    assert ToStr(Num(DefaultLimit)) == IntToString(10);
    ParseIntOfString(10);
  }

  /** The aggregate handler posts exactly the site, the split metrics and the date range. */
  lemma AggregateRequest(cfg: Svc.Config, apiKey: JsVal, a: AggregateQuery, reply: (nat, Svc.Call) -> Svc.Reply, n: nat)
    ensures !a.metrics.Str? ==> AggregateMiss(cfg, apiKey, a, reply, n).Throws?
    ensures a.metrics.Str? ==>
      var m := AggregateMiss(cfg, apiKey, a, reply, n);
      && m.Answered? && m.ttl == 300
      && m.call.url == Svc.Url(cfg, "/" + cfg.apiVersion + "/query")
      && Keys(m.call.payload.fields) == ["site_id", "metrics", "date_range"]
      && Prop(m.call.payload, "metrics") == Arr(StrList(Split(a.metrics.s, ',')))
  {
  }
}

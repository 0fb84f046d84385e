/**
 * The upstream client for the Plausible analytics API: the outbound request of
 * each query type, the classification of a failed request into the message of the
 * error it throws, and the shaping of a successful reply. The network is an oracle
 * object that answers each request and records it.
 */
module PlausibleService {
  import opened Wrappers
  import opened Strings
  import opened JsValues

  /** The base URL and API version, each `process.env.X || <default>`. */
  datatype Config = Config(baseUrl: string, apiVersion: string)

  /** `value || fallback` for an environment variable: unset or empty gives the fallback. */
  function EnvOr(value: Option<string>, fallback: string): (r: string)
    ensures r == fallback || (value.Some? && r == value.value)
    ensures value.Some? && value.value != "" ==> r == value.value
  {
    if value.Some? && value.value != "" then value.value else fallback
  }

  function ConfigFromEnv(baseUrl: Option<string>, apiVersion: Option<string>): Config {
    Config(EnvOr(baseUrl, "https://plausible.io"), EnvOr(apiVersion, "v2"))
  }

  datatype Verb = Get | Post

  /** One outbound request: verb, URL, Authorization header, and the query-string
      parameters (GET) or the JSON body (POST). */
  datatype Call = Call(verb: Verb, url: string, authorization: string, payload: JsVal)

  /** Why a request failed: an answer with a non-2xx status (`error.response`), no answer
      at all (`error.request` only), or an error raised before sending (its message). */
  datatype Failure = HttpStatus(status: int, data: JsVal) | NoResponse | Local(message: string)

  /** How a request settles: the parsed payload `response.data`, or a failure. */
  datatype Reply = Success(data: JsVal) | Failed(failure: Failure)

  /** The provider, seen from this process: it answers the n-th request with
      `reply(n, call)`, and every request is recorded in `log`. */
  class Upstream {
    const reply: (nat, Call) -> Reply
    var log: seq<Call>

    constructor (reply: (nat, Call) -> Reply)
      ensures this.reply == reply && log == []
    {
      this.reply := reply;
      log := [];
    }

    method Send(c: Call) returns (r: Reply)
      modifies this
      ensures log == old(log) + [c]
      ensures r == reply(|old(log)|, c)
    {
      r := reply(|log|, c);
      log := log + [c];
    }
  }

  // ---------------------------------------------------------------------------
  // the configured client (`createAxiosInstance`)

  /** The header the client sends: `Bearer ${apiKey}`. */
  function Authorization(apiKey: JsVal): string {
    "Bearer " + ToStr(apiKey)
  }

  /** A path under the client's base URL `${baseURL}/api`. */
  function Url(cfg: Config, path: string): string {
    cfg.baseUrl + "/api" + path
  }

  // ---------------------------------------------------------------------------
  // error classification (`handlePlausibleError`)

  const MsgUnauthorized := "Clé API invalide ou non autorisée"
  const MsgQuota := "Limite de requêtes dépassée pour votre plan"
  const MsgNotFound := "Site non trouvé ou non accessible"
  const MsgInvalidQuery := "Paramètres de requête invalides"
  const MsgRateLimited := "Trop de requêtes - limite de taux dépassée"
  const MsgUnreachable := "Impossible de joindre l'API Plausible"
  const StatusPrefix := "Erreur API Plausible: "
  const ConfigPrefix := "Erreur de configuration: "

  /** The message of the error thrown for a failed request. */
  function FailureMessage(f: Failure): string {
    match f
    case HttpStatus(status, data) =>
      if status == 401 then MsgUnauthorized
      else if status == 402 then MsgQuota
      else if status == 404 then MsgNotFound
      else if status == 422 then MsgInvalidQuery
      else if status == 429 then MsgRateLimited
      else
        var detail := Prop(data, "error");
        if Truthy(detail) then ToStr(detail) else StatusPrefix + IntToString(status)
    case NoResponse => MsgUnreachable
    case Local(message) => ConfigPrefix + message
  }

  /** `handlePlausibleError` never returns normally: every branch throws a plain `Error`.
      The model returns the error that is thrown. */
  function HandlePlausibleError(f: Failure): (e: JsError)
    ensures e.name == "Error" && e.statusCode == None && e.details == Undefined
    ensures e.message == FailureMessage(f)
  {
    NewError(FailureMessage(f))
  }

  predicate KnownStatus(status: int) {
    status == 401 || status == 402 || status == 404 || status == 422 || status == 429
  }

  /** The five classified statuses map to five fixed messages, no two alike. */
  lemma KnownStatusMessages(data: JsVal)
    ensures FailureMessage(HttpStatus(401, data)) == MsgUnauthorized
    ensures FailureMessage(HttpStatus(402, data)) == MsgQuota
    ensures FailureMessage(HttpStatus(404, data)) == MsgNotFound
    ensures FailureMessage(HttpStatus(422, data)) == MsgInvalidQuery
    ensures FailureMessage(HttpStatus(429, data)) == MsgRateLimited
    ensures |{MsgUnauthorized, MsgQuota, MsgNotFound, MsgInvalidQuery, MsgRateLimited}| == 5
  {
    assert MsgUnauthorized[0] == 'C' && MsgQuota[0] == 'L' && MsgNotFound[0] == 'S';
    assert MsgInvalidQuery[0] == 'P' && MsgRateLimited[0] == 'T';
  }

  /** Any other status carries the payload's truthy `error` field, else a generic message
      naming the status. */
  lemma OtherStatusMessage(status: int, data: JsVal)
    requires !KnownStatus(status)
    ensures Truthy(Prop(data, "error")) ==> FailureMessage(HttpStatus(status, data)) == ToStr(Prop(data, "error"))
    ensures !Truthy(Prop(data, "error")) ==> FailureMessage(HttpStatus(status, data)) == "Erreur API Plausible: " + IntToString(status)
  {
  }

  /** No answer gives the unreachable message; an error raised before sending gives the
      configuration message wrapping its own. */
  lemma NoAnswerMessages(message: string)
    ensures FailureMessage(NoResponse) == "Impossible de joindre l'API Plausible"
    ensures FailureMessage(Local(message)) == "Erreur de configuration: " + message
  {
  }

  // ---------------------------------------------------------------------------
  // the requests of each query type

  /** A parameter counts as given unless it is undefined, null or the empty string. */
  predicate Given(v: JsVal) {
    v != Undefined && v != Null && v != Str("")
  }

  datatype TimeseriesParams = TimeseriesParams(siteId: JsVal, period: JsVal, metrics: JsVal, interval: JsVal)
  datatype BreakdownParams = BreakdownParams(siteId: JsVal, property: JsVal, period: JsVal, metrics: JsVal, limit: JsVal)
  datatype AggregateParams = AggregateParams(siteId: JsVal, period: JsVal, metrics: JsVal)

  /** The timeseries body: always the site, the metrics and the period as date range;
      the interval only when it is given. */
  function TimeseriesBody(p: TimeseriesParams): (body: seq<(string, JsVal)>)
    ensures Lookup(body, "site_id") == p.siteId && Lookup(body, "metrics") == p.metrics
    ensures Lookup(body, "date_range") == p.period
    ensures Lookup(body, "interval") == if Given(p.interval) then p.interval else Undefined
  {
    var base := [("site_id", p.siteId), ("metrics", p.metrics), ("date_range", p.period)];
    var body := if Given(p.interval) then base + [("interval", p.interval)] else base;
    LookupFirst(body, "metrics", 1);
    LookupFirst(body, "date_range", 2);
    if Given(p.interval) then LookupFirst(body, "interval", 3); body else body
  }

  /** The timeseries body has exactly those properties, in that order. */
  lemma TimeseriesBodyKeys(p: TimeseriesParams)
    ensures Keys(TimeseriesBody(p)) == ["site_id", "metrics", "date_range"] + (if Given(p.interval) then ["interval"] else [])
  {
    var base := [("site_id", p.siteId), ("metrics", p.metrics), ("date_range", p.period)];
    assert Keys(base) == ["site_id", "metrics", "date_range"];
    KeysAppend(base, [("interval", p.interval)]);
  }

  const BreakdownKeys := ["site_id", "property", "metrics", "date_range"]

  /** The breakdown body: always the site, the property, the metrics and the date range;
      the limit only when it is given. */
  function BreakdownBody(p: BreakdownParams): (body: seq<(string, JsVal)>)
    ensures Lookup(body, "site_id") == p.siteId && Lookup(body, "property") == p.property
    ensures Lookup(body, "metrics") == p.metrics && Lookup(body, "date_range") == p.period
    ensures Lookup(body, "limit") == if Given(p.limit) then p.limit else Undefined
  {
    var base := [("site_id", p.siteId), ("property", p.property), ("metrics", p.metrics), ("date_range", p.period)];
    var body := if Given(p.limit) then base + [("limit", p.limit)] else base;
    LookupFirst(body, "property", 1);
    LookupFirst(body, "metrics", 2);
    LookupFirst(body, "date_range", 3);
    if Given(p.limit) then LookupFirst(body, "limit", 4); body else body
  }

  /** The breakdown body has exactly those properties, in that order. */
  lemma BreakdownBodyKeys(p: BreakdownParams)
    ensures Keys(BreakdownBody(p)) == BreakdownKeys + (if Given(p.limit) then ["limit"] else [])
  {
    var base := [("site_id", p.siteId), ("property", p.property), ("metrics", p.metrics), ("date_range", p.period)];
    assert Keys(base) == BreakdownKeys;
    KeysAppend(base, [("limit", p.limit)]);
  }

  /** The aggregate body has exactly the site, the metrics and the date range. */
  function AggregateBody(p: AggregateParams): (body: seq<(string, JsVal)>)
    ensures Keys(body) == ["site_id", "metrics", "date_range"]
    ensures Lookup(body, "site_id") == p.siteId && Lookup(body, "metrics") == p.metrics
    ensures Lookup(body, "date_range") == p.period
  {
    var body := [("site_id", p.siteId), ("metrics", p.metrics), ("date_range", p.period)];
    LookupFirst(body, "metrics", 1);
    LookupFirst(body, "date_range", 2);
    body
  }

  /** GET /v1/stats/realtime/visitors?site_id=..., also the connection probe. */
  function RealtimeCall(cfg: Config, apiKey: JsVal, siteId: JsVal): Call {
    Call(Get, Url(cfg, "/v1/stats/realtime/visitors"), Authorization(apiKey), Obj([("site_id", siteId)]))
  }

  function TimeseriesCall(cfg: Config, apiKey: JsVal, p: TimeseriesParams): Call {
    Call(Post, Url(cfg, "/" + cfg.apiVersion + "/query"), Authorization(apiKey), Obj(TimeseriesBody(p)))
  }

  function BreakdownCall(cfg: Config, apiKey: JsVal, p: BreakdownParams): Call {
    Call(Post, Url(cfg, "/" + cfg.apiVersion + "/breakdown"), Authorization(apiKey), Obj(BreakdownBody(p)))
  }

  function AggregateCall(cfg: Config, apiKey: JsVal, p: AggregateParams): Call {
    Call(Post, Url(cfg, "/" + cfg.apiVersion + "/query"), Authorization(apiKey), Obj(AggregateBody(p)))
  }

  // ---------------------------------------------------------------------------
  // shaping a reply

  /** `data[key]`: reading a property of null or undefined throws a TypeError (its message
      is returned); other non-objects have no `results` or `meta` property. */
  function ReadProp(data: JsVal, key: string): (r: Result<JsVal, string>)
    ensures r.Err? <==> data == Null || data == Undefined
    ensures data.Obj? ==> r == Ok(Lookup(data.fields, key))
  {
    match data
    case Null => Err(CannotRead("null", key))
    case Undefined => Err(CannotRead("undefined", key))
    case Obj(fields) => Ok(Lookup(fields, key))
    case _ => Ok(Undefined)
  }

  /** What the realtime method returns or throws. */
  function RealtimeOutcome(rep: Reply, siteId: JsVal, timestamp: string): (r: Result<JsVal, JsError>)
    ensures rep.Success? ==> r.Ok? && r.value.Obj? && Keys(r.value.fields) == ["visitors", "site_id", "timestamp"]
    ensures rep.Success? ==> Prop(r.value, "visitors") == rep.data && Prop(r.value, "site_id") == siteId
    ensures rep.Failed? ==> r == Err(HandlePlausibleError(rep.failure))
  {
    match rep
    case Success(data) =>
      var payload := [("visitors", data), ("site_id", siteId), ("timestamp", Str(timestamp))];
      LookupFirst(payload, "site_id", 1);
      Ok(Obj(payload))
    case Failed(f) => Err(HandlePlausibleError(f))
  }

  /** What a query method returns or throws: `{results, query, meta}` built from the
      payload and the body that was sent. A failure reading the payload is caught and
      classified like a failure raised before sending. */
  function QueryOutcome(rep: Reply, body: JsVal): (r: Result<JsVal, JsError>)
    ensures r.Ok? <==> (rep.Success? && rep.data != Null && rep.data != Undefined)
    ensures r.Ok? ==> r.value.Obj?
    ensures rep.Failed? ==> r == Err(HandlePlausibleError(rep.failure))
  {
    match rep
    case Failed(f) => Err(HandlePlausibleError(f))
    case Success(data) =>
      match ReadProp(data, "results")
      case Err(m) => Err(HandlePlausibleError(Local(m)))
      case Ok(results) =>
        match ReadProp(data, "meta")
        case Err(m) => Err(HandlePlausibleError(Local(m)))
        case Ok(meta) => Ok(Obj([("results", results), ("query", body), ("meta", meta)]))
  }

  /** A successful query result echoes the exact body that was sent as `query`, next to the
      payload's `results` and `meta`. */
  lemma QueryEchoesBody(rep: Reply, body: JsVal)
    requires QueryOutcome(rep, body).Ok?
    ensures var r := QueryOutcome(rep, body).value;
      && r.Obj? && Keys(r.fields) == ["results", "query", "meta"]
      && Prop(r, "query") == body
      && Prop(r, "results") == Prop(rep.data, "results") && Prop(r, "meta") == Prop(rep.data, "meta")
  {
    var r := QueryOutcome(rep, body).value;
    LookupFirst(r.fields, "query", 1);
    LookupFirst(r.fields, "meta", 2);
  }

  /** A payload that is null or undefined makes the property read throw; the thrown error
      is wrapped as a configuration error. */
  lemma QueryOfMissingPayload(data: JsVal, body: JsVal)
    requires data == Null || data == Undefined
    ensures QueryOutcome(Success(data), body).Err?
    ensures QueryOutcome(Success(data), body).error.message
      == "Erreur de configuration: " + CannotRead(if data == Null then "null" else "undefined", "results")
  {
  }

  // ---------------------------------------------------------------------------
  // the service methods: each sends one request and shapes its reply

  method GetRealtime(cfg: Config, up: Upstream, apiKey: JsVal, siteId: JsVal, timestamp: string)
    returns (r: Result<JsVal, JsError>)
    modifies up
    ensures up.log == old(up.log) + [RealtimeCall(cfg, apiKey, siteId)]
    ensures r == RealtimeOutcome(up.reply(|old(up.log)|, RealtimeCall(cfg, apiKey, siteId)), siteId, timestamp)
  {
    var rep := up.Send(RealtimeCall(cfg, apiKey, siteId));
    r := RealtimeOutcome(rep, siteId, timestamp);
  }

  method GetTimeseries(cfg: Config, up: Upstream, apiKey: JsVal, p: TimeseriesParams)
    returns (r: Result<JsVal, JsError>)
    modifies up
    ensures up.log == old(up.log) + [TimeseriesCall(cfg, apiKey, p)]
    ensures r == QueryOutcome(up.reply(|old(up.log)|, TimeseriesCall(cfg, apiKey, p)), Obj(TimeseriesBody(p)))
  {
    var queryBody := [("site_id", p.siteId), ("metrics", p.metrics), ("date_range", p.period)];
    if Given(p.interval) {
      // `queryBody.interval = ...` adds a property the object does not have yet
      queryBody := queryBody + [("interval", p.interval)];
    }
    var rep := up.Send(Call(Post, Url(cfg, "/" + cfg.apiVersion + "/query"), Authorization(apiKey), Obj(queryBody)));
    r := QueryOutcome(rep, Obj(queryBody));
  }

  method GetBreakdown(cfg: Config, up: Upstream, apiKey: JsVal, p: BreakdownParams)
    returns (r: Result<JsVal, JsError>)
    modifies up
    ensures up.log == old(up.log) + [BreakdownCall(cfg, apiKey, p)]
    ensures r == QueryOutcome(up.reply(|old(up.log)|, BreakdownCall(cfg, apiKey, p)), Obj(BreakdownBody(p)))
  {
    var queryBody := [("site_id", p.siteId), ("property", p.property), ("metrics", p.metrics), ("date_range", p.period)];
    if Given(p.limit) {
      // `queryBody.limit = ...` adds a property the object does not have yet
      queryBody := queryBody + [("limit", p.limit)];
    }
    var rep := up.Send(Call(Post, Url(cfg, "/" + cfg.apiVersion + "/breakdown"), Authorization(apiKey), Obj(queryBody)));
    r := QueryOutcome(rep, Obj(queryBody));
  }

  method GetAggregate(cfg: Config, up: Upstream, apiKey: JsVal, p: AggregateParams)
    returns (r: Result<JsVal, JsError>)
    modifies up
    ensures up.log == old(up.log) + [AggregateCall(cfg, apiKey, p)]
    ensures r == QueryOutcome(up.reply(|old(up.log)|, AggregateCall(cfg, apiKey, p)), Obj(AggregateBody(p)))
  {
    var queryBody := [("site_id", p.siteId), ("metrics", p.metrics), ("date_range", p.period)];
    var rep := up.Send(Call(Post, Url(cfg, "/" + cfg.apiVersion + "/query"), Authorization(apiKey), Obj(queryBody)));
    r := QueryOutcome(rep, Obj(queryBody));
  }

  /** The connection probe: true exactly when the realtime request succeeds; any failure
      gives false, so it never throws. */
  method TestConnection(cfg: Config, up: Upstream, apiKey: JsVal, siteId: JsVal) returns (ok: bool)
    modifies up
    ensures up.log == old(up.log) + [RealtimeCall(cfg, apiKey, siteId)]
    ensures ok <==> up.reply(|old(up.log)|, RealtimeCall(cfg, apiKey, siteId)).Success?
  {
    var rep := up.Send(RealtimeCall(cfg, apiKey, siteId));
    ok := rep.Success?;
  }
}

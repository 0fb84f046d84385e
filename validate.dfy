/**
 * The validation middleware: given a schema object, it validates `req.params`,
 * then `req.query`, then `req.body`, each only when the schema object has a
 * part of that name; the first failing part answers 400 with its own label and
 * the first error's text, and each part that passes is replaced on the request
 * by its validated value.
 */
module Validate {
  import opened Wrappers
  import opened JsValues
  import opened Http
  import opened Schemas

  /** The schema object handed to `validate(schema)`, as seen through its `params`, `query`
      and `body` properties. */
  datatype RouteSchema = RouteSchema(params: Option<Schema>, query: Option<Schema>, body: Option<Schema>)

  /** A bare `Joi.object({...})` has no property named `params`, `query` or `body`: its
      field rules sit inside it, not under those names. */
  function OfJoiObject(s: Schema): (v: RouteSchema)
    ensures v.params.None? && v.query.None? && v.body.None?
  {
    RouteSchema(None, None, None)
  }

  const ParamsLabel := "Validation des paramètres échouée"
  const QueryLabel := "Validation des query parameters échouée"
  const BodyLabel := "Validation du body échouée"

  /** The 400 answer `{success: false, error: what, details: message}`. */
  function Failure(what: string, message: string): (r: Response)
    ensures r.status == 400 && r.body.Obj?
    ensures Prop(r.body, "success") == Bool(false)
    ensures Prop(r.body, "error") == Str(what) && Prop(r.body, "details") == Str(message)
  {
    var fields := [("success", Bool(false)), ("error", Str(what)), ("details", Str(message))];
    LookupFirst(fields, "error", 1);
    LookupFirst(fields, "details", 2);
    Response(400, Obj(fields))
  }

  /** One part: unchanged when the schema object has no such part, else its validated value. */
  function Part(s: Option<Schema>, c: Container): Result<Container, string> {
    if s.None? then Ok(c) else ValidateFields(s.value, c)
  }

  /** How the middleware ends and what the three parts of the request hold afterwards. */
  datatype Validated = Validated(step: Step, params: Container, query: Container, body: Container)

  /** The middleware's effect on a request with the given parts. A part replaced before a
      later part fails stays replaced. */
  function Run(v: RouteSchema, params: Container, query: Container, body: Container): Validated {
    match Part(v.params, params)
    case Err(m) => Validated(Halt(Failure(ParamsLabel, m)), params, query, body)
    case Ok(p) =>
      match Part(v.query, query)
      case Err(m) => Validated(Halt(Failure(QueryLabel, m)), p, query, body)
      case Ok(q) =>
        match Part(v.body, body)
        case Err(m) => Validated(Halt(Failure(BodyLabel, m)), p, q, body)
        case Ok(b) => Validated(Next, p, q, b)
  }

  /** `validate(schema)(req, res, next)` */
  method ValidateRequest(v: RouteSchema, req: Request) returns (step: Step)
    modifies req`params, req`query, req`body
    ensures var r := Run(v, old(req.params), old(req.query), old(req.body));
      step == r.step && req.params == r.params && req.query == r.query && req.body == r.body
  {
    if v.params.Some? {
      var res := ValidateFields(v.params.value, req.params);
      if res.Err? {
        return Halt(Failure(ParamsLabel, res.error));
      }
      req.params := res.value;
    }
    if v.query.Some? {
      var res := ValidateFields(v.query.value, req.query);
      if res.Err? {
        return Halt(Failure(QueryLabel, res.error));
      }
      req.query := res.value;
    }
    if v.body.Some? {
      var res := ValidateFields(v.body.value, req.body);
      if res.Err? {
        return Halt(Failure(BodyLabel, res.error));
      }
      req.body := res.value;
    }
    step := Next;
  }

  // ---------------------------------------------------------------------------
  // properties of the middleware

  /** `next` is called exactly when every part the schema object names validates; otherwise
      the answer is a 400 with `success: false`. */
  lemma NextIffAllPartsValid(v: RouteSchema, params: Container, query: Container, body: Container)
    ensures Run(v, params, query, body).step.Next? <==>
      Part(v.params, params).Ok? && Part(v.query, query).Ok? && Part(v.body, body).Ok?
    ensures Run(v, params, query, body).step.Halt? ==>
      Run(v, params, query, body).step.response.status == 400
      && Prop(Run(v, params, query, body).step.response.body, "success") == Bool(false)
  {
  }

  /** The parts are checked in the order params, query, body; the first one that fails
      answers, with its own label and its first error. */
  lemma FirstFailingPartAnswers(v: RouteSchema, params: Container, query: Container, body: Container)
    ensures Part(v.params, params).Err? ==>
      Run(v, params, query, body).step == Halt(Failure(ParamsLabel, Part(v.params, params).error))
    ensures Part(v.params, params).Ok? && Part(v.query, query).Err? ==>
      Run(v, params, query, body).step == Halt(Failure(QueryLabel, Part(v.query, query).error))
    ensures Part(v.params, params).Ok? && Part(v.query, query).Ok? && Part(v.body, body).Err? ==>
      Run(v, params, query, body).step == Halt(Failure(BodyLabel, Part(v.body, body).error))
  {
  }

  /** The three labels differ, so the answer says which part failed. */
  lemma LabelsDistinct()
    ensures ParamsLabel != QueryLabel && QueryLabel != BodyLabel && ParamsLabel != BodyLabel
  {
    assert ParamsLabel[15] == 'p' && QueryLabel[15] == 'q';
    assert ParamsLabel[12] == 'e' && QueryLabel[12] == 'e' && BodyLabel[12] == 'u';
  }

  /** A part the schema object does not name is left as it was; a part that validated holds
      its validated value. */
  lemma PartsReplaced(v: RouteSchema, params: Container, query: Container, body: Container)
    ensures var r := Run(v, params, query, body);
      (v.params.None? ==> r.params == params)
      && (v.query.None? ==> r.query == query)
      && (v.body.None? ==> r.body == body)
    ensures var r := Run(v, params, query, body);
      r.step.Next? ==>
        r.params == Part(v.params, params).value && r.query == Part(v.query, query).value
        && r.body == Part(v.body, body).value
  {
  }

  /** The routes hand `validate` a bare `Joi.object`, so the middleware checks nothing and
      always calls `next` with the request unchanged, whatever the route's rules say. */
  lemma BareSchemaPassesThrough(s: Schema, params: Container, query: Container, body: Container)
    ensures Run(OfJoiObject(s), params, query, body) == Validated(Next, params, query, body)
  {
  }

  /** Were the timeseries rules under `query`, a query without `site_id` would be refused with
      the query label; handed over bare, the same request goes through. */
  lemma TimeseriesRulesOnlyApplyUnderQuery(params: Container, query: Container, body: Container)
    requires Field(query, "site_id") == Undefined
    ensures Run(RouteSchema(None, Some(TimeseriesSchema), None), params, query, body).step
      == Halt(Failure(QueryLabel, "\"site_id\" is required"))
    ensures Run(OfJoiObject(TimeseriesSchema), params, query, body).step == Next
  {
    SiteIdRequiredEverywhere(query);
  }
}

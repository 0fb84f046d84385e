/** The parts of an Express request and response that the middleware and handlers use. */
module Http {
  import opened Wrappers
  import opened JsValues

  /** `req.params`, `req.query` or `req.body`: a property bag; a missing key reads as undefined. */
  type Container = map<string, JsVal>

  function Field(c: Container, key: string): JsVal {
    if key in c then c[key] else Undefined
  }

  /** What `res.status(status).json(body)` sends; `res.json(body)` alone uses status 200. */
  datatype Response = Response(status: int, body: JsVal)

  function Json(body: JsVal): Response {
    Response(200, body)
  }

  /** How a middleware ends: it calls `next()`, or it answers and stops the chain. */
  datatype Step = Next | Halt(response: Response)

  /** How a route handler ends: it answers, or it passes an error to `next(error)`. */
  datatype Outcome = Respond(response: Response) | NextError(error: JsError)

  /** The request object; the middleware reassigns its fields in place. */
  class Request {
    /** `req.headers.authorization` */
    var authorization: Option<string>
    var params: Container
    var query: Container
    var body: Container
    /** Whether a body parser set `req.body`; the JSON and URL-encoded parsers set it only
        for a body of their content type, and otherwise `req.body` is undefined and `body`
        stands for nothing. */
    var bodyParsed: bool
    /** Set by the authentication middleware on success. */
    var plausibleApiKey: Option<string>

    constructor (authorization: Option<string>, params: Container, query: Container, body: Container,
                 bodyParsed: bool)
      ensures this.authorization == authorization && this.params == params
      ensures this.query == query && this.body == body && this.bodyParsed == bodyParsed
      ensures plausibleApiKey == None
    {
      this.authorization := authorization;
      this.params := params;
      this.query := query;
      this.body := body;
      this.bodyParsed := bodyParsed;
      plausibleApiKey := None;
    }
  }
}

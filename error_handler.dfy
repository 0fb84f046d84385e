/**
 * The error middleware at the end of the chain: it sorts an error into one of
 * four classes, by name and by words in its message, and answers with the
 * status and body of that class. The environment (`NODE_ENV`) is a parameter.
 */
module ErrorHandler {
  import opened Wrappers
  import opened Strings
  import opened JsValues
  import opened Http

  datatype ErrorClass = Validation | Unauthorized | External | Internal

  /** The first test that matches decides: the name `ValidationError`; the name
      `UnauthorizedError` or the words "API invalide"; the word "Plausible"; anything else. */
  function Classify(err: JsError): (c: ErrorClass)
    ensures c == Validation <==> err.name == "ValidationError"
    ensures c == Unauthorized <==>
      err.name != "ValidationError" && (err.name == "UnauthorizedError" || Contains(err.message, "API invalide"))
    ensures c == External <==>
      err.name != "ValidationError" && err.name != "UnauthorizedError"
      && !Contains(err.message, "API invalide") && Contains(err.message, "Plausible")
  {
    if err.name == "ValidationError" then Validation
    else if err.name == "UnauthorizedError" || Contains(err.message, "API invalide") then Unauthorized
    else if Contains(err.message, "Plausible") then External
    else Internal
  }

  /** `err.statusCode || 500` */
  function InternalStatus(statusCode: Option<int>): (s: int)
    ensures s != 0
    ensures statusCode.Some? && statusCode.value != 0 ==> s == statusCode.value
  {
    if statusCode.Some? && statusCode.value != 0 then statusCode.value else 500
  }

  const HiddenMessage := "Erreur interne du serveur"

  /** The answer to a validation error: its message and details. */
  function ValidationAnswer(err: JsError): (r: Response)
    ensures r.status == 400 && r.body.Obj? && Prop(r.body, "success") == Bool(false)
    ensures Prop(r.body, "message") == Str(err.message) && Prop(r.body, "details") == err.details
    ensures Prop(r.body, "stack") == Undefined
  {
    var body := [("success", Bool(false)), ("error", Str("Erreur de validation")), ("message", Str(err.message)), ("details", err.details)];
    LookupFirst(body, "message", 2);
    LookupFirst(body, "details", 3);
    assert "stack" !in Keys(body);
    Response(400, Obj(body))
  }

  /** The answer to an authorization error: a fixed message, whatever the error said. */
  function UnauthorizedAnswer(): (r: Response)
    ensures r.status == 401 && r.body.Obj? && Prop(r.body, "success") == Bool(false)
    ensures Prop(r.body, "message") == Str("Clé API invalide ou manquante")
    ensures Prop(r.body, "stack") == Undefined
  {
    var body := [("success", Bool(false)), ("error", Str("Non autorisé")), ("message", Str("Clé API invalide ou manquante"))];
    LookupFirst(body, "message", 2);
    assert "stack" !in Keys(body);
    Response(401, Obj(body))
  }

  /** The answer to an error of the analytics provider: its message. */
  function ExternalAnswer(err: JsError): (r: Response)
    ensures r.status == 502 && r.body.Obj? && Prop(r.body, "success") == Bool(false)
    ensures Prop(r.body, "message") == Str(err.message)
    ensures Prop(r.body, "stack") == Undefined
  {
    var body := [("success", Bool(false)), ("error", Str("Erreur API externe")), ("message", Str(err.message))];
    LookupFirst(body, "message", 2);
    assert "stack" !in Keys(body);
    Response(502, Obj(body))
  }

  /** The answer to any other error: its own status or 500, its message unless in production,
      and its stack trace only in development. */
  function InternalAnswer(err: JsError, nodeEnv: Option<string>): (r: Response)
    ensures r.status == InternalStatus(err.statusCode) && r.body.Obj? && Prop(r.body, "success") == Bool(false)
    ensures Prop(r.body, "message") == Str(if nodeEnv == Some("production") then HiddenMessage else err.message)
    ensures Prop(r.body, "stack") == if nodeEnv == Some("development") then Str(err.stack) else Undefined
    ensures nodeEnv != Some("development") ==> "stack" !in Keys(r.body.fields)
  {
    var message := if nodeEnv == Some("production") then HiddenMessage else err.message;
    var base := [("success", Bool(false)), ("error", Str("Erreur serveur")), ("message", Str(message))];
    var body := if nodeEnv == Some("development") then base + [("stack", Str(err.stack))] else base;
    LookupFirst(body, "message", 2);
    assert Keys(base) == ["success", "error", "message"];
    if nodeEnv == Some("development") then
      LookupFirst(body, "stack", 3);
      Response(InternalStatus(err.statusCode), Obj(body))
    else
      Response(InternalStatus(err.statusCode), Obj(body))
  }

  /** The answer to a forwarded error. */
  function HandleError(err: JsError, nodeEnv: Option<string>): (r: Response)
    ensures r.body.Obj? && Prop(r.body, "success") == Bool(false)
    ensures r.status == match Classify(err)
      case Validation => 400
      case Unauthorized => 401
      case External => 502
      case Internal => InternalStatus(err.statusCode)
    ensures Prop(r.body, "message") == match Classify(err)
      case Unauthorized => Str("Clé API invalide ou manquante")
      case Internal => Str(if nodeEnv == Some("production") then HiddenMessage else err.message)
      case _ => Str(err.message)
    ensures Classify(err) == Validation ==> Prop(r.body, "details") == err.details
  {
    match Classify(err)
    case Validation => ValidationAnswer(err)
    case Unauthorized => UnauthorizedAnswer()
    case External => ExternalAnswer(err)
    case Internal => InternalAnswer(err, nodeEnv)
  }

  /** The stack trace is in the answer exactly when the error is internal and the environment
      is "development". */
  lemma StackOnlyInDevelopment(err: JsError, nodeEnv: Option<string>)
    ensures var r := HandleError(err, nodeEnv);
      Prop(r.body, "stack") == if Classify(err) == Internal && nodeEnv == Some("development") then Str(err.stack) else Undefined
  {
  }

  /** In production an internal error never shows its own message. */
  lemma ProductionHidesMessage(err: JsError)
    requires Classify(err) == Internal
    ensures Prop(HandleError(err, Some("production")).body, "message") == Str(HiddenMessage)
    ensures "stack" !in Keys(HandleError(err, Some("production")).body.fields)
  {
  }
}

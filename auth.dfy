/**
 * The authentication middleware that runs before every route: it checks the
 * Authorization header against three guards, in order, and either records the
 * token on the request and passes control on, or answers 401.
 */
module Auth {
  import opened Wrappers
  import opened Strings
  import opened JsValues
  import opened Http

  const BearerPrefix := "Bearer "
  const MinTokenLength := 10

  /** A 401 answer `{success: false, error, message}`. */
  function Rejection(error: string, message: string): (r: Response)
    ensures r.status == 401 && Prop(r.body, "success") == Bool(false)
  {
    Response(401, Obj([("success", Bool(false)), ("error", Str(error)), ("message", Str(message))]))
  }

  const MissingToken := Rejection("Token manquant", "Header Authorization requis")
  const BadFormat := Rejection("Format de token invalide", "Le token doit être au format \"Bearer <token>\"")
  const BadToken := Rejection("Token invalide", "Le token fourni est invalide")

  /** The guard chain on `req.headers.authorization`: the token, or the 401 answer of the
      first guard that fails. An empty header is as good as a missing one. */
  function CheckBearer(header: Option<string>): (r: Result<string, Response>)
    ensures r.Ok? <==> header.Some? && StartsWith(header.value, BearerPrefix) && |header.value| >= |BearerPrefix| + MinTokenLength
    ensures r.Ok? ==> r.value == header.value[|BearerPrefix|..] && |r.value| >= MinTokenLength
    ensures r.Err? ==> r.error.status == 401
  {
    if header.None? || header.value == "" then Err(MissingToken)
    else if !StartsWith(header.value, BearerPrefix) then Err(BadFormat)
    else
      var token := header.value[|BearerPrefix|..];
      if token == "" || |token| < MinTokenLength then Err(BadToken) else Ok(token)
  }

  /** `validateApiKey`: an accepted header stores its token in `req.plausibleApiKey` and
      calls `next()`; a rejected one answers and leaves the request alone. */
  method ValidateApiKey(req: Request) returns (step: Step)
    modifies req`plausibleApiKey
    ensures step.Next? <==> CheckBearer(req.authorization).Ok?
    ensures CheckBearer(req.authorization).Ok? ==> req.plausibleApiKey == Some(CheckBearer(req.authorization).value)
    ensures CheckBearer(req.authorization).Err? ==>
      step == Halt(CheckBearer(req.authorization).error) && req.plausibleApiKey == old(req.plausibleApiKey)
  {
    var authHeader := req.authorization;
    if authHeader.None? || authHeader.value == "" {
      return Halt(MissingToken);
    }
    if !StartsWith(authHeader.value, BearerPrefix) {
      return Halt(BadFormat);
    }
    var token := authHeader.value[|BearerPrefix|..];
    if token == "" || |token| < MinTokenLength {
      return Halt(BadToken);
    }
    req.plausibleApiKey := Some(token);
    step := Next;
  }

  // ---------------------------------------------------------------------------
  // properties of the guard chain

  /** The three rejections are told apart by their `error` field. */
  lemma RejectionsDistinct()
    ensures Prop(MissingToken.body, "error") == Str("Token manquant")
    ensures Prop(BadFormat.body, "error") == Str("Format de token invalide")
    ensures Prop(BadToken.body, "error") == Str("Token invalide")
    ensures MissingToken != BadFormat && BadFormat != BadToken && MissingToken != BadToken
  {
    assert "Token manquant"[6] == 'm' && "Token invalide"[6] == 'i';
    assert "Format de token invalide"[0] == 'F';
  }

  /** Each guard answers only when the guards before it passed: missing, then prefix, then
      length. */
  lemma GuardOrder(header: Option<string>)
    ensures header == None || header == Some("") ==> CheckBearer(header) == Err(MissingToken)
    ensures header.Some? && header.value != "" && !StartsWith(header.value, BearerPrefix)
      ==> CheckBearer(header) == Err(BadFormat)
    ensures header.Some? && StartsWith(header.value, BearerPrefix) && |header.value| < |BearerPrefix| + MinTokenLength
      ==> CheckBearer(header) == Err(BadToken)
  {
  }

  /** Worked examples of where several guards would object and the earliest one answers: a
      short header with the wrong prefix is a format error, a lower-case scheme is a format
      error, and a bare prefix is a token error. */
  lemma FirstGuardWins()
    ensures CheckBearer(Some("Token x")) == Err(BadFormat)
    ensures CheckBearer(Some("bearer 0123456789")) == Err(BadFormat)
    ensures CheckBearer(Some("Bearer ")) == Err(BadToken)
    ensures CheckBearer(Some("Bearer 0123456789")) == Ok("0123456789")
  {
    assert "Token x"[0] != "Bearer "[0];
    assert "bearer 0123456789"[0] != "Bearer "[0];
    assert "Bearer 0123456789"[..7] == "Bearer ";
    assert "Bearer 0123456789"[7..] == "0123456789";
  }

  /** The prefix is compared case-sensitively: a header whose scheme is spelled `bearer` is a
      format error whatever token follows, however long. */
  lemma LowerCaseSchemeRejected(token: string)
    ensures CheckBearer(Some("bearer " + token)) == Err(BadFormat)
  {
    assert ("bearer " + token)[0] != BearerPrefix[0];
  }

  /** For every accepted header, the handlers' `replace('Bearer ', '')` yields the same
      token as the middleware's `substring(7)`. */
  lemma ReplaceYieldsToken(header: string)
    requires CheckBearer(Some(header)).Ok?
    ensures ReplaceFirst(header, BearerPrefix, "") == CheckBearer(Some(header)).value
  {
    ReplacePrefix(header, BearerPrefix);
  }
}

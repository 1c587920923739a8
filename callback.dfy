/**
 * app/api/auth/callback/salesforce/route.ts: finish the authorization-code
 * flow. The handler validates the query and the session in a fixed order,
 * exchanges the code and the stored verifier at the token endpoint
 * (section 4.1.3 of RFC 6749, section 4.5 of RFC 7636), and on success logs
 * the session in.
 */
module Callback {
  import opened Js
  import opened Http
  import opened Strings
  import SessionConfig

  /** The query parameters the callback reads; `searchParams.get` gives null for a missing one. */
  datatype CallbackQuery = CallbackQuery(code: Option<string>, error: Option<string>, errorDescription: Option<string>)

  /** A `string | null` value. */
  function NullableStr(o: Option<string>): JsValue {
    match o
    case None => Null
    case Some(s) => Str(s)
  }

  const NoCodeMessage := "No code found"
  const NoVerifierMessage := "No code verifier found in session"
  const EnvMissingMessage := "Salesforce environment variables are not set"
  const ExchangeFailedMessage := "Salesforce token exchange failed"
  const TokenPath := "/services/oauth2/token"
  const InsightsPath := "/insights"

  /** The token request body: section 4.1.3 of RFC 6749 with `code_verifier` of section 4.5 of RFC 7636. */
  function TokenParams(clientId: string, clientSecret: string, redirectUri: string, code: string, verifier: string)
    : seq<(string, string)>
  {
    [("grant_type", "authorization_code"),
     ("client_id", clientId),
     ("client_secret", clientSecret),
     ("redirect_uri", redirectUri),
     ("code", code),
     ("code_verifier", verifier)]
  }

  lemma TokenParamsConform(clientId: string, clientSecret: string, redirectUri: string, code: string, verifier: string)
    ensures var q := TokenParams(clientId, clientSecret, redirectUri, code, verifier);
      && Param(q, "grant_type") == Some("authorization_code")
      && Param(q, "code") == Some(code)
      && Param(q, "code_verifier") == Some(verifier)
      && Param(q, "client_id") == Some(clientId)
      && Param(q, "redirect_uri") == Some(redirectUri)
  {
    var q := TokenParams(clientId, clientSecret, redirectUri, code, verifier);
    var keys := ["grant_type", "client_id", "client_secret", "redirect_uri", "code", "code_verifier"];
    assert forall i, j :: 0 <= i < j < 6 ==> keys[i] != keys[j] by {
      assert keys[0][0] == 'g' && keys[1][0] == 'c' && keys[2][0] == 'c' && keys[3][0] == 'r';
      assert keys[4][0] == 'c' && keys[5][0] == 'c';
      assert keys[1][1] == 'l' && keys[2][1] == 'l' && keys[4][1] == 'o' && keys[5][1] == 'o';
      assert keys[1][7] == 'i' && keys[2][7] == 's';
      assert |keys[4]| != |keys[5]|;
    }
    assert forall i :: 0 <= i < 6 ==> q[i].0 == keys[i];
    ParamAt(q, "grant_type", 0);
    ParamAt(q, "client_id", 1);
    ParamAt(q, "redirect_uri", 3);
    ParamAt(q, "code", 4);
    ParamAt(q, "code_verifier", 5);
  }

  /** The callback drops trailing slashes from `SF_LOGIN_URL` and, unlike the login route, splits nothing off. */
  function TrimLoginUrl(u: Option<string>): (r: Option<string>)
    ensures r.Some? <==> u.Some?
    ensures Present(u) ==> r == Some(TrimTrailingSlashes(u.value))
    ensures r.Some? ==> !EndsWithSlash(r.value)
  {
    if Present(u) then Some(TrimTrailingSlashes(u.value)) else u
  }

  predicate TokenConfigComplete(env: Env) {
    Present(TrimLoginUrl(env.sfLoginUrl)) && Present(env.sfClientId)
    && Present(env.sfClientSecret) && Present(env.sfRedirectUri)
  }

  datatype Tokens = Tokens(accessToken: Option<string>, refreshToken: Option<string>, instanceUrl: Option<string>)

  datatype TokenResult = Granted(tokens: Tokens) | Refused(response: Response)

  /**
   * What the handler makes of the token endpoint's answer: the three tokens
   * of a 2xx JSON object, or a 500 response carrying the provider's
   * `error_description`, the default message, or the message of what threw.
   */
  function ExchangeResult(upstream: Upstream): (r: TokenResult)
    ensures r.Granted? <==>
      upstream.Answered? && IsOk(upstream.reply.status)
      && upstream.reply.json.Parsed? && !Nullish(upstream.reply.json.value)
    ensures r.Granted? ==> var data := upstream.reply.json.value;
      r.tokens == Tokens(AsOptString(Prop(data, "access_token").value),
                         AsOptString(Prop(data, "refresh_token").value),
                         AsOptString(Prop(data, "instance_url").value))
    ensures r.Refused? ==> StatusOf(r.response) == 500
    ensures upstream.Answered? && !IsOk(upstream.reply.status) && upstream.reply.json.Parsed?
            && upstream.reply.json.value.Obj? ==>
      r == Refused(JsonReply(500, Obj(map["error" := Or(Prop(upstream.reply.json.value, "error_description").value,
                                                         Str(ExchangeFailedMessage))])))
  {
    match upstream
    case FetchFailed(m) => Refused(ErrorReply(500, m))
    case Answered(reply) =>
      match ReadJson(reply)
      case Throw(m) => Refused(ErrorReply(500, m))
      case Ok(data) =>
        if !IsOk(reply.status) then
          match Prop(data, "error_description")
          case Throw(m) => Refused(ErrorReply(500, m))
          case Ok(d) => Refused(JsonReply(500, Obj(map["error" := Or(d, Str(ExchangeFailedMessage))])))
        else
          match Prop(data, "access_token")
          case Throw(m) => Refused(ErrorReply(500, m))
          case Ok(access) =>
            Granted(Tokens(AsOptString(access),
                           AsOptString(Prop(data, "refresh_token").value),
                           AsOptString(Prop(data, "instance_url").value)))
  }

  /** The validations before the token request, in the handler's order. */
  predicate MayExchange(query: CallbackQuery, verifier: Option<string>, env: Env) {
    !Present(query.error) && Present(query.code) && Present(verifier) && TokenConfigComplete(env)
  }

  /**
   * `GET /api/auth/callback/salesforce`. Every answer but the final redirect
   * leaves the stored session as it was; the redirect logs the session in
   * with the tokens of the reply and clears the verifier.
   */
  method Get(query: CallbackQuery, requestOrigin: string, env: Env, session: SessionConfig.Session, tokenReply: Upstream)
    returns (resp: Response, tokenCall: Option<Call>)
    modifies session
    ensures Present(query.error) ==>
      resp == JsonReply(400, Obj(map["error" := Str(query.error.value),
                                     "errorDescription" := NullableStr(query.errorDescription)]))
    ensures !Present(query.error) && !Present(query.code) ==> resp == ErrorReply(400, NoCodeMessage)
    ensures !Present(query.error) && Present(query.code) && !Present(old(session.codeVerifier)) ==>
      resp == ErrorReply(400, NoVerifierMessage)
    ensures (!Present(query.error) && Present(query.code) && Present(old(session.codeVerifier))
             && !TokenConfigComplete(env)) ==> resp == ErrorReply(500, EnvMissingMessage)
    ensures tokenCall.Some? <==> MayExchange(query, old(session.codeVerifier), env)
    ensures tokenCall.Some? ==>
      tokenCall.value == Call("POST", TrimLoginUrl(env.sfLoginUrl).value + TokenPath, None,
                              FormBody(TokenParams(env.sfClientId.value, env.sfClientSecret.value,
                                                   env.sfRedirectUri.value, query.code.value,
                                                   old(session.codeVerifier).value)))
    ensures tokenCall.Some? && ExchangeResult(tokenReply).Refused? ==> resp == ExchangeResult(tokenReply).response
    ensures tokenCall.Some? && ExchangeResult(tokenReply).Granted? ==>
      var t := ExchangeResult(tokenReply).tokens;
      && session.Data() == SessionConfig.SessionData(true, t.accessToken, t.instanceUrl, t.refreshToken, None)
      && resp == Redirect(Url(requestOrigin, InsightsPath, []), [])
    ensures !(tokenCall.Some? && ExchangeResult(tokenReply).Granted?) ==> session.Data() == old(session.Data())
  {
    tokenCall := None;
    if Present(query.error) {
      return JsonReply(400, Obj(map["error" := Str(query.error.value),
                                    "errorDescription" := NullableStr(query.errorDescription)])), None;
    }
    if !Present(query.code) {
      return ErrorReply(400, NoCodeMessage), None;
    }
    var codeVerifier := session.codeVerifier;
    if !Present(codeVerifier) {
      return ErrorReply(400, NoVerifierMessage), None;
    }
    var loginUrl := env.sfLoginUrl;
    if Present(loginUrl) {
      loginUrl := Some(TrimTrailingSlashes(loginUrl.value));
    }
    if !Present(loginUrl) || !Present(env.sfClientId) || !Present(env.sfClientSecret) || !Present(env.sfRedirectUri) {
      return ErrorReply(500, EnvMissingMessage), None;
    }
    var params := TokenParams(env.sfClientId.value, env.sfClientSecret.value, env.sfRedirectUri.value,
                              query.code.value, codeVerifier.value);
    tokenCall := Some(Call("POST", loginUrl.value + TokenPath, None, FormBody(params)));
    match ExchangeResult(tokenReply)
    case Refused(r) =>
      resp := r;
    case Granted(t) =>
      session.isLoggedIn := true;
      session.accessToken := t.accessToken;
      session.refreshToken := t.refreshToken;
      session.instanceUrl := t.instanceUrl;
      session.codeVerifier := None;
      resp := Redirect(Url(requestOrigin, InsightsPath, []), []);
  }
}

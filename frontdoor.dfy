/**
 * app/api/tableau/frontdoor/route.ts: `POST` asks Salesforce's single-access
 * endpoint for a frontdoor URL, with the session's credentials when the
 * session has them and the request body's otherwise, and explains the
 * failures it can recognise.
 */
module Frontdoor {
  import opened Js
  import opened Http
  import opened Strings
  import SessionConfig

  const SingleAccessPath := "/services/oauth2/singleaccess"
  const NotAuthenticatedMessage := "Not authenticated"
  const LogInFirstDetails := "Please log in to Salesforce first"
  const InternalErrorMessage := "Internal server error"
  const InvalidResponseMessage := "Invalid response from Salesforce"
  const NoUrlDetails := "No frontdoor URL in response"
  const UnknownError := "Unknown error"
  const DefaultExpiresIn := 300.0

  const DefaultMessage := "Failed to generate frontdoor URL"
  const ScopeMessage := "\U{274C} Missing Wave API Scope"
  const AuthFailedMessage := "\U{274C} Authentication Failed"
  const AccessDeniedMessage := "\U{274C} Access Denied"
  const ScopeHint := "Your Salesforce Connected App is missing the \"wave_api\" OAuth scope.\n\nTo fix this:\n1. Go to Salesforce Setup\n2. Navigate to: App Manager\n3. Find your \"Decision Lag\" Connected App\n4. Click \"Edit\"\n5. Scroll to \"Selected OAuth Scopes\"\n6. Add \"Access Wave API (wave_api)\" to the selected scopes\n7. Save\n8. Log out and log back in to get a new token with the correct scope\n\nCurrent scopes in your token may not include wave_api."
  const AuthFailedHint := "Your access token may have expired. Please log out and log back in."
  const AccessDeniedHint := "Your user may not have permission to access CRM Analytics. Check your Salesforce user permissions and ensure CRM Analytics is enabled for your user."

  /** The TypeError of calling `toLowerCase` on a value that is not a string. */
  const NotAStringMessage := "errorCode.toLowerCase is not a function"

  /** The TypeError Node's fetch rejects with when a body that was already read is read again. */
  const BodyUnusableMessage := "Body is unusable: Body has already been read"

  /** `{ error: 'Internal server error', details: error.message }` with status 500: the outer `catch`. */
  function InternalError(m: string): Response {
    JsonReply(500, Obj(map["error" := Str(InternalErrorMessage), "details" := Str(m)]))
  }

  const NotAuthenticated := JsonReply(401, Obj(map["error" := Str(NotAuthenticatedMessage), "details" := Str(LogInFirstDetails)]))

  // ---------------------------------------------------------------------------
  // Credentials

  datatype Credentials = Credentials(accessToken: JsValue, instanceUrl: JsValue)

  /** The session holds everything the call needs. */
  predicate SessionHasCredentials(session: SessionConfig.SessionData) {
    session.isLoggedIn && Present(session.accessToken) && Present(session.instanceUrl)
  }

  /** The credentials the handler ends up with; reading the body may throw. */
  function SelectCredentials(session: SessionConfig.SessionData, body: Parsed): (r: Result<Credentials>)
    ensures SessionHasCredentials(session) ==>
      r == Ok(Credentials(Str(session.accessToken.value), Str(session.instanceUrl.value)))
    ensures !SessionHasCredentials(session) && body.Parsed? && !Nullish(body.value) ==>
      r == Ok(Credentials(Prop(body.value, "accessToken").value, Prop(body.value, "instanceUrl").value))
    ensures !SessionHasCredentials(session) && body.Unparsable? ==> r == Throw(body.message)
    ensures !SessionHasCredentials(session) && body.Parsed? && Nullish(body.value) ==>
      r == Throw(ReadError(body.value, "accessToken"))
  {
    if SessionHasCredentials(session) then
      Ok(Credentials(Str(session.accessToken.value), Str(session.instanceUrl.value)))
    else
      var b :- RequestJson(body);
      var token :- Prop(b, "accessToken");
      Ok(Credentials(token, Prop(b, "instanceUrl").value))
  }

  // ---------------------------------------------------------------------------
  // Upstream errors

  /** The message and hint chosen for an error code (already lower-cased) and a status. */
  datatype Explanation = Explanation(message: string, hint: string)

  function Classify(lowerCode: string, status: int): (e: Explanation)
    ensures Includes(lowerCode, "scope") ==> e == Explanation(ScopeMessage, ScopeHint)
    ensures !Includes(lowerCode, "scope") && status == 401 ==> e == Explanation(AuthFailedMessage, AuthFailedHint)
    ensures !Includes(lowerCode, "scope") && status == 403 ==> e == Explanation(AccessDeniedMessage, AccessDeniedHint)
    ensures !Includes(lowerCode, "scope") && status != 401 && status != 403 ==> e == Explanation(DefaultMessage, "")
  {
    if Includes(lowerCode, "invalid_scope") || Includes(lowerCode, "scope") then
      assert Includes(lowerCode, "scope") by {
        if Includes(lowerCode, "invalid_scope") {
          assert "invalid_" + "scope" == "invalid_scope";
          IncludesSuffixPart(lowerCode, "invalid_", "scope");
        }
      }
      Explanation(ScopeMessage, ScopeHint)
    else if status == 401 then Explanation(AuthFailedMessage, AuthFailedHint)
    else if status == 403 then Explanation(AccessDeniedMessage, AccessDeniedHint)
    else Explanation(DefaultMessage, "")
  }

  /** `errorData.error || errorData.errorCode || ''`, when it is a string. */
  function ErrorCode(errorData: JsValue): (r: Result<string>)
    ensures Nullish(errorData) ==> r == Throw(ReadError(errorData, "error"))
    ensures !Nullish(errorData) ==> var code := Or(Or(Prop(errorData, "error").value, Prop(errorData, "errorCode").value), Str(""));
      (r.Ok? <==> code.Str?) && (r.Ok? ==> r.value == code.s)
  {
    var e :- Prop(errorData, "error");
    var code := Or(Or(e, Prop(errorData, "errorCode").value), Str(""));
    if code.Str? then Ok(code.s) else Throw(NotAStringMessage)
  }

  /** `errorData.error_description || errorData.error || errorData.message || 'Unknown error'` on a non-null value. */
  function Details(errorData: JsValue): (r: JsValue)
    requires !Nullish(errorData)
    ensures Truthy(r)
    ensures Truthy(Prop(errorData, "error_description").value) ==> r == Prop(errorData, "error_description").value
    ensures !Truthy(Prop(errorData, "error_description").value) && Truthy(Prop(errorData, "error").value) ==>
      r == Prop(errorData, "error").value
    ensures (!Truthy(Prop(errorData, "error_description").value) && !Truthy(Prop(errorData, "error").value)
             && Truthy(Prop(errorData, "message").value)) ==> r == Prop(errorData, "message").value
    ensures (!Truthy(Prop(errorData, "error_description").value) && !Truthy(Prop(errorData, "error").value)
             && !Truthy(Prop(errorData, "message").value)) ==> r == Str(UnknownError)
  {
    Or(Or(Or(Prop(errorData, "error_description").value, Prop(errorData, "error").value),
          Prop(errorData, "message").value), Str(UnknownError))
  }

  /**
   * The answer to an upstream reply that is not `ok`, given what reading the
   * error body gave. It carries the upstream status whenever the error code
   * is a string.
   */
  function ErrorAnswer(status: int, errorData: Result<JsValue>): (r: Response)
    ensures errorData.Ok? && ErrorCode(errorData.value).Ok? ==>
      var e := Classify(LowerAscii(ErrorCode(errorData.value).value), status);
      r == JsonReply(status, Obj(map["error" := Str(e.message),
                                     "details" := Details(errorData.value),
                                     "hint" := Str(e.hint),
                                     "status" := Num(status as real),
                                     "rawError" := errorData.value]))
    ensures errorData.Throw? ==> r == InternalError(errorData.message)
    ensures errorData.Ok? && ErrorCode(errorData.value).Throw? ==> r == InternalError(ErrorCode(errorData.value).message)
  {
    match errorData
    case Throw(m) => InternalError(m)
    case Ok(data) =>
      match ErrorCode(data)
      case Throw(m) => InternalError(m)
      case Ok(code) =>
        var e := Classify(LowerAscii(code), status);
        JsonReply(status, Obj(map["error" := Str(e.message),
                                  "details" := Details(data),
                                  "hint" := Str(e.hint),
                                  "status" := Num(status as real),
                                  "rawError" := data]))
  }

  /**
   * The error body as written: `await response.json()`, and on failure
   * `{ error: await response.text() }`. The failed `json()` has already
   * consumed the body, so the `text()` read rejects.
   */
  function ErrorDataAsWritten(reply: Reply): (r: Result<JsValue>)
    ensures reply.json.Parsed? ==> r == Ok(reply.json.value)
    ensures reply.json.Unparsable? ==> r == Throw(BodyUnusableMessage)
  {
    match reply.json
    case Parsed(v) => Ok(v)
    case Unparsable(_) => Throw(BodyUnusableMessage)
  }

  /** The error body as intended: the parsed JSON, or the raw text under `error`. */
  function ErrorData(reply: Reply): (r: Result<JsValue>)
    ensures r.Ok?
    ensures reply.json.Parsed? ==> r.value == reply.json.value
    ensures reply.json.Unparsable? ==> r.value == Obj(map["error" := Str(reply.text)])
  {
    match reply.json
    case Parsed(v) => Ok(v)
    case Unparsable(_) => Ok(Obj(map["error" := Str(reply.text)]))
  }

  /**
   * As written, an error reply whose body is not JSON is answered with the
   * generic 500, whatever its status: a 502 or a 404 comes back as a 500.
   */
  lemma AsWrittenLosesStatus(reply: Reply)
    requires !IsOk(reply.status) && reply.json.Unparsable?
    ensures ErrorAnswer(reply.status, ErrorDataAsWritten(reply)) == InternalError(BodyUnusableMessage)
    ensures reply.status != 500 ==> StatusOf(ErrorAnswer(reply.status, ErrorDataAsWritten(reply))) != reply.status
  {
  }

  /** With the intended error body, a reply that is not JSON keeps its status and its text. */
  lemma TextErrorKeepsStatus(reply: Reply)
    requires reply.json.Unparsable?
    ensures var r := ErrorAnswer(reply.status, ErrorData(reply));
      StatusOf(r) == reply.status
      && r.body.props["details"] == (if reply.text == "" then Str(UnknownError) else Str(reply.text))
  {
    var data := Obj(map["error" := Str(reply.text)]);
    assert ErrorCode(data) == Ok(reply.text);
  }

  /** The error code "invalid_scope", in any case, is reported as the missing scope. */
  lemma InvalidScopeIsScope(code: string, status: int)
    requires Includes(LowerAscii(code), "invalid_scope")
    ensures Classify(LowerAscii(code), status) == Explanation(ScopeMessage, ScopeHint)
  {
    assert "invalid_" + "scope" == "invalid_scope";
    IncludesSuffixPart(LowerAscii(code), "invalid_", "scope");
  }

  // ---------------------------------------------------------------------------
  // Success

  /** The answer to an `ok` reply: `frontdoorUrl || url`, and `expiresIn || 300`. */
  function SuccessAnswer(reply: Reply): (r: Response)
    ensures reply.json.Unparsable? ==> r == InternalError(reply.json.message)
    ensures reply.json.Parsed? && Nullish(reply.json.value) ==>
      r == InternalError(ReadError(reply.json.value, "frontdoorUrl"))
    ensures reply.json.Parsed? && !Nullish(reply.json.value) ==>
      var data := reply.json.value;
      var url := Or(Prop(data, "frontdoorUrl").value, Prop(data, "url").value);
      && (!Truthy(url) ==> r == JsonReply(500, Obj(map["error" := Str(InvalidResponseMessage), "details" := Str(NoUrlDetails)])))
      && (Truthy(url) ==> r == JsonReply(200, Obj(map["frontdoorUrl" := url,
                                                      "expiresIn" := Or(Prop(data, "expiresIn").value, Num(DefaultExpiresIn))])))
  {
    match reply.json
    case Unparsable(m) => InternalError(m)
    case Parsed(data) =>
      match Prop(data, "frontdoorUrl")
      case Throw(m) => InternalError(m)
      case Ok(frontdoorUrl) =>
        var url := Or(frontdoorUrl, Prop(data, "url").value);
        if !Truthy(url) then
          JsonReply(500, Obj(map["error" := Str(InvalidResponseMessage), "details" := Str(NoUrlDetails)]))
        else
          JsonReply(200, Obj(map["frontdoorUrl" := url, "expiresIn" := Or(Prop(data, "expiresIn").value, Num(DefaultExpiresIn))]))
  }

  /** The success body always carries a truthy URL, the reply's `frontdoorUrl` in preference to its `url`. */
  lemma SuccessUrlFallback(reply: Reply)
    requires reply.json.Parsed? && reply.json.value.Obj?
    ensures var r := SuccessAnswer(reply); var p := reply.json.value.props;
      && (r.JsonReply? && r.status == 200 ==> Truthy(r.body.props["frontdoorUrl"]))
      && ("frontdoorUrl" in p && Truthy(p["frontdoorUrl"]) ==> r.body.props["frontdoorUrl"] == p["frontdoorUrl"])
      && (("frontdoorUrl" !in p || !Truthy(p["frontdoorUrl"])) && "url" in p && Truthy(p["url"]) ==>
            r.body.props["frontdoorUrl"] == p["url"])
      && (r.JsonReply? && r.status == 200 && ("expiresIn" !in p || !Truthy(p["expiresIn"])) ==>
            r.body.props["expiresIn"] == Num(300.0))
  {
  }

  // ---------------------------------------------------------------------------
  // The handler

  /**
   * `POST /api/tableau/frontdoor`, given the session, the request body and
   * the reply to the single-access call if the handler makes it.
   */
  method Post(session: SessionConfig.SessionData, body: Parsed, upstream: Upstream) returns (x: Exchange)
    ensures SelectCredentials(session, body).Throw? ==>
      x == Exchange(InternalError(SelectCredentials(session, body).message), None)
    ensures SelectCredentials(session, body).Ok? ==> var c := SelectCredentials(session, body).value;
      && (!(Truthy(c.accessToken) && Truthy(c.instanceUrl)) ==> x == Exchange(NotAuthenticated, None))
      && (Truthy(c.accessToken) && Truthy(c.instanceUrl) ==>
            x.call == Some(Call("POST", Text(c.instanceUrl) + SingleAccessPath, Some("Bearer " + Text(c.accessToken)), NoBody)))
    ensures !SessionHasCredentials(session) && body.Parsed? && body.value.Obj?
            && ("accessToken" !in body.value.props || !Truthy(body.value.props["accessToken"])) ==>
      x == Exchange(NotAuthenticated, None)
    ensures x.call.Some? && upstream.FetchFailed? ==> x.response == InternalError(upstream.message)
    ensures x.call.Some? && upstream.Answered? && !IsOk(upstream.reply.status) ==>
      x.response == ErrorAnswer(upstream.reply.status, ErrorData(upstream.reply))
    ensures x.call.Some? && upstream.Answered? && IsOk(upstream.reply.status) ==>
      x.response == SuccessAnswer(upstream.reply)
  {
    var accessToken: JsValue := Undefined;
    var instanceUrl: JsValue := Undefined;
    if SessionHasCredentials(session) {
      accessToken := Str(session.accessToken.value);
      instanceUrl := Str(session.instanceUrl.value);
    } else {
      var b := RequestJson(body);
      if b.Throw? {
        return Exchange(InternalError(b.message), None);
      }
      var token := Prop(b.value, "accessToken");
      if token.Throw? {
        return Exchange(InternalError(token.message), None);
      }
      accessToken := token.value;
      instanceUrl := Prop(b.value, "instanceUrl").value;
    }
    if !Truthy(accessToken) || !Truthy(instanceUrl) {
      return Exchange(NotAuthenticated, None);
    }
    var call := Call("POST", Text(instanceUrl) + SingleAccessPath, Some("Bearer " + Text(accessToken)), NoBody);
    match upstream
    case FetchFailed(m) =>
      x := Exchange(InternalError(m), Some(call));
    case Answered(reply) =>
      if !IsOk(reply.status) {
        x := Exchange(ErrorAnswer(reply.status, ErrorData(reply)), Some(call));
      } else {
        x := Exchange(SuccessAnswer(reply), Some(call));
      }
  }

  /** Without usable credentials no request leaves the server. */
  lemma NoCredentialsNoCall(session: SessionConfig.SessionData, fields: map<string, JsValue>)
    requires !SessionHasCredentials(session)
    requires "accessToken" !in fields || !Truthy(fields["accessToken"])
    ensures SelectCredentials(session, Parsed(Obj(fields))).Ok?
    ensures !Truthy(SelectCredentials(session, Parsed(Obj(fields))).value.accessToken)
  {
  }
}

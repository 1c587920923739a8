/**
 * app/api/salesforce/insights/create/route.ts: `POST` forwards a new
 * `Decision_Insight__c` record, unchanged, to the Salesforce REST API.
 */
module CreateInsight {
  import opened Js
  import opened Http
  import opened Salesforce
  import SessionConfig

  const RequiredFields := ["Title__c", "Impact__c", "Risk__c", "Confidence__c"]

  /** Everything up to the upstream call: read the body, check the four fields, build the POST. */
  function Prepare(session: SessionConfig.SessionData, body: Parsed): Result<Step> {
    var b :- RequestJson(body);
    var title :- Prop(b, "Title__c");
    // Only the first read can throw: the others read the same non-null body.
    var impact := Prop(b, "Impact__c").value;
    var risk := Prop(b, "Risk__c").value;
    var confidence := Prop(b, "Confidence__c").value;
    if !Truthy(title) || !Truthy(impact) || !Truthy(risk) || !Truthy(confidence) then
      Ok(Done(ErrorReply(400, MissingFieldsMessage)))
    else
      Ok(Send(Call("POST", SObjectUrl(session.instanceUrl, InsightObject), Bearer(session.accessToken), JsonBody(b))))
  }

  /**
   * `POST /api/salesforce/insights/create`, given the session, the request
   * body and the reply Salesforce gives to the POST if the handler makes it.
   */
  function Post(session: SessionConfig.SessionData, body: Parsed, upstream: Upstream): (x: Exchange)
    ensures !session.isLoggedIn ==> x == Exchange(Unauthorized, None)
    ensures session.isLoggedIn && body.Unparsable? ==> x == Exchange(ErrorReply(500, body.message), None)
    ensures session.isLoggedIn && body.Parsed? && Nullish(body.value) ==>
      x == Exchange(ErrorReply(500, ReadError(body.value, "Title__c")), None)
    ensures session.isLoggedIn && body.Parsed? && !Nullish(body.value) && !HasFields(body.value, RequiredFields) ==>
      x == Exchange(ErrorReply(400, MissingFieldsMessage), None)
    ensures x.call.Some? <==> session.isLoggedIn && body.Parsed? && HasFields(body.value, RequiredFields)
    ensures x.call.Some? ==>
      x.call.value == Call("POST", SObjectUrl(session.instanceUrl, InsightObject), Bearer(session.accessToken),
                           JsonBody(body.value))
    ensures x.call.Some? && upstream.Answered? && upstream.reply.json.Parsed? && IsOk(upstream.reply.status) ==>
      x.response == JsonReply(201, upstream.reply.json.value)
    ensures x.call.Some? && upstream.Answered? && upstream.reply.json.Parsed? && !IsOk(upstream.reply.status) ==>
      x.response == UpstreamError(InsightObject, upstream.reply.status, upstream.reply.json.value)
    ensures x.call.Some? && (upstream.FetchFailed? || upstream.reply.json.Unparsable?) ==> StatusOf(x.response) == 500
  {
    if !session.isLoggedIn then Exchange(Unauthorized, None)
    else
      var pre := Prepare(session, body);
      assert pre.Ok? && pre.value.Send? ==> HasFields(body.value, RequiredFields) by {
        if pre.Ok? && pre.value.Send? {
          var b := body.value;
          forall k | k in RequiredFields ensures k in b.props && Truthy(b.props[k]) {
            TruthyPropOfObject(b, k);
          }
        }
      }
      Dispatch(pre, CreatedReply(InsightObject, upstream))
  }

  /** A confidence of 0 is falsy: such an insight is refused before anything is sent. */
  lemma ZeroConfidenceRefused(session: SessionConfig.SessionData, fields: map<string, JsValue>, upstream: Upstream)
    requires session.isLoggedIn && "Confidence__c" in fields && fields["Confidence__c"] == Num(0.0)
    ensures Post(session, Parsed(Obj(fields)), upstream) == Exchange(ErrorReply(400, MissingFieldsMessage), None)
  {
  }
}

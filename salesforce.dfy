/**
 * What the Salesforce proxy handlers (create insight, create view event,
 * list insights) have in common: the REST paths, the guard messages, the
 * required-field check, and the mapping of an upstream error reply.
 */
module Salesforce {
  import opened Js
  import opened Http

  const ApiBase := "/services/data/v60.0"
  const InsightObject := "Decision_Insight__c"
  const ViewEventObject := "Decision_View_Event__c"

  const NotAuthorizedMessage := "Not authorized"
  const MissingFieldsMessage := "Missing required fields"
  const ApiErrorMessage := "Salesforce API error"
  const InvalidTypeCode := "INVALID_TYPE"
  const InvalidTypeHint := "Check Object Manager > your object API name. Also ensure you logged into the SAME org where you created it."

  /** `${instanceUrl}/services/data/v60.0/sobjects/<object>/` */
  function SObjectUrl(instanceUrl: Option<string>, objectName: string): string {
    TemplateText(instanceUrl) + ApiBase + "/sobjects/" + objectName + "/"
  }

  /** The 401 every proxy handler answers before reading the request. */
  const Unauthorized := ErrorReply(401, NotAuthorizedMessage)

  /** Every listed property of a request body is truthy (which only an object can have). */
  predicate HasFields(b: JsValue, keys: seq<string>) {
    b.Obj? && forall k | k in keys :: k in b.props && Truthy(b.props[k])
  }

  /** A property read that does not throw is truthy only on an object that has the property. */
  lemma TruthyPropOfObject(b: JsValue, k: string)
    requires !Nullish(b) && Truthy(Prop(b, k).value)
    ensures b.Obj? && k in b.props && Truthy(b.props[k])
  {
  }

  /** `Array.isArray(data) && data[0]?.errorCode === 'INVALID_TYPE'` */
  predicate IsInvalidType(data: JsValue) {
    data.Arr? && OptProp(First(data).value, "errorCode") == Str(InvalidTypeCode)
  }

  /** The answer to an upstream reply that is not `ok`: 400 for a missing object, else the upstream status. */
  function UpstreamError(objectName: string, status: int, data: JsValue): (r: Response)
    ensures r.JsonReply? && r.body.Obj? && "details" in r.body.props && r.body.props["details"] == data
    ensures StatusOf(r) == if IsInvalidType(data) then 400 else status
    ensures IsInvalidType(data) ==>
      r.body == Obj(map["error" := Str("INVALID_TYPE: Object not found: " + objectName),
                        "hint" := Str(InvalidTypeHint), "details" := data])
    ensures !IsInvalidType(data) ==> r.body == Obj(map["error" := Str(ApiErrorMessage), "details" := data])
  {
    if IsInvalidType(data) then
      JsonReply(400, Obj(map["error" := Str("INVALID_TYPE: Object not found: " + objectName),
                             "hint" := Str(InvalidTypeHint),
                             "details" := data]))
    else
      JsonReply(status, Obj(map["error" := Str(ApiErrorMessage), "details" := data]))
  }

  /** The answer of the two create handlers to the reply of their POST: 201 with the record, or the error mapping. */
  function CreatedReply(objectName: string, upstream: Upstream): (r: Result<Response>)
    ensures upstream.Answered? && upstream.reply.json.Parsed? ==>
      r == Ok(if IsOk(upstream.reply.status) then JsonReply(201, upstream.reply.json.value)
              else UpstreamError(objectName, upstream.reply.status, upstream.reply.json.value))
    ensures upstream.FetchFailed? ==> r == Throw(upstream.message)
    ensures upstream.Answered? && upstream.reply.json.Unparsable? ==> r == Throw(upstream.reply.json.message)
  {
    var reply :- Answer(upstream);
    var data :- ReadJson(reply);
    if !IsOk(reply.status) then Ok(UpstreamError(objectName, reply.status, data))
    else Ok(JsonReply(201, data))
  }
}

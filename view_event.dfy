/**
 * app/api/salesforce/view-events/create/route.ts: `POST` stamps the request
 * body with the current time in `Viewed_At__c` (overwriting any value the
 * client sent) and forwards it as a new `Decision_View_Event__c` record.
 * The time, `new Date().toISOString()`, is the input `now`.
 */
module CreateViewEvent {
  import opened Js
  import opened Http
  import opened Salesforce
  import SessionConfig

  const RequiredFields := ["Insight__c", "Viewer_Name__c", "Source__c"]
  const ViewedAtField := "Viewed_At__c"

  /** `POST /api/salesforce/view-events/create`; the body object is changed in place before it is sent. */
  method Post(session: SessionConfig.SessionData, body: Parsed, now: string, upstream: Upstream)
    returns (x: Exchange)
    ensures !session.isLoggedIn ==> x == Exchange(Unauthorized, None)
    ensures session.isLoggedIn && body.Unparsable? ==> x == Exchange(ErrorReply(500, body.message), None)
    ensures session.isLoggedIn && body.Parsed? && Nullish(body.value) ==>
      x == Exchange(ErrorReply(500, ReadError(body.value, "Insight__c")), None)
    ensures session.isLoggedIn && body.Parsed? && !Nullish(body.value) && !HasFields(body.value, RequiredFields) ==>
      x == Exchange(ErrorReply(400, MissingFieldsMessage), None)
    ensures x.call.Some? <==> session.isLoggedIn && body.Parsed? && HasFields(body.value, RequiredFields)
    ensures x.call.Some? ==>
      && x.call.value.verb == "POST"
      && x.call.value.url == SObjectUrl(session.instanceUrl, ViewEventObject)
      && x.call.value.authorization == Bearer(session.accessToken)
      && x.call.value.body == JsonBody(Obj(body.value.props[ViewedAtField := Str(now)]))
    ensures x.call.Some? ==> var sent := x.call.value.body.json.props;
      && sent[ViewedAtField] == Str(now)
      && (forall k | k != ViewedAtField :: (k in sent <==> k in body.value.props))
      && (forall k | k in body.value.props && k != ViewedAtField :: sent[k] == body.value.props[k])
    ensures x.call.Some? ==> x.response == Settle(CreatedReply(ViewEventObject, upstream))
  {
    if !session.isLoggedIn {
      return Exchange(Unauthorized, None);
    }
    var parsed := RequestJson(body);
    if parsed.Throw? {
      return Exchange(ErrorReply(500, parsed.message), None);
    }
    var b := parsed.value;
    var insight := Prop(b, "Insight__c");
    if insight.Throw? {
      return Exchange(ErrorReply(500, insight.message), None);
    }
    var viewer := Prop(b, "Viewer_Name__c").value;
    var source := Prop(b, "Source__c").value;
    if !Truthy(insight.value) || !Truthy(viewer) || !Truthy(source) {
      return Exchange(ErrorReply(400, MissingFieldsMessage), None);
    }
    forall k | k in RequiredFields ensures k in b.props && Truthy(b.props[k]) {
      TruthyPropOfObject(b, k);
    }
    b := b.(props := b.props[ViewedAtField := Str(now)]);
    var call := Call("POST", SObjectUrl(session.instanceUrl, ViewEventObject), Bearer(session.accessToken), JsonBody(b));
    x := Exchange(Settle(CreatedReply(ViewEventObject, upstream)), Some(call));
  }
}

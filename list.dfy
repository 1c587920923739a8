/**
 * app/api/salesforce/insights/list/route.ts: `GET` runs one fixed SOQL query
 * and answers its records. `encodeURIComponent` is the parameter `encode`.
 */
module ListInsights {
  import opened Js
  import opened Http
  import opened Strings
  import opened Salesforce
  import SessionConfig

  const Columns := "Id, Title__c, Debt_Score__c, CreatedDate, View_Count__c, Last_Viewed_At__c"
  const Selection := "SELECT " + Columns
  const Ordering := "ORDER BY CreatedDate DESC"
  const Limit := "LIMIT 100"

  /** The template literal after `.trim()`: the indentation of the inner lines stays. */
  const Query := Selection + "\n      FROM Decision_Insight__c\n      " + Ordering + "\n      " + Limit

  /** The newest hundred insights, newest first. */
  lemma QueryOrdersAndLimits()
    ensures IsPrefix("SELECT ", Query)
    ensures Includes(Query, Ordering)
    ensures IsSuffix(Limit, Query)
  {
    var front := Selection + "\n      FROM Decision_Insight__c\n      ";
    IncludesMiddle(front, Ordering, "\n      " + Limit);
    assert front + Ordering + ("\n      " + Limit) == Query;
    assert Query == (front + Ordering + "\n      ") + Limit;
    assert Query == "SELECT " + (Columns + "\n      FROM Decision_Insight__c\n      " + Ordering + "\n      " + Limit);
  }

  function QueryUrl(instanceUrl: Option<string>, encode: string -> string): string {
    TemplateText(instanceUrl) + ApiBase + "/query?q=" + encode(Query)
  }

  /** The answer to the query's reply: its `records`, `[]` when absent, or the error mapping. */
  function Listed(upstream: Upstream): Result<Response> {
    var reply :- Answer(upstream);
    var data :- ReadJson(reply);
    if !IsOk(reply.status) then Ok(UpstreamError(InsightObject, reply.status, data))
    else
      var records :- Prop(data, "records");
      Ok(JsonReply(200, Coalesce(records, Arr([]))))
  }

  /** `GET /api/salesforce/insights/list` */
  function Get(session: SessionConfig.SessionData, encode: string -> string, upstream: Upstream): (x: Exchange)
    ensures !session.isLoggedIn ==> x == Exchange(Unauthorized, None)
    ensures session.isLoggedIn ==>
      x.call == Some(Call("GET", QueryUrl(session.instanceUrl, encode), Bearer(session.accessToken), NoBody))
    ensures session.isLoggedIn && upstream.Answered? && upstream.reply.json.Parsed? ==>
      var data := upstream.reply.json.value;
      && (!IsOk(upstream.reply.status) ==> x.response == UpstreamError(InsightObject, upstream.reply.status, data))
      && (IsOk(upstream.reply.status) && data.Obj? && "records" in data.props && !Nullish(data.props["records"]) ==>
            x.response == JsonReply(200, data.props["records"]))
      && (IsOk(upstream.reply.status) && !Nullish(data) && Nullish(Prop(data, "records").value) ==>
            x.response == JsonReply(200, Arr([])))
      && (IsOk(upstream.reply.status) && Nullish(data) ==> x.response == ErrorReply(500, ReadError(data, "records")))
    ensures session.isLoggedIn && (upstream.FetchFailed? || upstream.reply.json.Unparsable?) ==>
      StatusOf(x.response) == 500
  {
    if !session.isLoggedIn then Exchange(Unauthorized, None)
    else
      var call := Call("GET", QueryUrl(session.instanceUrl, encode), Bearer(session.accessToken), NoBody);
      Dispatch(Ok(Send(call)), Listed(upstream))
  }
}

/**
 * app/api/salesforce/insights/updateView/route.ts: `PATCH` records a view
 * of an insight by reading its `View_Count__c`, adding one, and writing the
 * count back together with the time of the view. The time is the input
 * `now`, `encodeURIComponent` the parameter `encode`; the two upstream
 * replies are inputs, and a `Record` object stands for the Salesforce record
 * the PATCH writes.
 */
module UpdateView {
  import opened Js
  import opened Http
  import opened Salesforce
  import SessionConfig

  const MissingIdMessage := "Missing insightId"
  const NotFoundMessage := "Failed to fetch insight or insight not found"
  const UpdateFailedMessage := "Salesforce API error on update"
  const ViewCountField := "View_Count__c"
  const LastViewedField := "Last_Viewed_At__c"

  /** The TypeError of `const { insightId } = null` (or undefined). */
  function DestructureError(v: JsValue): string {
    "Cannot destructure property 'insightId' of '(intermediate value)' as it is " + (if v.Null? then "null" else "undefined") + "."
  }

  /** The SOQL text; the id is interpolated as it comes. */
  function CountQuery(insightId: JsValue): string {
    "SELECT View_Count__c FROM Decision_Insight__c WHERE Id = '" + Text(insightId) + "'"
  }

  /** `(current || 0) + 1` */
  function NewViewCount(current: JsValue): (r: JsValue)
    ensures current.Num? ==> r == Num(current.n + 1.0)
    ensures !Truthy(current) ==> r == Num(1.0)
  {
    PlusOne(Or(current, Num(0.0)))
  }

  /** The PATCH the handler sends, with the id it targets. */
  datatype Update = Update(recordId: string, call: Call)

  /** The response, the count query if made, and the PATCH if made. */
  datatype ViewUpdate = ViewUpdate(response: Response, query: Option<Call>, update: Option<Update>)

  /** What the count query gives the handler: an answer to return at once, or the current count. */
  datatype CountRead = Stop(response: Response) | Current(count: JsValue)

  function ReadCount(queryReply: Upstream): Result<CountRead> {
    var reply :- Answer(queryReply);
    var data :- ReadJson(reply);
    var notFound := JsonReply(reply.status, Obj(map["error" := Str(NotFoundMessage), "details" := data]));
    if !IsOk(reply.status) then Ok(Stop(notFound))
    else
      var records :- Prop(data, "records");
      var length :- Length(records);
      if length == Num(0.0) then Ok(Stop(notFound))
      else
        var first :- First(records);
        var count :- Prop(first, ViewCountField);
        Ok(Current(count))
  }

  /** The answer to the PATCH's reply. A 204 is `ok`, so the inner 204 test never succeeds. */
  function Patched(patchReply: Upstream): Response {
    match patchReply
    case FetchFailed(m) => ErrorReply(500, m)
    case Answered(reply) =>
      if !IsOk(reply.status) then
        if reply.status == 204 then NoContent(204)
        else JsonReply(reply.status, Obj(map["error" := Str(UpdateFailedMessage), "details" := Str(reply.text)]))
      else NoContent(204)
  }

  function PatchCall(session: SessionConfig.SessionData, insightId: JsValue, count: JsValue, now: string): Call {
    Call("PATCH", SObjectUrl(session.instanceUrl, InsightObject) + Text(insightId), Bearer(session.accessToken),
         JsonBody(Obj(map[LastViewedField := Str(now), ViewCountField := NewViewCount(count)])))
  }

  /** The handler's decisions, from the request to the answer. */
  function Outcome(session: SessionConfig.SessionData, body: Parsed, now: string, encode: string -> string,
                   queryReply: Upstream, patchReply: Upstream): (r: ViewUpdate)
    ensures !session.isLoggedIn ==> r == ViewUpdate(Unauthorized, None, None)
    ensures r.query.None? ==> r.update.None?
    ensures r.query.Some? <==>
      session.isLoggedIn && body.Parsed? && !Nullish(body.value) && Truthy(Prop(body.value, "insightId").value)
    ensures session.isLoggedIn && body.Parsed? && !Nullish(body.value) && !Truthy(Prop(body.value, "insightId").value) ==>
      r.response == ErrorReply(400, MissingIdMessage)
    ensures r.query.Some? ==> var id := Prop(body.value, "insightId").value;
      r.query.value == Call("GET", TemplateText(session.instanceUrl) + ApiBase + "/query?q=" + encode(CountQuery(id)),
                            Bearer(session.accessToken), NoBody)
    ensures r.query.Some? && !(ReadCount(queryReply).Ok? && ReadCount(queryReply).value.Current?) ==>
      r.update.None? && StatusOf(r.response) == (if ReadCount(queryReply).Ok? then StatusOf(ReadCount(queryReply).value.response) else 500)
    ensures r.query.Some? && queryReply.Answered? && queryReply.reply.json.Parsed? && !IsOk(queryReply.reply.status) ==>
      StatusOf(r.response) == queryReply.reply.status
    ensures r.update.Some? <==> r.query.Some? && ReadCount(queryReply).Ok? && ReadCount(queryReply).value.Current?
    ensures r.update.Some? ==> var id := Prop(body.value, "insightId").value;
      && r.update.value.recordId == Text(id)
      && r.update.value.call == PatchCall(session, id, ReadCount(queryReply).value.count, now)
    ensures r.update.Some? ==> (r.response == NoContent(204) <==> patchReply.Answered? && IsOk(patchReply.reply.status))
    ensures r.update.Some? && patchReply.Answered? && !IsOk(patchReply.reply.status) ==>
      StatusOf(r.response) == patchReply.reply.status
  {
    if !session.isLoggedIn then ViewUpdate(Unauthorized, None, None)
    else match RequestJson(body)
      case Throw(m) => ViewUpdate(ErrorReply(500, m), None, None)
      case Ok(b) =>
        if Nullish(b) then ViewUpdate(ErrorReply(500, DestructureError(b)), None, None)
        else
          var id := Prop(b, "insightId").value;
          if !Truthy(id) then ViewUpdate(ErrorReply(400, MissingIdMessage), None, None)
          else
            var query := Call("GET", TemplateText(session.instanceUrl) + ApiBase + "/query?q=" + encode(CountQuery(id)),
                              Bearer(session.accessToken), NoBody);
            match ReadCount(queryReply)
            case Throw(m) => ViewUpdate(ErrorReply(500, m), Some(query), None)
            case Ok(Stop(resp)) => ViewUpdate(resp, Some(query), None)
            case Ok(Current(count)) =>
              ViewUpdate(Patched(patchReply), Some(query), Some(Update(Text(id), PatchCall(session, id, count, now))))
  }

  /** A query that succeeds with no rows is answered with its own status, 200. */
  lemma NoRowsAnswersQueryStatus(session: SessionConfig.SessionData, insightId: string, now: string,
                                 encode: string -> string, rest: map<string, JsValue>, patchReply: Upstream)
    requires session.isLoggedIn && insightId != ""
    ensures var data := Obj(rest["records" := Arr([])]);
      var r := Outcome(session, Parsed(Obj(map["insightId" := Str(insightId)])), now, encode,
                       Answered(Reply(200, "", Parsed(data))), patchReply);
      r.update.None? && r.response == JsonReply(200, Obj(map["error" := Str(NotFoundMessage), "details" := data]))
  {
  }

  /** A count read back from the record is written back one higher, with nothing but the two view fields. */
  lemma FreshReadIncrements(session: SessionConfig.SessionData, insightId: string, now: string,
                            encode: string -> string, count: JsValue, patchReply: Upstream)
    requires session.isLoggedIn && insightId != ""
    ensures var read := Answered(Reply(200, "", Parsed(Obj(map["records" := Arr([Obj(map[ViewCountField := count])])]))));
      var r := Outcome(session, Parsed(Obj(map["insightId" := Str(insightId)])), now, encode, read, patchReply);
      && r.update.Some? && r.update.value.recordId == insightId
      && r.update.value.call.body.json.props == map[LastViewedField := Str(now), ViewCountField := NewViewCount(count)]
  {
    var records := Arr([Obj(map[ViewCountField := count])]);
    assert Length(records) == Ok(Num(1.0));
  }

  /**
   * The Salesforce record the PATCH writes: its id and its fields. A field
   * that was never set reads as null.
   */
  class Record {
    const id: string
    var fields: map<string, JsValue>

    constructor (id: string, fields: map<string, JsValue>)
      ensures this.id == id && this.fields == fields
    {
      this.id := id;
      this.fields := fields;
    }

    function Field(k: string): JsValue
      reads this
    {
      if k in fields then fields[k] else Null
    }

    /** What the count query answers while the record is as it is now. */
    function CountReply(): Upstream
      reads this
    {
      Answered(Reply(200, "", Parsed(Obj(map["records" := Arr([Obj(map[ViewCountField := Field(ViewCountField)])])]))))
    }

    /** A PATCH sets the fields it names and leaves the others. */
    method Apply(changes: map<string, JsValue>)
      modifies this
      ensures fields == old(fields) + changes
    {
      fields := fields + changes;
    }
  }

  /**
   * The handler run against `record`: the record changes only when the
   * handler's PATCH targets it and Salesforce accepts the PATCH, and then
   * only in its view count and last-viewed time.
   */
  method Patch(session: SessionConfig.SessionData, body: Parsed, now: string, encode: string -> string,
               record: Record, queryReply: Upstream, patchReply: Upstream) returns (r: ViewUpdate)
    modifies record
    ensures r == Outcome(session, body, now, encode, queryReply, patchReply)
    ensures var applied := r.update.Some? && r.update.value.recordId == record.id
                           && patchReply.Answered? && IsOk(patchReply.reply.status);
      && (applied ==> record.fields == old(record.fields)[LastViewedField := Str(now)]
                                         [ViewCountField := r.update.value.call.body.json.props[ViewCountField]])
      && (!applied ==> record.fields == old(record.fields))
    ensures r.update.Some? && r.update.value.recordId == record.id && queryReply == old(record.CountReply())
            && patchReply.Answered? && IsOk(patchReply.reply.status) ==>
      && record.Field(ViewCountField) == NewViewCount(old(record.Field(ViewCountField)))
      && record.Field(LastViewedField) == Str(now)
  {
    r := Outcome(session, body, now, encode, queryReply, patchReply);
    if r.update.Some? && r.update.value.recordId == record.id && patchReply.Answered? && IsOk(patchReply.reply.status) {
      var sent := r.update.value.call.body.json.props;
      assert sent.Keys == {LastViewedField, ViewCountField};
      record.Apply(sent);
      assert record.fields == old(record.fields)[LastViewedField := sent[LastViewedField]][ViewCountField := sent[ViewCountField]];
    }
  }
}

/**
 * app/api/debug/sobjects/route.ts: `GET` lists the names of the org's
 * sObjects and tells whether `Decision_Insight__c` is among them. The
 * handler has no `catch`: what throws reaches the framework, which answers
 * 500. Response bodies are the values handed to `NextResponse.json`.
 */
module DebugSobjects {
  import opened Js
  import opened Http
  import opened Salesforce
  import SessionConfig

  const NotLoggedInMessage := "not logged in"
  const SampleSize := 50
  const DecisionInsightName := "Decision_Insight__c"

  function Min(a: int, b: int): int {
    if a < b then a else b
  }

  /** `list.map(o => o.name)`, which throws at the first null or undefined element. */
  function Names(list: seq<JsValue>): (r: Result<seq<JsValue>>)
    ensures r.Ok? <==> forall i | 0 <= i < |list| :: !Nullish(list[i])
    ensures r.Ok? ==> |r.value| == |list| && forall i | 0 <= i < |list| :: r.value[i] == Prop(list[i], "name").value
  {
    if list == [] then Ok([])
    else
      var name :- Prop(list[0], "name");
      var rest :- Names(list[1..]);
      Ok([name] + rest)
  }

  /** The TypeError of calling `map` on a value that is not an array. */
  const NotAnArrayMessage := "(intermediate value).map is not a function"

  /** `(data?.sobjects ?? []).map(o => o.name)` */
  function SobjectNames(data: JsValue): Result<seq<JsValue>> {
    match Coalesce(OptProp(data, "sobjects"), Arr([]))
    case Arr(list) => Names(list)
    case _ => Throw(NotAnArrayMessage)
  }

  /** The summary the handler answers for the names it found. */
  function Summary(instanceUrl: Option<string>, names: seq<JsValue>): (r: JsValue)
    ensures r.Obj? && r.props.Keys == {"instanceUrl", "total", "containsDecisionInsight", "namesSample"}
    ensures r.props["instanceUrl"] == OptStr(instanceUrl)
    ensures r.props["total"] == Num(|names| as real)
    ensures r.props["containsDecisionInsight"] == Bool(Str(DecisionInsightName) in names)
    ensures var sample := r.props["namesSample"];
      && sample.Arr? && |sample.elems| == Min(SampleSize, |names|)
      && sample.elems == names[..|sample.elems|]
  {
    Obj(map["instanceUrl" := OptStr(instanceUrl),
            "total" := Num(|names| as real),
            "containsDecisionInsight" := Bool(Str(DecisionInsightName) in names),
            "namesSample" := Arr(names[..Min(SampleSize, |names|)])])
  }

  /** `GET /api/debug/sobjects` */
  function Get(session: SessionConfig.SessionData, upstream: Upstream): (x: Exchange)
    ensures !session.isLoggedIn ==> x == Exchange(ErrorReply(401, NotLoggedInMessage), None)
    ensures session.isLoggedIn ==>
      x.call == Some(Call("GET", TemplateText(session.instanceUrl) + ApiBase + "/sobjects", Bearer(session.accessToken), NoBody))
    ensures session.isLoggedIn && upstream.Answered? && upstream.reply.json.Parsed?
            && SobjectNames(upstream.reply.json.value).Ok? ==>
      x.response == JsonReply(200, Summary(session.instanceUrl, SobjectNames(upstream.reply.json.value).value))
    ensures session.isLoggedIn && !(upstream.Answered? && upstream.reply.json.Parsed?
                                     && SobjectNames(upstream.reply.json.value).Ok?) ==>
      x.response.Crash?
  {
    if !session.isLoggedIn then Exchange(ErrorReply(401, NotLoggedInMessage), None)
    else
      var call := Call("GET", TemplateText(session.instanceUrl) + ApiBase + "/sobjects", Bearer(session.accessToken), NoBody);
      var outcome := (
        var reply :- Answer(upstream);
        var data :- ReadJson(reply);
        var names :- SobjectNames(data);
        Ok(JsonReply(200, Summary(session.instanceUrl, names))));
      match outcome
      case Ok(r) => Exchange(r, Some(call))
      case Throw(m) => Exchange(Crash(m), Some(call))
  }

  /** A reply without `sobjects` (or with a null body) lists nothing. */
  lemma MissingSobjectsListsNothing(data: JsValue)
    requires Nullish(data) || (data.Obj? && "sobjects" !in data.props)
    ensures SobjectNames(data) == Ok([])
  {
  }

  /** The sample is the whole list when there are at most fifty names. */
  lemma SmallListsAreSampledWhole(instanceUrl: Option<string>, names: seq<JsValue>)
    requires |names| <= SampleSize
    ensures Summary(instanceUrl, names).props["namesSample"] == Arr(names)
  {
  }
}

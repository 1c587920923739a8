/**
 * The HTTP side of the route handlers: the process environment, the
 * replies of upstream fetches (given to the model as inputs), the calls a
 * handler makes, and the responses it returns.
 */
module Http {
  import opened Js

  /** The environment variables the handlers read. Absent is `None`. */
  datatype Env = Env(
    sfLoginUrl: Option<string>,
    sfClientId: Option<string>,
    sfClientSecret: Option<string>,
    sfRedirectUri: Option<string>,
    sessionPassword: Option<string>,
    nodeEnv: Option<string>)

  /** What `await req.json()` or `await res.json()` gives: a value, or the SyntaxError it throws. */
  datatype Parsed = Parsed(value: JsValue) | Unparsable(message: string)

  /** An upstream reply: its status, its body as text, and that text parsed as JSON. */
  datatype Reply = Reply(status: int, text: string, json: Parsed)

  /** The outcome of an upstream `fetch`: a reply, or the error the fetch rejects with. */
  datatype Upstream = Answered(reply: Reply) | FetchFailed(message: string)

  /** `res.ok` */
  predicate IsOk(status: int) {
    200 <= status <= 299
  }

  /** `await res.json()` */
  function ReadJson(reply: Reply): Result<JsValue> {
    match reply.json
    case Parsed(v) => Ok(v)
    case Unparsable(m) => Throw(m)
  }

  /** `await req.json()` on a request body */
  function RequestJson(body: Parsed): Result<JsValue> {
    match body
    case Parsed(v) => Ok(v)
    case Unparsable(m) => Throw(m)
  }

  /** A URL as base (scheme, host and any leading path), path and query parameters (percent-encoding is not modelled). */
  datatype Url = Url(base: string, path: string, query: seq<(string, string)>)

  /** The first value of a query parameter, as `URLSearchParams.get` gives it. */
  function Param(q: seq<(string, string)>, k: string): Option<string> {
    if q == [] then None else if q[0].0 == k then Some(q[0].1) else Param(q[1..], k)
  }

  /** `get` finds the first pair with the key. */
  lemma {:induction false} ParamAt(q: seq<(string, string)>, k: string, i: nat)
    requires i < |q| && q[i].0 == k
    requires forall j :: 0 <= j < i ==> q[j].0 != k
    ensures Param(q, k) == Some(q[i].1)
  {
    if i > 0 {
      ParamAt(q[1..], k, i - 1);
    }
  }

  datatype CallBody = NoBody | JsonBody(json: JsValue) | FormBody(form: seq<(string, string)>)

  /** An outbound `fetch`: HTTP method, full URL text, Authorization header if any, and body. */
  datatype Call = Call(verb: string, url: string, authorization: Option<string>, body: CallBody)

  datatype Response =
    | JsonReply(status: int, body: JsValue)
    | NoContent(status: int)
    | Redirect(location: Url, headers: seq<(string, string)>)
    /** An exception the handler does not catch; the framework answers 500. */
    | Crash(message: string)

  /** `NextResponse.redirect` answers 307 unless told otherwise. */
  function StatusOf(r: Response): int {
    match r
    case JsonReply(s, _) => s
    case NoContent(s) => s
    case Redirect(_, _) => 307
    case Crash(_) => 500
  }

  /** A response together with the upstream call the handler made, if it made one. */
  datatype Exchange = Exchange(response: Response, call: Option<Call>)

  /** `NextResponse.json({ error: m }, { status: s })` */
  function ErrorReply(status: int, m: string): Response {
    JsonReply(status, Obj(map["error" := Str(m)]))
  }

  /** `await fetch(...)`: the reply, or the error the fetch rejects with. */
  function Answer(u: Upstream): Result<Reply> {
    match u
    case Answered(r) => Ok(r)
    case FetchFailed(m) => Throw(m)
  }

  /** The `catch (error) { return { error: error.message }, 500 }` the proxy handlers share. */
  function Settle(r: Result<Response>): Response {
    match r
    case Ok(resp) => resp
    case Throw(m) => ErrorReply(500, m)
  }

  /** Where a handler stands before its upstream call: answered already, or about to send. */
  datatype Step = Done(response: Response) | Send(call: Call)

  /**
   * A proxy handler's exchange: the early answer, or the call followed by
   * the answer computed from its reply, with whatever threw answered 500.
   */
  function Dispatch(pre: Result<Step>, answer: Result<Response>): (x: Exchange)
    ensures x.call.Some? <==> pre.Ok? && pre.value.Send?
    ensures x.call.Some? ==> x.call.value == pre.value.call && x.response == Settle(answer)
    ensures pre.Ok? && pre.value.Done? ==> x.response == pre.value.response
    ensures pre.Throw? ==> x.response == ErrorReply(500, pre.message)
  {
    match pre
    case Throw(m) => Exchange(ErrorReply(500, m), None)
    case Ok(Done(r)) => Exchange(r, None)
    case Ok(Send(c)) => Exchange(Settle(answer), Some(c))
  }

  /** `Bearer ${accessToken}` with an optional token. */
  function Bearer(token: Option<string>): Option<string> {
    Some("Bearer " + TemplateText(token))
  }
}

/**
 * app/components/CreateInsightForm.tsx: the form that creates an insight
 * through the create route, with a score that multiplies its inputs. The
 * component's state is a `Form` object; the reply to its POST is an input,
 * and the toast it shows is an output.
 */
module CreateInsightForm {
  import opened Js
  import opened Http
  import CreateInsight
  import Salesforce
  import SessionConfig

  const DefaultImpact := 3
  const DefaultRisk := 3
  const DefaultConfidence := 80
  const DefaultStatus := "New"
  const DaysOpen := 5.0
  const SubmitPath := "/api/salesforce/insights/create"
  const FallbackError := "Failed to create insight"
  const CreatedMessage := "Insight created successfully!"

  /** `daysOpen * impact * risk * (confidence / 100)`, over the reals. */
  function DebtScore(impact: real, risk: real, confidence: real): real {
    DaysOpen * impact * risk * (confidence / 100.0)
  }

  /** The score is the product of the three inputs over twenty. */
  lemma DebtScoreIsProductOverTwenty(impact: real, risk: real, confidence: real)
    ensures DebtScore(impact, risk, confidence) == impact * risk * confidence / 20.0
  {
  }

  lemma {:induction false} ProductBounds(a: real, b: real, c: real, x: real, y: real, z: real)
    requires 0.0 <= a <= x && 0.0 <= b <= y && 0.0 <= c <= z
    ensures 0.0 <= a * b * c <= x * y * z
  {
    assert 0.0 <= a * b <= x * y by {
      MulMonotone(0.0, a, b);
      assert a * b <= x * b by { MulMonotone(a, x, b); }
      assert x * b <= x * y by { MulMonotone(b, y, x); }
    }
    MulMonotone(a * b, x * y, c);
    MulMonotone(c, z, x * y);
  }

  lemma MulMonotone(a: real, b: real, c: real)
    requires a <= b && 0.0 <= c
    ensures a * c <= b * c && c * a <= c * b
  {
  }

  /** Over the form's ranges (impact and risk 1..5, confidence 0..100) the score lies in [0, 125]. */
  lemma DebtScoreRange(impact: real, risk: real, confidence: real)
    requires 1.0 <= impact <= 5.0 && 1.0 <= risk <= 5.0 && 0.0 <= confidence <= 100.0
    ensures 0.0 <= DebtScore(impact, risk, confidence) <= 125.0
  {
    DebtScoreIsProductOverTwenty(impact, risk, confidence);
    ProductBounds(impact, risk, confidence, 5.0, 5.0, 100.0);
  }

  /** With impact and risk at least one, the score is zero exactly when confidence is. */
  lemma ZeroScoreIffNoConfidence(impact: real, risk: real, confidence: real)
    requires impact >= 1.0 && risk >= 1.0
    ensures DebtScore(impact, risk, confidence) == 0.0 <==> confidence == 0.0
  {
    DebtScoreIsProductOverTwenty(impact, risk, confidence);
    assert impact * risk >= 1.0 by { MulMonotone(1.0, impact, risk); }
    if confidence != 0.0 {
      assert impact * risk * confidence != 0.0;
    }
  }

  /** Over non-negative inputs, raising any input never lowers the score. */
  lemma DebtScoreMonotone(impact: real, risk: real, confidence: real, d: real)
    requires impact >= 0.0 && risk >= 0.0 && confidence >= 0.0 && d >= 0.0
    ensures DebtScore(impact + d, risk, confidence) >= DebtScore(impact, risk, confidence)
    ensures DebtScore(impact, risk + d, confidence) >= DebtScore(impact, risk, confidence)
    ensures DebtScore(impact, risk, confidence + d) >= DebtScore(impact, risk, confidence)
  {
    DebtScoreIsProductOverTwenty(impact, risk, confidence);
    DebtScoreIsProductOverTwenty(impact + d, risk, confidence);
    DebtScoreIsProductOverTwenty(impact, risk + d, confidence);
    DebtScoreIsProductOverTwenty(impact, risk, confidence + d);
    ProductBounds(impact, risk, confidence, impact + d, risk, confidence);
    MulMonotone(impact * risk * confidence, (impact + d) * risk * confidence, 1.0 / 20.0);
    assert impact * (risk + d) * confidence == impact * risk * confidence + impact * d * confidence;
    assert impact * d * confidence >= 0.0 by { ProductBounds(0.0, 0.0, 0.0, impact, d, confidence); }
    assert impact * risk * (confidence + d) == impact * risk * confidence + impact * risk * d;
    assert impact * risk * d >= 0.0 by { ProductBounds(0.0, 0.0, 0.0, impact, risk, d); }
  }

  /** The JSON body the form posts. */
  function Payload(title: string, description: string, impact: int, risk: int, confidence: int, status: string): JsValue {
    Obj(map["Title__c" := Str(title),
            "Description__c" := Str(description),
            "Impact__c" := Num(impact as real),
            "Risk__c" := Num(risk as real),
            "Confidence__c" := Num(confidence as real),
            "Status__c" := Str(status),
            "Debt_Score__c" := Num(DebtScore(impact as real, risk as real, confidence as real))])
  }

  /**
   * A form submitted with confidence 0 is refused by the create route with
   * 400, although the form lets the user choose 0.
   */
  lemma ZeroConfidenceRefusedByRoute(session: SessionConfig.SessionData, title: string, description: string,
                                     impact: int, risk: int, status: string, upstream: Upstream)
    requires session.isLoggedIn
    ensures CreateInsight.Post(session, Parsed(Payload(title, description, impact, risk, 0, status)), upstream)
            == Exchange(ErrorReply(400, Salesforce.MissingFieldsMessage), None)
  {
    CreateInsight.ZeroConfidenceRefused(session, Payload(title, description, impact, risk, 0, status).props, upstream);
  }

  datatype Toast = Succeeded(message: string) | Failed(message: string)

  /** The message of the error `handleSubmit` raises for a reply that is not `ok`. */
  function FailureMessage(reply: Reply): string {
    match reply.json
    case Unparsable(m) => m
    case Parsed(v) =>
      match Prop(v, "error")
      case Throw(m) => m
      case Ok(e) => Text(Or(e, Str(FallbackError)))
  }

  class Form {
    var title: string
    var description: string
    var impact: int
    var risk: int
    var confidence: int
    var status: string
    var loading: bool

    function Fields(): (string, string, int, int, int, string)
      reads this
    {
      (title, description, impact, risk, confidence, status)
    }

    constructor ()
      ensures Fields() == ("", "", DefaultImpact, DefaultRisk, DefaultConfidence, DefaultStatus)
      ensures !loading
      ensures DebtScore(impact as real, risk as real, confidence as real) == 36.0
    {
      title := "";
      description := "";
      impact := DefaultImpact;
      risk := DefaultRisk;
      confidence := DefaultConfidence;
      status := DefaultStatus;
      loading := false;
    }

    /**
     * `handleSubmit`: post the fields with their score; on an `ok` reply
     * reset the six fields and toast success, otherwise keep them and toast
     * the error. Loading ends false either way.
     */
    method Submit(reply: Upstream) returns (request: Call, toast: Toast)
      modifies this
      ensures request == Call("POST", SubmitPath, None,
                              JsonBody(Payload(old(title), old(description), old(impact), old(risk),
                                               old(confidence), old(status))))
      ensures request.body.json.props["Debt_Score__c"]
              == Num(DebtScore(old(impact) as real, old(risk) as real, old(confidence) as real))
      ensures !loading
      ensures reply.Answered? && IsOk(reply.reply.status) ==>
        && toast == Succeeded(CreatedMessage)
        && Fields() == ("", "", DefaultImpact, DefaultRisk, DefaultConfidence, DefaultStatus)
      ensures !(reply.Answered? && IsOk(reply.reply.status)) ==>
        && Fields() == old(Fields())
        && toast == Failed(if reply.FetchFailed? then reply.message else FailureMessage(reply.reply))
    {
      loading := true;
      var data := Payload(title, description, impact, risk, confidence, status);
      request := Call("POST", SubmitPath, None, JsonBody(data));
      match reply {
        case FetchFailed(m) =>
          toast := Failed(m);
        case Answered(r) =>
          if !IsOk(r.status) {
            toast := Failed(FailureMessage(r));
          } else {
            toast := Succeeded(CreatedMessage);
            title := "";
            description := "";
            impact := DefaultImpact;
            risk := DefaultRisk;
            confidence := DefaultConfidence;
            status := DefaultStatus;
          }
      }
      loading := false;
    }
  }
}

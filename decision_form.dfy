/**
 * app/decision/DecisionInsightForm.tsx: a form for a decision insight with
 * an integer debt score. The component's state is a `Form` object; the
 * reply to its POST is an input.
 */
module DecisionInsightForm {
  import opened Js
  import opened Http

  const DefaultImpact := 1
  const DefaultRisk := 1
  const DefaultConfidence := 50
  const DefaultStatus := "New"
  const SubmitPath := "/api/decision-insight"
  const FallbackError := "Something went wrong"

  /** `impact * 10 + risk * 7 + (100 - confidence)` */
  function DebtScore(impact: int, risk: int, confidence: int): int {
    impact * 10 + risk * 7 + (100 - confidence)
  }

  /** Over the form's ranges (impact and risk 1..5, confidence 0..100) the score lies in [17, 185], both ends reached. */
  lemma DebtScoreRange(impact: int, risk: int, confidence: int)
    requires 1 <= impact <= 5 && 1 <= risk <= 5 && 0 <= confidence <= 100
    ensures 17 <= DebtScore(impact, risk, confidence) <= 185
    ensures DebtScore(1, 1, 100) == 17 && DebtScore(5, 5, 0) == 185
  {
  }

  /** More impact or risk raises the score; more confidence lowers it. */
  lemma DebtScoreMonotone(impact: int, risk: int, confidence: int, d: int)
    requires d > 0
    ensures DebtScore(impact + d, risk, confidence) > DebtScore(impact, risk, confidence)
    ensures DebtScore(impact, risk + d, confidence) > DebtScore(impact, risk, confidence)
    ensures DebtScore(impact, risk, confidence + d) < DebtScore(impact, risk, confidence)
  {
  }

  /** The JSON body the form posts. */
  function Payload(title: string, description: string, impact: int, risk: int, confidence: int, status: string): JsValue {
    Obj(map["Title__c" := Str(title),
            "Description__c" := Str(description),
            "Impact__c" := Num(impact as real),
            "Risk__c" := Num(risk as real),
            "Confidence__c" := Num(confidence as real),
            "Status__c" := Str(status),
            "Debt_Score__c" := Num(DebtScore(impact, risk, confidence) as real)])
  }

  /** The message of the error `handleSubmit` raises for a reply that is not `ok`. */
  function FailureMessage(reply: Reply): string {
    match reply.json
    case Unparsable(m) => m
    case Parsed(v) =>
      match Prop(v, "error")
      case Throw(m) => m
      case Ok(e) => Text(Or(e, Str(FallbackError)))
  }

  class Form {
    var title: string
    var description: string
    var impact: int
    var risk: int
    var confidence: int
    var status: string
    var loading: bool
    var error: Option<string>
    var success: bool

    /** The fields the user edits. */
    function Fields(): (string, string, int, int, int, string)
      reads this
    {
      (title, description, impact, risk, confidence, status)
    }

    /** The state of a freshly rendered form. */
    constructor ()
      ensures Fields() == ("", "", DefaultImpact, DefaultRisk, DefaultConfidence, DefaultStatus)
      ensures !loading && error.None? && !success
      ensures DebtScore(impact, risk, confidence) == 67
    {
      title := "";
      description := "";
      impact := DefaultImpact;
      risk := DefaultRisk;
      confidence := DefaultConfidence;
      status := DefaultStatus;
      loading := false;
      error := None;
      success := false;
    }

    /**
     * `handleSubmit`: post the fields with their score; on an `ok` reply
     * reset every field and report success, otherwise keep the fields and
     * show the error. Loading ends false either way.
     */
    method Submit(reply: Upstream) returns (request: Call)
      modifies this
      ensures request == Call("POST", SubmitPath, None,
                              JsonBody(Payload(old(title), old(description), old(impact), old(risk),
                                               old(confidence), old(status))))
      ensures request.body.json.props["Debt_Score__c"] == Num(DebtScore(old(impact), old(risk), old(confidence)) as real)
      ensures !loading
      ensures reply.Answered? && IsOk(reply.reply.status) ==>
        && success && error.None?
        && Fields() == ("", "", DefaultImpact, DefaultRisk, DefaultConfidence, DefaultStatus)
      ensures !(reply.Answered? && IsOk(reply.reply.status)) ==>
        && !success && Fields() == old(Fields())
        && error == Some(if reply.FetchFailed? then reply.message else FailureMessage(reply.reply))
    {
      loading := true;
      error := None;
      success := false;
      var data := Payload(title, description, impact, risk, confidence, status);
      request := Call("POST", SubmitPath, None, JsonBody(data));
      match reply {
        case FetchFailed(m) =>
          error := Some(m);
        case Answered(r) =>
          if !IsOk(r.status) {
            error := Some(FailureMessage(r));
          } else {
            success := true;
            title := "";
            description := "";
            impact := DefaultImpact;
            risk := DefaultRisk;
            confidence := DefaultConfidence;
            status := DefaultStatus;
          }
      }
      loading := false;
    }
  }
}

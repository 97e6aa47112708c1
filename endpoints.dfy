/** The HTTP endpoints: each route hands the request to its controller and
    the controller's dict to a view. These compositions state what a client
    of the API gets back. */
module Endpoints {
  import opened Values
  import opened Models
  import opened Controllers
  import opened Views

  /** The `model_info` dict the prediction route attaches to an answer;
      `accuracy` is the formatted percentage. */
  function ModelInfo(accuracy: string): Fields {
    [("type", Str("ultra_minimal")), ("features_used", Int(7)), ("accuracy", Str(accuracy))]
  }

  /** `POST /predict`, served by the controller for `required`: a rejected request goes to the error view; an answer
      is rendered together with the model description, whose accuracy is
      formatted with no fallback, so a missing or non-numeric accuracy
      raises. */
  function PredictRoute(required: seq<string>, mm: ModelManager, rm: ResultsManager, input: Option<Fields>,
                        round2: real -> real, fixed2: real -> string): (r: Result<Response>)
    reads mm, rm
    ensures Predict(required, mm, input, round2).NotPredicted? ==>
      r == Ok(PredictionError(Predict(required, mm, input, round2).reason.AsDict(required)))
    ensures Predict(required, mm, input, round2).Predicted? ==>
      (r.Ok? <==> rm.GetModelAccuracy("minimal").Ok? && FormatFixed2(rm.GetModelAccuracy("minimal").value, fixed2).Ok?)
    ensures r.Ok? && Predict(required, mm, input, round2).Predicted? ==>
      && r.value.status == Int(200) && r.value.body.Obj? && |r.value.body.fields| == 4
      && r.value.body.fields[0] == ("prediction", Str(Predict(required, mm, input, round2).prediction))
      && r.value.body.fields[1] == ("confidence", Num(Predict(required, mm, input, round2).confidence))
      && r.value.body.fields[2] == ("probabilities", Obj([("No", Num(Predict(required, mm, input, round2).probNo)),
                                                          ("Yes", Num(Predict(required, mm, input, round2).probYes))]))
      && r.value.body.fields[3] == ("model_info",
           Obj(ModelInfo(FormatFixed2(rm.GetModelAccuracy("minimal").value, fixed2).value + "%")))
  {
    var result := Predict(required, mm, input, round2);
    if result.NotPredicted? then Ok(PredictionError(result.reason.AsDict(required)))
    else
      var accuracy :- rm.GetModelAccuracy("minimal");
      var text :- FormatFixed2(accuracy, fixed2);
      AnswerHasFields(required, result);
      PredictionSuccess(Obj(result.AsDict(required)), Obj(ModelInfo(text + "%")))
  }

  /** An answer's dict holds the three fields the success view copies. */
  lemma AnswerHasFields(required: seq<string>, result: PredictionResult)
    requires result.Predicted?
    ensures Index(Obj(result.AsDict(required)), "prediction") == Ok(Str(result.prediction))
    ensures Index(Obj(result.AsDict(required)), "confidence") == Ok(Num(result.confidence))
    ensures Index(Obj(result.AsDict(required)), "probabilities") ==
      Ok(Obj([("No", Num(result.probNo)), ("Yes", Num(result.probYes))]))
  {
    var d := result.AsDict(required);
    assert d[0].0 == "valid" && d[1].0 == "prediction" && d[2].0 == "confidence" && d[3].0 == "probabilities";
    GetFirst(d, 1);
    GetFirst(d, 2);
    GetFirst(d, 3);
  }

  /** Every rejection dict starts with `valid: false` and the message
      under `error`, ... */
  lemma RejectionDictOpens(required: seq<string>, reason: Rejection)
    ensures |reason.AsDict(required)| >= 3
    ensures reason.AsDict(required)[0] == ("valid", Bool(false))
    ensures reason.AsDict(required)[1] == ("error", Str(reason.Message()))
  {
  }

  /** ... and ends with its only `code` entry. */
  lemma RejectionDictCloses(required: seq<string>, reason: Rejection)
    ensures |reason.AsDict(required)| >= 1
    ensures reason.AsDict(required)[|reason.AsDict(required)| - 1] == ("code", Int(reason.Code()))
    ensures forall j :: 0 <= j < |reason.AsDict(required)| - 1 ==> reason.AsDict(required)[j].0 != "code"
  {
  }

  /** The error view on a dict that opens with an entry other than `code`
      and `error`, has the message second and ends with the only `code`
      entry: that code is the status, the message is the message, and the
      opening entry survives into the details. */
  lemma ShapedErrorResponse(d: Fields, message: string, code: int)
    requires |d| >= 3 && d[0].0 != "code" && d[0].0 != "error"
    requires d[1] == ("error", Str(message)) && d[|d| - 1] == ("code", Int(code))
    requires forall j :: 0 <= j < |d| - 1 ==> d[j].0 != "code"
    ensures PredictionError(d).status == Int(code)
    ensures PredictionError(d).body.fields[1] == ("message", Str(message))
    ensures Keys(PredictionError(d).body.fields) == ["status", "message", "details"]
    ensures Get(PredictionErrorRest(d), d[0].0) == Some(d[0].1)
  {
    GetFirst(d, 0);
    GetFirst(d, 1);
    GetFirst(d, |d| - 1);
    PredictionErrorRestEntries(d);
    assert d[0] in PredictionErrorRest(d);
  }

  /** A rejected request is answered with the rejection's code as the
      status and its message as the message; what else the controller put
      in its dict, `valid: false` included, comes back under `details`. */
  lemma RejectionResponse(required: seq<string>, reason: Rejection)
    ensures PredictionError(reason.AsDict(required)).status == Int(reason.Code())
    ensures PredictionError(reason.AsDict(required)).body.fields[1] == ("message", Str(reason.Message()))
    ensures Keys(PredictionError(reason.AsDict(required)).body.fields) == ["status", "message", "details"]
    ensures Get(PredictionErrorRest(reason.AsDict(required)), "valid") == Some(Bool(false))
  {
    RejectionDictOpens(required, reason);
    RejectionDictCloses(required, reason);
    ShapedErrorResponse(reason.AsDict(required), reason.Message(), reason.Code());
  }

  /** A request that both lacks required features and carries unknown ones
      is reported only for what it lacks: a 400 built from the
      missing-features rejection, which lists exactly the missing features in
      required order and has no extra-features entry. */
  lemma MissingReportedFirst(required: seq<string>, mm: ModelManager, rm: ResultsManager, input: Fields,
                             round2: real -> real, fixed2: real -> string)
    requires input != [] && Missing(required, input) != []
    ensures PredictRoute(required, mm, rm, Some(input), round2, fixed2) ==
      Ok(PredictionError(MissingFeatures(Missing(required, input)).AsDict(required)))
    ensures PredictRoute(required, mm, rm, Some(input), round2, fixed2).value.status == Int(400)
  {
    var reason := MissingFeatures(Missing(required, input));
    assert Predict(required, mm, Some(input), round2) == NotPredicted(reason);
    RejectionResponse(required, reason);
  }

  /** `GET /api/results/model/<type>`: a failed lookup goes to the error
      view, a found entry is sent as it is. */
  function ModelResultsRoute(rm: ResultsManager, modelType: string): (r: Result<Response>)
    reads rm
    ensures r.Raise? <==> GetModelResults(rm, modelType).Raise?
    ensures GetModelResults(rm, modelType).Ok? && GetModelResults(rm, modelType).value.Found? ==>
      r == Ok(Success(GetModelResults(rm, modelType).value.data))
    ensures GetModelResults(rm, modelType).Ok? && GetModelResults(rm, modelType).value.LookupFailed? ==>
      r.Ok? && r.value.status == Int(GetModelResults(rm, modelType).value.code) &&
      r.value.body.Obj? && |r.value.body.fields| == 2 && r.value.body.fields[0] == ("status", Str("error")) &&
      r.value.body.fields[1] == ("message", Str(GetModelResults(rm, modelType).value.error))
  {
    var result :- GetModelResults(rm, modelType);
    match result
    case Found(data) => Ok(Success(data))
    case LookupFailed(_, _) => Ok(ResultsError(result.AsDict()))
  }

  /** An unknown variant name is a 400 whatever state the results are in:
      the manager is not consulted. */
  lemma UnknownVariantIs400(rm1: ResultsManager, rm2: ResultsManager, modelType: string)
    requires modelType !in Variants()
    ensures ModelResultsRoute(rm1, modelType).Ok? && ModelResultsRoute(rm1, modelType).value.status == Int(400)
    ensures ModelResultsRoute(rm1, modelType) == ModelResultsRoute(rm2, modelType)
  {
  }

  /** `GET /api/visualizations/list`, on the controller's answer: a failed
      listing goes to the error view, a listing is sent with status
      'success'. */
  function VisualizationListRoute(result: VisualizationList): (r: Result<Response>)
    ensures result.ListFailed? ==>
      r.Ok? && r.value.status == Int(result.code) && r.value.body.Obj? &&
      |r.value.body.fields| == 2 && r.value.body.fields[0] == ("status", Str("error")) &&
      r.value.body.fields[1] == ("message", Str(result.error))
    ensures result.Listed? ==>
      && r.Ok? && r.value.status == Int(200) && r.value.body.Obj? && |r.value.body.fields| == 3
      && r.value.body.fields[0] == ("status", Str("success"))
      && r.value.body.fields[1] == ("visualizations", Obj(result.visualizations))
      && r.value.body.fields[2] == ("base_url", Str(result.baseUrl))
  {
    match result
    case ListFailed(_, _) =>
      var d := result.AsDict();
      GetFirst(d, 0);
      GetFirst(d, 1);
      Ok(VisualizationError(d))
    case Listed(_, _) =>
      var d := result.AsDict();
      GetFirst(d, 1);
      GetFirst(d, 2);
      VisualizationListing(Obj(d))
  }

  /** `GET /health`: the status dict is sent with 200 whether or not the
      service is healthy. */
  function HealthRoute(mm: ModelManager, rm: ResultsManager, fixed2: real -> string): (r: Result<Response>)
    reads mm, rm
    ensures r.Ok? <==> GetHealthStatus(mm, rm, fixed2).Ok?
    ensures r.Ok? ==> r.value.body == Obj(GetHealthStatus(mm, rm, fixed2).value.AsDict())
    ensures r.Ok? ==>
      && r.value.status == Int(200) && r.value.body.Obj? && |r.value.body.fields| == 2
      && r.value.body.fields[0] == ("status", Str(if mm.loaded && rm.loaded then "healthy" else "error"))
  {
    var status :- GetHealthStatus(mm, rm, fixed2);
    Ok(Success(Obj(status.AsDict())))
  }
}

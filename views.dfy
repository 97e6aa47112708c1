/** The backend's views: how a controller's answer becomes the JSON body and
    HTTP status handed to Flask. A view that reads `code` out of an error
    dict uses whatever value is stored there as the status. */
module Views {
  import opened Values

  /** A response: the body `jsonify` serialises and the status code. */
  datatype Response = Response(body: Json, status: Json)

  /** `APIResponse.success(data)`, with the default status. */
  function Success(data: Json): (r: Response)
    ensures r.body == data && r.status == Int(200)
  {
    Response(data, Int(200))
  }

  /** The body of `APIResponse.error(message, code, details)`: status
      'error', the message, and the details only when they are truthy. */
  function ErrorBody(message: Json, details: Json): (b: Fields)
    ensures Truthy(details) ==> Keys(b) == ["status", "message", "details"]
    ensures !Truthy(details) ==> Keys(b) == ["status", "message"]
    ensures b[0] == ("status", Str("error")) && b[1] == ("message", message)
    ensures Truthy(details) ==> b[2] == ("details", details)
  {
    if Truthy(details) then [("status", Str("error")), ("message", message), ("details", details)]
    else [("status", Str("error")), ("message", message)]
  }

  /** `APIResponse.error(message, code, details)` */
  function Error(message: Json, code: Json, details: Json): (r: Response)
    ensures r.status == code && r.body == Obj(ErrorBody(message, details))
  {
    Response(Obj(ErrorBody(message, details)), code)
  }

  /** `PredictionView.render_success`: the three answer fields copied from
      the controller's dict, then the model description. A dict lacking one
      of the three raises. */
  function PredictionSuccess(result: Json, modelInfo: Json): (r: Result<Response>)
    ensures r.Ok? <==>
      Index(result, "prediction").Ok? && Index(result, "confidence").Ok? && Index(result, "probabilities").Ok?
    ensures r.Ok? ==>
      && r.value.status == Int(200) && r.value.body.Obj? && |r.value.body.fields| == 4
      && r.value.body.fields[0] == ("prediction", Index(result, "prediction").value)
      && r.value.body.fields[1] == ("confidence", Index(result, "confidence").value)
      && r.value.body.fields[2] == ("probabilities", Index(result, "probabilities").value)
      && r.value.body.fields[3] == ("model_info", modelInfo)
  {
    var prediction :- Index(result, "prediction");
    var confidence :- Index(result, "confidence");
    var probabilities :- Index(result, "probabilities");
    Ok(Success(Obj([("prediction", prediction), ("confidence", confidence),
                    ("probabilities", probabilities), ("model_info", modelInfo)])))
  }

  /** What `PredictionView.render_error` leaves of the error dict after
      popping `code` and `error`: every other entry, in order. */
  function PredictionErrorRest(data: Fields): Fields {
    Removed(Removed(data, "code"), "error")
  }

  /** Neither popped key is left; every other entry is, unchanged. */
  lemma PredictionErrorRestEntries(data: Fields)
    ensures "code" !in Keys(PredictionErrorRest(data)) && "error" !in Keys(PredictionErrorRest(data))
    ensures forall e :: e in PredictionErrorRest(data) <==> e in data && e.0 != "code" && e.0 != "error"
    ensures forall k :: k != "code" && k != "error" ==> Get(PredictionErrorRest(data), k) == Get(data, k)
  {
    var once := Removed(data, "code");
    assert "code" !in Keys(Removed(once, "error")) by {
      forall i | 0 <= i < |Removed(once, "error")|
        ensures Removed(once, "error")[i].0 != "code"
      {
        assert Removed(once, "error")[i] in once;
      }
    }
  }

  /** The response `PredictionView.render_error` gives for the error dict
      `data`: its `code` (400 when absent) as the status, its `error`
      ('Prediction failed' when absent) as the message, and the rest of the
      dict as details. */
  function PredictionError(data: Fields): (r: Response)
    ensures r.status == GetOr(data, "code", Int(400)) && r.body.Obj?
    ensures PredictionErrorRest(data) == [] ==> Keys(r.body.fields) == ["status", "message"]
    ensures PredictionErrorRest(data) != [] ==>
      Keys(r.body.fields) == ["status", "message", "details"] &&
      r.body.fields[2] == ("details", Obj(PredictionErrorRest(data)))
    ensures |r.body.fields| >= 2 && r.body.fields[1] == ("message", GetOr(data, "error", Str("Prediction failed")))
  {
    var rest := PredictionErrorRest(data);
    assert Truthy(Obj(rest)) <==> rest != [];
    Error(GetOr(data, "error", Str("Prediction failed")), GetOr(data, "code", Int(400)), Obj(rest))
  }

  /** `PredictionView.render_error`: pops `code`, then `error`, out of the
      caller's dict and reports what remains of that same dict as details. */
  method RenderPredictionError(data: MutableDict) returns (r: Response)
    requires data.Valid()
    modifies data
    ensures data.items == PredictionErrorRest(old(data.items))
    ensures r == PredictionError(old(data.items))
    ensures data.Valid()
  {
    var code := data.Pop("code", Int(400));
    var message := data.Pop("error", Str("Prediction failed"));
    r := Error(message, code, Obj(data.items));
  }

  /** `ResultsView.render_error`: the dict's `code` (500 when absent) and
      `error` ('Error fetching results' when absent), without details. */
  function ResultsError(data: Fields): (r: Response)
    ensures r.status == GetOr(data, "code", Int(500)) && r.body.Obj?
    ensures Keys(r.body.fields) == ["status", "message"]
    ensures r.body.fields[1] == ("message", GetOr(data, "error", Str("Error fetching results")))
  {
    Error(GetOr(data, "error", Str("Error fetching results")), GetOr(data, "code", Int(500)), Null)
  }

  /** `VisualizationView.render_error`: the dict's `code` (404 when absent)
      and `error` ('Visualization not found' when absent), without details. */
  function VisualizationError(data: Fields): (r: Response)
    ensures r.status == GetOr(data, "code", Int(404)) && r.body.Obj?
    ensures Keys(r.body.fields) == ["status", "message"]
    ensures r.body.fields[1] == ("message", GetOr(data, "error", Str("Visualization not found")))
  {
    Error(GetOr(data, "error", Str("Visualization not found")), GetOr(data, "code", Int(404)), Null)
  }

  /** `VisualizationView.render_list`: status 'success' with the listing and
      base URL copied from the controller's dict; a dict lacking either
      raises. */
  function VisualizationListing(data: Json): (r: Result<Response>)
    ensures r.Ok? <==> Index(data, "visualizations").Ok? && Index(data, "base_url").Ok?
    ensures r.Ok? ==>
      && r.value.status == Int(200) && r.value.body.Obj? && |r.value.body.fields| == 3
      && r.value.body.fields[0] == ("status", Str("success"))
      && r.value.body.fields[1] == ("visualizations", Index(data, "visualizations").value)
      && r.value.body.fields[2] == ("base_url", Index(data, "base_url").value)
  {
    var visualizations :- Index(data, "visualizations");
    var baseUrl :- Index(data, "base_url");
    Ok(Success(Obj([("status", Str("success")), ("visualizations", visualizations), ("base_url", baseUrl)])))
  }

  /** `FeaturesView.render`: writes the formatted accuracy into the caller's
      dict under `accuracy` and answers with that dict. When the accuracy
      cannot be formatted the exception leaves the dict as it was. */
  method RenderFeatures(data: MutableDict, accuracy: Json, fixed2: real -> string) returns (r: Result<Response>)
    requires data.Valid()
    modifies data
    ensures PercentOrNA(accuracy, fixed2).Raise? ==>
      r == Raise(PercentOrNA(accuracy, fixed2).exc) && data.items == old(data.items)
    ensures PercentOrNA(accuracy, fixed2).Ok? ==>
      && data.items == SetItem(old(data.items), "accuracy", Str(PercentOrNA(accuracy, fixed2).value))
      && Get(data.items, "accuracy") == Some(Str(PercentOrNA(accuracy, fixed2).value))
      && (forall k :: k != "accuracy" ==> Get(data.items, k) == Get(old(data.items), k))
      && r == Ok(Success(Obj(data.items)))
    ensures data.Valid()
  {
    match PercentOrNA(accuracy, fixed2)
    case Raise(e) =>
      r := Raise(e);
    case Ok(text) =>
      SetItemGet(data.items, "accuracy", Str(text));
      data.Store("accuracy", Str(text));
      r := Ok(Success(Obj(data.items)));
  }
}

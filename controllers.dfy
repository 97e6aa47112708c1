/** The backend's controllers: the prediction request contract (validation,
    re-projection onto the model's feature order, the call to the estimator,
    the user-facing answer), and the results, report-image and health
    lookups. Each controller answers with a value; `AsDict` gives the exact
    dict the backend builds for it. */
module Controllers {
  import opened Values
  import opened Seqs
  import opened Models
  import Training

  // ---------------------------------------------------------------------
  // The prediction contract
  // ---------------------------------------------------------------------

  /** The seven features a prediction request must carry, in the order the
      minimal model takes them. */
  function MinimalFeatures(): (fs: seq<string>)
    ensures |fs| == 7 && NoDuplicates(fs)
  {
    ["OverTime", "MonthlyIncome", "Age", "TotalWorkingYears",
     "DistanceFromHome", "StockOptionLevel", "EnvironmentSatisfaction"]
  }

  /** The backend asks for exactly the features the minimal model was trained on. */
  lemma SameFeaturesAsTraining()
    ensures MinimalFeatures() == Training.MinimalFeatures()
  {
  }

  /** The answer of `get_required_features`. */
  datatype FeatureSchema = FeatureSchema(
    required: seq<string>,
    count: int,
    categories: seq<(string, seq<string>)>,
    description: string)
  {
    function AsDict(): Fields {
      [("required_features", StrList(required)),
       ("count", Int(count)),
       ("categories", Obj(seq(|categories|, i requires 0 <= i < |categories| =>
                              (categories[i].0, StrList(categories[i].1))))),
       ("description", Str(description))]
    }
  }

  function GroupMembers(groups: seq<(string, seq<string>)>): seq<seq<string>> {
    seq(|groups|, i requires 0 <= i < |groups| => groups[i].1)
  }

  /** `get_required_features`: the feature list, its length, and the
      features grouped by what they describe. */
  function GetRequiredFeatures(): (s: FeatureSchema)
    ensures s.required == MinimalFeatures() && s.count == |s.required|
    ensures |s.categories| == 4
  {
    FeatureSchema(
      MinimalFeatures(), |MinimalFeatures()|,
      [("work_life", ["OverTime", "DistanceFromHome"]),
       ("compensation", ["MonthlyIncome", "StockOptionLevel"]),
       ("experience", ["Age", "TotalWorkingYears"]),
       ("satisfaction", ["EnvironmentSatisfaction"])],
      "Only these 7 features are required and used")
  }

  /** The four groups of the schema hold every required feature exactly once. */
  lemma FeatureGroupsPartitionRequired()
    ensures multiset(Concat(GroupMembers(GetRequiredFeatures().categories))) ==
            multiset(GetRequiredFeatures().required)
  {
    var s := GetRequiredFeatures();
    var m := MinimalFeatures();
    var groups := GroupMembers(s.categories);
    assert groups == [[m[0], m[4]], [m[1], m[5]], [m[2], m[3]], [m[6]]];
    assert Concat(groups[3..]) == [m[6]];
    assert Concat(groups[2..]) == [m[2], m[3]] + Concat(groups[3..]);
    assert Concat(groups[1..]) == [m[1], m[5]] + Concat(groups[2..]);
    assert Concat(groups) == [m[0], m[4]] + Concat(groups[1..]);
    assert m == [m[0], m[1], m[2], m[3], m[4], m[5], m[6]];
  }

  /** Why a prediction request gets no prediction. */
  datatype Rejection =
    | NoInput
    | MissingFeatures(missing: seq<string>)
    | ExtraFeatures(extra: seq<string>)
    | PredictionFailed(details: string)
  {
    function Code(): int {
      if PredictionFailed? then 500 else 400
    }

    function Message(): string {
      match this
      case NoInput => "No input data provided"
      case MissingFeatures(_) => "Missing required features"
      case ExtraFeatures(_) => "Extra features not allowed"
      case PredictionFailed(_) => "Prediction failed"
    }

    /** The dict `validate_input` or `predict` returns for this rejection,
        from the controller whose feature list is `required`. */
    function AsDict(required: seq<string>): Fields {
      match this
      case NoInput =>
        [("valid", Bool(false)), ("error", Str(Message())), ("code", Int(Code()))]
      case MissingFeatures(missing) =>
        [("valid", Bool(false)), ("error", Str(Message())),
         ("missing", StrList(missing)), ("required", StrList(required)),
         ("hint", Str("All 7 features are required")), ("code", Int(Code()))]
      case ExtraFeatures(extra) =>
        [("valid", Bool(false)), ("error", Str(Message())),
         ("extra_features", StrList(extra)), ("allowed_features", StrList(required)),
         ("hint", Str("Only 7 minimal features are accepted")), ("code", Int(Code()))]
      case PredictionFailed(details) =>
        [("valid", Bool(false)), ("error", Str(Message())),
         ("details", Str(details)), ("code", Int(Code()))]
    }
  }

  datatype Validation = Valid | Invalid(reason: Rejection)

  /** The required features the request lacks, in required order.
      `required` is the controller's feature list. */
  function Missing(required: seq<string>, input: Fields): (m: seq<string>)
    ensures forall f :: f in m <==> f in required && f !in Keys(input)
    ensures m == [] <==> forall f :: f in required ==> f in Keys(input)
    ensures IsSubsequence(m, required)
  {
    FilterEmpty(f => f !in Keys(input), required);
    FilterIsSubsequence(f => f !in Keys(input), required);
    Filter(f => f !in Keys(input), required)
  }

  /** The request's keys that are not required features, in request order. */
  function Extra(required: seq<string>, input: Fields): (e: seq<string>)
    ensures forall f :: f in e <==> f in Keys(input) && f !in required
    ensures e == [] <==> forall f :: f in Keys(input) ==> f in required
    ensures IsSubsequence(e, Keys(input))
  {
    FilterEmpty(f => f !in required, Keys(input));
    FilterIsSubsequence(f => f !in required, Keys(input));
    Filter(f => f !in required, Keys(input))
  }

  /** `validate_input`. The request body is `None` when there is none. An
      empty body is refused first, then missing features, then extra ones. */
  function ValidateInput(required: seq<string>, input: Option<Fields>): (v: Validation)
    ensures input == None || input == Some([]) ==> v == Invalid(NoInput)
    ensures input.Some? && input.value != [] && Missing(required, input.value) != [] ==>
      v == Invalid(MissingFeatures(Missing(required, input.value)))
    ensures input.Some? && input.value != [] && Missing(required, input.value) == [] &&
            Extra(required, input.value) != [] ==>
      v == Invalid(ExtraFeatures(Extra(required, input.value)))
    ensures v.Valid? ==> input.Some? && forall f :: f in required ==> f in Keys(input.value)
    ensures v.Invalid? ==> v.reason.Code() == 400
  {
    match input
    case None => Invalid(NoInput)
    case Some(d) =>
      if d == [] then Invalid(NoInput)
      else if Missing(required, d) != [] then Invalid(MissingFeatures(Missing(required, d)))
      else if Extra(required, d) != [] then Invalid(ExtraFeatures(Extra(required, d)))
      else Valid
  }

  /** A request passes exactly when its keys are the required features. */
  lemma ValidIffExactKeys(required: seq<string>, input: Option<Fields>)
    requires required != []
    ensures ValidateInput(required, input).Valid? <==>
      input.Some? && (set k | k in Keys(input.value)) == (set f | f in required)
  {
    if input.Some? {
      var d := input.value;
      var ks := set k | k in Keys(d);
      var req := set f | f in required;
      if ValidateInput(required, input).Valid? {
        assert forall f :: f in Keys(d) ==> f !in Extra(required, d);
        assert ks == req;
      }
      if ks == req {
        assert required[0] in req;
        assert d != [];
        assert forall x :: x in Missing(required, d) ==> x in req && x !in ks;
        assert forall x :: x in Extra(required, d) ==> x in ks && x !in req;
      }
    }
  }

  /** The request re-projected onto the feature order `required`, each
      feature with the value the request gives it. */
  function Project(required: seq<string>, input: Fields): (row: Row)
    requires forall f :: f in required ==> f in Keys(input)
    ensures Keys(row) == required
    ensures forall i :: 0 <= i < |row| ==> Get(input, row[i].0) == Some(row[i].1)
  {
    var row := seq(|required|, i requires 0 <= i < |required| => (required[i], Get(input, required[i]).value));
    assert Keys(row) == required;
    row
  }

  /** A controller's answer to a prediction request. */
  datatype PredictionResult =
    | Predicted(prediction: string, confidence: real, probNo: real, probYes: real)
    | NotPredicted(reason: Rejection)
  {
    function AsDict(required: seq<string>): Fields {
      match this
      case Predicted(prediction, confidence, probNo, probYes) =>
        [("valid", Bool(true)), ("prediction", Str(prediction)), ("confidence", Num(confidence)),
         ("probabilities", Obj([("No", Num(probNo)), ("Yes", Num(probYes))]))]
      case NotPredicted(reason) => reason.AsDict(required)
    }
  }

  function Max(a: real, b: real): real {
    if a >= b then a else b
  }

  /** The answer for the estimator's raw output: the label "Yes" exactly
      for class 1, the two class probabilities as percentages, and as the
      confidence the larger of them, each rounded by `round2` (`round(_, 2)`). */
  function Answer(raw: RawPrediction, round2: real -> real): (r: PredictionResult)
    ensures r.Predicted?
    ensures r.prediction == "Yes" <==> raw.prediction == 1
    ensures r.prediction == "No" <==> raw.prediction != 1
    ensures r.probNo == round2(raw.no * 100.0) && r.probYes == round2(raw.yes * 100.0)
    ensures r.confidence == round2(Max(raw.no, raw.yes) * 100.0)
  {
    Predicted(if raw.prediction == 1 then "Yes" else "No",
              round2(Max(raw.no, raw.yes) * 100.0),
              round2(raw.no * 100.0), round2(raw.yes * 100.0))
  }

  /** `predict`, for a controller whose feature list is `required` (the
      backend's is `MinimalFeatures()`). Any exception on the way to the
      estimator's answer, "Model not loaded" included, becomes a 500. */
  function Predict(required: seq<string>, mm: ModelManager, input: Option<Fields>, round2: real -> real): (r: PredictionResult)
    reads mm
    ensures ValidateInput(required, input).Invalid? ==>
      r == NotPredicted(ValidateInput(required, input).reason)
    ensures ValidateInput(required, input).Valid? ==>
      match mm.Predict(Project(required, input.value))
      case Raise(e) => r == NotPredicted(PredictionFailed(e))
      case Ok(raw) => r == Answer(raw, round2)
  {
    match ValidateInput(required, input)
    case Invalid(reason) => NotPredicted(reason)
    case Valid =>
      match mm.Predict(Project(required, input.value))
      case Raise(e) => NotPredicted(PredictionFailed(e))
      case Ok(raw) => Answer(raw, round2)
  }

  /** A refused request is answered without the model manager: its state
      makes no difference. */
  lemma RejectedWithoutModel(required: seq<string>, mm1: ModelManager, mm2: ModelManager,
                             input: Option<Fields>, round2: real -> real)
    requires ValidateInput(required, input).Invalid?
    ensures Predict(required, mm1, input, round2) == Predict(required, mm2, input, round2)
    ensures Predict(required, mm1, input, round2).NotPredicted? &&
      Predict(required, mm1, input, round2).reason.Code() == 400
  {
  }

  ghost predicate Monotone(f: real -> real) {
    forall x, y :: x <= y ==> f(x) <= f(y)
  }

  /** With a monotone rounding, the confidence is the larger of the two
      class probabilities reported beside it. */
  lemma ConfidenceIsLargerProbability(raw: RawPrediction, round2: real -> real)
    requires Monotone(round2)
    ensures Answer(raw, round2).confidence == Max(Answer(raw, round2).probNo, Answer(raw, round2).probYes)
  {
    if raw.no >= raw.yes {
      assert raw.yes * 100.0 <= raw.no * 100.0;
    } else {
      assert raw.no * 100.0 <= raw.yes * 100.0;
    }
  }

  // ---------------------------------------------------------------------
  // Results
  // ---------------------------------------------------------------------

  /** A results controller's answer. */
  datatype Lookup = Found(data: Json) | LookupFailed(error: string, code: int) {
    function AsDict(): Fields {
      match this
      case Found(data) => [("valid", Bool(true)), ("data", data)]
      case LookupFailed(error, code) => [("error", Str(error)), ("code", Int(code))]
    }
  }

  /** An absent document part (None) is reported as results not loaded. */
  function FoundOrNotLoaded(x: Json): (r: Lookup)
    ensures r.LookupFailed? <==> x == Null
    ensures r.LookupFailed? ==> r == LookupFailed("Results not loaded", 500)
    ensures r.Found? ==> r.data == x
  {
    if x == Null then LookupFailed("Results not loaded", 500) else Found(x)
  }

  /** `get_all_results` */
  function GetAllResults(rm: ResultsManager): (r: Lookup)
    reads rm
    ensures !rm.loaded ==> r == LookupFailed("Results not loaded", 500)
    ensures rm.loaded && rm.results != Null ==> r == Found(rm.results)
    ensures rm.loaded && rm.results == Null ==> r == LookupFailed("Results not loaded", 500)
  {
    FoundOrNotLoaded(rm.GetAllResults())
  }

  /** `get_summary`; a document that lacks a part of the summary raises. */
  function GetSummary(rm: ResultsManager): (r: Result<Lookup>)
    reads rm
    ensures !rm.loaded ==> r == Ok(LookupFailed("Results not loaded", 500))
    ensures rm.loaded ==> (r.Ok? <==> HasSummaryFields(rm.results))
    ensures rm.loaded && r.Ok? ==> r.value == Found(rm.GetSummary().value)
  {
    var summary :- rm.GetSummary();
    Ok(FoundOrNotLoaded(summary))
  }

  /** `get_model_results`: the variant name is checked before the manager
      is asked. */
  function GetModelResults(rm: ResultsManager, modelType: string): (r: Result<Lookup>)
    reads rm
    ensures modelType !in Variants() ==>
      r == Ok(LookupFailed("Invalid model type. Use: full, reduced, or minimal", 400))
    ensures modelType in Variants() && !rm.loaded ==> r == Ok(LookupFailed("Results not loaded", 500))
    ensures modelType in Variants() && rm.loaded ==>
      match Path(rm.results, ["models", modelType])
      case Raise(e) => r == Raise(e)
      case Ok(entry) => r == Ok(FoundOrNotLoaded(entry))
  {
    if modelType !in Variants() then
      Ok(LookupFailed("Invalid model type. Use: full, reduced, or minimal", 400))
    else
      var results :- rm.GetModelResults(modelType);
      Ok(FoundOrNotLoaded(results))
  }

  // ---------------------------------------------------------------------
  // Report images
  // ---------------------------------------------------------------------

  /** The visualization controller's answer to a listing request. */
  datatype VisualizationList = Listed(visualizations: Fields, baseUrl: string) | ListFailed(error: string, code: int) {
    function AsDict(): Fields {
      match this
      case Listed(visualizations, baseUrl) =>
        [("valid", Bool(true)), ("visualizations", Obj(visualizations)), ("base_url", Str(baseUrl))]
      case ListFailed(error, code) => [("error", Str(error)), ("code", Int(code))]
    }
  }

  /** `list_visualizations`: the listing, or the listing's exception
      reported as a 500. */
  method ListVisualizations(vm: VisualizationManager, fs: FileSystem) returns (r: VisualizationList)
    requires vm.Valid()
    ensures r.Listed? ==> vm.ListsAs(fs, Ok(r.visualizations)) && r.baseUrl == "/api/visualizations"
    ensures r.ListFailed? ==> vm.ListsAs(fs, Raise(r.error)) && r.code == 500
  {
    var listing := vm.ListAll(fs);
    match listing
    case Ok(visualizations) =>
      r := Listed(visualizations, "/api/visualizations");
    case Raise(e) =>
      r := ListFailed(e, 500);
  }

  /** The visualization controller's answer to an image request. */
  datatype ImageLookup = ImageFound(path: string) | ImageError(error: string, code: int) {
    function AsDict(): Fields {
      match this
      case ImageFound(path) => [("valid", Bool(true)), ("path", Str(path))]
      case ImageError(error, code) => [("error", Str(error)), ("code", Int(code))]
    }
  }

  /** `get_image`: an unknown category is a 400, a missing file a 404. */
  function GetImage(vm: VisualizationManager, fs: FileSystem, category: string, filename: string): (r: ImageLookup)
    ensures !vm.ValidateCategory(category) ==>
      r == ImageError("Invalid category. Use: comparison, full, reduced, or minimal", 400)
    ensures vm.ValidateCategory(category) && !Exists(fs, Join(vm.CategoryDir(category), filename)) ==>
      r == ImageError("Visualization not found: " + category + "/" + filename, 404)
    ensures r.ImageFound? <==> category in vm.categories && Exists(fs, Join(vm.CategoryDir(category), filename))
    ensures r.ImageFound? ==> r.path == Join(Join(vm.imgBasePath, category), filename)
  {
    if !vm.ValidateCategory(category) then
      ImageError("Invalid category. Use: comparison, full, reduced, or minimal", 400)
    else
      match vm.GetImagePath(fs, category, filename)
      case None => ImageError("Visualization not found: " + category + "/" + filename, 404)
      case Some(path) => ImageFound(path)
  }

  // ---------------------------------------------------------------------
  // Health
  // ---------------------------------------------------------------------

  datatype HealthStatus = HealthStatus(healthy: bool, modelLoaded: bool, accuracy: string) {
    function AsDict(): Fields {
      [("status", Str(if healthy then "healthy" else "error")),
       ("model", Obj([("loaded", Bool(modelLoaded)), ("type", Str("ultra_minimal")),
                      ("features_required", Int(7)), ("accuracy", Str(accuracy))]))]
    }
  }

  /** `get_health_status`: healthy exactly when the model and the results
      are both loaded; the minimal model's accuracy is looked up only when
      the results are. `fixed2` renders a number with two decimals. */
  function GetHealthStatus(mm: ModelManager, rm: ResultsManager, fixed2: real -> string): (r: Result<HealthStatus>)
    reads mm, rm
    ensures r.Ok? ==> (r.value.healthy <==> mm.loaded && rm.loaded) && r.value.modelLoaded == mm.loaded
    ensures !rm.loaded ==> r == Ok(HealthStatus(false, mm.loaded, "N/A"))
    ensures rm.loaded ==>
      match rm.GetModelAccuracy("minimal")
      case Raise(e) => r == Raise(e)
      case Ok(acc) =>
        match PercentOrNA(acc, fixed2)
        case Raise(e) => r == Raise(e)
        case Ok(text) => r.Ok? && r.value.accuracy == text
  {
    var accuracy :- if rm.loaded then rm.GetModelAccuracy("minimal") else Ok(Null);
    var text :- PercentOrNA(accuracy, fixed2);
    Ok(HealthStatus(mm.loaded && rm.loaded, mm.loaded, text))
  }
}

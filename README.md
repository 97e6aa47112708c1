# ResignPrediction backend, modelled in Dafny

ResignPrediction serves an employee-attrition classifier over HTTP. A
Flask backend loads a trained scikit-learn pipeline and a JSON document of
training results. It registers eight routes:

- `/predict`, for prediction requests, which must carry exactly seven
  named features;
- `/features`, which describes those features and the minimal model's
  accuracy;
- three queries about the training results: the whole document, the
  summary, and one model variant;
- a listing of the report images, and a request for one image file;
- `/health`, a health check.

The training script also defines the three feature sets the model
variants are trained on. It splits each set into categorical and numeric
columns.

This project models that core in Dafny and proves:

- the request contract;
- the state machines of the three managers;
- what each controller answers;
- how each view turns an answer into a body and an HTTP status;
- the split of features by dtype.

Layout, one module per file:

- `seqs.dfy` (`Seqs`): order-preserving filtering, the list comprehensions
  the code is built from, with lemmas about subsequences, emptiness,
  partition and duplicates.
- `values.dfy` (`Values`): the Python and JSON values the backend moves
  around.
  - A dict is a sequence of key/value pairs in insertion order, because
    the reported extra features depend on that order.
  - `Result` is a value or a raised exception.
  - The module also holds `d[k]`, `d.get`, `d.pop`, `d[k] = v`, Python
    truthiness, the `:.2f` format, and a `MutableDict` class for a dict
    that is changed in place.
- `training.dfy` (`Training`): the three feature lists and
  `identify_feature_types` (model/model.py).
- `models.dfy` (`Models`): `ModelManager` and `ResultsManager` as classes
  whose `loaded` flag and payload are updated by their load methods, plus
  `VisualizationManager` over a modelled filesystem (backend/models.py).
- `controllers.dfy` (`Controllers`): each controller answers with a typed
  value; its `AsDict` is the exact dict the backend returns
  (backend/controllers.py).
- `views.dfy` (`Views`): `APIResponse` and the views, which give the
  response body and status (backend/views.py).
- `endpoints.dfy` (`Endpoints`): what several routes of backend/routes.py
  answer when the controller and the view are composed.

Rounding (`round(x, 2)`) and two-decimal formatting (`f"{x:.2f}"`) are
parameters, `round2` and `fixed2`. Where a property needs something of
rounding, it is only monotonicity. Reading the model pickle and the
results file is a parameter of the load methods; the parameter is the
decoded object or the exception raised. The estimator is a pair of
functions that may raise. The filesystem is a map from directories to
their entries, plus a set of regular files.

Three behaviours of the code worth knowing:

- A request that both lacks required features and carries unknown ones
  is reported only for what it lacks, because the missing check
  (backend/controllers.py:50-59) runs before the extra check (62-71)
  (`ValidateInput`, `MissingReportedFirst`).
- An unknown results variant is answered with 400
  (backend/controllers.py:137-141, `UnknownVariantIs400`).
- The details of a rejected prediction are the controller's whole dict
  without `code` and `error`, so they always include `valid: false`
  (`RejectionResponse`).
  - A missing-features or extra-features rejection also keeps its
    feature list, the required or allowed list and a hint
    (backend/controllers.py:52-71).
  - A request without input keeps only `valid: false`
    (backend/controllers.py:43-47).
  - A prediction failure keeps `valid: false` and `details`
    (backend/controllers.py:107-112).

## Model

| member | source | states |
|---|---|---|
| Seqs.Filter | backend/controllers.py:50 | a list comprehension keeps exactly the elements that pass, and is no longer than its input |
| Seqs.FilterIsSubsequence | backend/controllers.py:50 | the kept elements stay in their input order |
| Seqs.FilterEmpty | backend/controllers.py:51 | a comprehension is empty exactly when no element passes, which is what the `if missing:` and `if extra:` tests decide |
| Seqs.FilterSnoc | model/model.py:118-122 | filtering a list one element longer appends at most that element, as an accumulating loop does |
| Seqs.FilterComplement | model/model.py:118-122 | what a test keeps and what its negation keeps make up the input, as a multiset |
| Seqs.FilterNoDuplicates | backend/models.py:136 | filtering a list without repetitions gives one without repetitions |
| Values.Keys | backend/controllers.py:62 | `input_data.keys()` lists the keys in insertion order |
| Values.Get | backend/controllers.py:50 | a lookup succeeds exactly for a key of the dict |
| Values.GetEntry | backend/controllers.py:84 | in a dict with distinct keys, looking up an entry's key gives that entry's value |
| Values.GetFirst | backend/views.py:69-70 | a lookup finds the first entry under its key |
| Values.GetOr | backend/views.py:85-86 | `d.get(k, default)`, and the value `pop(k, default)` returns: the value under `k` when `k` is a key, the default otherwise |
| Values.Removed | backend/views.py:69-70 | `pop` leaves every other entry, in order and unchanged, and drops the key |
| Values.RemovedGet | backend/views.py:69-70 | after `pop(k)` every other key looks up as before |
| Values.SetItem | backend/views.py:48 | `d[k] = v` as a new dict (its contract is the four `SetItem` lemmas below and `MutableDict.Store`; also models.py:137) |
| Values.SetItemGet | backend/views.py:48 | after `d[k] = v`, `k` gives `v` and every other key looks up as before |
| Values.SetItemKeepsKeys | backend/models.py:137 | assigning to an existing key keeps the key order |
| Values.SetItemAppends | backend/models.py:131 | assigning to a new key appends the entry at the end |
| Values.SetItemReplaces | backend/models.py:137 | assigning to an existing key replaces that entry in place |
| Values.StrList | backend/controllers.py:55-56 | a list of names becomes a JSON array of those strings, in order |
| Values.Index | backend/models.py:77 | `v[key]` answers exactly when `v` is a dict holding `key`, and answers that key's value; otherwise it raises |
| Values.Path | backend/models.py:77-119 | `v[k1][k2]...`: the empty path is the value itself, and a non-dict raises at the first step |
| Values.Truthy | backend/views.py:48 | Python truthiness: falsy exactly for None, False, 0, 0.0, the empty string, the empty list and the empty dict (also controllers.py:42 and 215) |
| Values.PathAppend | backend/models.py:107-119 | following one more key along a path is indexing the value the path reaches |
| Values.FormatFixed2 | backend/routes.py:64 | `:.2f` formats numbers, formats a boolean as the number 1 or 0, and raises for anything else, None included |
| Values.PercentOrNA | backend/views.py:48 | a falsy accuracy reads as N/A without being formatted; a truthy one is formatted with a percent sign, or raises as the format does |
| Values.MutableDict.Pop | backend/views.py:69-70 | an in-place `pop(k, default)` on a dict with distinct keys returns the value or the default, leaves the dict as `Removed` says, and keeps the keys distinct |
| Values.MutableDict.Store | backend/views.py:48 | an in-place `d[k] = v` on a dict with distinct keys leaves the dict as `SetItem` says and keeps the keys distinct |
| Values.RemovedKeepsDistinct | backend/views.py:69-70 | popping a key keeps the keys distinct |
| Values.DistinctKeysByKeys | backend/models.py:131 | a dict's keys are distinct exactly when its key list has no repetition |
| Values.SetItemKeepsDistinct | backend/views.py:48 | assigning a key keeps the keys distinct |
| Training.FullFeatures | model/model.py:78-87 | the full model uses 31 features |
| Training.ReducedFeatures | model/model.py:90-94 | the reduced model uses 11 distinct features |
| Training.MinimalFeatures | model/model.py:97-100 | the minimal model uses 7 distinct features |
| Training.FullFeaturesDistinct | model/model.py:78-87 | the 31 full-model features are pairwise different |
| Training.FirstHalfDistinct | model/model.py:79-84 | the first 16 full-model features are pairwise different |
| Training.SecondHalfDistinct | model/model.py:84-86 | the last 15 full-model features are pairwise different |
| Training.HalvesDistinctFrom | model/model.py:78-87 | no feature of the first 16 recurs among the last 15 |
| Training.FeatureSetsNested | model/model.py:78-100 | every minimal feature is a reduced one, and every reduced feature a full one |
| Training.IsCategorical | model/model.py:119 | a column is categorical exactly when its dtype is `object`; a feature without a dtype is not (a definition, used by `Categorical` and `Numeric`) |
| Training.Categorical | model/model.py:119-120 | the categorical features are exactly those whose dtype is `object`, in input order |
| Training.Numeric | model/model.py:121-122 | the numeric features are exactly those whose dtype is not `object`, in input order |
| Training.IdentifyFeatureTypes | model/model.py:114-123 | the loop returns exactly the categorical and the numeric features, each in input order |
| Training.FeatureTypesPartition | model/model.py:114-123 | each feature lands in exactly one of the two lists, as often as it occurs, and no name is in both |
| Models.EstimatorPredict | backend/models.py:34-43 | the answer is the first predicted class and the first probability row's two entries; an empty answer or a short row raises, and the estimator's own exceptions pass through |
| Models.ModelManager.constructor | backend/models.py:13-16 | a fresh manager has no model and is not loaded |
| Models.ModelManager.LoadModel | backend/models.py:18-27 | a load succeeds exactly when the artifact could be read, and then stores it and sets `loaded`; a failed load changes nothing |
| Models.ModelManager.Predict | backend/models.py:29-43 | without a loaded model the call raises 'Model not loaded'; with one it answers what the estimator answers |
| Models.Variants | backend/models.py:104 | three distinct variant names |
| Models.VariantSummary | backend/models.py:80-94 | a variant's summary entry can be built exactly when the document has its three figures, and then holds exactly `features`, `test_accuracy` and `training_time`, in that order, copied from the variant's `num_features`, `test_accuracy` and `training_time` |
| Models.ResultsManager.constructor | backend/models.py:49-52 | a fresh manager holds no document and is not loaded |
| Models.ResultsManager.LoadResults | backend/models.py:54-63 | a load succeeds exactly when the document could be decoded, and then stores it and sets `loaded`; a failed load changes nothing |
| Models.ResultsManager.GetAllResults | backend/models.py:65-69 | None until loaded, then the whole document |
| Models.ResultsManager.GetSummary | backend/models.py:71-97 | None until loaded; once loaded it succeeds exactly when the document has every summarised part, and holds the date, the dataset description, the per-variant summary and the comparison, in that order; the per-variant summary maps full, reduced and minimal, in that order, to their `VariantSummary` entries |
| Models.ResultsManager.GetModelResults | backend/models.py:99-107 | None until loaded and for any name outside the three variants; otherwise the document's entry for the variant |
| Models.ResultsManager.GetDatasetInfo | backend/models.py:109-113 | None until loaded, then the document's dataset description |
| Models.ResultsManager.GetModelAccuracy | backend/models.py:115-119 | None until loaded, then the named variant's test accuracy; the name is not checked: any name is looked up, and one the document lacks raises |
| Models.SummaryAgreesWithQueries | backend/models.py:82-119 | the accuracy the summary reports for a variant is the one `get_model_accuracy` reports, and the `test_accuracy` of the entry `get_model_results` returns |
| Models.FigureLookup | backend/models.py:79-95 | indexing the per-variant summary by a variant name gives that variant's entry |
| Models.SummaryLookup | backend/models.py:76-79 | indexing the summary by `models_summary` gives the per-variant summary |
| Models.SummaryPath | backend/models.py:77-97 | following `models_summary`, a variant and a key through the summary is indexing that variant's entry by the key |
| Models.SummaryReportsAccuracy | backend/models.py:77-119 | once loaded results have every summarised part, the summary is built, and its `models_summary` / variant / `test_accuracy` entry is what `get_model_accuracy` reports for that variant |
| Models.Categories | backend/models.py:127 | four distinct report categories |
| Models.Exists | backend/models.py:135 | `os.path.exists`: the path is a directory or a regular file of the modelled filesystem (a definition) |
| Models.Join | backend/models.py:134 | `os.path.join` on POSIX: the result ends with the second part; an absolute second part replaces the first, and otherwise the first part is a prefix |
| Models.EndsWith | backend/models.py:136 | `s.endswith(suffix)`: `s` is then some prefix followed by the suffix |
| Models.PngFiles | backend/models.py:136 | the `.png` entries of a listing, exactly, in listing order, and without repetition when the listing has none |
| Models.CategoryListing | backend/models.py:134-137 | a missing directory lists as empty, a directory as its `.png` entries, and a regular file where a directory is expected raises |
| Models.VisualizationManager.CategoryDir | backend/models.py:134 | a category's directory ends with the category and starts with the image base path unless the category is absolute |
| Models.VisualizationManager.ListsAs | backend/models.py:129-139 | the specification of `list_all`: every category, in order, with its listing; or the exception of the first category whose listing raises (a definition, the contract of `ListAll`) |
| Models.VisualizationManager.FilledListing | backend/models.py:131-139 | a listing holding each category, in order, with its directory's listing is what `list_all` returns |
| Models.VisualizationManager.ListAll | backend/models.py:129-139 | the result has exactly the categories as keys, in order, each with its listing; otherwise it raises the first failing category's exception |
| Models.VisualizationManager.GetImagePath | backend/models.py:141-151 | a path exactly when the category is known and something exists at the joined path, and then that path |
| Models.VisualizationManager.ValidateCategory | backend/models.py:153-155 | accepted exactly when the name is a category |
| Models.NewVisualizationManager | backend/models.py:125-127 | a new manager has the four categories, which are distinct |
| Models.KnownCategories | backend/models.py:127-155 | the backend's manager accepts exactly comparison, full, reduced and minimal |
| Controllers.MinimalFeatures | backend/controllers.py:12-20 | seven distinct required features |
| Controllers.SameFeaturesAsTraining | backend/controllers.py:12-20 | the backend requires the same features, in the same order, as the minimal model was trained on (model/model.py:97-100) |
| Controllers.GetRequiredFeatures | backend/controllers.py:25-37 | the schema lists the required features and their number, in four groups |
| Controllers.FeatureSchema.AsDict | backend/controllers.py:27-37 | the `get_required_features` dict: `required_features`, `count`, `categories` and `description`, in that order (a definition) |
| Controllers.FeatureGroupsPartitionRequired | backend/controllers.py:30-35 | the four groups hold every required feature exactly once |
| Controllers.Missing | backend/controllers.py:50 | exactly the required features the request lacks, in required order; empty exactly when all are present |
| Controllers.Extra | backend/controllers.py:62 | exactly the request's keys that are not required, in request order; empty exactly when every key is required |
| Controllers.ValidateInput | backend/controllers.py:39-73 | an absent or empty body is refused first, then missing features, then extra ones, each with code 400; a passed request carries every required feature |
| Controllers.ValidIffExactKeys | backend/controllers.py:50-73 | a request passes exactly when its key set is the required set |
| Controllers.Rejection.AsDict | backend/controllers.py:43-71 | the rejection dicts of `validate_input` and `predict`, with `valid: false` first, the message, the case's own entries and `code` last; `Rejection.Code` and `Rejection.Message` hold each case's code and message (a definition; `Endpoints.RejectionDictOpens` and `Endpoints.RejectionDictCloses` state its shape; the failure dict is lines 107-112) |
| Controllers.Project | backend/controllers.py:84 | the row handed to the estimator has exactly the required features, in required order, each with the request's value |
| Controllers.Answer | backend/controllers.py:93-104 | 'Yes' exactly for class 1 and 'No' otherwise; both probabilities and the larger one (`Controllers.Max`, the `max(...)` of line 94) as the confidence, each times 100 and rounded |
| Controllers.PredictionResult.AsDict | backend/controllers.py:96-104 | an answer's dict: `valid: true`, the prediction, the confidence and the two probabilities; a refusal's dict is its rejection's (a definition; `Endpoints.AnswerHasFields` states what the success view reads of it) |
| Controllers.Predict | backend/controllers.py:75-112 | a refused request is answered with its rejection unchanged; otherwise any exception from the manager becomes a prediction failure (code 500) carrying the exception text, and an answer is formatted by `Answer` |
| Controllers.RejectedWithoutModel | backend/controllers.py:78-80 | a refused request is answered the same whatever the model manager's state, with code 400 |
| Controllers.ConfidenceIsLargerProbability | backend/controllers.py:94-103 | with a monotone rounding, the confidence is the larger of the two reported probabilities |
| Controllers.FoundOrNotLoaded | backend/controllers.py:123-126 | None becomes 'Results not loaded' with code 500; anything else is passed on as found |
| Controllers.Lookup.AsDict | backend/controllers.py:124-126 | a found lookup is `valid: true` with the data, a failed one its error and code (a definition; also lines 132-133, 138-141 and 145-146) |
| Controllers.GetAllResults | backend/controllers.py:121-126 | 500 until the results are loaded, and also when the loaded document is JSON null; otherwise the document |
| Controllers.GetSummary | backend/controllers.py:128-133 | 500 until the results are loaded; once loaded it succeeds exactly when the document has every summarised part, and is then found with the manager's summary as its data |
| Controllers.GetModelResults | backend/controllers.py:135-146 | an unknown variant is a 400 before the manager is asked; 500 until loaded; otherwise the variant's entry, or the exception reaching it raises |
| Controllers.ListVisualizations | backend/controllers.py:155-168 | a listing as `list_all` gives it with the base URL, or that call's exception reported with code 500 |
| Controllers.VisualizationList.AsDict | backend/controllers.py:159-168 | a listing is `valid: true` with the listing and the base URL, a failure its error and code (a definition) |
| Controllers.GetImage | backend/controllers.py:170-190 | an unknown category is a 400, a missing file a 404 naming it, and otherwise the joined path |
| Controllers.ImageLookup.AsDict | backend/controllers.py:174-190 | a found image is `valid: true` with its path, a failure its error and code (a definition) |
| Controllers.GetHealthStatus | backend/controllers.py:200-217 | healthy exactly when the model and the results are both loaded; the accuracy is N/A, without a lookup, until the results are loaded, and otherwise the formatted minimal-model accuracy |
| Controllers.HealthStatus.AsDict | backend/controllers.py:209-217 | the health dict: the status, then the model description with the loaded flag, the type, the feature count and the accuracy text (a definition) |
| Views.Success | backend/views.py:12-14 | the body is the data and the status 200 |
| Views.ErrorBody | backend/views.py:17-25 | status 'error', then the message, then the details exactly when they are truthy |
| Views.Error | backend/views.py:17-25 | the given code is the status and the body is the error body |
| Views.PredictionSuccess | backend/views.py:56-64 | exactly four keys, prediction, confidence, probabilities and model_info, each copied from its input; a result lacking one of the first three raises |
| Views.PredictionErrorRestEntries | backend/views.py:69-71 | after popping, neither `code` nor `error` is left and every other entry is, unchanged |
| Views.PredictionErrorRest | backend/views.py:69-71 | what `render_error` leaves of the error dict after popping `code` and `error` (a definition; `PredictionErrorRestEntries` states it) |
| Views.PredictionError | backend/views.py:67-71 | the dict's `code` (400 when absent) is the status and its `error` ('Prediction failed' when absent) the message; what remains is the details, present exactly when something remains |
| Views.RenderPredictionError | backend/views.py:67-71 | the caller's dict, with distinct keys, loses `code` and `error` in place and keeps distinct keys, and the response is `PredictionError` of the dict as it was |
| Views.ResultsError | backend/views.py:83-87 | status from `code` (default 500), message from `error` (default 'Error fetching results'), no details |
| Views.VisualizationError | backend/views.py:108-112 | status from `code` (default 404), message from `error` (default 'Visualization not found'), no details |
| Views.VisualizationListing | backend/views.py:94-100 | status 'success' first, then the listing and the base URL copied from the dict; a dict lacking either raises |
| Views.RenderFeatures | backend/views.py:46-49 | the caller's dict, with distinct keys, gains `accuracy`, with every other key unchanged and the keys still distinct, and is the response; a formatting exception leaves the dict as it was |
| Endpoints.PredictRoute | backend/routes.py:51-67 | a refused request goes to the prediction error view; an answer succeeds exactly when the minimal accuracy can be looked up and formatted, and then has status 200 and a body of exactly the answer's prediction, confidence and probabilities followed by the model description, whose accuracy is the formatted minimal accuracy with a percent sign |
| Endpoints.ModelInfo | backend/routes.py:61-65 | the model description of a prediction answer: type `ultra_minimal`, 7 features used, and the accuracy text (a definition) |
| Endpoints.AnswerHasFields | backend/views.py:58-61 | an answer's dict holds the prediction, the confidence and the probabilities the success view copies |
| Endpoints.RejectionDictOpens | backend/controllers.py:43-45 | every rejection dict starts with `valid: false` and the message under `error` |
| Endpoints.RejectionDictCloses | backend/controllers.py:46-112 | every rejection dict ends with its only `code` entry |
| Endpoints.ShapedErrorResponse | backend/views.py:67-71 | on a dict shaped like that, the status is the code and the message the message, and the opening entry survives into the details |
| Endpoints.RejectionResponse | backend/routes.py:57-58 | a refused request is answered with the rejection's code and message, and with details that always hold `valid: false` |
| Endpoints.MissingReportedFirst | backend/routes.py:51-58 | a request that lacks features is a 400 built from the missing-features rejection, whatever else it carries |
| Endpoints.ModelResultsRoute | backend/routes.py:89-95 | a failed lookup is answered with its code as the status and a body of status 'error' and its message, a found entry is sent as it is, and an exception while looking up raises |
| Endpoints.UnknownVariantIs400 | backend/routes.py:89-95 | an unknown variant is a 400 whatever state the results are in |
| Endpoints.VisualizationListRoute | backend/routes.py:101-107 | a failed listing is answered with its code as the status and a body of status 'error' and its message; a listing with status 200, status 'success', the listing and the base URL |
| Endpoints.HealthRoute | backend/routes.py:34-38 | the health controller's dict is the body, with status 200, and reads 'healthy' exactly when both managers are loaded; the route raises exactly when the controller does |

## Left out

- The training itself is not modelled: the pipelines, fitting,
  evaluation, the writing of the results document and pickling
  (model/model.py outside the feature lists and `identify_feature_types`).
  These are library calls. The estimator is an opaque pair of functions
  that may raise.
- Plotting (model/generate_graphs.py and the chart code in
  model/model.py) is numeric presentation code.
- Floating-point rounding and formatting are the parameters `round2` and
  `fixed2`; IEEE behaviour is not modelled.
- Controllers.ConfidenceIsLargerProbability: proved only for a monotone
  `round2`, which Python's `round(_, 2)` is.
- The web framework is not modelled: Flask, route registration, CORS,
  `jsonify` and JSON request parsing. A request body is a dict or absent.
  A JSON body that is an array or a scalar is not modelled.
- Controllers.ValidateInput: the falsy bodies it refuses as 'No input data
  provided' are only the absent and the empty dict. Other falsy JSON
  values are not request bodies in this model.
- Sending an image file (`APIResponse.image`,
  `VisualizationView.render_image`, the image route) is not modelled;
  `send_file` is framework I/O.
- The two trivial success views, `HealthView.render` and
  `ResultsView.render_success`, are `Views.Success` where they are used.
- The `/features` route, and the results routes for the whole document
  and the summary, are not composed in `Endpoints`. Each is a controller
  followed by `Views.Success` or `Views.ResultsError`, and
  `Endpoints.ModelResultsRoute` shows that shape.
- Startup (backend/app_mvc.py) is not modelled: creating and loading the
  managers, printing, and registering the routes only when all three
  managers exist. Because results that fail to load stop the routes from
  being registered, the unguarded accuracy format of the prediction route
  never meets an unloaded document in a running service. The model keeps
  the route on its own, where it raises.
- Configuration paths (backend/config.py), the process settings of
  backend/gunicorn.conf.py, concurrency and the frontend are not
  modelled.
- Exception messages of library errors (KeyError, IndexError, the
  not-a-directory error) are fixed placeholder texts. Only whether an
  exception is raised, and that it passes through unchanged, is modelled.
- The results document is a JSON value of any shape. The schema written
  by model/model.py is not reconciled with the one backend/models.py
  reads.
- Models.Join: `os.path.join` follows POSIX, with an absolute second part
  replacing the first; paths are not normalised.
- Models.VisualizationManager.ListAll: requires the categories to be
  distinct, as a dict's keys are. The backend's four are
  (`NewVisualizationManager`).
- Controllers.Predict: the feature list is the parameter `required`.
  The backend's is `Controllers.MinimalFeatures`, and the route lemmas
  hold for every list. The hint texts of the rejection dicts name seven
  features whatever the list.

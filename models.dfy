/** The backend's model layer: the manager of the trained estimator, the
    manager of the training-results document, and the manager of the
    report images on disk. */
module Models {
  import opened Values
  import opened Seqs

  // ---------------------------------------------------------------------
  // The estimator
  // ---------------------------------------------------------------------

  /** One row of a data frame: column names, in column order, with values. */
  type Row = Fields

  /** An unpickled scikit-learn pipeline, seen only through the two calls
      the backend makes on it. Each may raise. */
  datatype Estimator = Estimator(
    predict: Row -> Result<seq<int>>,
    predictProba: Row -> Result<seq<seq<real>>>)

  /** What `ModelManager.predict` returns: the class flag and the
      probabilities of class 0 ("no") and class 1 ("yes"). */
  datatype RawPrediction = RawPrediction(prediction: int, no: real, yes: real)

  /** The first prediction and the first probability row of a one-row frame.
      `predict` is called before `predict_proba`; indexing an empty answer
      raises. */
  function EstimatorPredict(e: Estimator, row: Row): (r: Result<RawPrediction>)
    ensures e.predict(row).Raise? ==> r == Raise(e.predict(row).exc)
    ensures r.Ok? <==>
      && e.predict(row).Ok? && |e.predict(row).value| > 0
      && e.predictProba(row).Ok? && |e.predictProba(row).value| > 0
      && |e.predictProba(row).value[0]| >= 2
    ensures r.Ok? ==>
      && r.value.prediction == e.predict(row).value[0]
      && r.value.no == e.predictProba(row).value[0][0]
      && r.value.yes == e.predictProba(row).value[0][1]
  {
    var labels :- e.predict(row);
    if |labels| == 0 then Raise("index 0 is out of bounds for axis 0 with size 0")
    else
      var probs :- e.predictProba(row);
      if |probs| == 0 then Raise("index 0 is out of bounds for axis 0 with size 0")
      else if |probs[0]| < 2 then Raise("index 1 is out of bounds for axis 0 with size 1")
      else Ok(RawPrediction(labels[0], probs[0][0], probs[0][1]))
  }

  /** Holds the estimator once it has been loaded. */
  class ModelManager {
    const modelPath: string
    /** The unpickled object; `None` also when the pickle held Python None. */
    var model: Option<Estimator>
    var loaded: bool

    constructor (modelPath: string)
      ensures this.modelPath == modelPath
      ensures model == None && !loaded
    {
      this.modelPath := modelPath;
      model := None;
      loaded := false;
    }

    /** `load_model`. `artifact` is what opening and unpickling the file at
        `modelPath` gives: the object, or the exception raised. A failed
        load changes nothing. */
    method LoadModel(artifact: Result<Option<Estimator>>) returns (ok: bool)
      modifies this
      ensures ok == artifact.Ok?
      ensures ok ==> model == artifact.value && loaded
      ensures !ok ==> model == old(model) && loaded == old(loaded)
    {
      match artifact
      case Raise(_) =>
        ok := false;
      case Ok(m) =>
        model := m;
        loaded := true;
        ok := true;
    }

    /** `predict`: refuses with "Model not loaded" unless a model is loaded,
        and otherwise answers what the estimator answers for the row. */
    function Predict(row: Row): (r: Result<RawPrediction>)
      reads this
      ensures !loaded || model.None? ==> r == Raise("Model not loaded")
      ensures loaded && model.Some? ==> r == EstimatorPredict(model.value, row)
    {
      if !loaded || model.None? then Raise("Model not loaded")
      else EstimatorPredict(model.value, row)
    }
  }

  // ---------------------------------------------------------------------
  // The training results
  // ---------------------------------------------------------------------

  /** The model variants the results document describes. */
  function Variants(): (vs: seq<string>)
    ensures |vs| == 3 && NoDuplicates(vs)
  {
    ["full", "reduced", "minimal"]
  }

  /** The document has the three figures `get_summary` reports for a variant. */
  predicate HasVariantFigures(doc: Json, variant: string) {
    && Path(doc, ["models", variant, "num_features"]).Ok?
    && Path(doc, ["models", variant, "test_accuracy"]).Ok?
    && Path(doc, ["models", variant, "training_time"]).Ok?
  }

  /** The document has everything `get_summary` reads. */
  predicate HasSummaryFields(doc: Json) {
    && Path(doc, ["training_date"]).Ok?
    && Path(doc, ["dataset_info"]).Ok?
    && HasVariantFigures(doc, "full")
    && HasVariantFigures(doc, "reduced")
    && HasVariantFigures(doc, "minimal")
    && Path(doc, ["comparison"]).Ok?
  }

  /** The summary entry of one variant. */
  function VariantSummary(doc: Json, variant: string): (r: Result<Json>)
    ensures r.Ok? <==> HasVariantFigures(doc, variant)
    ensures r.Ok? ==> r.value == Obj([
      ("features", Path(doc, ["models", variant, "num_features"]).value),
      ("test_accuracy", Path(doc, ["models", variant, "test_accuracy"]).value),
      ("training_time", Path(doc, ["models", variant, "training_time"]).value)])
  {
    var features :- Path(doc, ["models", variant, "num_features"]);
    var accuracy :- Path(doc, ["models", variant, "test_accuracy"]);
    var time :- Path(doc, ["models", variant, "training_time"]);
    Ok(Obj([("features", features), ("test_accuracy", accuracy), ("training_time", time)]))
  }

  /** Holds the training-results document once it has been loaded. */
  class ResultsManager {
    const resultsPath: string
    /** The decoded document; `Null` (Python None) until a load succeeds. */
    var results: Json
    var loaded: bool

    constructor (resultsPath: string)
      ensures this.resultsPath == resultsPath
      ensures results == Null && !loaded
    {
      this.resultsPath := resultsPath;
      results := Null;
      loaded := false;
    }

    /** `load_results`. `document` is what reading and decoding the file at
        `resultsPath` gives. A failed load changes nothing. */
    method LoadResults(document: Result<Json>) returns (ok: bool)
      modifies this
      ensures ok == document.Ok?
      ensures ok ==> results == document.value && loaded
      ensures !ok ==> results == old(results) && loaded == old(loaded)
    {
      match document
      case Raise(_) =>
        ok := false;
      case Ok(d) =>
        results := d;
        loaded := true;
        ok := true;
    }

    /** `get_all_results`: None until loaded, then the whole document. */
    function GetAllResults(): (r: Json)
      reads this
      ensures !loaded ==> r == Null
      ensures loaded ==> r == results
    {
      if !loaded then Null else results
    }

    /** `get_summary`: None until loaded; then the date, the dataset
        description, three figures per variant and the comparison, with a
        KeyError for the first of them the document lacks. */
    function GetSummary(): (r: Result<Json>)
      reads this
      ensures !loaded ==> r == Ok(Null)
      ensures loaded ==>
        (r.Ok? <==> HasSummaryFields(results))
      ensures loaded && r.Ok? ==>
        && r.value.Obj? && |r.value.fields| == 4
        && r.value.fields[0] == ("training_date", Path(results, ["training_date"]).value)
        && r.value.fields[1] == ("dataset_info", Path(results, ["dataset_info"]).value)
        && r.value.fields[2] == ("models_summary", Obj([
             ("full", VariantSummary(results, "full").value),
             ("reduced", VariantSummary(results, "reduced").value),
             ("minimal", VariantSummary(results, "minimal").value)]))
        && r.value.fields[3] == ("comparison", Path(results, ["comparison"]).value)
    {
      if !loaded then Ok(Null)
      else
        var date :- Path(results, ["training_date"]);
        var info :- Path(results, ["dataset_info"]);
        var full :- VariantSummary(results, "full");
        var reduced :- VariantSummary(results, "reduced");
        var minimal :- VariantSummary(results, "minimal");
        var comparison :- Path(results, ["comparison"]);
        Ok(Obj([("training_date", date), ("dataset_info", info),
                ("models_summary", Obj([("full", full), ("reduced", reduced), ("minimal", minimal)])),
                ("comparison", comparison)]))
    }

    /** `get_model_results`: None until loaded and for any name that is not
        a variant; otherwise the variant's entry as the document has it. */
    function GetModelResults(modelType: string): (r: Result<Json>)
      reads this
      ensures !loaded || modelType !in Variants() ==> r == Ok(Null)
      ensures loaded && modelType in Variants() ==> r == Path(results, ["models", modelType])
    {
      if !loaded then Ok(Null)
      else if modelType !in Variants() then Ok(Null)
      else Path(results, ["models", modelType])
    }

    /** `get_dataset_info` */
    function GetDatasetInfo(): (r: Result<Json>)
      reads this
      ensures !loaded ==> r == Ok(Null)
      ensures loaded ==> r == Path(results, ["dataset_info"])
    {
      if !loaded then Ok(Null) else Path(results, ["dataset_info"])
    }

    /** `get_model_accuracy`: None until loaded; unlike `get_model_results`
        it does not check the variant name: any name is looked up, and one
        the document lacks raises. */
    function GetModelAccuracy(modelType: string): (r: Result<Json>)
      reads this
      ensures !loaded ==> r == Ok(Null)
      ensures loaded ==> r == Path(results, ["models", modelType, "test_accuracy"])
    {
      if !loaded then Ok(Null) else Path(results, ["models", modelType, "test_accuracy"])
    }
  }

  /** Where the document has a variant's three figures, as it must for a
      summary to be built, the variant's accuracy in the summary is the one
      `get_model_accuracy` reports, and also the `test_accuracy` of the
      entry `get_model_results` returns. */
  lemma SummaryAgreesWithQueries(rm: ResultsManager, variant: string)
    requires rm.loaded && HasVariantFigures(rm.results, variant) && variant in Variants()
    ensures rm.GetModelAccuracy(variant).Ok?
    ensures VariantSummary(rm.results, variant).Ok? &&
      Index(VariantSummary(rm.results, variant).value, "test_accuracy") == rm.GetModelAccuracy(variant)
    ensures rm.GetModelResults(variant).Ok? &&
      Index(rm.GetModelResults(variant).value, "test_accuracy") == rm.GetModelAccuracy(variant)
  {
    var doc := rm.results;
    PathAppend(doc, ["models", variant], "test_accuracy");
    assert ["models", variant] + ["test_accuracy"] == ["models", variant, "test_accuracy"];
    GetFirst(VariantSummary(doc, variant).value.fields, 1);
  }

  /** Indexing the `models_summary` dict by a variant name. */
  lemma FigureLookup(figures: Json, full: Json, reduced: Json, minimal: Json, variant: string)
    requires figures == Obj([("full", full), ("reduced", reduced), ("minimal", minimal)])
    requires variant in Variants()
    ensures Index(figures, variant) ==
      Ok(if variant == "full" then full else if variant == "reduced" then reduced else minimal)
  {
    if variant == "full" {
      GetFirst(figures.fields, 0);
    } else if variant == "reduced" {
      GetFirst(figures.fields, 1);
    } else {
      GetFirst(figures.fields, 2);
    }
  }

  /** Indexing the dict `get_summary` builds by "models_summary". */
  lemma SummaryLookup(summary: Json, figures: Json)
    requires summary.Obj? && |summary.fields| == 4
    requires summary.fields[0].0 == "training_date" && summary.fields[1].0 == "dataset_info"
    requires summary.fields[2] == ("models_summary", figures)
    ensures Index(summary, "models_summary") == Ok(figures)
  {
    GetFirst(summary.fields, 2);
  }

  /** Following "models_summary", a variant and a key through a dict shaped
      like `get_summary`'s reaches that key of the variant's entry. */
  lemma SummaryPath(summary: Json, full: Json, reduced: Json, minimal: Json, variant: string, key: string)
    requires summary.Obj? && |summary.fields| == 4
    requires summary.fields[0].0 == "training_date" && summary.fields[1].0 == "dataset_info"
    requires summary.fields[2] == ("models_summary", Obj([("full", full), ("reduced", reduced), ("minimal", minimal)]))
    requires variant in Variants()
    ensures Path(summary, ["models_summary", variant, key]) ==
      Index(if variant == "full" then full else if variant == "reduced" then reduced else minimal, key)
  {
    var figures := summary.fields[2].1;
    var entry := if variant == "full" then full else if variant == "reduced" then reduced else minimal;
    SummaryLookup(summary, figures);
    FigureLookup(figures, full, reduced, minimal, variant);
    calc {
      Path(summary, ["models_summary", variant, key]);
      { assert ["models_summary", variant, key][1..] == [variant, key]; }
      Path(figures, [variant, key]);
      { assert [variant, key][1..] == [key]; }
      Path(entry, [key]);
      { assert [key][1..] == []; }
      Index(entry, key);
    }
  }

  /** The accuracy `get_summary` reports for a variant, read back out of the
      dict it returns, is the one `get_model_accuracy` reports. */
  lemma SummaryReportsAccuracy(rm: ResultsManager, variant: string)
    requires rm.loaded && HasSummaryFields(rm.results) && variant in Variants()
    ensures rm.GetSummary().Ok?
    ensures Path(rm.GetSummary().value, ["models_summary", variant, "test_accuracy"]) == rm.GetModelAccuracy(variant)
  {
    var doc := rm.results;
    SummaryAgreesWithQueries(rm, variant);
    SummaryPath(rm.GetSummary().value, VariantSummary(doc, "full").value, VariantSummary(doc, "reduced").value,
                VariantSummary(doc, "minimal").value, variant, "test_accuracy");
  }

  // ---------------------------------------------------------------------
  // The report images
  // ---------------------------------------------------------------------

  /** The part of the filesystem the backend looks at: each directory with
      its entries (in `os.listdir` order), and the paths of regular files. */
  datatype FileSystem = FileSystem(dirs: map<string, seq<string>>, files: set<string>)

  /** `os.path.exists` */
  predicate Exists(fs: FileSystem, path: string) {
    path in fs.dirs || path in fs.files
  }

  /** `os.path.join(a, b)` on POSIX. */
  function Join(a: string, b: string): (r: string)
    ensures EndsWith(r, b)
    ensures |b| > 0 && b[0] == '/' ==> r == b
    ensures (|b| == 0 || b[0] != '/') ==> |a| <= |r| && r[..|a|] == a
  {
    if |b| > 0 && b[0] == '/' then b
    else if a == "" || a[|a| - 1] == '/' then a + b
    else a + "/" + b
  }

  /** `s.endswith(suffix)` */
  predicate EndsWith(s: string, suffix: string)
    ensures EndsWith(s, suffix) ==> |suffix| <= |s| && s == s[..|s| - |suffix|] + suffix
  {
    |suffix| <= |s| && s[|s| - |suffix|..] == suffix
  }

  /** The report image categories, in the order they are listed. */
  function Categories(): (cs: seq<string>)
    ensures |cs| == 4 && NoDuplicates(cs)
  {
    ["comparison", "full", "reduced", "minimal"]
  }

  /** The `.png` entries of a directory listing, in listing order. */
  function PngFiles(entries: seq<string>): (r: seq<string>)
    ensures forall e :: e in r <==> e in entries && EndsWith(e, ".png")
    ensures IsSubsequence(r, entries)
    ensures NoDuplicates(entries) ==> NoDuplicates(r)
  {
    FilterNoDuplicates(e => EndsWith(e, ".png"), entries);
    FilterIsSubsequence(e => EndsWith(e, ".png"), entries);
    Filter(e => EndsWith(e, ".png"), entries)
  }

  /** What `list_all` records for one category directory: nothing when it
      does not exist, its `.png` entries when it is a directory, and the
      exception `os.listdir` raises when it is a file. */
  function CategoryListing(fs: FileSystem, dir: string): (r: Result<seq<string>>)
    ensures !Exists(fs, dir) ==> r == Ok([])
    ensures dir in fs.dirs ==> r == Ok(PngFiles(fs.dirs[dir]))
    ensures r.Raise? <==> dir in fs.files && dir !in fs.dirs
  {
    if !Exists(fs, dir) then Ok([])
    else if dir in fs.dirs then Ok(PngFiles(fs.dirs[dir]))
    else Raise("[Errno 20] Not a directory: '" + dir + "'")
  }

  /** The report images under `imgBasePath`, one directory per category
      of `categories`. */
  datatype VisualizationManager = VisualizationManager(imgBasePath: string, categories: seq<string>) {

    /** The category names are distinct, as the listing's dict keys are. */
    ghost predicate Valid() {
      NoDuplicates(categories)
    }

    /** The category's directory, under the image base path unless the
        category is itself an absolute path. */
    function CategoryDir(category: string): (r: string)
      ensures EndsWith(r, category)
      ensures (|category| == 0 || category[0] != '/') ==> |imgBasePath| <= |r| && r[..|imgBasePath|] == imgBasePath
    {
      Join(imgBasePath, category)
    }

    /** What `list_all` returns (or raises) on `fs`: every category, in
        order, with its listing; or the exception of the first category
        whose listing raises. */
    ghost predicate ListsAs(fs: FileSystem, r: Result<Fields>) {
      match r
      case Ok(listing) =>
        && Keys(listing) == categories
        && (forall c :: c in categories ==>
              CategoryListing(fs, CategoryDir(c)).Ok? &&
              Get(listing, c) == Some(StrList(CategoryListing(fs, CategoryDir(c)).value)))
      case Raise(e) =>
        exists i :: 0 <= i < |categories| &&
          CategoryListing(fs, CategoryDir(categories[i])) == Raise(e) &&
          forall j :: 0 <= j < i ==> CategoryListing(fs, CategoryDir(categories[j])).Ok?
    }

    /** `list_all`: start with an empty list per category, then fill in each
        category whose directory exists. */
    method ListAll(fs: FileSystem) returns (r: Result<Fields>)
      requires Valid()
      ensures ListsAs(fs, r)
    {
      var cats := categories;
      var listing: Fields := [];
      for i := 0 to |cats|
        invariant |listing| == i
        invariant forall j :: 0 <= j < i ==> listing[j] == (cats[j], StrList([]))
      {
        assert cats[i] !in Keys(listing);
        SetItemAppends(listing, cats[i], StrList([]));
        listing := SetItem(listing, cats[i], StrList([]));
      }
      for i := 0 to |cats|
        invariant |listing| == |cats|
        invariant forall j :: 0 <= j < i ==>
          CategoryListing(fs, CategoryDir(cats[j])).Ok? &&
          listing[j] == (cats[j], StrList(CategoryListing(fs, CategoryDir(cats[j])).value))
        invariant forall j :: i <= j < |cats| ==> listing[j] == (cats[j], StrList([]))
      {
        var path := CategoryDir(cats[i]);
        if Exists(fs, path) {
          if path !in fs.dirs {
            r := Raise("[Errno 20] Not a directory: '" + path + "'");
            return;
          }
          assert DistinctKeys(listing);
          SetItemReplaces(listing, i, StrList(PngFiles(fs.dirs[path])));
          listing := SetItem(listing, cats[i], StrList(PngFiles(fs.dirs[path])));
        }
      }
      FilledListing(fs, listing);
      r := Ok(listing);
    }

    /** A listing holding, at each category's position, that category and
        its directory's listing is what `list_all` returns. */
    lemma FilledListing(fs: FileSystem, listing: Fields)
      requires Valid() && |listing| == |categories|
      requires forall j :: 0 <= j < |categories| ==>
        CategoryListing(fs, CategoryDir(categories[j])).Ok? &&
        listing[j] == (categories[j], StrList(CategoryListing(fs, CategoryDir(categories[j])).value))
      ensures ListsAs(fs, Ok(listing))
    {
      assert Keys(listing) == categories;
      forall c | c in categories
        ensures Get(listing, c) == Some(StrList(CategoryListing(fs, CategoryDir(c)).value))
      {
        var j :| 0 <= j < |categories| && categories[j] == c;
        GetEntry(listing, j);
      }
    }

    /** `get_image_path`: the joined path, when the category is known and
        something exists there. */
    function GetImagePath(fs: FileSystem, category: string, filename: string): (r: Option<string>)
      ensures r.Some? <==> category in categories && Exists(fs, Join(CategoryDir(category), filename))
      ensures r.Some? ==> r.value == Join(Join(imgBasePath, category), filename)
    {
      if category !in categories then None
      else
        var path := Join(CategoryDir(category), filename);
        if !Exists(fs, path) then None else Some(path)
    }

    /** `validate_category` */
    function ValidateCategory(category: string): (ok: bool)
      ensures ok <==> category in categories
    {
      category in categories
    }
  }

  /** `VisualizationManager(img_base_path)`: the four report categories. */
  function NewVisualizationManager(imgBasePath: string): (vm: VisualizationManager)
    ensures vm.imgBasePath == imgBasePath && vm.categories == Categories() && vm.Valid()
  {
    VisualizationManager(imgBasePath, Categories())
  }

  /** The backend's manager accepts exactly the four category names. */
  lemma KnownCategories(imgBasePath: string, category: string)
    ensures NewVisualizationManager(imgBasePath).ValidateCategory(category) <==>
      category == "comparison" || category == "full" || category == "reduced" || category == "minimal"
  {
  }
}

/** The part of the training script that is not library glue: the three
    feature sets the Random Forest variants are trained on, and the split of
    a feature list into categorical and numeric columns that decides how
    each column is preprocessed. */
module Training {
  import opened Seqs

  /** The full model: every column left after cleanup, 31 of them. */
  function FullFeatures(): (fs: seq<string>)
    ensures |fs| == 31
  {
    ["Age", "BusinessTravel", "DailyRate", "Department", "DistanceFromHome",
     "Education", "EducationField", "EnvironmentSatisfaction", "Gender",
     "HourlyRate", "JobInvolvement", "JobLevel", "JobRole", "JobSatisfaction",
     "MaritalStatus", "MonthlyIncome", "MonthlyRate", "NumCompaniesWorked",
     "OverTime", "PercentSalaryHike", "PerformanceRating", "RelationshipSatisfaction",
     "StockOptionLevel", "TotalWorkingYears", "TrainingTimesLastYear",
     "WorkLifeBalance", "YearsAtCompany", "YearsInCurrentRole",
     "YearsSinceLastPromotion", "YearsWithCurrManager", "EmployeeNumber"]
  }

  /** The reduced model: 11 features. */
  function ReducedFeatures(): (fs: seq<string>)
    ensures |fs| == 11 && NoDuplicates(fs)
  {
    ["OverTime", "MonthlyIncome", "Age", "YearsAtCompany", "JobLevel",
     "TotalWorkingYears", "StockOptionLevel", "DistanceFromHome",
     "EnvironmentSatisfaction", "YearsInCurrentRole", "YearsWithCurrManager"]
  }

  /** The minimal model, the one the backend serves: 7 features. */
  function MinimalFeatures(): (fs: seq<string>)
    ensures |fs| == 7 && NoDuplicates(fs)
  {
    ["OverTime", "MonthlyIncome", "Age", "TotalWorkingYears",
     "DistanceFromHome", "StockOptionLevel", "EnvironmentSatisfaction"]
  }

  /** The 31 names are pairwise different (proved in slices, to keep each
      proof obligation small). */
  lemma FullFeaturesDistinct()
    ensures NoDuplicates(FullFeatures())
  {
    FirstHalfDistinct();
    SecondHalfDistinct();
    HalvesDistinctFrom(0);
    HalvesDistinctFrom(8);
  }

  lemma FirstHalfDistinct()
    ensures forall i, j :: 0 <= i < j < 16 ==> FullFeatures()[i] != FullFeatures()[j]
  {
  }

  lemma SecondHalfDistinct()
    ensures forall i, j :: 16 <= i < j < 31 ==> FullFeatures()[i] != FullFeatures()[j]
  {
  }

  lemma HalvesDistinctFrom(lo: nat)
    requires lo == 0 || lo == 8
    ensures forall i, j :: lo <= i < lo + 8 && 16 <= j < 31 ==> FullFeatures()[i] != FullFeatures()[j]
  {
  }

  /** Each smaller set is drawn from the larger one. */
  lemma FeatureSetsNested()
    ensures forall f :: f in MinimalFeatures() ==> f in ReducedFeatures()
    ensures forall f :: f in ReducedFeatures() ==> f in FullFeatures()
  {
  }

  /** A column is categorical exactly when pandas reports its dtype as
      `object`; every other dtype is treated as numeric. */
  predicate IsCategorical(dtypes: map<string, string>, f: string) {
    f in dtypes && dtypes[f] == "object"
  }

  /** The categorical features, in the order given. */
  function Categorical(features: seq<string>, dtypes: map<string, string>): (cs: seq<string>)
    requires forall f :: f in features ==> f in dtypes
    ensures forall f :: f in cs <==> f in features && dtypes[f] == "object"
    ensures IsSubsequence(cs, features)
  {
    FilterIsSubsequence(f => IsCategorical(dtypes, f), features);
    Filter(f => IsCategorical(dtypes, f), features)
  }

  /** The numeric features, in the order given. */
  function Numeric(features: seq<string>, dtypes: map<string, string>): (ns: seq<string>)
    requires forall f :: f in features ==> f in dtypes
    ensures forall f :: f in ns <==> f in features && dtypes[f] != "object"
    ensures IsSubsequence(ns, features)
  {
    FilterIsSubsequence(f => !IsCategorical(dtypes, f), features);
    Filter(f => !IsCategorical(dtypes, f), features)
  }

  /** `identify_feature_types`: one pass over the features, appending each
      to the categorical or the numeric list. `dtypes` maps the frame's
      columns to their dtype names; looking up a feature that is not a
      column raises, so every feature must be one. */
  method IdentifyFeatureTypes(features: seq<string>, dtypes: map<string, string>)
    returns (categorical: seq<string>, numeric: seq<string>)
    requires forall f :: f in features ==> f in dtypes
    ensures categorical == Categorical(features, dtypes)
    ensures numeric == Numeric(features, dtypes)
  {
    categorical, numeric := [], [];
    for i := 0 to |features|
      invariant categorical == Categorical(features[..i], dtypes)
      invariant numeric == Numeric(features[..i], dtypes)
    {
      var feat := features[i];
      assert features[..i + 1] == features[..i] + [feat];
      FilterSnoc(f => IsCategorical(dtypes, f), features[..i], feat);
      FilterSnoc(f => !IsCategorical(dtypes, f), features[..i], feat);
      if dtypes[feat] == "object" {
        categorical := categorical + [feat];
      } else {
        numeric := numeric + [feat];
      }
    }
    assert features[..|features|] == features;
  }

  /** The two lists split the features between them: every feature lands in
      exactly one of them, as often as it occurs, and no name is in both. */
  lemma FeatureTypesPartition(features: seq<string>, dtypes: map<string, string>)
    requires forall f :: f in features ==> f in dtypes
    ensures multiset(Categorical(features, dtypes)) + multiset(Numeric(features, dtypes)) == multiset(features)
    ensures forall f :: f in Categorical(features, dtypes) ==> f !in Numeric(features, dtypes)
  {
    FilterComplement(f => IsCategorical(dtypes, f), f => !IsCategorical(dtypes, f), features);
  }
}

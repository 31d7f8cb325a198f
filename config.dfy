/**
 * The fixed configuration of the hiring pipeline: the ordered feature schema,
 * the names under which models are registered and the table of decision labels.
 */
module Config {

  /** One input field of the form: its key, its display label and the range hint
      shown beside it (advisory only: nothing checks it). */
  datatype FeatureInfo = FeatureInfo(name: string, caption: string, rangeHint: string)

  const FeaturesInfo: seq<FeatureInfo> := [
    FeatureInfo("experience_years", "Experience (years)", "0 \U{2013} 40"),
    FeatureInfo("test_score", "Test Score", "0 \U{2013} 100"),
    FeatureInfo("interview_score", "Interview Score", "0 \U{2013} 10"),
    FeatureInfo("communication", "Communication Rating", "0 \U{2013} 10")
  ]

  /** The extra classifier feature that carries the regression's output. */
  const PerformanceScore: string := "performance_score"

  /** The regression schema: the feature names, in declaration order. */
  function RegFeatures(): (r: seq<string>)
    ensures |r| == |FeaturesInfo|
    ensures forall i :: 0 <= i < |r| ==> r[i] == FeaturesInfo[i].name
  {
    seq(|FeaturesInfo|, i requires 0 <= i < |FeaturesInfo| => FeaturesInfo[i].name)
  }

  /** The classification schema: the regression schema with the performance
      score appended as its last field. */
  function ClfFeatures(): (r: seq<string>)
    ensures |r| == |RegFeatures()| + 1
    ensures r[..|RegFeatures()|] == RegFeatures()
    ensures r[|RegFeatures()|] == PerformanceScore
  {
    RegFeatures() + [PerformanceScore]
  }

  /** The registry key of the one regression model. */
  const RegressionKey: string := "regression"

  /** The registry keys of the interchangeable classifiers, in loading order. */
  const ClassifierKeys: seq<string> :=
    ["KNN", "Decision Tree", "SVM", "Naive Bayes", "Logistic Regression"]

  /** Every key the loader tries, in the order it tries them. */
  function ModelKeys(): (r: seq<string>)
    ensures |r| == 1 + |ClassifierKeys| && r[0] == RegressionKey && r[1..] == ClassifierKeys
  {
    [RegressionKey] + ClassifierKeys
  }

  /** Classifier output codes that have a name. */
  const HireLabels: map<int, string> := map[0 := "Reject", 1 := "Hold", 2 := "Hire"]

  /** The concrete schemas: four regression fields, five classifier fields. */
  lemma SchemaShape()
    ensures RegFeatures() == ["experience_years", "test_score", "interview_score", "communication"]
    ensures |RegFeatures()| == 4 && |ClfFeatures()| == 5
    ensures ClfFeatures() == RegFeatures() + ["performance_score"]
  {
  }

  /** No two classifier features share a name, so a field name in an error
      identifies one position of either vector. */
  lemma FeatureNamesDistinct(i: nat, j: nat)
    requires i < j < |ClfFeatures()|
    ensures ClfFeatures()[i] != ClfFeatures()[j]
  {
    SchemaShape();
  }

  /** The six model keys are pairwise distinct; in particular the regression
      key is not a classifier key. */
  lemma ModelKeysDistinct(i: nat, j: nat)
    requires i < j < |ModelKeys()|
    ensures ModelKeys()[i] != ModelKeys()[j]
  {
  }
}

/**
 * Worked evaluations with stub models.
 */
module Scenarios {
  import opened Wrappers
  import opened Config
  import opened Errors
  import opened Registry
  import opened Text
  import opened Validation
  import opened Pipeline

  /** A stand-in for `float()` that knows the handful of numerals used below. */
  function StubParse(s: string): Option<real> {
    if s == "5" then Some(5.0)
    else if s == "80" then Some(80.0)
    else if s == "7" then Some(7.0)
    else if s == "8" then Some(8.0)
    else None
  }

  /** A stand-in for `str()` on the classifier's output. */
  function StubShow(x: real): string {
    if x == 9.0 then "9" else "?"
  }

  /** A regression stub scoring the sample candidate 72.5. */
  function StubRegression(x: seq<real>): real {
    if x == [5.0, 80.0, 7.0, 8.0] then 72.5 else 0.0
  }

  /** The registry with the regression stub and a "Decision Tree" that
      answers `code` for the sample candidate with its score appended. */
  function StubRegistry(code: real): map<string, Predictor> {
    map[RegressionKey := StubRegression,
        "Decision Tree" := (x: seq<real>) => if x == [5.0, 80.0, 7.0, 8.0, 72.5] then code else 0.0]
  }

  const Sample: seq<string> := ["5", "80", "7", "8"]

  /** The sample form validates to the vector 5, 80, 7, 8. */
  lemma SampleValidates()
    ensures Validate(RegFeatures(), Sample, StubParse) == Ok([5.0, 80.0, 7.0, 8.0])
  {
    SchemaShape();
    assert Strip("5") == "5" && Strip("80") == "80" && Strip("7") == "7" && Strip("8") == "8";
    ValidateOk(RegFeatures(), Sample, StubParse);
    var v := Validate(RegFeatures(), Sample, StubParse).value;
    assert v == [5.0, 80.0, 7.0, 8.0];
  }

  /** The sample candidate with class code 2 is hired, scored 72.5. */
  lemma SampleIsHired()
    ensures Evaluate(Sample, "Decision Tree", StubRegistry(2.0), StubParse, StubShow)
      == Ok(Prediction(72.5, "Hire", "Decision Tree"))
  {
    SampleValidates();
  }

  /** An unmapped class code is reported by its own text, not as an error. */
  lemma UnmappedCodeShownAsText()
    ensures Evaluate(Sample, "Decision Tree", StubRegistry(9.0), StubParse, StubShow)
      == Ok(Prediction(72.5, "9", "Decision Tree"))
  {
    SampleValidates();
  }

  /** `int()` truncates toward zero, so a prediction of -0.5 is code 0. */
  lemma NegativeFractionIsReject()
    ensures Evaluate(Sample, "Decision Tree", StubRegistry(-0.5), StubParse, StubShow)
      == Ok(Prediction(72.5, "Reject", "Decision Tree"))
  {
    SampleValidates();
  }

  /** A whitespace-only interview score is a missing value, and it is reported
      even with no model loaded at all. */
  lemma BlankInterviewScoreIsMissing()
    ensures Evaluate(["5", "80", " \t", "8"], "Decision Tree", map[], StubParse, StubShow)
      == Err(MissingValue("interview_score"))
  {
    SchemaShape();
  }

  /** Fields are checked in order: a non-numeric first field is reported
      although a later one is blank. */
  lemma EarlierInvalidFieldWins()
    ensures Evaluate(["abc", "80", "", "8"], "Decision Tree", StubRegistry(2.0), StubParse, StubShow)
      == Err(NotNumeric("experience_years"))
  {
    SchemaShape();
  }

  /** A selected classifier that did not load is named in the error. */
  lemma UnloadedClassifierIsNamed()
    ensures Evaluate(Sample, "SVM", StubRegistry(2.0), StubParse, StubShow)
      == Err(ClassifierNotLoaded("SVM"))
  {
    SampleValidates();
  }
}

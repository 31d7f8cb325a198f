/** The errors that stop an evaluation, and the text each one is raised with. */
module Errors {

  datatype Error =
    | MissingValue(field: string)       // a field was blank after stripping
    | NotNumeric(field: string)         // a field did not parse as a number
    | RegressionNotLoaded               // no regression model in the registry
    | ClassifierNotLoaded(model: string) // the selected classifier is not in the registry

  /** The message each error is raised with (what `str(e)` yields). Each
      message carries the offending field or model name at a fixed place.
      The two model errors can share a text: a classifier named "Regression"
      reads like the regression error, which the offered classifier names
      never are. */
  function Message(e: Error): (m: string)
    ensures e.MissingValue? ==> |m| == 28 + |e.field| && m[26..26 + |e.field|] == e.field
    ensures e.NotNumeric? ==> |m| == 27 + |e.field| && m[1..1 + |e.field|] == e.field
    ensures e.ClassifierNotLoaded? ==> |m| == 18 + |e.model| && m[..|e.model|] == e.model
  {
    match e
    case MissingValue(f) => "Please enter a value for '" + f + "'."
    case NotNumeric(f) => "'" + f + "' must be a numeric value."
    case RegressionNotLoaded => "Regression model not loaded."
    case ClassifierNotLoaded(m) => m + " model not loaded."
  }

  /** A validation message tells the two kinds apart and names exactly one
      field. This holds of validation errors only: `Message` gives
      `ClassifierNotLoaded("Regression")` and `RegressionNotLoaded` the same
      text. */
  lemma MessageIdentifiesField(e1: Error, e2: Error)
    requires e1.MissingValue? || e1.NotNumeric?
    requires e2.MissingValue? || e2.NotNumeric?
    requires Message(e1) == Message(e2)
    ensures e1 == e2
  {
    var m := Message(e1);
    assert m[0] == (if e1.MissingValue? then 'P' else '\'');
    assert Message(e2)[0] == (if e2.MissingValue? then 'P' else '\'');
    if e1.MissingValue? && e2.MissingValue? {
      var p := "Please enter a value for '";
      assert m[|p|..|m| - 2] == e1.field;
      assert m[|p|..|m| - 2] == e2.field;
    } else if e1.NotNumeric? && e2.NotNumeric? {
      var q := "' must be a numeric value.";
      assert m[1..|m| - |q|] == e1.field;
      assert m[1..|m| - |q|] == e2.field;
    }
  }
}

/**
 * The prediction orchestrator behind "Evaluate Candidate": validate the form,
 * run the regression, append its score to the features, run the selected
 * classifier and name its decision.
 */
module Pipeline {
  import opened Wrappers
  import opened Text
  import opened Config
  import opened Errors
  import opened Registry
  import opened Validation

  /** Python's `int()` on a number: truncation toward zero. */
  function Truncate(x: real): (n: int)
    ensures 0.0 <= x ==> n as real <= x < n as real + 1.0
    ensures x < 0.0 ==> n as real - 1.0 < x <= n as real
  {
    if x >= 0.0 then x.Floor else -((-x).Floor)
  }

  /** Truncation is the only integer within distance one of `x` on the side
      of zero, so the contract above determines it. */
  lemma TruncateUnique(x: real, n: int)
    requires 0.0 <= x ==> n as real <= x < n as real + 1.0
    requires x < 0.0 ==> n as real - 1.0 < x <= n as real
    ensures n == Truncate(x)
  {
  }

  /** `HIRE_LABELS.get(int(pred), str(pred))`; `show` stands for `str()`. */
  function HireLabel(pred: real, show: real -> string): (decision: string)
    ensures decision in HireLabels.Values || decision == show(pred)
    ensures Truncate(pred) in HireLabels <==> -1.0 < pred < 3.0
  {
    var code := Truncate(pred);
    if code in HireLabels then HireLabels[code] else show(pred)
  }

  /** The label in terms of the raw prediction: truncation sends everything
      strictly between -1 and 1 to "Reject", [1, 2) to "Hold", [2, 3) to
      "Hire", and the rest falls back to the prediction's own text. */
  lemma HireLabelCases(pred: real, show: real -> string)
    ensures -1.0 < pred < 1.0 ==> HireLabel(pred, show) == "Reject"
    ensures 1.0 <= pred < 2.0 ==> HireLabel(pred, show) == "Hold"
    ensures 2.0 <= pred < 3.0 ==> HireLabel(pred, show) == "Hire"
    ensures pred <= -1.0 || 3.0 <= pred ==> HireLabel(pred, show) == show(pred)
  {
    var code := Truncate(pred);
    if pred <= -1.0 || 3.0 <= pred {
      assert code !in HireLabels;
    }
  }

  /** The classifier's input: the regression vector with the score appended. */
  function ClassifierInput(xReg: seq<real>, perf: real): (xClf: seq<real>)
    ensures |xClf| == |xReg| + 1
    ensures xClf[..|xReg|] == xReg && xClf[|xReg|] == perf
  {
    xReg + [perf]
  }

  /** The classifier vector lines up with the classification schema: position
      `i` holds regression field `i`, and the position of "performance_score"
      holds the score. */
  lemma ClassifierInputMatchesSchema(xReg: seq<real>, perf: real, i: nat)
    requires |xReg| == |RegFeatures()| && i < |ClfFeatures()|
    ensures |ClassifierInput(xReg, perf)| == |ClfFeatures()|
    ensures i < |RegFeatures()| ==>
      ClfFeatures()[i] == RegFeatures()[i] && ClassifierInput(xReg, perf)[i] == xReg[i]
    ensures ClfFeatures()[i] == PerformanceScore <==> i == |RegFeatures()|
    ensures ClfFeatures()[i] == PerformanceScore ==> ClassifierInput(xReg, perf)[i] == perf
  {
    var x := ClassifierInput(xReg, perf);
    SchemaShape();
    if i < |RegFeatures()| {
      assert ClfFeatures()[..|RegFeatures()|][i] == ClfFeatures()[i];
      assert x[..|xReg|][i] == x[i];
    }
  }

  /** What a successful evaluation yields: the performance score, the decision
      label and the classifier that produced it. */
  datatype Prediction = Prediction(performance: real, decision: string, model: string)

  /** Reference definition of one evaluation: validation, then the regression
      lookup, then the classifier lookup; the first failure is the result. */
  function Evaluate(entries: seq<string>, modelName: string, registry: map<string, Predictor>,
                    parse: Parser, show: real -> string): (r: Result<Prediction, Error>)
    requires |entries| == |RegFeatures()|
    ensures r.Ok? ==> RegressionKey in registry && modelName in registry && r.value.model == modelName
    ensures r.Err? && (r.error.MissingValue? || r.error.NotNumeric?) ==>
      Validate(RegFeatures(), entries, parse) == Err(r.error)
    ensures r == Err(RegressionNotLoaded) ==> RegressionKey !in registry
    ensures r.Err? && r.error.ClassifierNotLoaded? ==>
      r.error.model == modelName && RegressionKey in registry && modelName !in registry
  {
    match Validate(RegFeatures(), entries, parse)
    case Err(e) => Err(e)
    case Ok(xReg) =>
      if RegressionKey !in registry then Err(RegressionNotLoaded)
      else
        var perf := registry[RegressionKey](xReg);
        if modelName !in registry then Err(ClassifierNotLoaded(modelName))
        else
          var pred := registry[modelName](ClassifierInput(xReg, perf));
          Ok(Prediction(perf, HireLabel(pred, show), modelName))
  }

  /** `evaluate_candidate` without its widgets: the texts of the form's
      entries, the selected model name and the loaded models in; the
      prediction or the error that stopped it out. */
  method EvaluateCandidate(entries: seq<string>, modelName: string, registry: map<string, Predictor>,
                           parse: Parser, show: real -> string) returns (r: Result<Prediction, Error>)
    requires |entries| == |RegFeatures()|
    ensures r == Evaluate(entries, modelName, registry, parse, show)
  {
    var xReg := GetRegFeatures(entries, parse);
    if xReg.Err? {
      return Err(xReg.error);
    }
    if RegressionKey !in registry {
      return Err(RegressionNotLoaded);
    }
    var perf := registry[RegressionKey](xReg.value);
    var xClf := ClassifierInput(xReg.value, perf);
    if modelName !in registry {
      return Err(ClassifierNotLoaded(modelName));
    }
    var pred := registry[modelName](xClf);
    var decision := HireLabel(pred, show);
    r := Ok(Prediction(perf, decision, modelName));
  }

  /** Input errors come first: the first invalid field, in declaration order,
      decides the result, whatever the registry holds and whichever model is
      selected, and whatever the later fields contain. */
  lemma EvaluateFailsAtFirstInvalidField(entries: seq<string>, modelName: string,
                                         registry: map<string, Predictor>, parse: Parser,
                                         show: real -> string, k: nat)
    requires |entries| == |RegFeatures()| && k < |entries|
    requires forall i :: 0 <= i < k ==> FieldValid(entries[i], parse)
    requires !FieldValid(entries[k], parse)
    ensures Strip(entries[k]) == [] ==>
      Evaluate(entries, modelName, registry, parse, show) == Err(MissingValue(RegFeatures()[k]))
    ensures Strip(entries[k]) != [] ==>
      Evaluate(entries, modelName, registry, parse, show) == Err(NotNumeric(RegFeatures()[k]))
  {
    ValidateFirstError(RegFeatures(), entries, parse, k);
  }

  /** Every input error names a field whose text is invalid, and all fields
      before it are valid. */
  lemma EvaluateInputErrorNamesFirstInvalidField(entries: seq<string>, modelName: string,
                                                 registry: map<string, Predictor>, parse: Parser,
                                                 show: real -> string)
    returns (k: nat)
    requires |entries| == |RegFeatures()|
    requires Evaluate(entries, modelName, registry, parse, show).Err?
    requires (Evaluate(entries, modelName, registry, parse, show).error.MissingValue? ||
              Evaluate(entries, modelName, registry, parse, show).error.NotNumeric?)
    ensures k < |entries| && !FieldValid(entries[k], parse)
    ensures forall i :: 0 <= i < k ==> FieldValid(entries[i], parse)
    ensures Evaluate(entries, modelName, registry, parse, show) ==
      Err(if Strip(entries[k]) == [] then MissingValue(RegFeatures()[k]) else NotNumeric(RegFeatures()[k]))
  {
    ValidateOk(RegFeatures(), entries, parse);
    if Validate(RegFeatures(), entries, parse).Ok? {
      assert false;
    }
    k := ValidateErrorAtFirstInvalid(RegFeatures(), entries, parse);
  }

  /** With valid input and no regression model, evaluation fails for the
      regression before any classifier is looked up. */
  lemma EvaluateNeedsRegression(entries: seq<string>, modelName: string,
                                registry: map<string, Predictor>, parse: Parser, show: real -> string)
    requires |entries| == |RegFeatures()|
    requires forall i :: 0 <= i < |entries| ==> FieldValid(entries[i], parse)
    requires RegressionKey !in registry
    ensures Evaluate(entries, modelName, registry, parse, show) == Err(RegressionNotLoaded)
  {
    ValidateOk(RegFeatures(), entries, parse);
  }

  /** With valid input and a regression model, a selected name that is not
      registered fails naming that model. */
  lemma EvaluateNeedsClassifier(entries: seq<string>, modelName: string,
                                registry: map<string, Predictor>, parse: Parser, show: real -> string)
    requires |entries| == |RegFeatures()|
    requires forall i :: 0 <= i < |entries| ==> FieldValid(entries[i], parse)
    requires RegressionKey in registry && modelName !in registry
    ensures Evaluate(entries, modelName, registry, parse, show) == Err(ClassifierNotLoaded(modelName))
  {
    ValidateOk(RegFeatures(), entries, parse);
  }

  /** Evaluation succeeds exactly when every field is valid and both models are
      registered. The score is the regression's output on the parsed fields,
      in order; the classifier sees those fields followed by that very score;
      the label is its prediction's label. */
  lemma EvaluateSucceeds(entries: seq<string>, modelName: string,
                         registry: map<string, Predictor>, parse: Parser, show: real -> string)
    requires |entries| == |RegFeatures()|
    ensures Evaluate(entries, modelName, registry, parse, show).Ok? <==>
      (forall i :: 0 <= i < |entries| ==> FieldValid(entries[i], parse)) &&
      RegressionKey in registry && modelName in registry
    ensures Evaluate(entries, modelName, registry, parse, show).Ok? ==>
      exists xReg: seq<real> ::
        && |xReg| == |entries|
        && (forall i :: 0 <= i < |entries| ==> parse(Strip(entries[i])) == Some(xReg[i]))
        && var p := Evaluate(entries, modelName, registry, parse, show).value;
        && p.performance == registry[RegressionKey](xReg)
        && p.decision == HireLabel(registry[modelName](xReg + [p.performance]), show)
        && p.model == modelName
  {
    ValidateOk(RegFeatures(), entries, parse);
  }

  /** A successful label is one of the three names or the fallback text of the
      classifier's prediction on the parsed fields followed by the score. */
  lemma EvaluateLabelRange(entries: seq<string>, modelName: string,
                           registry: map<string, Predictor>, parse: Parser, show: real -> string)
    requires |entries| == |RegFeatures()|
    requires Evaluate(entries, modelName, registry, parse, show).Ok?
    ensures Validate(RegFeatures(), entries, parse).Ok?
    ensures var p := Evaluate(entries, modelName, registry, parse, show).value;
      var x := ClassifierInput(Validate(RegFeatures(), entries, parse).value, p.performance);
      p.decision in {"Reject", "Hold", "Hire"} || p.decision == show(registry[modelName](x))
  {
    var xReg := Validate(RegFeatures(), entries, parse).value;
    var p := Evaluate(entries, modelName, registry, parse, show).value;
    var x := ClassifierInput(xReg, p.performance);
    assert p.decision == HireLabel(registry[modelName](x), show);
  }

  /** With the registry start-up loading produces: valid input fails for the
      regression exactly when its load failed, and a model name outside the
      six configured keys is never available. */
  lemma EvaluateWithLoadedModels(entries: seq<string>, modelName: string, load: Loader,
                                 parse: Parser, show: real -> string)
    requires |entries| == |RegFeatures()|
    requires forall i :: 0 <= i < |entries| ==> FieldValid(entries[i], parse)
    ensures Evaluate(entries, modelName, LoadedRegistry(load), parse, show) == Err(RegressionNotLoaded)
      <==> load(RegressionKey).None?
    ensures load(RegressionKey).Some? && modelName !in ModelKeys() ==>
      Evaluate(entries, modelName, LoadedRegistry(load), parse, show) == Err(ClassifierNotLoaded(modelName))
  {
    ValidateOk(RegFeatures(), entries, parse);
  }
}

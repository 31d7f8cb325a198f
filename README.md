# SmartHiring evaluation pipeline in Dafny

This project models the non-GUI core of the Smart Hiring Assistant (`app.py`). The assistant scores a job candidate in two chained predictions. A regression model predicts a performance score from four numeric features. A classifier then takes those four features plus the predicted score and returns a class code, which is mapped to "Reject", "Hold" or "Hire".

The modules follow the parts of `app.py`:

- `Config` (config.dfy): the feature schema `FEATURES_INFO` and the two name lists derived from it. `REG_FEATURES` holds the four names in declaration order. `CLF_FEATURES` appends `"performance_score"` to it. The module also has the six model keys and the `HIRE_LABELS` table.
- `Text` (text.dfy): Python's `str.strip()`, over exactly the characters `str.isspace()` accepts.
- `Errors` (errors.dfy): the four ways an evaluation can stop, and the message text each one is raised with.
- `Registry` (registry.dfy): the result of loading each model at start-up. Each key is tried on its own, so a key whose load raised is simply absent. Loading is a loop that inserts into a map step by step. It is proved equal to `LoadedRegistry`.
- `Validation` (validation.dfy): `get_reg_features`, written as a loop. It is proved equal to the recursive reference definition `Validate`. Lemmas then characterise success, the first failing field, and the fact that later fields are ignored.
- `Pipeline` (pipeline.dfy): `evaluate_candidate`, written as a method with early error exits. It is proved equal to the reference function `Evaluate`. Lemmas about `Evaluate` state the error ordering: validation first, then the regression lookup, then the classifier lookup. They also state the classifier vector's shape and the label mapping, including Python's truncating `int()`.
- `Scenarios` (scenarios.dfy): worked evaluations with stub models.

Things the core leaves to its environment are parameters:

- A loaded model is an opaque total function `seq<real> -> real`.
- `joblib.load` is a `Loader`: for each key, either the model or `None`.
- `float()` on stripped text is a `Parser`, a partial function `string -> Option<real>`.
- `str()` on the classifier's output is a `real -> string` parameter.

`GetRegFeatures` and `Evaluate` require one entry text per regression feature. This holds in the source because the form creates exactly one entry per element of `FEATURES_INFO` (app.py:121-131).

Validation stops at the first bad field in declaration order, so a non-numeric field before a blank one is reported instead of the blank one (`Scenarios.EarlierInvalidFieldWins`, `Pipeline.EvaluateFailsAtFirstInvalidField`).

## Model

| member | source | states |
|---|---|---|
| `Text.TrimStartIsSuffix` | app.py:216 | left-stripping keeps the longest suffix that does not start with whitespace; everything removed is whitespace |
| `Text.TrimEndIsPrefix` | app.py:216 | right-stripping keeps the longest prefix that does not end with whitespace; everything removed is whitespace |
| `Text.StripIsSlice` | app.py:216 | `strip()` returns a slice `s[i..j]` with only whitespace cut off on either side, and the slice neither starts nor ends with whitespace |
| `Text.StripEmptyIffAllSpace` | app.py:216-218 | a text strips to `""` exactly when it is whitespace only, so whitespace-only input counts as blank |
| `Text.Strip` | app.py:216 | `.strip()`: the result is no longer than the text and neither starts nor ends with whitespace; it is the reference the strip lemmas are about |
| `Text.StripIdempotent` | app.py:216 | stripping stripped text changes nothing |
| `Config.RegFeatures` | app.py:32 | `REG_FEATURES` has one name per entry of `FEATURES_INFO`, in the same order |
| `Config.ClfFeatures` | app.py:33 | `CLF_FEATURES` has `\|REG_FEATURES\| + 1` names; the first ones are `REG_FEATURES` in order and the last is `"performance_score"` |
| `Config.ModelKeys` | app.py:50-55 | the loader tries `"regression"` first, then the five classifier keys in order |
| `Config.SchemaShape` | app.py:9-33 | the concrete schemas: the four feature names in order; five classifier features ending in `"performance_score"` |
| `Config.FeatureNamesDistinct` | app.py:9-33 | no two classifier features share a name, so a field name in an error identifies one field |
| `Config.ModelKeysDistinct` | app.py:35-42 | the six model keys are pairwise distinct; the regression key is not a classifier key |
| `Errors.Message` | app.py:219-243 | the texts raised at app.py:219, 223, 232 and 243; each carries the offending field or model name at a fixed place |
| `Errors.MessageIdentifiesField` | app.py:219-223 | equal validation messages come from the same kind of error and the same field |
| `Registry.LoadedRegistry` | app.py:48-59 | after loading, a key is present exactly when it is one of the six keys and its own load succeeded, and it holds the loaded model |
| `Registry.LoadModels` | app.py:48-59 | the loading loop, with a failed load leaving its key absent without stopping the others, builds exactly `LoadedRegistry` |
| `Validation.FieldValid` | app.py:216-221 | a field passes when its stripped text is non-empty and parses; a whitespace-only field never passes |
| `Validation.CheckField` | app.py:216-223 | one field passes exactly when its stripped text is non-empty and parses, and then yields that parse; a blank field fails as missing and an unparsable one as not numeric, both naming the field |
| `Validation.Validate` | app.py:213-224 | the reference definition of validation that the three lemmas below are about: on success one value per field; on failure a missing or not-numeric error naming one of the fields |
| `Validation.ValidateOk` | app.py:213-224 | validation succeeds exactly when every field is valid; it then yields one value per field, each the parse of that field's stripped text, in order |
| `Validation.ValidateFirstError` | app.py:215-223 | when fields before `k` are valid and field `k` is not, validation fails with field `k`'s error, whatever the later fields hold |
| `Validation.ValidateErrorAtFirstInvalid` | app.py:215-223 | every validation failure is the error of the first invalid field, and all fields before it are valid |
| `Validation.GetRegFeatures` | app.py:213-224 | the loop over the entries returns exactly what the reference validation returns |
| `Pipeline.Truncate` | app.py:246 | `int()` truncates toward zero: the result is within one of the value, on the side of zero |
| `Pipeline.TruncateUnique` | app.py:246 | only one integer meets truncation's contract |
| `Pipeline.HireLabel` | app.py:246 | `HIRE_LABELS.get(int(pred), str(pred))`: the decision is a table label or the prediction's own text, and the table applies exactly when the prediction lies in (-1, 3) |
| `Pipeline.HireLabelCases` | app.py:246 | predictions in (-1, 1) give "Reject", [1, 2) give "Hold", [2, 3) give "Hire"; any other prediction gives its own text, not an error |
| `Pipeline.ClassifierInput` | app.py:238 | the classifier vector is one longer than the regression vector, starts with it, and ends with the score |
| `Pipeline.ClassifierInputMatchesSchema` | app.py:237-238 | position `i` of the classifier vector holds the field that `CLF_FEATURES[i]` names, and only the `"performance_score"` position holds the score |
| `Pipeline.Evaluate` | app.py:226-246 | the reference evaluation the lemmas below are about: success needs both models and reports the selected name; an input error is exactly the validator's error; each model error means that model is absent from the registry |
| `Pipeline.EvaluateCandidate` | app.py:226-246 | the method (validate, look up, predict, map) returns exactly what the reference evaluation returns |
| `Pipeline.EvaluateFailsAtFirstInvalidField` | app.py:227-228 | the first invalid field decides the result, whatever the registry and the selected model: missing if blank, not numeric otherwise |
| `Pipeline.EvaluateInputErrorNamesFirstInvalidField` | app.py:228 | every input error names the first invalid field |
| `Pipeline.EvaluateNeedsRegression` | app.py:230-232 | with valid input and no regression model, evaluation fails with the regression error, whichever classifier is selected |
| `Pipeline.EvaluateNeedsClassifier` | app.py:240-243 | with valid input and a regression model, a selected name that is not registered fails naming that model |
| `Pipeline.EvaluateSucceeds` | app.py:228-246 | success happens exactly when all fields are valid and both models are present; the score is the regression's output on the parsed fields, and the classifier sees those fields followed by that very score |
| `Pipeline.EvaluateLabelRange` | app.py:245-246 | a successful decision is "Reject", "Hold", "Hire" or the text of the classifier's prediction on the parsed fields followed by the score |
| `Pipeline.EvaluateWithLoadedModels` | app.py:48-59 | with the start-up registry, valid input fails for the regression exactly when its load failed; a name outside the six keys is never available |
| `Scenarios.SampleValidates` | app.py:213-224 | the sample texts 5, 80, 7, 8 validate to the vector 5, 80, 7, 8 |
| `Scenarios.SampleIsHired` | app.py:226-246 | inputs 5, 80, 7, 8 with a score of 72.5 and class code 2 give score 72.5 and "Hire" |
| `Scenarios.UnmappedCodeShownAsText` | app.py:246 | class code 9 yields the decision "9" |
| `Scenarios.NegativeFractionIsReject` | app.py:246 | a prediction of -0.5 is code 0, "Reject", because `int()` truncates |
| `Scenarios.BlankInterviewScoreIsMissing` | app.py:215-219 | a whitespace-only interview score fails as missing `interview_score`, even with an empty registry |
| `Scenarios.EarlierInvalidFieldWins` | app.py:215-223 | a non-numeric first field is reported before a later blank one |
| `Scenarios.UnloadedClassifierIsNamed` | app.py:240-243 | selecting an unloaded "SVM" fails naming "SVM" |

## Left out

- Window, style and widget code, fullscreen and Escape handling, `clear_inputs`, the error dialog and the status text (app.py:64-211, 248-266): these are presentation. An error is returned as a value; `Errors.Message` gives the text the dialog would show.
- The performance label is set before the classifier lookup (app.py:235). This is a display side effect with no effect on the result.
- `joblib.load`, the file paths in `MODEL_PATHS` and the `print` on a failed load (app.py:35-42, 50-59): these are file I/O. They are replaced by an abstract `Loader`.
- The internals of `.predict`, and numpy's `(1, N)` array wrapping with the `[0]` indexing (app.py:224, 233, 238, 245): these are foreign library calls. A predictor is a total function on `seq<real>`. A predictor that raises, for example on a vector of the wrong width, is not modelled.
- The grammar of Python's `float()` (`nan`, `inf`, exponents, underscores): this is treated as an abstract partial parse.
- Float formatting (`:.2f`), `str()` of a float, and `int()` raising on NaN or infinity: these are floating-point details. Values are reals, `str()` is a parameter and `int()` is truncation.
- The advisory range hints are data only: the source never checks them, and neither does the model.
- The selected model name is any string. The GUI's read-only list offers only the five classifiers. The source does not exclude `"regression"` as a selection, and neither does the model: that selection would run the regression model as the classifier.

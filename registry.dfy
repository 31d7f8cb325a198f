/**
 * The best-effort model registry built at start-up: every model key is tried
 * on its own, and a key whose load fails is simply absent.
 */
module Registry {
  import opened Wrappers
  import opened Config

  /** A loaded model: given a feature vector, one numeric prediction. */
  type Predictor = seq<real> -> real

  /** The outcome of loading the artifact registered under each key:
      `Some(p)` when it loaded, `None` when loading raised. */
  type Loader = string -> Option<Predictor>

  /** The registry that loading every model key with `load` produces. */
  function LoadedRegistry(load: Loader): (reg: map<string, Predictor>)
    ensures forall n :: n in reg <==> n in ModelKeys() && load(n).Some?
    ensures forall n :: n in reg ==> load(n) == Some(reg[n])
  {
    map n | n in ModelKeys() && load(n).Some? :: load(n).value
  }

  /** The start-up loading: the regression model first, then each classifier
      in turn; a failed load leaves its key out and does not stop the others. */
  method LoadModels(load: Loader) returns (loaded: map<string, Predictor>)
    ensures loaded == LoadedRegistry(load)
  {
    loaded := map[];
    var reg := load(RegressionKey);
    if reg.Some? {
      loaded := loaded[RegressionKey := reg.value];
    }
    for i := 0 to |ClassifierKeys|
      invariant forall n :: n in loaded <==> n in ModelKeys()[..i + 1] && load(n).Some?
      invariant forall n :: n in loaded ==> load(n) == Some(loaded[n])
    {
      var key := ClassifierKeys[i];
      assert ModelKeys()[..i + 2] == ModelKeys()[..i + 1] + [key];
      var clf := load(key);
      if clf.Some? {
        loaded := loaded[key := clf.value];
      }
    }
    assert ModelKeys()[..|ClassifierKeys| + 1] == ModelKeys();
  }
}

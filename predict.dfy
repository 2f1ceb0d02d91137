/**
 * The price predictor: the feature dictionary is aligned to the feature
 * names saved at training time before it reaches the model, which stays
 * abstract (a function from a one-row frame to a price).
 */
module Predictor {
  import opened Wrappers
  import opened Dicts

  /** An exception raised by `model.predict` or by `float(price)`: a `ValueError` or any other kind. */
  datatype Fault = ValueError(message: string) | OtherError(message: string)

  /** `model.predict` followed by `float(...)`: the price, or the exception it raised. */
  type Model = Dict<real> -> Result<real, Fault>

  /**
   * The one-row frame the model sees after alignment: exactly the expected
   * columns, in their order, each holding the input's value or zero.
   */
  function Aligned(expected: seq<string>, features: Dict<real>): (row: Dict<real>)
    ensures KeysOf(row) == expected
  {
    seq(|expected|, j requires 0 <= j < |expected| => (expected[j], Get(features, expected[j], 0.0)))
  }

  /** `df` as passed to `model.predict`: aligned when the feature list is known and non-empty. */
  function ModelInput(expected: Option<seq<string>>, features: Dict<real>): Dict<real> {
    if expected.Some? && expected.value != [] then Aligned(expected.value, features) else features
  }

  /** An expected column present in the input takes the input's value; an absent one is zero. */
  lemma AlignedValue(expected: seq<string>, features: Dict<real>, j: nat)
    requires j < |expected|
    ensures HasKey(features, expected[j])
         ==> Aligned(expected, features)[j].1 == Lookup(features, expected[j]).value
    ensures !HasKey(features, expected[j]) ==> Aligned(expected, features)[j].1 == 0.0
  {
  }

  /** Input keys that are not expected features are dropped. */
  lemma AlignedDropsUnexpected(expected: seq<string>, features: Dict<real>, k: string)
    requires k !in expected
    ensures !HasKey(Aligned(expected, features), k)
  {
    HasKeyAt(Aligned(expected, features), k);
  }

  /** Aligning a dict to its own keys changes nothing. */
  lemma AlignedToOwnKeys(features: Dict<real>)
    requires DistinctKeys(features)
    ensures Aligned(KeysOf(features), features) == features
  {
    var row := Aligned(KeysOf(features), features);
    forall j | 0 <= j < |features| ensures row[j] == features[j] {
      LookupAt(features, j);
    }
  }

  /**
   * The alignment loop of `predict_price`: a zero-filled row of the expected
   * columns, then every input column that is expected overwrites the
   * column(s) of that name.
   */
  method AlignFeatures(expected: seq<string>, features: Dict<real>) returns (row: Dict<real>)
    requires DistinctKeys(features)
    ensures row == Aligned(expected, features)
  {
    var n := |expected|;
    var values := new real[n](_ => 0.0);
    var i := 0;
    while i < |features|
      invariant 0 <= i <= |features|
      invariant forall j :: 0 <= j < n ==> values[j] == Get(features[..i], expected[j], 0.0)
    {
      var (col, v) := features[i];
      forall j | 0 <= j < n && expected[j] == col {
        values[j] := v;
      }
      assert features[..i + 1] == features[..i] + [features[i]];
      HasKeyAt(features[..i], col);
      forall j | 0 <= j < n ensures values[j] == Get(features[..i + 1], expected[j], 0.0) {
        LookupSnoc(features[..i], features[i], expected[j]);
      }
      i := i + 1;
    }
    assert features[..i] == features;
    row := seq(n, j requires 0 <= j < n reads values => (expected[j], values[j]));
  }

  /** `predict_price`: the model's output on the (possibly aligned) row, or the exception it raises. */
  method PredictPrice(expected: Option<seq<string>>, model: Model, features: Dict<real>)
    returns (price: Result<real, Fault>)
    requires DistinctKeys(features)
    ensures price == model(ModelInput(expected, features))
  {
    var df := features;
    if expected.Some? && expected.value != [] {
      df := AlignFeatures(expected.value, features);
    }
    price := model(df);
  }
}

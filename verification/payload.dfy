/**
 * The values the page moves between the prediction service and the screen.
 * Numbers are passed through untouched: the page never computes with them,
 * it only tests them for truthiness and displays them.
 */
module Payload {

  /** A numeric slot or a numeric key of a JSON reply as the page's code reads it:
      `null`, `undefined` (the key is absent) or a number. */
  datatype Scalar = Null | Undefined | Num(value: real)

  /** JavaScript truthiness of such a value: `null`, `undefined` and `0` are falsy. */
  predicate Truthy(x: Scalar)
  {
    x.Num? && x.value != 0.0
  }

  /** The three numbers of an ensemble reply, under the reply's own key names. */
  datatype EnsemblePrediction = EnsemblePrediction(
    lightgbm_prediction: Scalar,
    xgboost_prediction: Scalar,
    mean_prediction: Scalar)

}

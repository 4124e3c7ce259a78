/**
 * The result panel: a stateless choice, from the page's outcome slots, of
 * which card (if any) to show and which slot values it displays.
 */
module PredictionResult {
  import opened Wrappers
  import opened Payload

  /** What the panel renders. */
  datatype View =
    | Nothing
      // the ensemble card: `mean_prediction` as the headline, the two model values beneath
    | EnsembleCard(model: Option<string>, headline: Scalar, lightgbm: Scalar, xgboost: Scalar)
      // the single-model card: one amount with the model label
    | SingleCard(model: Option<string>, amount: real)

  /** `PredictionResult({ prediction, ensemblePrediction, model })`.
      Nothing is shown when neither slot is truthy (so also for a prediction of 0);
      an ensemble result wins over a scalar one; the single card only ever shows a
      non-zero number. */
  function Render(prediction: Scalar, ensemblePrediction: Option<EnsemblePrediction>, model: Option<string>): (v: View)
    ensures v.Nothing? <==> !Truthy(prediction) && ensemblePrediction.None?
    ensures v.EnsembleCard? <==> ensemblePrediction.Some?
    ensures v.EnsembleCard? ==>
      && v.model == model
      && v.headline == ensemblePrediction.value.mean_prediction
      && v.lightgbm == ensemblePrediction.value.lightgbm_prediction
      && v.xgboost == ensemblePrediction.value.xgboost_prediction
    ensures v.SingleCard? ==> v.model == model && prediction == Num(v.amount) && v.amount != 0.0
  {
    if !Truthy(prediction) && ensemblePrediction.None? then
      Nothing
    else if ensemblePrediction.Some? then
      var e := ensemblePrediction.value;
      EnsembleCard(model, e.mean_prediction, e.lightgbm_prediction, e.xgboost_prediction)
    else
      SingleCard(model, prediction.value)
  }

  /** The truthiness quirk: a scalar prediction of exactly 0 with no ensemble shows nothing. */
  lemma ZeroPredictionShowsNothing(model: Option<string>)
    ensures Render(Num(0.0), None, model) == Nothing
  {
  }

  /** Whatever the scalar slot holds, a present ensemble result is what is shown. */
  lemma EnsembleWins(p: Scalar, q: Scalar, e: EnsemblePrediction, model: Option<string>)
    ensures Render(p, Some(e), model) == Render(q, Some(e), model)
  {
  }

}

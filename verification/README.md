# California housing price predictor: page logic in Dafny

This project models the front end of the California housing price predictor.
The model covers three parts:

- **The house-details form** (`PredictionForm`). It holds eleven text fields with fixed sample
  defaults and changes one field at a time. Its ocean-proximity select offers five values. Its
  three predict buttons hand the form and a strategy (`lightgbm`, `xgboost` or `ensemble`) to
  the page, and all three are disabled while a request is running.
- **The page** (`Index`). It one-hot encodes the proximity into five indicator keys, builds the
  request body and picks `/predict/<strategy>`. It then steps its four slots (`isLoading`,
  `prediction`, `ensemblePrediction`, `model`) as `handlePredict` does. The exchange with the
  prediction service is an input, `Response`: the request was rejected, the status was non-2xx
  with an optional `detail`, or the status was 2xx with a body read through the keys
  `predicted_median_house_value`, `lightgbm_prediction`, `xgboost_prediction` and
  `mean_prediction`.
- **The result panel** (`PredictionResult`). It chooses between showing nothing, the ensemble
  card and the single-model card. This includes the JavaScript truthiness test, so a prediction
  of 0 shows nothing.

Files:

- `wrappers.dfy`: `Option`.
- `payload.dfy`: the values passed through. A `Scalar` is `null`, `undefined` or a number. The page
  only tests such values for truthiness and displays them.
- `form.dfy`: module `Form`, the form component as class `PredictionForm`.
- `result.dfy`: module `PredictionResult`, the view choice.
- `index_page.dfy`: module `IndexPage`, with the encoding, request, endpoint and messages as
  functions. The page component is class `Index`. `AfterPredict` is the specification of one
  whole `handlePredict` call, and the lemmas about it cover single calls and whole sessions.

Points of the code that the model keeps as they are:

- A successful call records the label `LightGBM`, `XGBoost` or `Ensemble (LightGBM + XGBoost)`.
- A rejected exchange is reported with the platform error's own message.
- Both outcome slots are cleared when a call starts. So a failed call also leaves no outcome,
  and the previous label stays.
- Nothing in the form component checks that the proximity is one of the five values.
  `Form.ProximityStaysAnOption` proves it from the way the controls are wired, and
  `IndexPage.SentRequestsAreOneHot` carries it to the request body.

## Model

| member | source | states |
|---|---|---|
| `Form.Set` | Projects/California_Housing/sun-city-valuer/src/components/PredictionForm.tsx:43-45 | the updated record has `v` in field `f` and every other field as before |
| `Form.SetLastWriteWins` | Projects/California_Housing/sun-city-valuer/src/components/PredictionForm.tsx:43-45 | two updates of one field equal the last update alone |
| `Form.SetCommutes` | Projects/California_Housing/sun-city-valuer/src/components/PredictionForm.tsx:43-45 | updates of two different fields can be applied in either order |
| `Form.SetCurrentValueIsIdentity` | Projects/California_Housing/sun-city-valuer/src/components/PredictionForm.tsx:43-45 | writing back a field's current value leaves the record unchanged |
| `Form.ProximityOptionsWellFormed` | Projects/California_Housing/sun-city-valuer/src/components/PredictionForm.tsx:157-161 | the select offers exactly five distinct values, and the default proximity `NEAR BAY` is one of them |
| `Form.ProximityStaysAnOption` | Projects/California_Housing/sun-city-valuer/src/components/PredictionForm.tsx:152-161 | after any sequence of control events, the proximity field is still one of the five options, because only the select writes it |
| `Form.Emittable` | Projects/California_Housing/sun-city-valuer/src/components/PredictionForm.tsx:66-185 | the events the rendered form can emit: a text event for one of the ten fields other than the proximity, or a select event carrying one of the five options |
| `Form.Apply` | Projects/California_Housing/sun-city-valuer/src/components/PredictionForm.tsx:66-185 | a text input's event writes its own field and the select's event writes the proximity, each through `Set`; an event the form can emit never takes the proximity off the options |
| `Form.UntouchedFieldKeepsValue` | Projects/California_Housing/sun-city-valuer/src/components/PredictionForm.tsx:61-187 | a text field whose input never fired keeps its value through any session |
| `Form.IdleLabel` | Projects/California_Housing/sun-city-valuer/src/components/PredictionForm.tsx:193-242 | the idle captions "Predict with LightGBM", "Predict with XGBoost" and the Ensemble caption with the four characters the file holds before it; none is the busy caption |
| `Form.IdleLabelsDistinct` | Projects/California_Housing/sun-city-valuer/src/components/PredictionForm.tsx:193-242 | the three idle captions differ, so each button names its own model |
| `Form.Buttons` | Projects/California_Housing/sun-city-valuer/src/components/PredictionForm.tsx:193-242 | three buttons, for LightGBM, XGBoost and Ensemble in that order; each is disabled, and shows the busy caption, exactly when `isLoading`; otherwise each shows `IdleLabel` of its own strategy |
| `Form.PredictionForm.constructor` | Projects/California_Housing/sun-city-valuer/src/components/PredictionForm.tsx:29-41 | the form starts as the sample house (longitude "-122.23" … householdRooms "6.984", proximity "NEAR BAY"), so the proximity is one of the options |
| `Form.PredictionForm.HandleInputChange` | Projects/California_Housing/sun-city-valuer/src/components/PredictionForm.tsx:43-45 | the new record is `Set(old record, field, value)`; the proximity stays an option when the value written to it is one |
| `Form.PredictionForm.HandlePredict` | Projects/California_Housing/sun-city-valuer/src/components/PredictionForm.tsx:47-49 | hands `onPredict` the current record and the chosen strategy, unchanged; when the form's proximity is an option, so is the one handed over |
| `Form.PredictionForm.Click` | Projects/California_Housing/sun-city-valuer/src/components/PredictionForm.tsx:193-229 | a click produces an `onPredict` call exactly when not loading, and that call carries the current record and the button's strategy, with the proximity an option whenever the form's is |
| `PredictionResult.Render` | Projects/California_Housing/sun-city-valuer/src/components/PredictionResult.tsx:16-98 | shows nothing exactly when the scalar is falsy and there is no ensemble; shows the ensemble card exactly when an ensemble is present, with the mean as headline and the two model values beneath; the single card carries a non-zero number and the label |
| `PredictionResult.ZeroPredictionShowsNothing` | Projects/California_Housing/sun-city-valuer/src/components/PredictionResult.tsx:17 | a scalar prediction of 0 with no ensemble renders nothing |
| `PredictionResult.EnsembleWins` | Projects/California_Housing/sun-city-valuer/src/components/PredictionResult.tsx:19-66 | with an ensemble present, what the scalar slot holds makes no difference to the view |
| `IndexPage.TransformOceanProximity` | Projects/California_Housing/sun-city-valuer/src/pages/Index.tsx:36-44 | each of the five indicators is 0 or 1 |
| `IndexPage.EncodingsOfOptions` | Projects/California_Housing/sun-city-valuer/src/pages/Index.tsx:36-44 | each option encodes to the vector with only its own indicator set |
| `IndexPage.EncodedLiteralsAreTheOptions` | Projects/California_Housing/sun-city-valuer/src/pages/Index.tsx:36-44 | the five indicator keys test for exactly the five select options |
| `IndexPage.OneHotForOptions` | Projects/California_Housing/sun-city-valuer/src/pages/Index.tsx:36-44 | for each option, exactly one indicator is 1, the one for that option, and the other four are 0 |
| `IndexPage.AllZeroOffTheOptions` | Projects/California_Housing/sun-city-valuer/src/pages/Index.tsx:38-42 | a string that is not one of the options gives five zeros |
| `IndexPage.AtMostOneHot` | Projects/California_Housing/sun-city-valuer/src/pages/Index.tsx:36-44 | at most one indicator is set, and one is set if and only if the value is an option |
| `IndexPage.HotLiteral` | Projects/California_Housing/sun-city-valuer/src/pages/Index.tsx:36-44 | the inverse of the encoding: a decoded literal is an option that encodes back to the given vector, and when nothing is decoded no option encodes to it |
| `IndexPage.DecodeTransform` | Projects/California_Housing/sun-city-valuer/src/pages/Index.tsx:36-44 | decoding the encoding of a value returns the value if it is an option, and nothing otherwise |
| `IndexPage.BuildRequest` | Projects/California_Housing/sun-city-valuer/src/pages/Index.tsx:52-66 | the body's indicators decode to the form's proximity when it is an option, and to nothing otherwise |
| `IndexPage.EditTouchesOnlyItsKey` | Projects/California_Housing/sun-city-valuer/src/pages/Index.tsx:52-66 | editing a field changes only the request key it is sent under: each of the ten text fields its own renamed key (`longitude` … `household_rooms`), the proximity the five indicators, set to the new value's encoding |
| `IndexPage.SentRequestsAreOneHot` | Projects/California_Housing/sun-city-valuer/src/pages/Index.tsx:52-66 | after any events the form's controls can emit from the defaults, the body sent has exactly one indicator set, and it decodes to the proximity shown |
| `IndexPage.Endpoint` | Projects/California_Housing/sun-city-valuer/src/pages/Index.tsx:68-70 | the path is `/predict/` followed by the strategy's name, for every strategy |
| `IndexPage.EndpointInjective` | Projects/California_Housing/sun-city-valuer/src/pages/Index.tsx:68-70 | different strategies are posted to different paths |
| `IndexPage.ModelLabel` | Projects/California_Housing/sun-city-valuer/src/pages/Index.tsx:93-96 | the label is the ensemble label if and only if the strategy is ensemble |
| `IndexPage.ModelLabelInjective` | Projects/California_Housing/sun-city-valuer/src/pages/Index.tsx:93-96 | different strategies record different labels |
| `IndexPage.ErrorMessage` | Projects/California_Housing/sun-city-valuer/src/pages/Index.tsx:80-82 | a present, non-empty `detail` is reported verbatim, and otherwise the message is 'Prediction failed'; never empty |
| `IndexPage.SuccessText` | Projects/California_Housing/sun-city-valuer/src/pages/Index.tsx:99 | the success toast reads "Prediction complete using Ensemble!" for the ensemble and otherwise names the strategy's own lower-case name |
| `IndexPage.SuccessTextInjective` | Projects/California_Housing/sun-city-valuer/src/pages/Index.tsx:99 | each strategy gets its own success toast |
| `IndexPage.OnEntry` | Projects/California_Housing/sun-city-valuer/src/pages/Index.tsx:47-49 | on entry the page is busy, both outcomes are null, and `model` is untouched |
| `IndexPage.AfterPredict` | Projects/California_Housing/sun-city-valuer/src/pages/Index.tsx:46-106 | the page is never left busy and never holds both outcomes; a failure leaves both outcomes cleared, keeps `model`, and reports `detail`, the fallback or the thrown message; an ensemble success holds exactly the three returned values with the ensemble label; a single success holds `predicted_median_house_value` with `LightGBM` or `XGBoost` |
| `IndexPage.PredictLeavesConsistent` | Projects/California_Housing/sun-city-valuer/src/pages/Index.tsx:46-106 | from any state, a call leaves the page idle with at most one outcome; an ensemble outcome carries the ensemble label and a single outcome a single-model label; a successful call records its own strategy's label |
| `IndexPage.SessionKeepsConsistent` | Projects/California_Housing/sun-city-valuer/src/pages/Index.tsx:46-106 | that consistency holds after any sequence of calls |
| `IndexPage.ViewForgetsThePast` | Projects/California_Housing/sun-city-valuer/src/pages/Index.tsx:136-141 | what is displayed after a call does not depend on the slots before it |
| `IndexPage.LastCallDecidesView` | Projects/California_Housing/sun-city-valuer/src/pages/Index.tsx:136-141 | after a session, the panel shows what the last call alone would show |
| `IndexPage.ViewAfterPredict` | Projects/California_Housing/sun-city-valuer/src/pages/Index.tsx:136-141 | a failure displays nothing; an ensemble success displays the ensemble card with the three values; a single success displays the value with its model label, unless the value is falsy |
| `IndexPage.SampleExchanges` | Projects/California_Housing/sun-city-valuer/src/pages/Index.tsx:46-106 | the sample house encodes as NEAR BAY; a LightGBM reply of 452600 gives that prediction labelled `LightGBM`; the ensemble reply 450000/460000/455000 is held exactly; a 422 reply with detail "invalid income" reports that text |
| `IndexPage.Index.constructor` | Projects/California_Housing/sun-city-valuer/src/pages/Index.tsx:31-34 | the page starts idle, with no outcome and no label |
| `IndexPage.Index.Begin` | Projects/California_Housing/sun-city-valuer/src/pages/Index.tsx:47-49 | the slots become `OnEntry` of the old slots |
| `IndexPage.Index.Finish` | Projects/California_Housing/sun-city-valuer/src/pages/Index.tsx:51-105 | from the entry state, the slots and notice become those of `AfterPredict`, including the `finally` reset of `isLoading` |
| `IndexPage.Index.HandlePredict` | Projects/California_Housing/sun-city-valuer/src/pages/Index.tsx:46-106 | posts `BuildRequest(data)` to `Endpoint(selectedModel)`, steps the slots as `AfterPredict`, and leaves the page consistent |

## Left out

- HTTP is not modelled: the `fetch` call, its method and headers, JSON encoding and decoding, and the base-URL constant. The outcome of the exchange is the `Response` input.
- `parseFloat` and floating point are not modelled. The numeric request keys carry the form text that `parseFloat` would convert, and reply numbers are passed-through reals. `parseFloat` is not injective ("41" and "41.0" give the same number, every non-numeric text gives NaN), so no property of the model depends on two texts being different.
- A `detail` that is not a string is not modelled. This covers a list of validation errors, which would be reported as its string conversion.
- Reply keys that hold strings or objects instead of numbers are not modelled.
- The toasts are modelled as the returned `Notice`. `console.error` is left out.
- The catch's fallback text for a thrown value that is not an `Error` is not modelled. `fetch` and `response.json()` only reject with `Error` values, so this text is unreachable here.
- The JSX tree, styling, the hero image and the `toLocaleString` formatting are left out.
- The ensemble card's view keeps a `null` or `undefined` key as it is. The model does not capture that formatting such a value (`toLocaleString` on it) would fail at render time.
- Overlapping requests and React's scheduling of state updates are not modelled. Each `handlePredict` is one sequential step, split at its first `await` (the `fetch`) into `Begin` and `Finish`; the `response.json()` await falls inside `Finish`.
- Project/app.py, the prediction service, is not part of this model. `SingleBody` and `EnsembleBody` only record the reply shapes it sends.

/**
 * The page: it encodes the form into a request, picks the endpoint for the
 * chosen strategy, and steps its four slots (`isLoading`, `prediction`,
 * `ensemblePrediction`, `model`) as the reply comes back. The HTTP exchange
 * itself is an input: a `Response` says how `fetch` and `response.json()`
 * ended.
 */
module IndexPage {
  import opened Wrappers
  import opened Payload
  import opened Form
  import PredictionResult

  // ---------------------------------------------------------------------
  // One-hot encoding of the proximity field
  // ---------------------------------------------------------------------

  /** The five indicator keys of the request. */
  datatype ProximityEncoding = ProximityEncoding(
    ocean_proximity_1H_OCEAN: int,
    ocean_proximity_INLAND: int,
    ocean_proximity_ISLAND: int,
    ocean_proximity_NEAR_BAY: int,
    ocean_proximity_NEAR_OCEAN: int)

  /** The literal each indicator tests for, in the request's key order. */
  const EncodedLiterals: seq<string> := ["<1H OCEAN", "INLAND", "ISLAND", "NEAR BAY", "NEAR OCEAN"]

  /** The indicators in the request's key order. */
  function Indicators(e: ProximityEncoding): seq<int>
  {
    [ e.ocean_proximity_1H_OCEAN, e.ocean_proximity_INLAND, e.ocean_proximity_ISLAND,
      e.ocean_proximity_NEAR_BAY, e.ocean_proximity_NEAR_OCEAN ]
  }

  /** The number of indicators set. */
  function HotCount(e: ProximityEncoding): int
  {
    e.ocean_proximity_1H_OCEAN + e.ocean_proximity_INLAND + e.ocean_proximity_ISLAND
    + e.ocean_proximity_NEAR_BAY + e.ocean_proximity_NEAR_OCEAN
  }

  /** `transformOceanProximity(value)`: each indicator is 1 when `value` is its literal, else 0,
      so every indicator is 0 or 1. */
  function TransformOceanProximity(value: string): (e: ProximityEncoding)
    ensures forall i :: 0 <= i < 5 ==> Indicators(e)[i] in {0, 1}
  {
    ProximityEncoding(
      if value == "<1H OCEAN" then 1 else 0,
      if value == "INLAND" then 1 else 0,
      if value == "ISLAND" then 1 else 0,
      if value == "NEAR BAY" then 1 else 0,
      if value == "NEAR OCEAN" then 1 else 0)
  }

  /** The encodings of the five options, one set indicator each. */
  lemma EncodingsOfOptions()
    ensures TransformOceanProximity("<1H OCEAN") == ProximityEncoding(1, 0, 0, 0, 0)
    ensures TransformOceanProximity("INLAND") == ProximityEncoding(0, 1, 0, 0, 0)
    ensures TransformOceanProximity("ISLAND") == ProximityEncoding(0, 0, 1, 0, 0)
    ensures TransformOceanProximity("NEAR BAY") == ProximityEncoding(0, 0, 0, 1, 0)
    ensures TransformOceanProximity("NEAR OCEAN") == ProximityEncoding(0, 0, 0, 0, 1)
  {
  }

  /** The request's indicator keys test for the select's five options, in another order. */
  lemma EncodedLiteralsAreTheOptions()
    ensures multiset(EncodedLiterals) == multiset(ProximityOptions)
  {
  }

  /** For each of the five options exactly one indicator is 1, the one for that option,
      and the other four are 0. */
  lemma OneHotForOptions(value: string)
    requires value in ProximityOptions
    ensures HotCount(TransformOceanProximity(value)) == 1
    ensures forall i :: 0 <= i < 5 ==>
      Indicators(TransformOceanProximity(value))[i] == (if EncodedLiterals[i] == value then 1 else 0)
  {
    var ind := Indicators(TransformOceanProximity(value));
    if value == "NEAR BAY" {
      assert ind == [0, 0, 0, 1, 0];
    } else if value == "<1H OCEAN" {
      assert ind == [1, 0, 0, 0, 0];
    } else if value == "INLAND" {
      assert ind == [0, 1, 0, 0, 0];
    } else if value == "NEAR OCEAN" {
      assert ind == [0, 0, 0, 0, 1];
    } else {
      assert ind == [0, 0, 1, 0, 0];
    }
  }

  /** At most one indicator is set, and one is set exactly when the value is an option. */
  lemma AtMostOneHot(value: string)
    ensures HotCount(TransformOceanProximity(value)) <= 1
    ensures HotCount(TransformOceanProximity(value)) == 1 <==> value in ProximityOptions
  {
    if value in ProximityOptions {
      OneHotForOptions(value);
    } else {
      AllZeroOffTheOptions(value);
    }
  }

  /** Any other string (no validation happens before submission) sets no indicator at all. */
  lemma AllZeroOffTheOptions(value: string)
    requires value !in ProximityOptions
    ensures Indicators(TransformOceanProximity(value)) == [0, 0, 0, 0, 0]
  {
  }

  /** The literal an encoding stands for: the key of its one set indicator, when exactly one
      indicator is 1 and the others are 0. A decoded literal is an option that encodes back
      to `e`; no decoded literal means no option encodes to `e`. */
  function HotLiteral(e: ProximityEncoding): (r: Option<string>)
    ensures r.Some? ==> r.value in ProximityOptions && TransformOceanProximity(r.value) == e
    ensures r.None? ==> forall o :: o in ProximityOptions ==> TransformOceanProximity(o) != e
  {
    EncodingsOfOptions();
    if e == ProximityEncoding(1, 0, 0, 0, 0) then Some("<1H OCEAN")
    else if e == ProximityEncoding(0, 1, 0, 0, 0) then Some("INLAND")
    else if e == ProximityEncoding(0, 0, 1, 0, 0) then Some("ISLAND")
    else if e == ProximityEncoding(0, 0, 0, 1, 0) then Some("NEAR BAY")
    else if e == ProximityEncoding(0, 0, 0, 0, 1) then Some("NEAR OCEAN")
    else None
  }

  /** Decoding the encoding gives the option back, and nothing for an off-list string:
      the encoding loses exactly the values the select cannot produce. */
  lemma DecodeTransform(value: string)
    ensures HotLiteral(TransformOceanProximity(value)) == if value in ProximityOptions then Some(value) else None
  {
    EncodingsOfOptions();
    if value !in ProximityOptions {
      AllZeroOffTheOptions(value);
      assert TransformOceanProximity(value) == ProximityEncoding(0, 0, 0, 0, 0);
    } else if value == "NEAR BAY" {
    } else if value == "<1H OCEAN" {
    } else if value == "INLAND" {
    } else if value == "NEAR OCEAN" {
    } else {
      assert value == "ISLAND";
    }
  }

  // ---------------------------------------------------------------------
  // The request
  // ---------------------------------------------------------------------

  /** The JSON body posted to the service. Each numeric key holds the form text that
      `parseFloat` converts. The conversion is not modelled, and it is not injective
      ("41" and "41.0" give the same number, every non-numeric text gives NaN), so
      nothing here depends on two texts being different. */
  datatype PredictionRequest = PredictionRequest(
    longitude: string,
    latitude: string,
    housing_median_age: string,
    total_rooms: string,
    total_bedrooms: string,
    population: string,
    households: string,
    median_income: string,
    proximity: ProximityEncoding,
    bedroom_ratio: string,
    household_rooms: string)

  /** `requestBody`: the form's fields under the service's key names, with the proximity
      one-hot encoded. The indicators name the form's proximity when it is an option, and
      no option otherwise. */
  function BuildRequest(d: FormData): (r: PredictionRequest)
    ensures HotLiteral(r.proximity) == if d.oceanProximity in ProximityOptions then Some(d.oceanProximity) else None
  {
    DecodeTransform(d.oceanProximity);
    PredictionRequest(
      d.longitude, d.latitude, d.housingMedianAge, d.totalRooms, d.totalBedrooms,
      d.population, d.households, d.medianIncome,
      TransformOceanProximity(d.oceanProximity),
      d.bedroomRatio, d.householdRooms)
  }

  /** Editing a field changes only the request key that field is sent under: each text field
      has its own renamed key, and the proximity goes to the five indicators. */
  lemma EditTouchesOnlyItsKey(d: FormData, f: Field, v: string)
    ensures f == Longitude ==> BuildRequest(Set(d, f, v)) == BuildRequest(d).(longitude := v)
    ensures f == Latitude ==> BuildRequest(Set(d, f, v)) == BuildRequest(d).(latitude := v)
    ensures f == HousingMedianAge ==> BuildRequest(Set(d, f, v)) == BuildRequest(d).(housing_median_age := v)
    ensures f == TotalRooms ==> BuildRequest(Set(d, f, v)) == BuildRequest(d).(total_rooms := v)
    ensures f == TotalBedrooms ==> BuildRequest(Set(d, f, v)) == BuildRequest(d).(total_bedrooms := v)
    ensures f == Population ==> BuildRequest(Set(d, f, v)) == BuildRequest(d).(population := v)
    ensures f == Households ==> BuildRequest(Set(d, f, v)) == BuildRequest(d).(households := v)
    ensures f == MedianIncome ==> BuildRequest(Set(d, f, v)) == BuildRequest(d).(median_income := v)
    ensures f == BedroomRatio ==> BuildRequest(Set(d, f, v)) == BuildRequest(d).(bedroom_ratio := v)
    ensures f == HouseholdRooms ==> BuildRequest(Set(d, f, v)) == BuildRequest(d).(household_rooms := v)
    ensures f == OceanProximity ==>
      BuildRequest(Set(d, f, v)) == BuildRequest(d).(proximity := TransformOceanProximity(v))
  {
  }

  /** Every request the form can send from its defaults, whatever the user did with the
      controls, has exactly one indicator set, the one for the proximity shown. */
  lemma SentRequestsAreOneHot(events: seq<UiEvent>)
    requires forall i :: 0 <= i < |events| ==> Emittable(events[i])
    ensures HotCount(BuildRequest(ApplyAll(Defaults, events)).proximity) == 1
    ensures HotLiteral(BuildRequest(ApplyAll(Defaults, events)).proximity)
      == Some(ApplyAll(Defaults, events).oceanProximity)
  {
    ProximityOptionsWellFormed();
    ProximityStaysAnOption(Defaults, events);
    AtMostOneHot(ApplyAll(Defaults, events).oceanProximity);
  }

  // ---------------------------------------------------------------------
  // Endpoint, labels and messages
  // ---------------------------------------------------------------------

  /** The path the request is posted to: `/predict/` followed by the strategy's name. */
  function Endpoint(selectedModel: Strategy): (path: string)
    ensures path == "/predict/" + WireName(selectedModel)
  {
    if selectedModel == LightGBM then "/predict/lightgbm"
    else if selectedModel == XGBoost then "/predict/xgboost"
    else "/predict/ensemble"
  }

  /** Different strategies are posted to different endpoints. */
  lemma EndpointInjective(a: Strategy, b: Strategy)
    requires Endpoint(a) == Endpoint(b)
    ensures a == b
  {
  }

  const EnsembleLabel := "Ensemble (LightGBM + XGBoost)"

  /** The `model` label a successful call records. */
  function ModelLabel(s: Strategy): (name: string)
    ensures name == EnsembleLabel <==> s == Ensemble
  {
    if s == Ensemble then EnsembleLabel
    else if s == LightGBM then "LightGBM"
    else "XGBoost"
  }

  /** Different strategies are labelled differently. */
  lemma ModelLabelInjective(a: Strategy, b: Strategy)
    requires ModelLabel(a) == ModelLabel(b)
    ensures a == b
  {
  }

  const DefaultFailure := "Prediction failed"

  /** `errorData.detail || 'Prediction failed'`: a present, non-empty detail is reported
      verbatim; otherwise the generic text. */
  function ErrorMessage(detail: Option<string>): (msg: string)
    ensures msg != ""
    ensures detail.Some? && detail.value != "" ==> msg == detail.value
    ensures detail.None? || detail.value == "" ==> msg == DefaultFailure
  {
    match detail
    case Some(d) => if d != "" then d else DefaultFailure
    case None => DefaultFailure
  }

  /** The notification a call ends with. */
  datatype Notice = Success(text: string) | Failure(text: string)

  /** The success toast names "Ensemble" for the ensemble and otherwise the strategy's
      lower-case name (not the `model` label). */
  function SuccessText(s: Strategy): (text: string)
    ensures s == Ensemble ==> text == "Prediction complete using Ensemble!"
    ensures s != Ensemble ==> text == "Prediction complete using " + WireName(s) + "!"
  {
    "Prediction complete using " + (if s == Ensemble then "Ensemble" else WireName(s)) + "!"
  }

  /** Each strategy gets its own success toast. */
  lemma SuccessTextInjective(a: Strategy, b: Strategy)
    requires SuccessText(a) == SuccessText(b)
    ensures a == b
  {
    assert SuccessText(a)[26] == SuccessText(b)[26];
  }

  // ---------------------------------------------------------------------
  // The reply and the four slots
  // ---------------------------------------------------------------------

  /** The JSON object of a 2xx reply, through the four keys the page reads. */
  datatype Body = Body(
    predicted_median_house_value: Scalar,
    lightgbm_prediction: Scalar,
    xgboost_prediction: Scalar,
    mean_prediction: Scalar)

  /** What a single-model endpoint sends back. */
  function SingleBody(v: real): Body
  {
    Body(Num(v), Undefined, Undefined, Undefined)
  }

  /** What the ensemble endpoint sends back. */
  function EnsembleBody(a: real, b: real, m: real): Body
  {
    Body(Undefined, Num(a), Num(b), Num(m))
  }

  /** How the exchange with the service ended. */
  datatype Response =
      // `fetch` rejected, `response.json()` could not parse the body, or the body parsed to
      // `null` so reading `.detail` or a result key threw a `TypeError`: the error's message
    | Rejected(message: string)
      // a non-2xx status whose body parsed; `detail` is its `detail` key, if that is a string
    | NotOk(detail: Option<string>)
      // a 2xx status whose body parsed
    | Ok(body: Body)

  /** The page's four slots. */
  datatype Slots = Slots(
    isLoading: bool,
    prediction: Scalar,
    ensemblePrediction: Option<EnsemblePrediction>,
    model: Option<string>)

  /** The slots when the page is first shown. */
  const InitialSlots := Slots(false, Null, None, None)

  /** The page at rest: not busy, never both outcomes at once, an ensemble outcome carries
      the ensemble label and a single outcome carries one of the two single-model labels. */
  predicate Consistent(s: Slots)
  {
    && !s.isLoading
    && !(s.prediction != Null && s.ensemblePrediction.Some?)
    && (s.ensemblePrediction.Some? ==> s.model == Some(EnsembleLabel))
    && (s.prediction != Null ==> s.model == Some(ModelLabel(LightGBM)) || s.model == Some(ModelLabel(XGBoost)))
  }

  /** The slots right after a predict call starts (before the request is sent):
      busy, both outcomes cleared, the label untouched. */
  function OnEntry(s: Slots): (t: Slots)
    ensures t.isLoading && t.prediction == Null && t.ensemblePrediction == None
    ensures t.model == s.model
  {
    s.(isLoading := true, prediction := Null, ensemblePrediction := None)
  }

  /** The whole of one predict call: the new slots and the notice it ends with. */
  function AfterPredict(s: Slots, selectedModel: Strategy, response: Response): (r: (Slots, Notice))
    // the `finally`: never left busy
    ensures !r.0.isLoading
    // the two outcome slots are never both filled
    ensures !(r.0.prediction != Null && r.0.ensemblePrediction.Some?)
    // a failure clears both outcomes and keeps the old label
    ensures !response.Ok? ==>
      && r.0 == Slots(false, Null, None, s.model)
      && r.1 == Failure(if response.Rejected? then response.message else ErrorMessage(response.detail))
    // an ensemble success holds exactly the three returned values
    ensures response.Ok? && selectedModel == Ensemble ==>
      && r.0.prediction == Null
      && r.0.ensemblePrediction == Some(EnsemblePrediction(
           response.body.lightgbm_prediction, response.body.xgboost_prediction, response.body.mean_prediction))
      && r.0.model == Some(EnsembleLabel)
    // a single-model success holds the returned value and that model's label
    ensures response.Ok? && selectedModel != Ensemble ==>
      && r.0.prediction == response.body.predicted_median_house_value
      && r.0.ensemblePrediction == None
      && r.0.model == Some(if selectedModel == LightGBM then "LightGBM" else "XGBoost")
    ensures response.Ok? ==> r.1 == Success(SuccessText(selectedModel))
  {
    var t := OnEntry(s);
    var (u, notice) :=
      match response
      case Rejected(m) => (t, Failure(m))
      case NotOk(detail) => (t, Failure(ErrorMessage(detail)))
      case Ok(result) =>
        if selectedModel == Ensemble then
          (t.(ensemblePrediction := Some(EnsemblePrediction(
                result.lightgbm_prediction, result.xgboost_prediction, result.mean_prediction)),
              model := Some(ModelLabel(Ensemble))),
           Success(SuccessText(selectedModel)))
        else
          (t.(prediction := result.predicted_median_house_value, model := Some(ModelLabel(selectedModel))),
           Success(SuccessText(selectedModel)));
    (u.(isLoading := false), notice)
  }

  /** Every predict call, from any state, leaves the page consistent; a successful one
      leaves the label of the strategy it used. */
  lemma PredictLeavesConsistent(s: Slots, selectedModel: Strategy, response: Response)
    ensures Consistent(AfterPredict(s, selectedModel, response).0)
    ensures response.Ok? ==> AfterPredict(s, selectedModel, response).0.model == Some(ModelLabel(selectedModel))
  {
  }

  /** One finished predict call of a session. */
  datatype Call = Call(selectedModel: Strategy, response: Response)

  /** The slots after a sequence of calls, oldest first, each finishing before the next starts. */
  function Session(s: Slots, calls: seq<Call>): Slots
    decreases |calls|
  {
    if calls == [] then s
    else Session(AfterPredict(s, calls[0].selectedModel, calls[0].response).0, calls[1..])
  }

  /** Consistency is kept by any session. */
  lemma {:induction false} SessionKeepsConsistent(s: Slots, calls: seq<Call>)
    requires Consistent(s)
    ensures Consistent(Session(s, calls))
    decreases |calls|
  {
    if calls != [] {
      PredictLeavesConsistent(s, calls[0].selectedModel, calls[0].response);
      SessionKeepsConsistent(AfterPredict(s, calls[0].selectedModel, calls[0].response).0, calls[1..]);
    }
  }

  /** What the result panel shows for the page's slots. */
  function View(s: Slots): PredictionResult.View
  {
    PredictionResult.Render(s.prediction, s.ensemblePrediction, s.model)
  }

  /** What is on screen after a call depends on that call alone, not on what was there before. */
  lemma ViewForgetsThePast(s: Slots, s': Slots, selectedModel: Strategy, response: Response)
    ensures View(AfterPredict(s, selectedModel, response).0) == View(AfterPredict(s', selectedModel, response).0)
  {
  }

  /** After a session of at least one call, the screen shows what the last call alone would show. */
  lemma {:induction false} LastCallDecidesView(s: Slots, s': Slots, calls: seq<Call>)
    requires |calls| > 0
    ensures View(Session(s, calls))
      == View(AfterPredict(s', calls[|calls| - 1].selectedModel, calls[|calls| - 1].response).0)
    decreases |calls|
  {
    var first := AfterPredict(s, calls[0].selectedModel, calls[0].response).0;
    if |calls| == 1 {
      ViewForgetsThePast(s, s', calls[0].selectedModel, calls[0].response);
    } else {
      LastCallDecidesView(first, s', calls[1..]);
      assert calls[1..][|calls[1..]| - 1] == calls[|calls| - 1];
    }
  }

  /** What each outcome puts on screen: a failure shows nothing; an ensemble success shows the
      ensemble card with the mean as headline; a single-model success shows that model's card,
      unless the value is 0 or missing. */
  lemma ViewAfterPredict(s: Slots, selectedModel: Strategy, response: Response)
    ensures !response.Ok? ==> View(AfterPredict(s, selectedModel, response).0) == PredictionResult.Nothing
    ensures response.Ok? && selectedModel == Ensemble ==>
      View(AfterPredict(s, selectedModel, response).0) == PredictionResult.EnsembleCard(
        Some(EnsembleLabel), response.body.mean_prediction,
        response.body.lightgbm_prediction, response.body.xgboost_prediction)
    ensures response.Ok? && selectedModel != Ensemble ==>
      View(AfterPredict(s, selectedModel, response).0) ==
        if Truthy(response.body.predicted_median_house_value)
        then PredictionResult.SingleCard(Some(ModelLabel(selectedModel)), response.body.predicted_median_house_value.value)
        else PredictionResult.Nothing
  {
  }

  /** The sample house through the LightGBM endpoint answering 452600, and through the
      ensemble endpoint answering 450000 / 460000 / 455000, and a 422 reply with a detail. */
  lemma SampleExchanges()
    ensures BuildRequest(Defaults).proximity == ProximityEncoding(0, 0, 0, 1, 0)
    ensures AfterPredict(InitialSlots, LightGBM, Ok(SingleBody(452600.0)))
      == (Slots(false, Num(452600.0), None, Some("LightGBM")), Success("Prediction complete using lightgbm!"))
    ensures AfterPredict(InitialSlots, Ensemble, Ok(EnsembleBody(450000.0, 460000.0, 455000.0))).0
      == Slots(false, Null, Some(EnsemblePrediction(Num(450000.0), Num(460000.0), Num(455000.0))), Some(EnsembleLabel))
    ensures AfterPredict(InitialSlots, XGBoost, NotOk(Some("invalid income"))).1 == Failure("invalid income")
  {
    assert SuccessText(LightGBM) == "Prediction complete using lightgbm!";
  }

  /** The page component: its four state slots. */
  class Index {
    var isLoading: bool
    var prediction: Scalar
    var ensemblePrediction: Option<EnsemblePrediction>
    var model: Option<string>

    function State(): Slots
      reads this
    {
      Slots(isLoading, prediction, ensemblePrediction, model)
    }

    ghost predicate Valid()
      reads this
    {
      Consistent(State())
    }

    /** The four `useState` calls: not busy, no outcome, no label. */
    constructor ()
      ensures State() == InitialSlots
      ensures Valid()
    {
      isLoading, prediction, ensemblePrediction, model := false, Null, None, None;
    }

    /** The synchronous start of `handlePredict`: busy on, both outcomes cleared. */
    method Begin()
      modifies this
      ensures State() == OnEntry(old(State()))
    {
      isLoading := true;
      prediction := Null;
      ensemblePrediction := None;
    }

    /** The rest of `handlePredict`, once the exchange has ended as `response`. */
    method Finish(selectedModel: Strategy, response: Response) returns (notice: Notice)
      requires isLoading && prediction == Null && ensemblePrediction == None
      modifies this
      ensures (State(), notice) == AfterPredict(old(State()), selectedModel, response)
    {
      match response {
        case Rejected(m) =>
          notice := Failure(m);
        case NotOk(detail) =>
          notice := Failure(ErrorMessage(detail));
        case Ok(result) =>
          if selectedModel == Ensemble {
            ensemblePrediction := Some(EnsemblePrediction(
              result.lightgbm_prediction, result.xgboost_prediction, result.mean_prediction));
            model := Some(ModelLabel(Ensemble));
          } else {
            prediction := result.predicted_median_house_value;
            model := Some(ModelLabel(selectedModel));
          }
          notice := Success(SuccessText(selectedModel));
      }
      isLoading := false;
    }

    /** `handlePredict(data, selectedModel)`: returns the endpoint and body it posts, steps
        the slots as `AfterPredict` says, and keeps the page consistent. */
    method HandlePredict(data: FormData, selectedModel: Strategy, response: Response)
      returns (endpoint: string, body: PredictionRequest, notice: Notice)
      modifies this
      ensures endpoint == Endpoint(selectedModel) && body == BuildRequest(data)
      ensures (State(), notice) == AfterPredict(old(State()), selectedModel, response)
      ensures Valid()
    {
      Begin();
      body := BuildRequest(data);
      endpoint := Endpoint(selectedModel);
      notice := Finish(selectedModel, response);
      PredictLeavesConsistent(old(State()), selectedModel, response);
    }
  }

}

/**
 * The house-details form: eleven text fields with fixed sample defaults,
 * a single-field update, the five ocean-proximity options of the select,
 * and the three predict buttons that forward the form to the page.
 */
module Form {
  import opened Wrappers

  /** The prediction strategy a button asks for: `'lightgbm' | 'xgboost' | 'ensemble'`. */
  datatype Strategy = LightGBM | XGBoost | Ensemble

  /** The string the code uses for a strategy. */
  function WireName(s: Strategy): string
  {
    match s
    case LightGBM => "lightgbm"
    case XGBoost => "xgboost"
    case Ensemble => "ensemble"
  }

  /** The keys of the form record. */
  datatype Field =
    | Longitude | Latitude | HousingMedianAge | TotalRooms | TotalBedrooms
    | Population | Households | MedianIncome | OceanProximity
    | BedroomRatio | HouseholdRooms

  /** The form record: every field is the text of its input, unvalidated. */
  datatype FormData = FormData(
    longitude: string,
    latitude: string,
    housingMedianAge: string,
    totalRooms: string,
    totalBedrooms: string,
    population: string,
    households: string,
    medianIncome: string,
    oceanProximity: string,
    bedroomRatio: string,
    householdRooms: string)

  /** The value of field `f` of `d` (`formData[f]`). */
  function Get(d: FormData, f: Field): string
  {
    match f
    case Longitude => d.longitude
    case Latitude => d.latitude
    case HousingMedianAge => d.housingMedianAge
    case TotalRooms => d.totalRooms
    case TotalBedrooms => d.totalBedrooms
    case Population => d.population
    case Households => d.households
    case MedianIncome => d.medianIncome
    case OceanProximity => d.oceanProximity
    case BedroomRatio => d.bedroomRatio
    case HouseholdRooms => d.householdRooms
  }

  /** `{ ...d, [f]: v }`: field `f` becomes `v` and the ten other fields keep their values. */
  function Set(d: FormData, f: Field, v: string): (r: FormData)
    ensures Get(r, f) == v
    ensures forall g :: g != f ==> Get(r, g) == Get(d, g)
  {
    match f
    case Longitude => d.(longitude := v)
    case Latitude => d.(latitude := v)
    case HousingMedianAge => d.(housingMedianAge := v)
    case TotalRooms => d.(totalRooms := v)
    case TotalBedrooms => d.(totalBedrooms := v)
    case Population => d.(population := v)
    case Households => d.(households := v)
    case MedianIncome => d.(medianIncome := v)
    case OceanProximity => d.(oceanProximity := v)
    case BedroomRatio => d.(bedroomRatio := v)
    case HouseholdRooms => d.(householdRooms := v)
  }

  /** Two updates of the same field: the last one wins. */
  lemma SetLastWriteWins(d: FormData, f: Field, v: string, w: string)
    ensures Set(Set(d, f, v), f, w) == Set(d, f, w)
  {
  }

  /** Updates of two different fields commute. */
  lemma SetCommutes(d: FormData, f: Field, v: string, g: Field, w: string)
    requires f != g
    ensures Set(Set(d, f, v), g, w) == Set(Set(d, g, w), f, v)
  {
  }

  /** Writing a field's current value back changes nothing. */
  lemma SetCurrentValueIsIdentity(d: FormData, f: Field)
    ensures Set(d, f, Get(d, f)) == d
  {
  }

  /** The five items of the ocean-proximity select, in the order it lists them. */
  const ProximityOptions: seq<string> := ["NEAR BAY", "<1H OCEAN", "INLAND", "NEAR OCEAN", "ISLAND"]

  /** The sample house the form starts with. */
  const Defaults: FormData := FormData(
    "-122.23", "37.88", "41", "880", "129", "322", "126", "8.3252",
    "NEAR BAY", "0.146", "6.984")

  /** The select offers exactly five distinct values, and the default proximity is one of them. */
  lemma ProximityOptionsWellFormed()
    ensures |ProximityOptions| == 5
    ensures forall i, j :: 0 <= i < j < |ProximityOptions| ==> ProximityOptions[i] != ProximityOptions[j]
    ensures Defaults.oceanProximity in ProximityOptions
  {
  }

  /** A change reported by one of the form's controls. */
  datatype UiEvent =
    | Typed(field: Field, text: string)   // the `onChange` of the text input bound to `field`
    | Selected(option: string)             // the `onValueChange` of the proximity select

  /** The events the rendered form can emit: the ten text inputs are bound to the ten
      fields other than the proximity, and the select only offers its five items. */
  predicate Emittable(e: UiEvent)
  {
    match e
    case Typed(f, _) => f != OceanProximity
    case Selected(o) => o in ProximityOptions
  }

  /** The `handleInputChange` call an event's handler makes. An event the form can emit
      never takes the proximity off the select's options. */
  function Apply(d: FormData, e: UiEvent): (r: FormData)
    ensures e.Typed? ==> r == Set(d, e.field, e.text)
    ensures e.Selected? ==> r == Set(d, OceanProximity, e.option)
    ensures Emittable(e) && d.oceanProximity in ProximityOptions ==> r.oceanProximity in ProximityOptions
  {
    match e
    case Typed(f, t) => Set(d, f, t)
    case Selected(o) => Set(d, OceanProximity, o)
  }

  /** The form after a sequence of events, oldest first. */
  function ApplyAll(d: FormData, events: seq<UiEvent>): FormData
    decreases |events|
  {
    if events == [] then d else ApplyAll(Apply(d, events[0]), events[1..])
  }

  /** Only the select writes the proximity field, so starting from an option it stays an
      option whatever the user does with the form. */
  lemma {:induction false} ProximityStaysAnOption(d: FormData, events: seq<UiEvent>)
    requires d.oceanProximity in ProximityOptions
    requires forall i :: 0 <= i < |events| ==> Emittable(events[i])
    ensures ApplyAll(d, events).oceanProximity in ProximityOptions
    decreases |events|
  {
    if events != [] {
      assert Emittable(events[0]);
      ProximityStaysAnOption(Apply(d, events[0]), events[1..]);
    }
  }

  /** A text field the user never typed into keeps its value through any session. */
  lemma {:induction false} UntouchedFieldKeepsValue(d: FormData, events: seq<UiEvent>, f: Field)
    requires f != OceanProximity
    requires forall i :: 0 <= i < |events| ==> !(events[i].Typed? && events[i].field == f)
    ensures Get(ApplyAll(d, events), f) == Get(d, f)
    decreases |events|
  {
    if events != [] {
      assert !(events[0].Typed? && events[0].field == f);
      UntouchedFieldKeepsValue(Apply(d, events[0]), events[1..], f);
    }
  }

  /** The arguments of one `onPredict(formData, model)` call. */
  datatype PredictCall = PredictCall(data: FormData, strategy: Strategy)

  /** One of the three predict buttons as rendered. */
  datatype Button = Button(strategy: Strategy, disabled: bool, caption: string)

  /** The caption of the button for `s` when no request is running. The Ensemble caption
      starts with the four characters the component's file holds there (U+00F0 U+0178
      U+201D U+201E), which is what the page displays. */
  function IdleLabel(s: Strategy): (caption: string)
    ensures caption != BusyLabel
  {
    match s
    case LightGBM => "Predict with LightGBM"
    case XGBoost => "Predict with XGBoost"
    case Ensemble => "\U{F0}\U{178}\U{201D}\U{201E} Predict with Ensemble (Both Models)"
  }

  /** The three idle captions are different, so each button says which model it runs. */
  lemma IdleLabelsDistinct(a: Strategy, b: Strategy)
    requires IdleLabel(a) == IdleLabel(b)
    ensures a == b
  {
  }

  /** The caption every button shows, beside a spinner, while a request is running. */
  const BusyLabel := "Predicting..."

  /** The three predict buttons: LightGBM, XGBoost, then Ensemble, all disabled exactly
      while a request is running, and then all captioned as busy; otherwise each shows
      the idle caption of its own strategy. */
  function Buttons(isLoading: bool): (bs: seq<Button>)
    ensures |bs| == 3
    ensures bs[0].strategy == LightGBM && bs[1].strategy == XGBoost && bs[2].strategy == Ensemble
    ensures forall i :: 0 <= i < |bs| ==> bs[i].disabled == isLoading
    ensures forall i :: 0 <= i < |bs| ==> (bs[i].caption == BusyLabel <==> isLoading)
    ensures forall i :: 0 <= i < |bs| ==> bs[i].caption == if isLoading then BusyLabel else IdleLabel(bs[i].strategy)
  {
    var caption := (s: Strategy) => if isLoading then BusyLabel else IdleLabel(s);
    [ Button(LightGBM, isLoading, caption(LightGBM)),
      Button(XGBoost, isLoading, caption(XGBoost)),
      Button(Ensemble, isLoading, caption(Ensemble)) ]
  }

  /** The component's state: the form record it owns. */
  class PredictionForm {
    var formData: FormData

    /** The proximity field holds one of the select's options. */
    ghost predicate Valid()
      reads this
    {
      formData.oceanProximity in ProximityOptions
    }

    /** `useState<FormData>({...})`: the form starts with the sample house. */
    constructor ()
      ensures formData == Defaults
      ensures Valid()
    {
      formData := Defaults;
    }

    /** `handleInputChange(field, value)`: replaces one field and nothing else. */
    method HandleInputChange(field: Field, value: string)
      modifies this
      ensures formData == Set(old(formData), field, value)
      ensures old(Valid()) && (field == OceanProximity ==> value in ProximityOptions) ==> Valid()
    {
      formData := Set(formData, field, value);
    }

    /** `handlePredict(model)`: hands the current record and the chosen strategy to `onPredict`. */
    method HandlePredict(model: Strategy) returns (call: PredictCall)
      ensures call.data == formData
      ensures call.strategy == model
      ensures Valid() ==> call.data.oceanProximity in ProximityOptions
    {
      call := PredictCall(formData, model);
    }

    /** A click on the button for `model`: a disabled button (a request is running) does
        nothing; an enabled one calls `handlePredict(model)`. */
    method Click(model: Strategy, isLoading: bool) returns (call: Option<PredictCall>)
      ensures call.Some? <==> !isLoading
      ensures call.Some? ==> call.value.data == formData && call.value.strategy == model
      ensures call.Some? && Valid() ==> call.value.data.oceanProximity in ProximityOptions
    {
      var bs := Buttons(isLoading);
      var b := if model == LightGBM then bs[0] else if model == XGBoost then bs[1] else bs[2];
      if b.disabled {
        call := None;
      } else {
        var c := HandlePredict(model);
        call := Some(c);
      }
    }
  }

}

/** The input form of the store manager: its eight numeric fields, the
    three city-tier presets that can be loaded into it, and the reading of
    the form into an operating-parameter record. */
module Form {
  import opened Common

  /** One form, keyed by field name; a field holds the number its text entry
      shows. */
  type FormState = map<string, real>

  /** The eight fields the form always has. */
  const FormKeys: set<string> :=
    {"price", "orders", "days", "rent", "staff", "utility", "cost_rate", "var_cost"}

  /** The six fields that loading a preset overwrites. */
  const PresetKeys: set<string> :=
    {"rent", "staff", "utility", "cost_rate", "price", "orders"}

  /** The form as first shown: note that `cost_rate` is entered as a
      percentage. */
  const DefaultForm: FormState :=
    map["price" := 25.0, "orders" := 100.0, "days" := 30.0, "rent" := 15000.0,
        "staff" := 24000.0, "utility" := 4500.0, "cost_rate" := 40.0, "var_cost" := 3.0]

  /** The tier first selected. */
  const DefaultCity: string := "二线城市"

  /** The defaults of a city tier; `costRate` is a fraction of sales. */
  datatype Preset = Preset(rent: real, staff: real, utility: real, costRate: real,
                           avgPrice: real, avgOrders: int)

  /** The fixed table of presets, keyed by the tier names shown to the user
      (first-, second- and third-tier city). */
  const CityPresets: map<string, Preset> :=
    map["一线城市" := Preset(30000.0, 40000.0, 8000.0, 0.45, 35.0, 150),
        "二线城市" := Preset(15000.0, 24000.0, 4500.0, 0.40, 25.0, 100),
        "三线城市" := Preset(8000.0, 15000.0, 2000.0, 0.35, 18.0, 80)]

  /** Looking a tier up by name; a name outside the table has no preset. */
  function LookupPreset(name: string): (r: Option<Preset>)
    ensures r.Some? <==> name in {"一线城市", "二线城市", "三线城市"}
    ensures r.Some? ==> 0.0 < r.value.costRate < 1.0 && 0 < r.value.avgOrders
  {
    if name in CityPresets then Some(CityPresets[name]) else None
  }

  /** The operating parameters read from the form. */
  datatype Inputs = Inputs(price: real, orders: int, days: int, rent: real, staff: real,
                           utility: real, costRate: real, varCost: real, city: string)

  /** Loading a preset: the six preset fields are overwritten, the cost rate
      is written as a percentage, and `days` and `var_cost` are untouched. */
  function ApplyPreset(form: FormState, p: Preset): (r: FormState)
    ensures r.Keys == form.Keys + PresetKeys
    ensures r["rent"] == p.rent && r["staff"] == p.staff && r["utility"] == p.utility
    ensures r["cost_rate"] == p.costRate * 100.0
    ensures r["price"] == p.avgPrice && r["orders"] == p.avgOrders as real
    ensures forall k :: k in form && k !in PresetKeys ==> r[k] == form[k]
  {
    form["rent" := p.rent]["staff" := p.staff]["utility" := p.utility]
        ["cost_rate" := p.costRate * 100.0]["price" := p.avgPrice]
        ["orders" := p.avgOrders as real]
  }

  /** Reading the form. The two integer fields must hold whole numbers (an
      integer parse rejects anything else, and then no parameters are
      produced); the percentage in `cost_rate` becomes a fraction. */
  function ReadInputs(form: FormState, city: string): (r: Option<Inputs>)
    requires FormKeys <= form.Keys
    ensures r.Some? <==> IsIntegral(form["orders"]) && IsIntegral(form["days"])
    ensures r.Some? ==>
      && r.value.orders as real == form["orders"] && r.value.days as real == form["days"]
      && r.value.costRate * 100.0 == form["cost_rate"]
      && r.value.price == form["price"] && r.value.varCost == form["var_cost"]
      && r.value.rent == form["rent"] && r.value.staff == form["staff"]
      && r.value.utility == form["utility"] && r.value.city == city
  {
    if IsIntegral(form["orders"]) && IsIntegral(form["days"]) then
      Some(Inputs(form["price"], form["orders"].Floor, form["days"].Floor, form["rent"],
                  form["staff"], form["utility"], form["cost_rate"] / 100.0,
                  form["var_cost"], city))
    else
      None
  }

  /** Loading a preset and reading the form back recovers the preset's
      values, the cost rate as the preset's fraction, and the untouched
      `days` and `var_cost`; it succeeds exactly when `days` is whole. */
  lemma PresetRoundTrip(form: FormState, p: Preset, city: string)
    requires FormKeys <= form.Keys
    ensures FormKeys <= ApplyPreset(form, p).Keys
    ensures ReadInputs(ApplyPreset(form, p), city).Some? <==> IsIntegral(form["days"])
    ensures IsIntegral(form["days"]) ==>
      ReadInputs(ApplyPreset(form, p), city)
        == Some(Inputs(p.avgPrice, p.avgOrders, form["days"].Floor, p.rent, p.staff,
                       p.utility, p.costRate, form["var_cost"], city))
  {
    var f := ApplyPreset(form, p);
    assert f["orders"].Floor == p.avgOrders;
    assert IsIntegral(f["orders"]);
    assert "days" !in PresetKeys && "var_cost" !in PresetKeys;
    assert f["cost_rate"] / 100.0 == p.costRate;
  }

  /** Loading the same preset twice is the same as loading it once. */
  lemma ApplyPresetIdempotent(form: FormState, p: Preset)
    ensures ApplyPreset(ApplyPreset(form, p), p) == ApplyPreset(form, p)
  {
  }

  /** The initial form holds exactly the second-tier preset, with 30 business
      days and a variable cost of 3 per order. */
  lemma DefaultFormIsSecondTier()
    ensures DefaultForm.Keys == FormKeys
    ensures ApplyPreset(DefaultForm, CityPresets[DefaultCity]) == DefaultForm
    ensures ReadInputs(DefaultForm, DefaultCity)
      == Some(Inputs(25.0, 100, 30, 15000.0, 24000.0, 4500.0, 0.40, 3.0, DefaultCity))
  {
    assert IsIntegral(100.0) && (100.0).Floor == 100;
    assert IsIntegral(30.0) && (30.0).Floor == 30;
  }
}

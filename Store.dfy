/** The store manager itself: the state behind its window (the form, the
    selected city tier and the in-memory history), the user's edits, and the
    load-preset, calculate-profit and sensitivity buttons. */
module Store {
  import opened Common
  import opened Form
  import opened Profit
  import opened Sensitivity
  import opened Heatmap

  /** The figures a profit calculation keeps in the history. */
  datatype Results = Results(sales: real, netProfit: real, netMargin: real)

  /** One history entry: its kind, the parameters it was computed from, its
      figures and the time it was saved. */
  datatype HistoryRecord = HistoryRecord(kind: string, values: Inputs, results: Results,
                                         timestamp: string)

  /** The kind of entry a profit calculation saves. */
  const ProfitCalculationKind: string := "profit_calculation"

  /** What pressing the profit button leads to: an error message for
      unreadable input, an escaping division by zero, or a report with the
      figures and the pie data. */
  datatype ProfitOutcome =
    | InvalidInput
    | DivisionByZero
    | Reported(financials: Financials, pie: seq<Slice>)

  /** What pressing the sensitivity button leads to: the 25 sweep records and
      the heat-map matrix drawn from them. */
  datatype Analysis = Analysis(data: seq<Record>, heatmap: Heatmap)

  class StoreManager {
    /** The numbers shown in the eight form fields. */
    var entries: FormState
    /** The tier selected in the read-only tier list. */
    var city: string
    /** The saved history, oldest first. */
    var history: seq<HistoryRecord>

    /** Every field exists and the selected tier is one of the presets. */
    ghost predicate Valid()
      reads this
    {
      FormKeys <= entries.Keys && city in CityPresets
    }

    /** A new window: the default form, the second tier selected, and the
        history read from storage. */
    constructor (loaded: seq<HistoryRecord>)
      ensures Valid()
      ensures entries == DefaultForm && city == DefaultCity && history == loaded
    {
      entries := DefaultForm;
      city := DefaultCity;
      history := loaded;
    }

    /** Choosing a tier in the list; the list only offers the preset
        names. */
    method SelectCity(name: string)
      requires Valid() && name in CityPresets
      modifies this`city
      ensures Valid() && city == name
    {
      city := name;
    }

    /** Typing a number into one of the eight fields. */
    method EditField(key: string, x: real)
      requires Valid() && key in FormKeys
      modifies this`entries
      ensures Valid() && entries == old(entries)[key := x]
    {
      entries := entries[key := x];
    }

    /** Loading the selected tier's preset into the form. */
    method LoadPreset()
      requires Valid()
      modifies this`entries
      ensures Valid()
      ensures entries == ApplyPreset(old(entries), CityPresets[city])
    {
      var preset := LookupPreset(city).value;
      entries := entries["rent" := preset.rent];
      entries := entries["staff" := preset.staff];
      entries := entries["utility" := preset.utility];
      entries := entries["cost_rate" := preset.costRate * 100.0];
      entries := entries["price" := preset.avgPrice];
      entries := entries["orders" := preset.avgOrders as real];
    }

    /** Stamping an entry with the given time and appending it: the history
        grows by one, the new entry last, the earlier ones untouched. */
    method SaveHistory(rec: HistoryRecord, now: string)
      requires Valid()
      modifies this`history
      ensures Valid()
      ensures history == old(history) + [rec.(timestamp := now)]
      ensures |history| == |old(history)| + 1
      ensures history[|history| - 1] == rec.(timestamp := now)
      ensures forall k :: 0 <= k < |old(history)| ==> history[k] == old(history)[k]
    {
      history := history + [rec.(timestamp := now)];
    }

    /** Pressing the profit button. Unreadable input and a division by zero
        leave the history as it was; a successful calculation reports the
        figures and the pie data and saves one entry. */
    method CalculateProfit(now: string) returns (outcome: ProfitOutcome)
      requires Valid()
      modifies this`history
      ensures Valid()
      ensures ReadInputs(entries, city).None? ==> outcome == InvalidInput && history == old(history)
      ensures ReadInputs(entries, city).Some? && Compute(ReadInputs(entries, city).value).Failure? ==>
        outcome == DivisionByZero && history == old(history)
      ensures ReadInputs(entries, city).Some? && Compute(ReadInputs(entries, city).value).Success? ==>
        var v := ReadInputs(entries, city).value;
        var f := Compute(v).value;
        && outcome == Reported(f, PieData(f.directCost, f.fixedCost, f.totalVarCost, f.netProfit))
        && history == old(history)
             + [HistoryRecord(ProfitCalculationKind, v, Results(f.sales, f.netProfit, f.netMargin), now)]
    {
      var values := ReadInputs(entries, city);
      if values.None? {
        return InvalidInput;
      }
      var v := values.value;
      var computed := Compute(v);
      if computed.Failure? {
        return DivisionByZero;
      }
      var f := computed.value;
      var pie := PieData(f.directCost, f.fixedCost, f.totalVarCost, f.netProfit);
      SaveHistory(HistoryRecord(ProfitCalculationKind, v, Results(f.sales, f.netProfit, f.netMargin), ""), now);
      assert values == ReadInputs(entries, city);
      outcome := Reported(f, pie);
    }

    /** Pressing the sensitivity button: unreadable input gives nothing;
        otherwise the sweep of the form's parameters and its heat-map
        matrix, whose lookups always succeed. */
    method SensitivityAnalysis() returns (r: Option<Analysis>)
      requires Valid()
      ensures r.None? <==> ReadInputs(entries, city).None?
      ensures r.Some? ==>
        && r.value.data == SweepData(ReadInputs(entries, city).value)
        && Assembled(r.value.data, r.value.heatmap)
    {
      var values := ReadInputs(entries, city);
      if values.None? {
        return None;
      }
      var data := Sweep(values.value);
      SweepCellsAllFound(values.value);
      var matrix := BuildHeatmap(data);
      r := Some(Analysis(data, matrix.value));
    }
  }
}

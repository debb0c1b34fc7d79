/** The price/volume sensitivity sweep: net profit recomputed over a 5 x 5
    grid of relative changes to the unit price and the daily volume, with
    the fixed cost held at its base value. */
module Sensitivity {
  import opened Common
  import opened Form
  import opened Profit

  /** The relative price changes, ascending: -20% to +20% in steps of 10%. */
  const PriceRange: seq<real> := [-0.2, -0.1, 0.0, 0.1, 0.2]

  /** The relative volume changes, with the same five levels. */
  const OrdersRange: seq<real> := [-0.2, -0.1, 0.0, 0.1, 0.2]

  /** One point of the sweep: the changed price and daily volume and the
      net profit they give. */
  datatype Record = Record(price: real, orders: int, profit: real)

  /** The point for one price change and one volume change: the price
      scaled by the price change, and the volume scaled by the volume change
      and truncated toward zero to a whole number of orders. */
  function SweepCell(v: Inputs, fixedCost: real, priceChange: real, ordersChange: real): (r: Record)
    ensures r.price == v.price * (1.0 + priceChange)
    ensures r.orders == Trunc(v.orders as real * (1.0 + ordersChange))
  {
    var price := v.price * (1.0 + priceChange);
    var orders := Trunc(v.orders as real * (1.0 + ordersChange));
    var sales := price * orders as real * v.days as real;
    Record(price, orders,
           sales - sales * v.costRate - fixedCost - v.varCost * orders as real * v.days as real)
  }

  /** The whole sweep in visiting order: price changes in the outer loop,
      volume changes in the inner one, both ascending, so that point
      `5 * i + j` has the `i`-th price change and the `j`-th volume change. */
  function SweepData(v: Inputs): (r: seq<Record>)
    ensures |r| == 25
  {
    seq(25, k requires 0 <= k < 25 => SweepCell(v, FixedCost(v), PriceRange[k / 5], OrdersRange[k % 5]))
  }

  /** The sweep as the store runs it: two nested loops that append one
      record per visited point. */
  method Sweep(v: Inputs) returns (data: seq<Record>)
    ensures data == SweepData(v)
  {
    var fixedCost := FixedCost(v);
    ghost var spec := SweepData(v);
    data := [];
    for i := 0 to 5
      invariant |data| == 5 * i && data == spec[..|data|]
    {
      for j := 0 to 5
        invariant |data| == 5 * i + j && data == spec[..|data|]
      {
        var point := SweepCell(v, fixedCost, PriceRange[i], OrdersRange[j]);
        SweepIndex(v, i, j);
        assert spec[..|data| + 1] == spec[..|data|] + [spec[|data|]];
        data := data + [point];
      }
    }
    assert spec[..25] == spec;
  }

  /** Point `5 * i + j` of the sweep is the cell of the `i`-th price change
      and the `j`-th volume change. */
  lemma SweepIndex(v: Inputs, i: nat, j: nat)
    requires i < 5 && j < 5
    ensures SweepData(v)[5 * i + j] == SweepCell(v, FixedCost(v), PriceRange[i], OrdersRange[j])
  {
    assert (5 * i + j) / 5 == i && (5 * i + j) % 5 == j;
  }

  /** Point `5 * i + j` of the sweep: its price and its truncated volume
      come from the `i`-th and `j`-th changes. */
  lemma SweepRecordAt(v: Inputs, i: nat, j: nat)
    requires i < 5 && j < 5
    ensures
      var r := SweepData(v)[5 * i + j];
      && r.price == v.price * (1.0 + PriceRange[i])
      && r.orders == Trunc(v.orders as real * (1.0 + OrdersRange[j]))
  {
    SweepIndex(v, i, j);
  }

  /** The profit of one point is the contribution of its monthly volume at
      its price less the given fixed cost. */
  lemma CellProfit(v: Inputs, fixedCost: real, priceChange: real, ordersChange: real)
    ensures
      var r := SweepCell(v, fixedCost, priceChange, ordersChange);
      r.profit == r.orders as real * v.days as real * ContributionMargin(v.(price := r.price)) - fixedCost
  {
    var r := SweepCell(v, fixedCost, priceChange, ordersChange);
    var n := r.orders as real * v.days as real;
    var sales := r.price * n;
    assert r.profit == sales - sales * v.costRate - fixedCost - v.varCost * n;
    assert sales - sales * v.costRate - v.varCost * n
        == n * (r.price * (1.0 - v.costRate) - v.varCost);
  }

  /** A point computed with the base fixed cost agrees with the profit
      calculation run on the point's own price and volume. */
  lemma CellAgreesWithCompute(v: Inputs, priceChange: real, ordersChange: real)
    ensures
      var r := SweepCell(v, FixedCost(v), priceChange, ordersChange);
      var w := v.(price := r.price, orders := r.orders);
      && FixedCost(w) == FixedCost(v)
      && (Compute(w).Success? ==> r.profit == Compute(w).value.netProfit)
  {
  }

  /** Every point agrees with the profit calculation run on its own price
      and volume: the sweep uses the same formulas and the same fixed cost. */
  lemma SweepAgreesWithCompute(v: Inputs, k: nat)
    requires k < 25
    ensures
      var r := SweepData(v)[k];
      var w := v.(price := r.price, orders := r.orders);
      && FixedCost(w) == FixedCost(v)
      && (Compute(w).Success? ==> r.profit == Compute(w).value.netProfit)
  {
    assert 5 * (k / 5) + k % 5 == k;
    SweepIndex(v, k / 5, k % 5);
    CellAgreesWithCompute(v, PriceRange[k / 5], OrdersRange[k % 5]);
  }

  /** The middle point, with no change to price or volume, is the base case:
      its profit is the net profit of the profit calculation. */
  lemma SweepBaseCase(v: Inputs)
    ensures SweepData(v)[12].price == v.price && SweepData(v)[12].orders == v.orders
    ensures Compute(v).Success? ==> SweepData(v)[12].profit == Compute(v).value.netProfit
  {
    SweepIndex(v, 2, 2);
    TruncOfInt(v.orders);
    assert v.orders as real * (1.0 + 0.0) == v.orders as real;
    CellAgreesWithCompute(v, 0.0, 0.0);
    assert v.(price := v.price, orders := v.orders) == v;
  }
}

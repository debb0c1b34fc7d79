/** The profit matrix behind the sensitivity heat map: one row per distinct
    price and one column per distinct daily volume of the sweep, each
    ascending, each cell holding the profit of the first record with that
    price and volume. */
module Heatmap {
  import opened Common
  import opened Form
  import opened Profit
  import opened Sensitivity
  import opened Levels

  datatype Heatmap = Heatmap(prices: seq<real>, orders: seq<int>, profits: seq<seq<real>>)

  /** The row axis: the distinct prices of the records, ascending. */
  function PriceLevels(data: seq<Record>): (r: seq<real>)
    ensures StrictlySorted(r, RealLess)
    ensures forall p :: p in r <==> exists k :: 0 <= k < |data| && data[k].price == p
  {
    RealLessIsStrict();
    var prices := seq(|data|, k requires 0 <= k < |data| => data[k].price);
    assert forall k :: 0 <= k < |data| ==> prices[k] == data[k].price;
    SortedDistinct(prices, RealLess)
  }

  /** The column axis: the distinct daily volumes of the records, ascending. */
  function OrderLevels(data: seq<Record>): (r: seq<int>)
    ensures StrictlySorted(r, IntLess)
    ensures forall o :: o in r <==> exists k :: 0 <= k < |data| && data[k].orders == o
  {
    IntLessIsStrict();
    var orders := seq(|data|, k requires 0 <= k < |data| => data[k].orders);
    assert forall k :: 0 <= k < |data| ==> orders[k] == data[k].orders;
    SortedDistinct(orders, IntLess)
  }

  predicate Matches(d: Record, price: real, orders: int) {
    d.price == price && d.orders == orders
  }

  /** The position of the first record, from `start` on, with the given
      price and volume, if there is one. */
  function FirstMatchFrom(data: seq<Record>, price: real, orders: int, start: nat): (r: Option<nat>)
    requires start <= |data|
    ensures r.Some? ==> start <= r.value < |data| && Matches(data[r.value], price, orders)
                        && forall k :: start <= k < r.value ==> !Matches(data[k], price, orders)
    ensures r.None? ==> forall k :: start <= k < |data| ==> !Matches(data[k], price, orders)
    decreases |data| - start
  {
    if start == |data| then None
    else if Matches(data[start], price, orders) then Some(start)
    else FirstMatchFrom(data, price, orders, start + 1)
  }

  /** The position of the first record with the given price and volume. */
  function FirstMatch(data: seq<Record>, price: real, orders: int): Option<nat> {
    FirstMatchFrom(data, price, orders, 0)
  }

  /** Every cell of the grid spanned by the two axes has a record. */
  ghost predicate AllCellsFound(data: seq<Record>) {
    var prices, orders := PriceLevels(data), OrderLevels(data);
    forall i, j :: 0 <= i < |prices| && 0 <= j < |orders| ==> FirstMatch(data, prices[i], orders[j]).Some?
  }

  /** `h` is the matrix of `data`: the two axes are the distinct prices and
      volumes, and each cell holds the profit of the first record with its
      row's price and its column's volume. */
  ghost predicate Assembled(data: seq<Record>, h: Heatmap) {
    && h.prices == PriceLevels(data) && h.orders == OrderLevels(data)
    && |h.profits| == |h.prices|
    && (forall i :: 0 <= i < |h.profits| ==> |h.profits[i]| == |h.orders|)
    && forall i, j :: 0 <= i < |h.prices| && 0 <= j < |h.orders| ==>
         FirstMatch(data, h.prices[i], h.orders[j]).Some? &&
         h.profits[i][j] == data[FirstMatch(data, h.prices[i], h.orders[j]).value].profit
  }

  /** Building the matrix row by row. The store takes the first element of
      the list of matching profits, which fails on an empty list: then no
      matrix is produced. */
  method BuildHeatmap(data: seq<Record>) returns (r: Option<Heatmap>)
    ensures r.Some? <==> AllCellsFound(data)
    ensures r.Some? ==> Assembled(data, r.value)
  {
    var prices := PriceLevels(data);
    var orders := OrderLevels(data);
    var matrix: seq<seq<real>> := [];
    for i := 0 to |prices|
      invariant |matrix| == i
      invariant forall a :: 0 <= a < i ==> |matrix[a]| == |orders|
      invariant forall a, b :: 0 <= a < i && 0 <= b < |orders| ==>
        FirstMatch(data, prices[a], orders[b]).Some? &&
        matrix[a][b] == data[FirstMatch(data, prices[a], orders[b]).value].profit
    {
      var row: seq<real> := [];
      for j := 0 to |orders|
        invariant |row| == j
        invariant forall b :: 0 <= b < j ==>
          FirstMatch(data, prices[i], orders[b]).Some? &&
          row[b] == data[FirstMatch(data, prices[i], orders[b]).value].profit
      {
        var found := FirstMatch(data, prices[i], orders[j]);
        if found.None? {
          return None;
        }
        row := row + [data[found.value].profit];
      }
      matrix := matrix + [row];
    }
    r := Some(Heatmap(prices, orders, matrix));
  }

  /** The first match is the least position that matches. */
  lemma FirstMatchIsLeast(data: seq<Record>, price: real, orders: int, m: nat)
    requires m < |data| && Matches(data[m], price, orders)
    requires forall k :: 0 <= k < m ==> !Matches(data[k], price, orders)
    ensures FirstMatch(data, price, orders) == Some(m)
  {
  }

  /** On the sweep every cell of the grid has a record: a distinct price
      comes from some price change and a distinct volume from some volume
      change, and the sweep visits every pair of changes. */
  lemma SweepCellsAllFound(v: Inputs)
    ensures AllCellsFound(SweepData(v))
  {
    var data := SweepData(v);
    var prices, orders := PriceLevels(data), OrderLevels(data);
    forall i, j | 0 <= i < |prices| && 0 <= j < |orders|
      ensures FirstMatch(data, prices[i], orders[j]).Some?
    {
      assert prices[i] in prices && orders[j] in orders;
      var kp :| 0 <= kp < |data| && data[kp].price == prices[i];
      var ko :| 0 <= ko < |data| && data[ko].orders == orders[j];
      var k := 5 * (kp / 5) + ko % 5;
      SweepSharesPrice(v, k, kp);
      SweepSharesOrders(v, k, ko);
      assert Matches(data[k], prices[i], orders[j]);
    }
  }

  /** Two points of the same price change have the same price. */
  lemma SweepSharesPrice(v: Inputs, k: nat, m: nat)
    requires k < 25 && m < 25 && k / 5 == m / 5
    ensures SweepData(v)[k].price == SweepData(v)[m].price
  {
    var pc := PriceRange[k / 5];
    assert SweepData(v)[k].price == SweepCell(v, FixedCost(v), pc, OrdersRange[k % 5]).price;
    assert SweepData(v)[m].price == SweepCell(v, FixedCost(v), pc, OrdersRange[m % 5]).price;
  }

  /** Two points of the same volume change have the same volume. */
  lemma SweepSharesOrders(v: Inputs, k: nat, m: nat)
    requires k < 25 && m < 25 && k % 5 == m % 5
    ensures SweepData(v)[k].orders == SweepData(v)[m].orders
  {
    var oc := OrdersRange[k % 5];
    assert SweepData(v)[k].orders == SweepCell(v, FixedCost(v), PriceRange[k / 5], oc).orders;
    assert SweepData(v)[m].orders == SweepCell(v, FixedCost(v), PriceRange[m / 5], oc).orders;
  }

  /** The prices of the five rows of the sweep, in visiting order. */
  function RowPrices(data: seq<Record>): (r: seq<real>)
    requires |data| == 25
    ensures |r| == 5 && forall i :: 0 <= i < 5 ==> r[i] == data[5 * i].price
  {
    [data[0].price, data[5].price, data[10].price, data[15].price, data[20].price]
  }

  /** The volumes of the five columns of the sweep, in visiting order. */
  function ColumnOrders(data: seq<Record>): (r: seq<int>)
    requires |data| == 25
    ensures |r| == 5 && forall j :: 0 <= j < 5 ==> r[j] == data[j].orders
  {
    [data[0].orders, data[1].orders, data[2].orders, data[3].orders, data[4].orders]
  }

  /** The row prices are exactly the prices of the sweep. */
  lemma RowPricesAreThePrices(v: Inputs)
    ensures forall y :: y in RowPrices(SweepData(v)) <==> y in PriceLevels(SweepData(v))
  {
    var data := SweepData(v);
    var rows := RowPrices(data);
    forall y
      ensures y in rows <==> y in PriceLevels(data)
    {
      if y in PriceLevels(data) {
        var k :| 0 <= k < |data| && data[k].price == y;
        SweepSharesPrice(v, k, 5 * (k / 5));
        assert rows[k / 5] == y;
      }
      if y in rows {
        var i :| 0 <= i < 5 && rows[i] == y;
        assert data[5 * i].price == y;
      }
    }
  }

  /** The column volumes are exactly the volumes of the sweep. */
  lemma ColumnOrdersAreTheOrders(v: Inputs)
    ensures forall y :: y in ColumnOrders(SweepData(v)) <==> y in OrderLevels(SweepData(v))
  {
    var data := SweepData(v);
    var cols := ColumnOrders(data);
    forall y
      ensures y in cols <==> y in OrderLevels(data)
    {
      if y in OrderLevels(data) {
        var k :| 0 <= k < |data| && data[k].orders == y;
        SweepSharesOrders(v, k, k % 5);
        assert cols[k % 5] == y;
      }
      if y in cols {
        var j :| 0 <= j < 5 && cols[j] == y;
        assert data[j].orders == y;
      }
    }
  }

  /** With a positive price the row prices ascend. */
  lemma RowPricesAscend(v: Inputs)
    requires v.price > 0.0
    ensures StrictlySorted(RowPrices(SweepData(v)), RealLess)
  {
    var data := SweepData(v);
    var rows := RowPrices(data);
    AdjacentRows(v, 0);
    AdjacentRows(v, 1);
    AdjacentRows(v, 2);
    AdjacentRows(v, 3);
    assert rows == [data[0].price, data[5].price, data[10].price, data[15].price, data[20].price];
    FiveAscendingReals(data[0].price, data[5].price, data[10].price, data[15].price, data[20].price);
  }

  /** Five reals each below the next form a strictly ascending list. */
  lemma FiveAscendingReals(a: real, b: real, c: real, d: real, e: real)
    requires a < b < c < d < e
    ensures StrictlySorted([a, b, c, d, e], RealLess)
  {
  }

  /** With a positive price, row `i + 1` of the sweep has a higher price than
      row `i`: each step adds a tenth of the base price. */
  lemma AdjacentRows(v: Inputs, i: nat)
    requires v.price > 0.0 && i < 4
    ensures SweepData(v)[5 * i].price < SweepData(v)[5 * (i + 1)].price
  {
    var a := 1.0 + PriceRange[i];
    assert 1.0 + PriceRange[i + 1] == a + 0.1 by {
      assert i == 0 || i == 1 || i == 2 || i == 3;
    }
    SweepRecordAt(v, i, 0);
    SweepRecordAt(v, i + 1, 0);
    PriceStep(v.price, a);
  }

  /** A positive price scaled by a larger factor is larger. */
  lemma PriceStep(p: real, a: real)
    requires p > 0.0
    ensures p * a < p * (a + 0.1)
  {
  }

  /** With at least ten daily orders a ten-percent change moves the volume
      by at least one order, so the column volumes ascend. */
  lemma ColumnOrdersAscend(v: Inputs)
    requires v.orders >= 10
    ensures StrictlySorted(ColumnOrders(SweepData(v)), IntLess)
  {
    var cols := ColumnOrders(SweepData(v));
    ColumnStep(v, 0);
    ColumnStep(v, 1);
    ColumnStep(v, 2);
    ColumnStep(v, 3);
    assert cols == [cols[0], cols[1], cols[2], cols[3], cols[4]];
    FiveAscending(cols[0], cols[1], cols[2], cols[3], cols[4]);
  }

  /** With at least ten daily orders, column `j + 1` of the sweep has more
      orders than column `j`. */
  lemma ColumnStep(v: Inputs, j: nat)
    requires v.orders >= 10 && j < 4
    ensures ColumnOrders(SweepData(v))[j] < ColumnOrders(SweepData(v))[j + 1]
  {
    SweepOrdersAt(v, j);
    SweepOrdersAt(v, j + 1);
    ChangedVolumesAscend(v.orders as real, j);
  }

  /** Five integers each below the next form a strictly ascending list. */
  lemma FiveAscending(a: int, b: int, c: int, d: int, e: int)
    requires a < b < c < d < e
    ensures StrictlySorted([a, b, c, d, e], IntLess)
  {
  }

  /** Column `j` of the sweep has the truncated `j`-th changed volume. */
  lemma SweepOrdersAt(v: Inputs, j: nat)
    requires j < 5
    ensures SweepData(v)[j].orders == Trunc(v.orders as real * (1.0 + OrdersRange[j]))
  {
    SweepRecordAt(v, 0, j);
  }

  /** From ten orders up, the `j + 1`-th changed volume truncates above the
      `j`-th. */
  lemma ChangedVolumesAscend(x: real, j: nat)
    requires x >= 10.0 && j < 4
    ensures Trunc(x * (1.0 + OrdersRange[j])) < Trunc(x * (1.0 + OrdersRange[j + 1]))
  {
    var a := 1.0 + OrdersRange[j];
    assert 1.0 + OrdersRange[j + 1] == a + 0.1 && a >= 0.8 by {
      assert j == 0 || j == 1 || j == 2 || j == 3;
    }
    TruncStep(x, a);
  }

  /** Scaling at least ten by a factor a tenth larger adds at least one, so
      the truncated amounts differ. */
  lemma TruncStep(x: real, a: real)
    requires x >= 10.0 && a >= 0.0
    ensures Trunc(x * a) < Trunc(x * (a + 0.1))
  {
    assert 0.0 <= x * a && x * a + 1.0 <= x * (a + 0.1);
  }

  /** With a positive price the five price changes give five distinct
      prices, ascending in visiting order, so they are the row axis. */
  lemma PositivePriceRows(v: Inputs)
    requires v.price > 0.0
    ensures PriceLevels(SweepData(v)) == RowPrices(SweepData(v))
  {
    RowPricesAscend(v);
    RowPricesAreThePrices(v);
    RealLessIsStrict();
    SortedUnique(RowPrices(SweepData(v)), PriceLevels(SweepData(v)), RealLess);
  }

  /** With at least ten daily orders the five volume changes give five
      distinct volumes, ascending in visiting order: the column axis. */
  lemma LargeVolumeColumns(v: Inputs)
    requires v.orders >= 10
    ensures OrderLevels(SweepData(v)) == ColumnOrders(SweepData(v))
  {
    ColumnOrdersAscend(v);
    ColumnOrdersAreTheOrders(v);
    IntLessIsStrict();
    SortedUnique(ColumnOrders(SweepData(v)), OrderLevels(SweepData(v)), IntLess);
  }

  /** With five daily orders the column volumes are 4, 4, 5, 5 and 6. */
  lemma SmallVolumeColumnValues(v: Inputs)
    requires v.orders == 5
    ensures ColumnOrders(SweepData(v)) == [4, 4, 5, 5, 6]
  {
    SweepRecordAt(v, 0, 0);
    SweepRecordAt(v, 0, 1);
    SweepRecordAt(v, 0, 2);
    SweepRecordAt(v, 0, 3);
    SweepRecordAt(v, 0, 4);
  }

  /** With a positive price, the first point of row `i` with volume `o` is
      the first point of the sweep with that row's price and that volume. */
  lemma FirstInRow(v: Inputs, i: nat, j0: nat, o: int)
    requires v.price > 0.0 && i < 5 && j0 < 5
    requires SweepData(v)[j0].orders == o
    requires forall j :: 0 <= j < j0 ==> SweepData(v)[j].orders != o
    ensures |PriceLevels(SweepData(v))| == 5
    ensures FirstMatch(SweepData(v), PriceLevels(SweepData(v))[i], o) == Some(5 * i + j0)
  {
    var data := SweepData(v);
    PositivePriceRows(v);
    var rows := RowPrices(data);
    var m := 5 * i + j0;
    assert m / 5 == i && m % 5 == j0;
    SweepSharesPrice(v, m, 5 * i);
    SweepSharesOrders(v, m, j0);
    forall k | 0 <= k < m
      ensures !Matches(data[k], rows[i], o)
    {
      SweepSharesPrice(v, k, 5 * (k / 5));
      SweepSharesOrders(v, k, k % 5);
      assert data[k].price == rows[k / 5];
    }
    FirstMatchIsLeast(data, rows[i], o, m);
  }

  /** With a positive price and at least ten daily orders the matrix is
      5 x 5 and cell (i, j) is the profit of sweep point 5 * i + j. */
  lemma RegularSweepGrid(v: Inputs, i: nat, j: nat)
    requires v.price > 0.0 && v.orders >= 10 && i < 5 && j < 5
    ensures |PriceLevels(SweepData(v))| == 5 && |OrderLevels(SweepData(v))| == 5
    ensures FirstMatch(SweepData(v), PriceLevels(SweepData(v))[i], OrderLevels(SweepData(v))[j])
         == Some(5 * i + j)
  {
    PositivePriceRows(v);
    LargeVolumeColumns(v);
    var data := SweepData(v);
    var cols := ColumnOrders(data);
    assert forall b :: 0 <= b < j ==> IntLess(cols[b], cols[j]) && data[b].orders == cols[b];
    FirstInRow(v, i, j, cols[j]);
  }

  /** With five daily orders truncation merges levels: -20% and -10% both
      give 4 orders and 0% and +10% both give 5, so the matrix has only three
      columns, and each cell takes the first of the merged points: cell
      (i, 0) is sweep point 5 * i, cell (i, 1) point 5 * i + 2 and cell
      (i, 2) point 5 * i + 4. */
  lemma SmallVolumeMergesColumns(v: Inputs, i: nat)
    requires v.orders == 5 && v.price > 0.0 && i < 5
    ensures OrderLevels(SweepData(v)) == [4, 5, 6]
    ensures |PriceLevels(SweepData(v))| == 5
    ensures FirstMatch(SweepData(v), PriceLevels(SweepData(v))[i], 4) == Some(5 * i)
    ensures FirstMatch(SweepData(v), PriceLevels(SweepData(v))[i], 5) == Some(5 * i + 2)
    ensures FirstMatch(SweepData(v), PriceLevels(SweepData(v))[i], 6) == Some(5 * i + 4)
  {
    var data := SweepData(v);
    SmallVolumeColumnValues(v);
    ColumnOrdersAreTheOrders(v);
    var cols := [4, 5, 6];
    assert StrictlySorted(cols, IntLess);
    assert forall y :: y in cols <==> y in ColumnOrders(data);
    IntLessIsStrict();
    SortedUnique(cols, OrderLevels(data), IntLess);
    assert data[0].orders == 4 && data[1].orders == 4 && data[2].orders == 5;
    assert data[3].orders == 5 && data[4].orders == 6;
    FirstInRow(v, i, 0, 4);
    FirstInRow(v, i, 2, 5);
    FirstInRow(v, i, 4, 6);
  }

  /** With a positive price and at least ten daily orders the heat map of the
      sweep is 5 x 5 and cell (i, j) holds the profit of sweep point
      5 * i + j. */
  lemma RegularHeatmapCell(v: Inputs, h: Heatmap, i: nat, j: nat)
    requires v.price > 0.0 && v.orders >= 10 && i < 5 && j < 5
    requires Assembled(SweepData(v), h)
    ensures |h.prices| == 5 && |h.orders| == 5
    ensures h.profits[i][j] == SweepData(v)[5 * i + j].profit
  {
    RegularSweepGrid(v, i, j);
  }

  /** With five daily orders and a positive price the heat map of the sweep
      has five rows but only three columns, for 4, 5 and 6 orders. */
  lemma SmallVolumeHeatmap(v: Inputs, h: Heatmap, i: nat)
    requires v.orders == 5 && v.price > 0.0 && i < 5
    requires Assembled(SweepData(v), h)
    ensures |h.prices| == 5 && h.orders == [4, 5, 6]
    ensures h.profits[i] == [SweepData(v)[5 * i].profit, SweepData(v)[5 * i + 2].profit,
                             SweepData(v)[5 * i + 4].profit]
  {
    SmallVolumeMergesColumns(v, i);
    assert h.orders[0] == 4 && h.orders[1] == 5 && h.orders[2] == 6;
    assert |h.profits[i]| == 3;
  }

  /** For every input the matrix of the sweep has at most five rows and at
      most five columns: there are only five price and five volume changes. */
  lemma SweepLevelsAtMostFive(v: Inputs)
    ensures |PriceLevels(SweepData(v))| <= 5 && |OrderLevels(SweepData(v))| <= 5
  {
    RowPricesAreThePrices(v);
    ColumnOrdersAreTheOrders(v);
    RealLessIsStrict();
    IntLessIsStrict();
    SortedNoLongerThan(PriceLevels(SweepData(v)), RowPrices(SweepData(v)), RealLess);
    SortedNoLongerThan(OrderLevels(SweepData(v)), ColumnOrders(SweepData(v)), IntLess);
  }
}


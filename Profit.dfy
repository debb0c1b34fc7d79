/** The profit calculation: monthly sales, the cost breakdown, margins and
    the break-even volume for one set of operating parameters, and the data
    the cost-structure pie chart is drawn from. */
module Profit {
  import opened Common
  import opened Form

  /** The one error the calculation can raise: dividing the monthly
      break-even volume by zero business days. */
  datatype CalcError = ZeroDivision

  datatype Financials = Financials(
    sales: real, directCost: real, fixedCost: real, totalVarCost: real,
    grossProfit: real, netProfit: real, grossMargin: real, netMargin: real,
    breakevenOrders: real, breakevenDaily: real)

  /** Rent, staff and utilities: the monthly cost that does not depend on
      volume. */
  function FixedCost(v: Inputs): real {
    v.rent + v.staff + v.utility
  }

  /** What one order leaves after its direct cost and its variable cost. */
  function ContributionMargin(v: Inputs): real {
    v.price * (1.0 - v.costRate) - v.varCost
  }

  /** The calculation. Margins are zero unless sales are positive; break-even
      figures are zero unless the contribution margin is positive, and then
      dividing by zero business days fails. */
  function Compute(v: Inputs): (r: Result<Financials, CalcError>)
    ensures r.Failure? <==> ContributionMargin(v) > 0.0 && v.days == 0
    ensures r.Success? ==>
      var f := r.value;
      var monthlyOrders := v.orders as real * v.days as real;
      && f.sales == v.price * monthlyOrders
      && f.directCost == f.sales * v.costRate
      && f.fixedCost == v.rent + v.staff + v.utility
      && f.totalVarCost == v.varCost * monthlyOrders
      && f.netProfit == f.sales * (1.0 - v.costRate) - f.fixedCost - v.varCost * monthlyOrders
      && f.grossProfit + f.directCost == f.sales
      && f.netProfit == f.grossProfit - f.fixedCost - f.totalVarCost
      && (f.sales <= 0.0 ==> f.grossMargin == 0.0 && f.netMargin == 0.0)
      && (f.sales > 0.0 ==> f.grossMargin == f.grossProfit / f.sales * 100.0
                            && f.netMargin == f.netProfit / f.sales * 100.0)
      && (ContributionMargin(v) <= 0.0 ==> f.breakevenOrders == 0.0 && f.breakevenDaily == 0.0)
      && (ContributionMargin(v) > 0.0 ==>
            && f.breakevenOrders * ContributionMargin(v) == f.fixedCost
            && f.breakevenDaily * v.days as real == f.breakevenOrders)
  {
    var sales := v.price * v.orders as real * v.days as real;
    var directCost := sales * v.costRate;
    var fixedCost := FixedCost(v);
    var totalVarCost := v.varCost * v.orders as real * v.days as real;
    var grossProfit := sales - directCost;
    var netProfit := grossProfit - fixedCost - totalVarCost;
    var grossMargin := if sales > 0.0 then grossProfit / sales * 100.0 else 0.0;
    var netMargin := if sales > 0.0 then netProfit / sales * 100.0 else 0.0;
    var cm := ContributionMargin(v);
    if cm > 0.0 && v.days == 0 then
      Failure(ZeroDivision)
    else
      var breakevenOrders := if cm > 0.0 then fixedCost / cm else 0.0;
      var breakevenDaily := if cm > 0.0 then breakevenOrders / v.days as real else 0.0;
      Success(Financials(sales, directCost, fixedCost, totalVarCost, grossProfit, netProfit,
                         grossMargin, netMargin, breakevenOrders, breakevenDaily))
  }

  /** Net profit is the contribution of every order of the month less the
      fixed cost. */
  lemma NetProfitByContribution(v: Inputs)
    requires Compute(v).Success?
    ensures Compute(v).value.netProfit
      == v.orders as real * v.days as real * ContributionMargin(v) - FixedCost(v)
  {
    var n := v.orders as real * v.days as real;
    var f := Compute(v).value;
    assert f.netProfit == (v.price * n) * (1.0 - v.costRate) - FixedCost(v) - v.varCost * n;
    Regroup(v.price, v.costRate, v.varCost, n, FixedCost(v));
  }

  /** Collecting the per-order terms of a monthly total. */
  lemma Regroup(p: real, rate: real, c: real, n: real, fixed: real)
    ensures (p * n) * (1.0 - rate) - fixed - c * n == n * (p * (1.0 - rate) - c) - fixed
  {
    calc {
      (p * n) * (1.0 - rate) - fixed - c * n;
      { assert (p * n) * (1.0 - rate) == n * (p * (1.0 - rate)); }
      n * (p * (1.0 - rate)) - n * c - fixed;
    }
  }

  /** With a positive contribution margin and a positive number of business
      days, the store loses money exactly when its daily volume is below the
      daily break-even figure, and breaks even exactly at it. */
  lemma BreakEvenThreshold(v: Inputs)
    requires ContributionMargin(v) > 0.0 && v.days > 0
    ensures Compute(v).Success?
    ensures Compute(v).value.netProfit < 0.0 <==> (v.orders as real) < Compute(v).value.breakevenDaily
    ensures Compute(v).value.netProfit == 0.0 <==> (v.orders as real) == Compute(v).value.breakevenDaily
  {
    var f := Compute(v).value;
    var cm := ContributionMargin(v);
    var d := v.days as real;
    var o := v.orders as real;
    NetProfitByContribution(v);
    assert f.netProfit == o * d * cm - f.fixedCost;
    assert f.breakevenDaily * d * cm == f.fixedCost;
    assert d * cm > 0.0;
    assert f.netProfit == (o - f.breakevenDaily) * (d * cm);
    ProductSign(o - f.breakevenDaily, d * cm);
  }

  /** The sign of a product with a positive factor is that of the other. */
  lemma ProductSign(x: real, y: real)
    requires y > 0.0
    ensures x * y < 0.0 <==> x < 0.0
    ensures x * y == 0.0 <==> x == 0.0
  {
    if x < 0.0 {
      assert (-x) * y > 0.0;
    } else if x > 0.0 {
      assert x * y > 0.0;
    }
  }

  /** The worked example of the second-tier defaults: a monthly loss of 7500,
      ten percent of sales, with break-even at 3625 orders a month. */
  lemma SecondTierExample()
    ensures
      var r := Compute(Inputs(25.0, 100, 30, 15000.0, 24000.0, 4500.0, 0.40, 3.0, DefaultCity));
      && r.Success?
      && r.value.sales == 75000.0 && r.value.directCost == 30000.0
      && r.value.fixedCost == 43500.0 && r.value.totalVarCost == 9000.0
      && r.value.grossProfit == 45000.0 && r.value.netProfit == -7500.0
      && r.value.netMargin == -10.0 && r.value.breakevenOrders == 3625.0
  {
  }

  /** Raising the daily volume of that example to 150 turns the loss into a
      profit: the daily break-even figure lies between 100 and 150. */
  lemma SecondTierCrossesBreakEven()
    ensures
      var r := Compute(Inputs(25.0, 150, 30, 15000.0, 24000.0, 4500.0, 0.40, 3.0, DefaultCity));
      && r.Success? && r.value.sales == 112500.0 && r.value.netProfit == 10500.0
      && 100.0 < r.value.breakevenDaily < 150.0
  {
  }

  /** A contribution margin that is exactly zero, as with price 10, a 70%
      cost rate and 3 per order, takes the zero branch: no division by the
      zero business days happens and both break-even figures are 0. */
  lemma ZeroMarginNoDivision(orders: int, city: string)
    ensures
      var r := Compute(Inputs(10.0, orders, 0, 15000.0, 24000.0, 4500.0, 0.70, 3.0, city));
      && r.Success? && r.value.breakevenOrders == 0.0 && r.value.breakevenDaily == 0.0
  {
    assert ContributionMargin(Inputs(10.0, orders, 0, 15000.0, 24000.0, 4500.0, 0.70, 3.0, city)) == 0.0;
  }

  // ----- cost-structure pie chart -----

  /** One slice of the pie: an amount with its label and colour. */
  datatype Slice = Slice(amount: real, caption: string, color: string)

  const DirectLabel: string := "直接成本"
  const FixedLabel: string := "固定成本"
  const VariableLabel: string := "变动成本"
  const ProfitLabel: string := "净利润"

  /** The four candidate slices, in chart order; a loss is drawn as zero. */
  function CostEntries(directCost: real, fixedCost: real, varCost: real, netProfit: real): (r: seq<Slice>)
    ensures |r| == 4
    ensures r[0].caption == DirectLabel && r[1].caption == FixedLabel
         && r[2].caption == VariableLabel && r[3].caption == ProfitLabel
    ensures r[0].amount == directCost && r[1].amount == fixedCost && r[2].amount == varCost
    ensures 0.0 <= r[3].amount && netProfit <= r[3].amount
         && (netProfit > 0.0 ==> r[3].amount == netProfit)
         && (netProfit <= 0.0 ==> r[3].amount == 0.0)
  {
    [Slice(directCost, DirectLabel, "#ff9999"), Slice(fixedCost, FixedLabel, "#66b3ff"),
     Slice(varCost, VariableLabel, "#99ff99"), Slice(ClampAtZero(netProfit), ProfitLabel, "#ffcc99")]
  }

  /** `r` can be obtained from `s` by deleting elements. */
  ghost predicate Subsequence<T>(r: seq<T>, s: seq<T>)
    decreases |s|
  {
    if r == [] then true
    else if s == [] then false
    else (r[0] == s[0] && Subsequence(r[1..], s[1..])) || Subsequence(r, s[1..])
  }

  /** The slices with a strictly positive amount, in their original order. */
  function KeepPositive(s: seq<Slice>): (r: seq<Slice>)
    ensures Subsequence(r, s)
    ensures forall i :: 0 <= i < |r| ==> r[i].amount > 0.0
    ensures forall i :: 0 <= i < |s| && s[i].amount > 0.0 ==> s[i] in r
    ensures forall x :: multiset(r)[x] == if x.amount > 0.0 then multiset(s)[x] else 0
  {
    if s == [] then []
    else
      assert s == [s[0]] + s[1..];
      if s[0].amount > 0.0 then [s[0]] + KeepPositive(s[1..])
      else KeepPositive(s[1..])
  }

  /** The pie data for one calculation. */
  function PieData(directCost: real, fixedCost: real, varCost: real, netProfit: real): (r: seq<Slice>)
    ensures |r| <= 4
    ensures forall i :: 0 <= i < |r| ==> r[i].amount > 0.0
    ensures forall x :: x in r ==> x in CostEntries(directCost, fixedCost, varCost, netProfit)
    ensures netProfit > 0.0 ==> Slice(netProfit, ProfitLabel, "#ffcc99") in r
    ensures netProfit <= 0.0 ==> forall i :: 0 <= i < |r| ==> r[i].caption != ProfitLabel
  {
    var e := CostEntries(directCost, fixedCost, varCost, netProfit);
    assert e == [e[0], e[1], e[2], e[3]];
    KeepPositiveOfFour(e[0], e[1], e[2], e[3]);
    IfPositiveOfFour(e[0], e[1], e[2], e[3]);
    var r := KeepPositive(e);
    assert netProfit <= 0.0 ==> forall i :: 0 <= i < |r| ==> r[i].caption != ProfitLabel by {
      if netProfit <= 0.0 {
        forall i | 0 <= i < |r|
          ensures r[i].caption != ProfitLabel
        {
          assert r[i] in r;
          assert r[i] == e[0] || r[i] == e[1] || r[i] == e[2];
          assert |ProfitLabel| == 3 && |DirectLabel| == |FixedLabel| == |VariableLabel| == 4;
        }
      }
    }
    r
  }

  /** Four filtered slices: at most four, and a slice is kept exactly when it
      is one of the four and positive. */
  lemma IfPositiveOfFour(a: Slice, b: Slice, c: Slice, d: Slice)
    ensures var t := IfPositive(a) + IfPositive(b) + IfPositive(c) + IfPositive(d);
      && |t| <= 4
      && forall x :: x in t <==> (x == a || x == b || x == c || x == d) && x.amount > 0.0
  {
  }

  /** The one-slice list of `x` if its amount is positive, else nothing. */
  function IfPositive(x: Slice): seq<Slice> {
    if x.amount > 0.0 then [x] else []
  }

  /** Exactly the positive amounts among direct, fixed and variable cost and
      net profit appear, in that order, each with its own label and colour;
      a loss or a zero profit leaves the profit slice out. */
  lemma PieDataExact(directCost: real, fixedCost: real, varCost: real, netProfit: real)
    ensures PieData(directCost, fixedCost, varCost, netProfit)
      == IfPositive(Slice(directCost, DirectLabel, "#ff9999"))
       + IfPositive(Slice(fixedCost, FixedLabel, "#66b3ff"))
       + IfPositive(Slice(varCost, VariableLabel, "#99ff99"))
       + IfPositive(Slice(netProfit, ProfitLabel, "#ffcc99"))
  {
    var s4 := Slice(ClampAtZero(netProfit), ProfitLabel, "#ffcc99");
    KeepPositiveOfFour(Slice(directCost, DirectLabel, "#ff9999"),
                       Slice(fixedCost, FixedLabel, "#66b3ff"),
                       Slice(varCost, VariableLabel, "#99ff99"), s4);
    assert IfPositive(s4) == IfPositive(Slice(netProfit, ProfitLabel, "#ffcc99"));
  }

  /** Filtering four slices keeps each one on its own merit. */
  lemma KeepPositiveOfFour(a: Slice, b: Slice, c: Slice, d: Slice)
    ensures KeepPositive([a, b, c, d]) == IfPositive(a) + IfPositive(b) + IfPositive(c) + IfPositive(d)
  {
    calc {
      KeepPositive([a, b, c, d]);
      { assert [a, b, c, d] == [a] + [b, c, d]; KeepPositiveCons(a, [b, c, d]); }
      IfPositive(a) + KeepPositive([b, c, d]);
      { assert [b, c, d] == [b] + [c, d]; KeepPositiveCons(b, [c, d]); }
      IfPositive(a) + (IfPositive(b) + KeepPositive([c, d]));
      { assert [c, d] == [c] + [d]; KeepPositiveCons(c, [d]); }
      IfPositive(a) + (IfPositive(b) + (IfPositive(c) + KeepPositive([d])));
      { assert [d] == [d] + []; KeepPositiveCons(d, []); }
      IfPositive(a) + (IfPositive(b) + (IfPositive(c) + (IfPositive(d) + [])));
      IfPositive(a) + IfPositive(b) + IfPositive(c) + IfPositive(d);
    }
  }

  /** One step of the filter: the head is kept exactly when it is positive. */
  lemma KeepPositiveCons(x: Slice, rest: seq<Slice>)
    ensures KeepPositive([x] + rest) == IfPositive(x) + KeepPositive(rest)
  {
    assert ([x] + rest)[1..] == rest;
  }

}

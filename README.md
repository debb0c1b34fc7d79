# Fried-chicken store manager: a verified model of its financial engine

The store manager is a desktop calculator for one fried-chicken outlet.
The user picks a city tier, optionally loads that tier's preset defaults into an
eight-field form, and presses one of the two calculation buttons:

- **calculate profit** computes monthly sales, the cost breakdown, the margins and
  the break-even volume, draws a cost-structure pie, and appends an entry to an
  in-memory history;
- **sensitivity analysis** recomputes net profit on a 5 x 5 grid of price and
  volume changes (-20% to +20%), then rearranges the 25 points into the matrix
  behind a heat map.

The model is split into these modules:

- `Common`: `Option`/`Result`, and truncation toward zero (Python's `int()` on
  a float).
- `Form`: the form as a map from field name to number, the three presets, preset
  application, and reading the form into a parameter record. The cost rate is
  entered as a percentage and divided by 100 when read.
- `Profit`: the profit calculation as a function with an explicit division-by-zero
  error, and the pie-data filter.
- `Sensitivity`: the sweep, a method with nested loops proved equal to the
  function `SweepData` over 25 points, plus lemmas tying its points to the
  profit calculation.
- `Levels`: sorted lists of distinct values, and the fact that a strictly
  ascending list is determined by its values.
- `Heatmap`: matrix assembly by first-match lookup, a proof that the lookup never
  fails on sweep data, and the matrix's exact shape, including the case where
  truncation merges volume levels.
- `Store`: the `StoreManager` class, whose fields are the form, the selected
  tier and the history. It has methods for choosing a tier, editing a field,
  saving history, and the load-preset, calculate-profit and sensitivity
  buttons. The clear-results button only resets the display and has no method.

Amounts are modelled as exact `real` numbers. `orders` and `days` are `int`.

## Model

| member | source | states |
|---|---|---|
| Common.Trunc | chicken_manager.py:374 | the integer conversion drops the fraction toward zero: for x >= 0 it is the largest integer not above x, and for x < 0 the smallest not below x |
| Common.ClampAtZero | chicken_manager.py:313 | max(0, x): never negative, never below x, and either 0 or x |
| Form.LookupPreset | chicken_manager.py:26-51 | a preset exists exactly for the three tier names of the table (any other name is the KeyError of the lookup at line 181); each has a cost rate strictly between 0 and 1 and a positive average volume |
| Form.ApplyPreset | chicken_manager.py:183-199 | loading a preset sets rent, staff, utility, price and orders to the preset's values and cost_rate to the percentage (rate * 100); every other field, including days and var_cost, keeps its value |
| Form.ReadInputs | chicken_manager.py:206-220 | reading succeeds exactly when the two integer fields hold whole numbers; then every field is carried over, and the cost rate is the percentage divided by 100 |
| Form.PresetRoundTrip | chicken_manager.py:183-213 | after loading a preset, reading the form gives exactly the preset's price, volume, costs and fractional cost rate, with days and var_cost unchanged; it fails only when days is not whole |
| Form.ApplyPresetIdempotent | chicken_manager.py:183-199 | loading the same preset twice leaves the same form as loading it once |
| Form.DefaultFormIsSecondTier | chicken_manager.py:115-124 | the initial form has exactly the eight fields, holds the second-tier preset, and reads as price 25, 100 orders, 30 days and cost rate 0.40 |
| Profit.Compute | chicken_manager.py:229-246 | with fixed cost `FixedCost` = rent + staff + utility (line 231) and contribution margin `ContributionMargin` = price * (1 - rate) - var_cost (line 240): fails exactly when the contribution margin is positive and days is 0; otherwise sales = price * orders * days, direct cost = sales * rate, variable cost = var_cost * orders * days, gross profit = sales - direct cost, net profit = sales * (1 - rate) - fixed cost - var_cost * orders * days, both margins are 0 unless sales > 0, and when the margin is positive the break-even figures satisfy orders * margin = fixed cost and daily * days = orders, which are 0 otherwise |
| Profit.NetProfitByContribution | chicken_manager.py:229-240 | net profit is the monthly volume times the contribution margin, minus the fixed cost |
| Profit.BreakEvenThreshold | chicken_manager.py:240-246 | with a positive margin and positive days, the store loses money exactly when the daily volume is below the daily break-even figure, and breaks even exactly at it |
| Profit.SecondTierExample | chicken_manager.py:229-246 | the default parameters give sales 75000, net profit -7500, net margin -10% and break-even at 3625 orders a month |
| Profit.ZeroMarginNoDivision | chicken_manager.py:240-246 | with price 10, cost rate 70% and 3 per order the margin is exactly 0, so zero business days cause no error and both break-even figures are 0 |
| Profit.SecondTierCrossesBreakEven | chicken_manager.py:229-246 | with 150 daily orders the same store makes 10500, and the daily break-even lies between 100 and 150 |
| Profit.KeepPositive | chicken_manager.py:318 | the result is a subsequence of the input, every amount in it is positive, and each entry occurs in it exactly as often as in the input if its amount is positive, and not at all otherwise |
| Profit.CostEntries | chicken_manager.py:313-315 | the four candidate slices carry the direct, fixed and variable cost and max(0, net profit), in that order, with the four labels |
| Profit.PieData | chicken_manager.py:313-318 | the pie has at most four slices, all positive, each one of the candidate slices; a positive net profit is a slice, and a loss or zero profit gives no profit slice |
| Profit.PieDataExact | chicken_manager.py:313-318 | the pie data is exactly the positive ones among direct, fixed and variable cost and net profit, in that order, each with its own label and colour; a loss or zero profit drops the profit slice |
| Sensitivity.SweepCell | chicken_manager.py:373-374 | a point's price is the base price scaled by the price change, and its volume is the scaled volume truncated toward zero |
| Sensitivity.SweepData | chicken_manager.py:371-386 | the sweep has exactly 25 points |
| Sensitivity.Sweep | chicken_manager.py:360-386 | the nested loops produce exactly `SweepData`'s 25 points, in visiting order |
| Sensitivity.SweepIndex | chicken_manager.py:371-379 | point 5 * i + j is computed from the i-th price change and the j-th volume change |
| Sensitivity.SweepRecordAt | chicken_manager.py:371-374 | point 5 * i + j has price price * (1 + P[i]) and volume trunc(orders * (1 + O[j])) |
| Sensitivity.CellProfit | chicken_manager.py:376-379 | a point's profit is its monthly volume times the contribution margin at its price, minus the fixed cost |
| Sensitivity.CellAgreesWithCompute | chicken_manager.py:376-379 | a point's profit equals the profit calculation's net profit for the point's own price and volume, with the same fixed cost |
| Sensitivity.SweepAgreesWithCompute | chicken_manager.py:360-379 | every one of the 25 points agrees with the profit calculation run on its price and volume, with the base fixed cost |
| Sensitivity.SweepBaseCase | chicken_manager.py:373-379 | point 12 has the unchanged price and volume, and its profit is the profit calculation's net profit |
| Levels.Insert | chicken_manager.py:410-411 | inserting into a strictly ascending list keeps it strictly ascending and adds exactly the new value |
| Levels.SortedDistinct | chicken_manager.py:410-411 | sorted(set(...)) is strictly ascending and holds exactly the input's values |
| Levels.SortedUnique | chicken_manager.py:410-411 | two strictly ascending lists with the same values are equal |
| Heatmap.PriceLevels | chicken_manager.py:410 | the row axis is strictly ascending and holds exactly the prices of the records |
| Heatmap.OrderLevels | chicken_manager.py:411 | the column axis is strictly ascending and holds exactly the volumes of the records |
| Heatmap.FirstMatchFrom | chicken_manager.py:417 | the lookup returns the least position from the start whose record matches, or nothing when none matches |
| Heatmap.FirstMatchIsLeast | chicken_manager.py:417 | the first matching position is the one that the `[0]` lookup takes |
| Heatmap.BuildHeatmap | chicken_manager.py:413-419 | the matrix is produced exactly when every grid cell has a record; then its axes are the two level lists, it has one row per price and one column per volume, and each cell is the profit of the first matching record |
| Heatmap.SweepCellsAllFound | chicken_manager.py:410-419 | on sweep data every cell of the grid has a record, so the `[0]` lookup never fails |
| Heatmap.SweepSharesPrice | chicken_manager.py:371-373 | points of the same price change have the same price |
| Heatmap.SweepSharesOrders | chicken_manager.py:372-374 | points of the same volume change have the same volume |
| Heatmap.RowPricesAreThePrices | chicken_manager.py:410 | the row prices are exactly the distinct prices of the sweep |
| Heatmap.ColumnOrdersAreTheOrders | chicken_manager.py:411 | the column volumes are exactly the distinct volumes of the sweep |
| Heatmap.RowPricesAscend | chicken_manager.py:363 | with a positive price the row prices strictly ascend |
| Heatmap.AdjacentRows | chicken_manager.py:371-373 | with a positive price each row of the sweep has a strictly higher price than the one before |
| Heatmap.ColumnOrdersAscend | chicken_manager.py:364 | with at least ten daily orders the column volumes strictly ascend |
| Heatmap.ChangedVolumesAscend | chicken_manager.py:364-374 | from ten orders up, each ten-percent step of the volume change raises the truncated volume by at least one |
| Heatmap.SweepOrdersAt | chicken_manager.py:372-374 | column j of the sweep has the j-th changed volume, truncated toward zero |
| Heatmap.ColumnStep | chicken_manager.py:364-374 | from ten daily orders up, every column of the sweep has more orders than the column before it |
| Heatmap.PositivePriceRows | chicken_manager.py:410 | with a positive price the row axis is exactly the five prices in visiting order |
| Heatmap.LargeVolumeColumns | chicken_manager.py:411 | with at least ten daily orders the column axis is exactly the five volumes in visiting order |
| Heatmap.SmallVolumeColumnValues | chicken_manager.py:374 | with five daily orders truncation gives column volumes 4, 4, 5, 5, 6 |
| Heatmap.FirstInRow | chicken_manager.py:417 | with a positive price, within row i, the first sweep point with a given volume is the first match |
| Heatmap.RegularSweepGrid | chicken_manager.py:410-419 | with a positive price and at least ten orders both axes have five levels, and cell (i, j) is found at point 5 * i + j |
| Heatmap.SmallVolumeMergesColumns | chicken_manager.py:410-419 | with a positive price and five daily orders the columns are 4, 5, 6 and their cells are found at points 5i, 5i + 2 and 5i + 4 |
| Heatmap.RegularHeatmapCell | chicken_manager.py:410-419 | with a positive price and at least ten orders the matrix of the sweep is 5 x 5 and cell (i, j) holds the profit of point 5 * i + j |
| Heatmap.SmallVolumeHeatmap | chicken_manager.py:410-419 | with a positive price and five daily orders the matrix has five rows and three columns, and row i holds the profits of points 5i, 5i + 2, 5i + 4 |
| Heatmap.SweepLevelsAtMostFive | chicken_manager.py:410-411 | for every input the sweep's matrix has at most five rows and at most five columns |
| Levels.SortedNoLongerThan | chicken_manager.py:410-411 | a strictly ascending list whose values all occur in another list is no longer than it |
| Store.StoreManager.constructor | chicken_manager.py:100-131 | a new window shows the default form with the second tier selected, and the history loaded from storage |
| Store.StoreManager.SelectCity | chicken_manager.py:100-106 | choosing a tier from the read-only list selects it; only preset names can be chosen |
| Store.StoreManager.EditField | chicken_manager.py:127-131 | typing into a field changes that field only |
| Store.StoreManager.LoadPreset | chicken_manager.py:178-199 | the form becomes the selected tier's preset applied to the previous form |
| Store.StoreManager.SaveHistory | chicken_manager.py:73-76 | the history grows by one, the stamped entry is last, and all earlier entries are unchanged |
| Store.StoreManager.CalculateProfit | chicken_manager.py:222-302 | unreadable input, and a division by zero, leave the history untouched; a successful calculation reports the figures and the pie data and appends exactly one profit-calculation entry with the parameters, sales, net profit and net margin |
| Store.StoreManager.SensitivityAnalysis | chicken_manager.py:345-403 | nothing is produced exactly when the input is unreadable; otherwise the 25 sweep points of the form's parameters, and a heat-map matrix assembled from them without a failing lookup |

## Left out

- Widgets, message boxes and the report text (the window layout, the f-string reports, the empty tier-change handler, and clearing the results) are presentation only and have no model.
- Chart drawing (pie, bar chart, heat-map image, ticks, colour bar) calls into a plotting library. Only the data handed to the pie and to the heat map is modelled. The bar chart shows sales, the sum of the three costs, and net profit. These are figures `Profit.Compute` already pins down, so the bar chart has no member of its own.
- History persistence is left out: reading and writing the JSON file and the existence check are file I/O. The constructor takes the loaded history as a parameter, and the history is an in-memory field.
- The save time comes from the clock. `SaveHistory` and `CalculateProfit` take it as a `now` string parameter.
- Text parsing of the entries is library behaviour. A field is modelled as the number it shows. The integer parse of `orders` and `days` is modelled only as failing on a number with a fraction, and no other text is represented.
- Form.ReadInputs: it takes a form that has all eight fields. The widgets always create them, so a missing-field error cannot occur.
- Floating-point rounding is left out, and amounts are exact reals. Where the source's double arithmetic rounds differently, the model does not follow it:
  - A contribution margin that is exactly 0 over the reals can be a tiny positive double. With price 10, cost rate 70 and var_cost 3, the double result is about 4.4e-16. With 0 business days the source then divides by zero and raises an error. `Profit.Compute` takes the zero branch instead and succeeds with both break-even figures 0; `Profit.ZeroMarginNoDivision` states this.
  - Scaled sweep prices carry rounding in the source (25 * 1.1 is 27.500000000000004 as a double) and are exact here.
  - The heat map's distinct-value test is exact equality of reals.
- Store.StoreManager.SensitivityAnalysis: the sweep's per-point net margin feeds only the report text, so it is not part of the records.
- Store.StoreManager.LoadPreset: it omits the lookup failure for an unknown tier. The read-only tier list only offers the three names, and `Valid()` keeps the selected tier among them. The unknown-tier case of the lookup itself is `Form.LookupPreset`.

# Home energy consumption calculator — Dafny model

The application is a one-page form. The user picks a home size (`1BHK`, `2BHK`
or `3BHK`) and ticks which of three appliances they own: air conditioner,
refrigerator and washing machine. The page then shows:

- an estimate of the home's electrical load in kilowatts;
- a five-entry breakdown of that load (Lights, Fans, AC, Fridge, Washing Machine);
- a pie chart of the non-zero entries;
- a monthly and a daily cost at a tariff of 6 per kWh;
- the number of active appliances.

This project models that calculation as pure Dafny functions and proves its
properties. The calculation is in `green_skill.py` between lines 131 and 218.

- `breakdown.dfy`, module `Breakdown`: a labelled entry, the breakdown as an
  ordered sequence of entries (dictionary insertion order), its sum, and the
  positive-entry filter that feeds the chart.
- `energy.dfy`, module `Energy`:
  - the size labels and the label-to-number lookup;
  - the light/fan table, the base load and the appliance ratings;
  - the total and the breakdown;
  - the chart input and the active-appliance count;
  - the two costs;
  - `Calculate`, one full run of the page.

Power and money are exact `real`s. Appliance load is a natural number, as the
source accumulates it in an integer.

## Model

| member | source | states |
|---|---|---|
| Energy.IndexOf | green_skill.py:131 | the position returned holds the sought label, and no earlier position does (first occurrence) |
| Energy.BhkNum | green_skill.py:131 | the BHK number lies in 1..3, and it is the one-based position of the chosen label among the options |
| Energy.BhkNumOfEachLabel | green_skill.py:91 | "1BHK", "2BHK" and "3BHK" map to 1, 2 and 3 |
| Energy.FixtureCounts | green_skill.py:134-145 | lights equal fans; for BHK 1..3 each count is BHK+1; any other number gets the 3BHK counts (4) |
| Energy.Base | green_skill.py:134-145 | the base literal equals lights·0.4 + fans·0.8 for the same size; for BHK 1..3 it is (BHK+1)·1.2; it lies in 2.4..4.8 |
| Energy.ApplianceEnergy | green_skill.py:148-154 | appliance load lies in 0..9; it is 0 exactly when nothing is ticked, and 9 exactly when everything is |
| Energy.ApplianceEnergyIsSumOfRatings | green_skill.py:148-154 | the accumulated appliance load equals the sum of ratings 3/4/2 over the ticked appliances |
| Energy.Total | green_skill.py:156 | the total lies in 2.4..13.8 kW, so it is always positive; it equals the base load exactly when no appliance is ticked |
| Energy.TotalWithAppliance | green_skill.py:148-156 | ticking an unticked appliance raises the total by exactly its rating; re-ticking a ticked one changes nothing |
| Energy.TotalMonotone | green_skill.py:148-156 | a selection that contains another never gives a smaller total |
| Energy.TotalMonotoneInSize | green_skill.py:134-156 | a larger home (BHK 1..3) never gives a smaller total for the same appliances |
| Energy.EnergyBreakdown | green_skill.py:159-165 | labels are exactly Lights, Fans, AC, Fridge, Washing Machine in that order; Lights is lights·0.4 and Fans is fans·0.8 for the size's fixture counts; every value is non-negative; each appliance entry is its rating if ticked and exactly 0 otherwise |
| Energy.BreakdownSumsToTotal | green_skill.py:156-165 | the five breakdown values add up to the total |
| Breakdown.KeepPositive | green_skill.py:181 | an entry is kept if and only if it is in the breakdown and its value is positive; with no negative entries the kept values sum to the same total |
| Breakdown.KeepPositiveIdempotent | green_skill.py:181 | filtering the chart input again changes nothing |
| Breakdown.KeepPositiveAppend | green_skill.py:181 | the filter keeps the breakdown order: filtering a concatenation concatenates the filtered parts |
| Breakdown.NameSurvivesKeepPositive | green_skill.py:181 | a label reaches the chart exactly when some positive entry carries it |
| Energy.ChartKeepsAppliance | green_skill.py:181 | an appliance's label reaches the chart if and only if its box is ticked |
| Energy.ChartLength | green_skill.py:181 | the chart has two entries more than the number of ticked appliances |
| Energy.ChartEntries | green_skill.py:177-181 | the chart input holds exactly the positive breakdown entries; it always keeps Lights and Fans; it keeps each appliance iff ticked; it has 2 + active-count entries; its values still sum to the total |
| Energy.CountTrue | green_skill.py:213 | the count of true flags is at most the number of flags; it is 0 iff none is true, and the full length iff all are true |
| Energy.ActiveCount | green_skill.py:213 | the active count lies in 0..3; it is 0 iff nothing is ticked, and 3 iff everything is |
| Energy.ActiveCountBySlots | green_skill.py:213 | the active count adds one for each ticked box independently |
| Energy.DailyCost | green_skill.py:218 | the daily cost is the load times 24 hours times the tariff of 6, and is non-negative for a non-negative load |
| Energy.MonthlyCost | green_skill.py:172 | the monthly cost is exactly thirty daily costs, and is non-negative for a non-negative load |
| Energy.CostIsLinear | green_skill.py:172 | both costs are additive in the load; one kW for a day costs 24 hours times the tariff |
| Energy.CostMonotone | green_skill.py:218 | a larger load never gives a smaller daily or monthly cost |
| Energy.CostBounds | green_skill.py:172 | every estimate's daily cost lies in 345.6..1987.2 and its monthly cost in 10368..59616 |
| Energy.Calculate | green_skill.py:131-218 | one run: the number matches the label; the breakdown, total and active count are those of the chosen size and ticked boxes; the breakdown is non-negative and sums to the total, which is in 2.4..13.8; the daily cost is that of the total and monthly = 30·daily; the chart is the filtered breakdown, sums to the total and has 2 + active-count entries |
| Energy.Examples | green_skill.py:134-172 | worked cases: 1BHK with nothing ticked gives 0.8/1.6/0/0/0 and 2.4 kW; 2BHK with AC gives 6.6 kW; 3BHK with everything gives 1.6/3.2/3/4/2 and 13.8 kW, costing 59616 a month |

## Left out

- Widget, layout, sidebar and styling calls (green_skill.py:1-126, 197-273) are left out. They only draw the page. The name, age, city, area and property type the user enters never reach the calculation.
- The session-state store (green_skill.py:53-57, 159) is left out. The breakdown is a returned value instead.
- Pie-chart construction and rendering with Plotly (green_skill.py:183-194) is left out. Only the filter that feeds the chart is modelled.
- The energy-saving tips (green_skill.py:222-264) are left out. They are fixed text. Their guard, total > 0, always holds, which `Energy.Total` states.
- Binary floating-point rounding is not modelled. In the source, `2 * 0.4 + 2 * 0.8` may differ from 2.4 in the last bit. The model uses exact reals.
- The `:.1f` and `:.0f` display formatting is not modelled. It is presentation only.
- There is no invalid-category error for a BHK number outside 1..3. The code has none: its `else` branch treats every other number as 3BHK. The model follows the code (see `Energy.FixtureCounts`).
- `Energy.BhkNum` requires the label to be one of the three options. Python's `list.index` would raise on any other label, but the select box can only produce those three.
- An hourly cost is not modelled. The code computes only the monthly and the daily cost.
- The tariff is not a parameter. The code hard-codes 6, so the model has it as the constant `Tariff`.

# Financial dashboard: ingestion and aggregation model

This project models the data core of a React financial dashboard.

- **Upload.** Spreadsheet rows are normalised into revenue and cost records. The header row is skipped. Amounts are divided by 10000, which converts them to "wan". Rows whose label cell is falsy are dropped.
- **Page state.** The dashboard page holds the two collections, replaces each one wholesale on upload, empties both on reset and mirrors them into browser storage.
- **Derived figures.** The page derives:
  - the global statistics;
  - the enabled menu items;
  - a department top 3 and a completion-rate top 3.
- **Analysis views.** Three views compute their figures from the collections: revenue, cost and comparison. They produce totals, guarded percentage rates, index-aligned chart series, a department pie grouped in first-seen order, a truncated and colour-cycled distribution pie, and a details list.
- **Sample-data helpers.** These compute the summary statistics and the de-duplicated category and segment lists.

Modules follow the source files:

| module | file | what it holds |
|---|---|---|
| `Types` | `types.dfy` | the two record shapes of `src/types/index.ts` |
| `FinancialTypes` | `types.dfy` | the wide record and the statistics of `src/types/financial.ts` |
| `Aggregate` | `aggregate.dfy` | the folds the components repeat: `reduce` sums, the guarded percentage, `Array.from(new Set(..))`, grouping into an object and reading `Object.entries`, descending sort and `slice(0, n)` |
| `DataUpload` | `data_upload.dfy` | the row mapping and filter of `parseExcelFile` |
| `RevenueCharts` | `revenue_charts.dfy` | the revenue analysis view |
| `CostCharts` | `cost_charts.dfy` | the cost analysis view |
| `ComparisonCharts` | `comparison_charts.dfy` | the comparison view |
| `Dashboard` | `dashboard.dfy` | the page state (class `DashboardState`), the global statistics and the two top-3 lists |
| `Financial` | `financial_data.dfy` | `getDashboardStats`, `getCategories`, `getBusinessSegments` |

The page state is a class. Its `revenueData` and `costData` fields are reassigned by its methods. Two ghost fields, `storedRevenue` and `storedCost`, model what the two storage keys would decode to on reload. The class invariant `Valid()` says that, after each handler has run to completion, a reload restores exactly what is on screen. Handlers are modelled as atomic steps.

Everything else in the core is computed from values, so it is modelled as functions with lemmas.

Host-language conversions the code relies on are parameters, bundled in `DataUpload.Conversions`:

- `parseFloat` on a text cell;
- `String(x)` of a numeric label cell.

## Model

| member | source | states |
|---|---|---|
| `DataUpload.NormalizeRevenueSelects` | src/components/DataUpload.tsx:41-61 | Characterizes `NormalizeRevenue` (`parseExcelFile` for revenue). The revenue output is, in order, the mapping of exactly those rows from index 1 on whose label cell is truthy. The kept row indices strictly increase. Row j is kept iff its label is truthy, in both directions. An empty sheet gives no records. The output length is the row count minus the header minus the dropped rows. |
| `DataUpload.NormalizeBranchesAgree` | src/components/DataUpload.tsx:41-61 | Relates `NormalizeCost` to `NormalizeRevenue`. The cost branch maps every row field for field like the revenue branch and keeps the same rows. |
| `DataUpload.KeepRevenueLabelled` | src/components/DataUpload.tsx:61 | Every record that survives the filter has a non-empty business segment. The filter never lengthens the list. |
| `DataUpload.LabelEmptyIffFalsy` | src/components/DataUpload.tsx:44 | `cell \|\| ''` yields the empty string exactly when the cell is falsy, in both directions. |
| `DataUpload.RowFields` | src/components/DataUpload.tsx:44-49 | Each of the three amounts times 10000 is the numeric value of cell 1, 2 or 3. The completion rate is cell 4, unscaled. A blank, missing or non-numeric cell counts as 0. A number cell gives its own value. |
| `DataUpload.ExtraColumnsIgnored` | src/components/DataUpload.tsx:43-59 | Cells from column 6 on never change a record, in either branch. |
| `DataUpload.HeaderIgnored` | src/components/DataUpload.tsx:41 | Row 0 is skipped by position, whatever it holds. |
| `DataUpload.ExampleRow` | src/components/DataUpload.tsx:41-61 | The row of text cells "A", "10000000", "137000000", "", "91.33", "Dept1" (the budget cell is the empty text, which does not parse) becomes the record ("A", 1000, 13700, 0, 91.33, "Dept1"). |
| `Aggregate.SumAppend` | src/components/Dashboard.tsx:87 | About `Sum`. A `reduce` sum over two concatenated batches is the sum of the two sums. |
| `Aggregate.SumNonNegative` | src/components/Dashboard.tsx:87 | About `Sum`. A sum of non-negative amounts is non-negative. |
| `Aggregate.Rate` | src/components/Dashboard.tsx:90 | For a positive denominator, rate × whole = 100 × part. In that case the rate is 100 iff part equals whole, and it is non-negative when part is. For a zero or negative denominator the rate is 0. |
| `Aggregate.FirstSeenSpec` | src/data/financialData.ts:152 | Characterizes `FirstSeen`. `Array.from(new Set(s))` has no duplicates and holds exactly the values of `s`. It is no longer than `s`. It is ordered by first occurrence in `s`. |
| `Aggregate.GroupSumLookup` | src/components/RevenueCharts.tsx:253-256 | About `GroupSum`. After the `reduce` into an object, the entry for key k holds the sum of the values of the items whose key is k. |
| `Aggregate.GroupSumKeys` | src/components/RevenueCharts.tsx:252-257 | About `GroupSum`. The keys of `Object.entries` of the grouped object are the distinct keys in first-seen order. |
| `Aggregate.GroupSumTotal` | src/components/RevenueCharts.tsx:252-257 | About `GroupSum`. The group totals add up to the overall sum. |
| `Aggregate.GroupSumSpec` | src/components/RevenueCharts.tsx:252-257 | Characterizes `GroupSum`. The grouped entries have distinct keys, in first-seen order. A key appears iff some item carries it, in both directions. Each entry's value is its key's `SumWhere` reference sum. The values add up to the overall sum. |
| `Aggregate.SortDescSpec` | src/components/Dashboard.tsx:268 | About `SortDesc`. The descending sort yields a non-increasing sequence that is a permutation of its input. |
| `Aggregate.SortDescStable` | src/components/Dashboard.tsx:268 | About `SortDesc`. The sort is stable: for every key value, the elements with that key come out in their input order. |
| `Aggregate.TopNSpec` | src/components/Dashboard.tsx:302-304 | Characterizes `TopN`. The sorted copy cut to n has min(n, length) elements in non-increasing order and is a sub-multiset of the input. No element left out, or kept fewer times than it occurs, ranks above a kept one. |
| `Aggregate.TopNStable` | src/components/Dashboard.tsx:302-304 | About `TopN`. For every key value, the kept elements with that key are the first ones of the input with that key, in input order, because the sort is stable. |
| `RevenueCharts.RevenueChartsView` | src/components/RevenueCharts.tsx:11-257 | The view is the placeholder iff there are no records. The three totals are field sums. The completion rate is year-to-date over budget in percent, or 0 when the budget is not positive. The axis and both series align with the records by index. The department pie has one slice per distinct department, in first-seen order. A department has a slice iff some record has it. Each slice holds that department's sum, and the slices add up to the year-to-date total. |
| `RevenueCharts.ExampleDepartmentPie` | src/components/RevenueCharts.tsx:252-257 | Two records of department "X" with 100 and 200 make the single slice ("X", 300). |
| `CostCharts.CostChartsView` | src/components/CostCharts.tsx:11-260 | This is the revenue view's contract over cost records: cost category axis, cost totals and the cost rate over the cost budget. |
| `ComparisonCharts.Truncate` | src/components/ComparisonCharts.tsx:259 | A name of at most 10 characters is kept. A longer one becomes its first 10 characters followed by "...", 13 characters in all. |
| `ComparisonCharts.PaletteDistinct` | src/components/ComparisonCharts.tsx:262 | The eight pie colours are pairwise distinct. |
| `ComparisonCharts.Distribution` | src/components/ComparisonCharts.tsx:258-263 | The pie has min(8, n) slices. Slice i is record i's shortened segment, its year-to-date revenue and colour i mod 8. No two slices share a colour. |
| `ComparisonCharts.Details` | src/components/ComparisonCharts.tsx:359 | The completion details list is the first min(6, n) revenue records, in order. |
| `ComparisonCharts.ComparisonChartsView` | src/components/ComparisonCharts.tsx:12-359 | The view is the placeholder iff there is no revenue data, whatever the cost data. Net profit + cost = revenue. The margin is profit over revenue in percent, or 0 when revenue is not positive. Each of the three bar series is zero outside its own column. The pie is the `Distribution` of the records. The details list is `Details` of the records, and each of its records is the one behind the pie slice at the same position. |
| `ComparisonCharts.ExampleProfit` | src/components/ComparisonCharts.tsx:23-26 | Revenue 1000 against cost 600 gives a profit of 400 and a margin of 40. |
| `ComparisonCharts.LossWithoutRevenue` | src/components/ComparisonCharts.tsx:23-26 | With zero revenue and positive cost, the profit is negative and the margin is 0. |
| `Dashboard.GetGlobalStats` | src/components/Dashboard.tsx:86-103 | Revenue and cost totals are year-to-date sums, and 0 for an empty collection. Net profit + cost = revenue. The margin and the completion rate are guarded percentages over revenue and over the revenue budget. The counts are the collection lengths. |
| `Dashboard.StatsAgreeWithViews` | src/components/Dashboard.tsx:86-103 | For non-empty revenue data, the overview's totals, profit and margin equal the comparison view's. Its completion rate equals the revenue view's. |
| `Dashboard.DepartmentTop3` | src/components/Dashboard.tsx:263-272 | It has min(3, departments) entries with distinct departments, drawn from the grouped totals. Each entry holds its department's year-to-date sum. The entries are non-increasing, and no department left out has a larger total than one listed. Among departments with equal totals, those listed are the first in first-seen order. |
| `Dashboard.DepartmentRanking` | src/components/Dashboard.tsx:263-272 | This lemma holds the proof of the department top 3's contract, starting from the grouping and the cut of the sorted list. |
| `Dashboard.CompletionTop3` | src/components/Dashboard.tsx:302-304 | It holds min(3, n) records drawn from the data, as a sub-multiset. They are in non-increasing completion-rate order. No record left out, or kept fewer times than it occurs, has a higher rate than one listed. Among records with equal rates, those listed are the first in input order. |
| `Dashboard.CompletionTiesKeepInputOrder` | src/components/Dashboard.tsx:302-304 | When all records share one completion rate, the ranking is exactly the first min(3, n) records, in input order. |
| `Dashboard.DashboardState.constructor` | src/components/Dashboard.tsx:23-47 | The page starts from the stored collections, or empty where a key is absent or fails to decode. Storage and screen agree. |
| `Dashboard.DashboardState.HasData` | src/components/Dashboard.tsx:83 | There is data iff the revenue or the cost analysis menu item is enabled. |
| `Dashboard.DashboardState.MenuDisabled` | src/components/Dashboard.tsx:114-131 | Only the revenue, cost and comparison items can be disabled. |
| `Dashboard.ComparisonMenuFollowsRevenue` | src/components/Dashboard.tsx:114-131 | The comparison item is disabled exactly when the revenue item is. The overview, data-overview and upload items are always enabled. |
| `Dashboard.DashboardState.UploadRevenue` | src/components/Dashboard.tsx:60-64 | The revenue collection becomes the upload and the cost collection is unchanged. Both are written to storage, and storage still reloads to the screen. The revenue menu is disabled iff the upload is empty. |
| `Dashboard.DashboardState.UploadCost` | src/components/Dashboard.tsx:66-71 | This is the mirror image of `UploadRevenue` for the cost collection. |
| `Dashboard.DashboardState.Reset` | src/components/Dashboard.tsx:73-80 | Both collections are emptied and both storage keys are removed. Afterwards there is no data and the three analysis items are disabled. |
| `Financial.GetDashboardStats` | src/data/financialData.ts:125-149 | The totals are sums and profit + cost = revenue. The year-to-date total is the revenue total. Three guarded percentages: completion over budget, cost completion over cost budget, profit over revenue. Empty data gives all zeros. |
| `Financial.StatsAdditive` | src/data/financialData.ts:125-131 | For two batches taken together, revenue, cost, budget, current-month totals and profit are each the sum of the batches' figures. |
| `Financial.GetCategories` | src/data/financialData.ts:151-153 | Each category of the data appears exactly once, ordered by first occurrence. A category is listed iff some record has it. The list is no longer than the data. |
| `Financial.GetBusinessSegments` | src/data/financialData.ts:155-157 | This is the same contract for business segments. |

## Left out

- Reading the file and decoding the workbook into rows (`FileReader`, `XLSX.read`, `sheet_to_json`) is left out. The model starts from the decoded rows of the first sheet.
- `parseFloat` and `String(number)` are parameters (`DataUpload.Conversions`), not modelled.
  - `ValidConversions` only assumes that `String(x)` is never empty.
  - A numeric label cell is turned into text through `numberText`. `Truncate` then applies to that text, whereas the code would keep such a label as a number and not shorten it.
- Boolean and date cells are left out; cells are blank, text or number.
- Labels are not trimmed before the empty-row filter: a label of spaces is kept, as `item.businessSegment || item.costCategory` does.
- JSON encoding of storage and write failures are left out.
  - A stored key is modelled by what it decodes to, `None` if absent or undecodable.
  - A failed write (quota) would leave storage behind the screen; the model assumes writes succeed.
- Display rounding is left out: `toFixed(2)` in the series and `toFixed(1)` in the texts. Chart options other than the data, colours of the bars and gauges, toasts, the upload widget state, the selected tab, the radar chart and the completeness figure `(n / 52) * 100` are left out too.
- `RevenueChartsView`: its series hold exact values, where the code rounds each value to two decimals with `parseFloat(x.toFixed(2))`.
- `CostChartsView`: its series hold exact values, as for the revenue view.
- `Distribution`: its slice values are exact, where the code rounds them to two decimals.
- `ComparisonChartsView`: its three bar series hold exact values, where the code rounds each to two decimals with `parseFloat(x.toFixed(2))`. Its pie values are exact too, as for `Distribution`.
- `UploadRevenue`: the handler is modelled as one atomic step on the current state. In the code it saves the cost collection captured by the render that started the upload, after the file has been decoded asynchronously. A reset clicked while an upload is in progress can thus leave storage holding cost data the screen no longer shows; that interleaving is not modelled.
- `UploadCost`: modelled as one atomic step, like `UploadRevenue`. It saves the revenue collection captured when the upload started, so a reset during the upload is not modelled.
- `Reset`: modelled as one atomic step between uploads. The reset button stays enabled during an upload, and a reset that interleaves with one that is still decoding is not modelled.
- Amounts are exact reals; JavaScript's floating-point rounding, NaN and infinities are not modelled.
- `GroupSumSpec`: the keys are in first-seen order and every key gets a numeric total. Three cases of the object used as accumulator are not modelled:
  - `Object.entries` puts integer-like keys (e.g. department "2024") first, in numeric order;
  - a key `__proto__` does not become an own property;
  - a key named after an inherited `Object.prototype` member (`constructor`, `toString`, `valueOf`, `hasOwnProperty`, ...) starts from a truthy function, so `+ v` concatenates strings and the pie value is a string.
- `GroupSumLookup`: the entry for a key is its numeric sum. This does not hold for a key named after an inherited `Object.prototype` member, whose entry becomes a concatenated string, nor for `__proto__`.
- `GroupSumKeys`: the keys come in first-seen order. In the code, integer-like department keys (e.g. "2024") come first in numeric order, and a `__proto__` key never becomes an entry.
- `GroupSumTotal`: the group totals add up to the overall sum. In the code a `__proto__` group is lost and a group named after an inherited `Object.prototype` member becomes a string, so the totals need not add up.
- `RevenueChartsView`: its pie clauses (first-seen slice order, one numeric sum per department, slices adding up to the total) inherit the three `GroupSumSpec` cases above: integer-like, `__proto__` and inherited-member department names.
- `CostChartsView`: its pie clauses inherit the same three `GroupSumSpec` cases as the revenue view.
- `DepartmentTop3`: among departments with equal totals, the model lists the first in first-seen order. In the code, integer-like department keys reach the sort in `Object.entries` numeric order, so their ties break in that order.
- `DepartmentTop3`: for a department named after an inherited `Object.prototype` member, the code's `b[1] - a[1]` compares a string and gives NaN; the model ranks the numeric sum.
- `Truncate`: lengths count Unicode characters, where `.length` and `substring(0, 10)` count UTF-16 code units. A label of six characters outside the Basic Multilingual Plane has length 12 in the code and is shortened there but not in the model; a cut inside a surrogate pair is not modelled either.
- `Distribution`: its slice names inherit the character-counting of `Truncate`.
- The `!data` guard of the chart components is not modelled; callers always pass an array.
- `FinancialTable`, `ChartComponent`, `App` and the static sample fixtures are not part of this model.

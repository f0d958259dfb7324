# Marketing analytics suite, modelled in Dafny

This project models the logic of a small marketing-analytics dashboard. The
dashboard has two parts.

- **The synthetic data generator** (`generate_data`). It walks the 90 days of
  Q1 2025 and, for each day, the seven campaigns in their fixed order. For
  each (day, campaign) it builds one row of `marketing_performance`: date,
  campaign id and name, channel, impressions, clicks, spend, conversions and
  revenue. Weekends scale paid impressions by 1.2. Email has a fixed volume
  and a flat cost.
- **The dashboard pages.**
  - The executive page (`app.py`) has a channel filter, blended ROAS and CPA
    with a zero guard, a daily trend and a per-channel table, and a budget
    simulator that projects revenue linearly from each channel's ROAS.
  - The deep-dive page sums each (campaign name, channel) pair and ranks the
    pairs by ROAS and by CPA.
  - The SQL lab page has a raw-data browser with a channel filter and a
    campaign filter.

Modules:

- `Records` (records.dfy) holds the row datatype and the row-level
  operations: boolean-mask filtering, `isin` selections, column sums and
  `unique`.
- `Aggregate` (aggregate.dfy) models `groupby(...).agg(sum).reset_index()`.
  Its class `RatioTable` is the aggregated table, to which the ROAS and CPA
  columns are assigned in place.
- `Ranking` (ranking.dfy) models `sort_values(..., ascending=False).head(n)`.
- `DataGen` (data_gen.dfy) is the generator. `GenerateData` is the nested
  loop, written imperatively. `Row`, `DayRows` and `Generated` are the
  functions it is proved against.
- `Dashboard` (dashboard.dfy) models the executive page.
- `CampaignDeepDive` (campaign_deep_dive.dfy) models the deep-dive page.
- `SqlLab` (sql_lab.dfy) models the raw-data browser of the SQL lab page.

The calendar and the random source are inputs.

- `dates[d]` is the ISO date of day `d`, and `weekdays[d]` is its day of the
  week (Monday = 0).
- `draws[d][c]` lists the values that the `random.uniform` calls return while
  campaign `c`'s row of day `d` is built, in call order.
  - Email rows make three calls: click variation, conversion rate and order
    value.
  - The other channels make five: impression variation, click-through rate,
    cost per click, conversion rate and order value.
- `ValidDraws` requires each value to lie within the bounds of its own call.

Money is `real`. Python's `int(x)` is truncation toward zero (`DataGen.Int`).
`round(x, 2)` is `DataGen.Round2`: the nearest multiple of 0.01, with ties
going to the even number of cents.

A per-group ratio that pandas would compute as `inf` or `NaN` is `None`. The
rankings require every ratio to be defined.

## Model

| member | source | states |
|---|---|---|
| Records.Filter | app.py:42 | `df[mask]` keeps every row the mask accepts, as often as it occurs, and no other row. The kept rows stay in their original order (a subsequence), and there are never more of them than rows. |
| Records.SelectIn | pages/sql_lab.py:61-64 | An empty `isin` selection returns the table unchanged. A non-empty one keeps exactly the rows whose field is selected, with their multiplicity and in order. |
| Records.SelectCovering | app.py:39-44 | A selection that contains the field value of every row keeps every row. |
| Records.SelectInIsFilter | pages/sql_lab.py:61-64 | A non-empty selection is the same as filtering by membership of the field. |
| Records.FilterFilter | pages/sql_lab.py:61-64 | Filtering by one predicate and then by another is filtering once by their conjunction, with the same rows in the same order. |
| Records.FilterKeepsAll | app.py:41-44 | A filter that accepts every row returns the table unchanged. |
| Records.FilterKeepsNone | app.py:41-44 | A filter that accepts no row returns an empty table. |
| Records.FilterAgree | pages/sql_lab.py:61-64 | Filters whose predicates agree on every row return the same rows. |
| Records.TotalsOfAppend | app.py:50-52 | Column sums of two tables placed one after the other are the sums of their column sums. |
| Records.TotalsOf | app.py:50-52 | The column sums of no rows are all 0, and on rows with non-negative spend, revenue, conversions and impressions every sum is non-negative. |
| Records.DistinctChannels | app.py:39 | `unique()` lists each channel that occurs exactly once, and only channels that occur. |
| Aggregate.AddRow | app.py:78-82 | Adding a row to the groups keeps every existing key in place. The row's key is added to the key set, and a new key opens a group at the end holding just that row. |
| Aggregate.AddRowGroups | app.py:78-82 | Adding a row changes only the totals of the group keyed by the row, by exactly that row's measures, and keeps the keys distinct. |
| Aggregate.AddRowSum | app.py:78-82 | Adding a row adds its measures to the sum over all groups. |
| Aggregate.KeysOfIndex | app.py:78-82 | A key belongs to the groups exactly when some group has it. |
| Aggregate.GroupByStep | app.py:78-82 | Absorbing one more row keeps all four group-by properties: distinct keys, key set, per-group sums and the grand total. |
| Aggregate.GroupBy | app.py:78-82 | Group-by with summed measures: one group per distinct key and no other. Each group holds the sums over exactly the rows with its key, and the groups sum to the column totals. |
| Aggregate.GroupRoas | app.py:83 | The per-group ROAS is defined exactly when spend is nonzero, and then ROAS × spend = revenue. There is no zero guard. |
| Aggregate.GroupCpa | app.py:84 | The per-group CPA is defined exactly when conversions are nonzero, and then CPA × conversions = spend. There is no zero guard. |
| Aggregate.RatioTable.constructor | app.py:78-82 | A table built from the aggregated groups has no ratio columns yet. |
| Aggregate.RatioTable.AssignRoas | pages/campaign_deep_dive.py:32 | Assigning the ROAS column in place gives one entry per group, each that group's revenue / spend. Nothing else in the table changes. |
| Aggregate.RatioTable.AssignCpa | pages/campaign_deep_dive.py:33 | Assigning the CPA column in place gives one entry per group, each that group's spend / conversions. Nothing else in the table changes. |
| Ranking.Insert | pages/campaign_deep_dive.py:49 | Inserting into a descending sequence keeps it descending, and the result has the same elements plus the new one. |
| Ranking.SortDescending | pages/campaign_deep_dive.py:49 | `sort_values(ascending=False)` returns a permutation of its input that is non-increasing in the score. |
| Ranking.TopN | pages/campaign_deep_dive.py:49 | `head(n)` after the sort returns min(n, rows) rows drawn from the input, largest score first. No row left out scores above a row shown. Nothing is promised about ties. |
| Ranking.TakeSorted | pages/campaign_deep_dive.py:49 | The first m rows of a descending reordering of the input are descending and drawn from the input. No input row left out of them scores above one kept. |
| Ranking.TopNSplit | pages/campaign_deep_dive.py:49 | Cutting a descending sequence leaves out only rows scoring at most the rows kept. |
| DataGen.Round2 | data_gen.py:80-82 | `round(x, 2)` returns whole cents within half a cent of `x`, and never turns a non-negative value negative. |
| DataGen.Round2Cents | data_gen.py:56 | A value already in whole cents is unchanged by rounding. |
| DataGen.Seasonality | data_gen.py:36-37 | The volume multiplier is 1.2 exactly when the weekday is 5 or 6 (Saturday, Sunday) and 1.0 exactly otherwise. |
| DataGen.Int | data_gen.py:44 | `int(x)` truncates toward zero: for x ≥ 0 it is the largest integer at most x, for x < 0 the smallest integer at least x. |
| DataGen.Row | data_gen.py:40-83 | The row built for a campaign on a day carries that day's date and that campaign's id, name and channel. |
| DataGen.GenerateData | data_gen.py:28-85 | The nested day × campaign loop produces exactly `Generated(..., Days)`: 90 × 7 = 630 rows, every one of which satisfies the record invariants. |
| DataGen.BuildRow | data_gen.py:39-83 | One inner-loop iteration consumes the samples in call order, updating imps, clicks and cost step by step, and produces exactly the row `Row` describes. |
| DataGen.ChannelRangesSane | data_gen.py:11-16 | In the channel table, every cost-per-click, conversion-rate and order-value range starts at or above 0, and every conversion-rate range ends below 1. |
| DataGen.CountBounds | data_gen.py:60-67 | A count scaled by a rate between 0 and 1 lies between 0 and that count. |
| DataGen.VolumeNonNegative | data_gen.py:41-50 | A volume scaled by non-negative factors is non-negative. |
| DataGen.AmountNonNegative | data_gen.py:62-82 | An amount for a non-negative count at a non-negative price is non-negative and in whole cents. |
| DataGen.RowWellFormed | data_gen.py:52-82 | Whatever the samples, every row has 0 ≤ clicks ≤ impressions and 0 ≤ conversions ≤ clicks. Spend and revenue are both non-negative and in whole cents. |
| DataGen.EmailRowWellFormed | data_gen.py:45-56 | An Email row satisfies the record invariants, and its clicks lie between 3200 and 4800 (20000 × 0.20 × a variation between 0.8 and 1.2). |
| DataGen.PaidRowWellFormed | data_gen.py:40-71 | A paid-channel row satisfies the record invariants. Its clicks are at most 0.03 × its impressions, and with any clicks at all its conversions are fewer than its clicks. |
| DataGen.EmailRowFixed | data_gen.py:45-56 | An Email row always has 20000 impressions and a spend of 50, whatever the samples. |
| DataGen.PaidImpressionBounds | data_gen.py:40-50 | Paid-channel impressions lie between floor(base × 0.8) and floor(base × 1.2 × 1.2). Base is 50000 for TikTok Ads and 10000 for the other paid channels. |
| DataGen.DayRowsLength | data_gen.py:39 | One day contributes one row per campaign. |
| DataGen.DayRowsAt | data_gen.py:39-83 | The j-th row of a day is campaign j's row. |
| DataGen.GeneratedLength | data_gen.py:31-39 | After n days there are n × 7 rows. |
| DataGen.GeneratedAt | data_gen.py:31-83 | The output is day-major, in campaign order: row d × 7 + c is campaign c's row of day d. |
| DataGen.GeneratedRow | data_gen.py:31-83 | Row i of the output is campaign (i mod 7)'s row of day (i div 7). |
| DataGen.GeneratedWellFormed | data_gen.py:52-82 | Every generated row satisfies the record invariants. |
| DataGen.CampaignIdsDistinct | data_gen.py:18-26 | The seven campaign ids are pairwise distinct. |
| DataGen.GeneratedKeysUnique | data_gen.py:31-39 | No (date, campaign_id) pair repeats, given that the calendar gives each day its own date. |
| DataGen.GeneratedFromCampaigns | data_gen.py:73-77 | Each row's campaign id, channel and name together form one entry of `CAMPAIGNS`. |
| DataGen.CampaignChannelFixed | data_gen.py:18-26 | Rows with the same campaign id have the same channel and the same campaign name. |
| DataGen.GeneratedEmailFixed | data_gen.py:45-56 | In the whole output, every Email row has 20000 impressions and a spend of 50. |
| Dashboard.FilterChannels | app.py:41-44 | With no channel selected, the filter returns the table. With a selection, it keeps exactly the rows of the selected channels, in order. |
| Dashboard.DefaultSelectionIsAll | app.py:39-44 | The widget's default (every distinct channel) shows the same rows as selecting nothing. |
| Dashboard.BlendedRoas | app.py:50-53 | Blended ROAS × total spend = total revenue when total spend > 0. Otherwise ROAS is 0. |
| Dashboard.BlendedCpa | app.py:50-54 | CPA × total conversions = total spend when total conversions > 0. Otherwise CPA is 0. |
| Dashboard.ExecutiveSummary | app.py:50-54 | The headline spend, revenue and conversions are the column sums of the filtered rows. ROAS × spend = revenue when spend > 0 and ROAS is 0 otherwise; CPA × conversions = spend when conversions > 0 and CPA is 0 otherwise. |
| Dashboard.SummaryNonNegative | app.py:50-54 | On rows with non-negative measures, all five headline metrics are non-negative. |
| Dashboard.DailyTrend | app.py:69 | There is one group per date shown, each holding the sums over its rows. Their spend and revenue add up to the filtered totals. |
| Dashboard.ChannelTotals | app.py:78-82 | There is one group per channel shown, each holding the sums over its rows. Their spend, revenue and conversions add up to the filtered totals. |
| Dashboard.ChannelPerformance | app.py:78-84 | The channel table holds the per-channel sums. Its ROAS and CPA columns, assigned in place, hold each group's unguarded ratios. |
| Dashboard.ToDict | app.py:112 | `to_dict()` has a key for exactly the channels of the table. With distinct keys, each key maps to its own row's value. |
| Dashboard.ToDictKeys | app.py:112 | The keys of `to_dict()` are the table's keys. |
| Dashboard.RoasMap | app.py:112 | The ROAS map has an entry for exactly the channels present after filtering, each being that channel's ROAS. |
| Dashboard.Get | app.py:114-116 | `roas_map.get(channel, 0)` is the map's value for a present channel and 0 for a missing one. |
| Dashboard.Projected | app.py:114-118 | The projected revenue is defined exactly when the three ROAS values read are, and then equals Σ budget × ROAS over the three paid channels. |
| Dashboard.ClampedProgress | app.py:129 | The progress value never exceeds 1. It is projected revenue / 200000 up to the goal and 1 from the goal on. |
| Dashboard.Simulate | app.py:112-129 | The projection is defined exactly when the three ROAS values read are defined. Projected revenue is Σ budget × ROAS, and the estimate is the same at 15000/10000/5000. The delta is the projection of the budget change, and the budget total is the sum of the sliders. Progress never exceeds 1: it equals projected/200000 up to the goal, and 1 from the goal on. |
| Dashboard.RevenueLinear | app.py:118-124 | The projection is linear: projected revenue at one budget minus projected revenue at another is the projection of their difference. |
| Dashboard.BaselineHasNoDelta | app.py:120-124 | At the baseline budgets the delta against the baseline is exactly 0. |
| Dashboard.MissingChannelIgnored | app.py:114-116 | Whichever of Google Search, Facebook Ads and TikTok Ads is missing from the ROAS map contributes 0: moving its slider changes neither whether the projection is defined nor the projected revenue. |
| Dashboard.ProjectionMonotone | app.py:114-118 | When every ROAS is non-negative, raising any budget never lowers projected revenue. |
| Dashboard.RevenueMonotone | app.py:114-118 | At non-negative ROAS values, a budget that is at least as large on every channel projects at least as much revenue. |
| Dashboard.DeselectedChannelIgnored | app.py:112-118 | Whichever of the three paid channels is left out of a non-empty selection has no ROAS entry, so moving its slider does not change the projection. |
| Dashboard.Overview | app.py:41-129 | The page flow on the filtered rows: the headline summary, the daily trend, and the channel table holding the per-channel sums with its ROAS and CPA columns assigned in place (each group's unguarded ratios). The simulator is fed `to_dict()` of that table's ROAS column, which equals the ROAS map of the filtered rows. |
| Dashboard.RoasMapFromTable | app.py:83-112 | Reading the table's ROAS column back into a dictionary gives the ROAS map. |
| CampaignDeepDive.CampaignAgg | pages/campaign_deep_dive.py:25-30 | There is one group per (campaign name, channel) pair present. Each group's spend, revenue, conversions and impressions are the sums over its rows, and the groups add up to the grand totals. |
| CampaignDeepDive.RoasScores | pages/campaign_deep_dive.py:49 | The ROAS projection lists each group's key with that group's ROAS, in table order. |
| CampaignDeepDive.CpaScores | pages/campaign_deep_dive.py:57 | The CPA projection lists each group's key with that group's CPA, in table order. |
| CampaignDeepDive.TopRoas | pages/campaign_deep_dive.py:49 | The top-ROAS table has min(5, groups) rows, non-increasing in ROAS, drawn from the scored groups with each appearing at most as often as in the table. Each row shows a group with its own ROAS, and no group left out has a higher ROAS than a group shown. |
| CampaignDeepDive.TopCpa | pages/campaign_deep_dive.py:57 | The highest-CPA table has min(5, groups) rows, non-increasing in CPA, drawn from the scored groups with each appearing at most as often as in the table. Each row shows a group with its own CPA, and no group left out has a higher CPA than a group shown. |
| CampaignDeepDive.FromScores | pages/campaign_deep_dive.py:49 | Every row of a ranking is one of the scored rows. |
| CampaignDeepDive.DeepDive | pages/campaign_deep_dive.py:25-57 | The page aggregates, assigns the ratio columns in place and ranks, giving the aggregated table and the two top-5 tables. |
| CampaignDeepDive.Rank | pages/campaign_deep_dive.py:44-60 | Both rankings are read off the table's ROAS and CPA columns without modifying the table, and they equal the top-ROAS and top-CPA tables. |
| SqlLab.Browse | pages/sql_lab.py:61-64 | With nothing selected every row is shown. Otherwise exactly the rows matching every non-empty selection are shown, as often as in the table and in its order, and never more rows than the table. |
| SqlLab.ShownCount | pages/sql_lab.py:66-67 | The row count shown is the length of the browsed rows. It is at most the table's, and equals the table's exactly when every row is shown. |
| SqlLab.BrowseIsOneFilter | pages/sql_lab.py:61-64 | With both selections non-empty, the two filters in a row equal one filter by "channel selected and campaign selected". |
| Records.SubsequenceOfSelf | pages/sql_lab.py:61-64 | A table is a subsequence of itself, so showing every row keeps the order. |
| Records.SubsequenceLengthLe | pages/sql_lab.py:66-67 | A subsequence is never longer than its sequence. |
| Records.SubsequenceSameLength | pages/sql_lab.py:66-67 | A subsequence as long as its sequence is that sequence. |

## Left out

- Streamlit and plotly are not modelled: page configuration, CSS, widgets, charts, `st.metric` formatting (including the "vs Target" deltas `roas - 2.5` and `cpa - 45`) and the static recommendation text. Widget values are plain inputs.
- SQLite and pandas I/O are not modelled: `load_data`, caching, `get_connection`, the schema view, `to_csv`/`to_sql` and the row-count check after loading.
- The ad-hoc SQL execution of the SQL lab page is not modelled. It passes a query through to SQLite.
- The `random` module and `datetime` arithmetic are inputs, not models. `draws` supplies the samples, each bounded by its own `random.uniform` call, and `dates` and `weekdays` supply the calendar of the 90 days.
- DataGen.Round2: it rounds the exact real value half-to-even to cents. It does not reproduce the binary floating-point value that Python's `round` sees, which can round a decimal tie either way.
- DataGen.GenerateData: all arithmetic is exact real arithmetic rather than IEEE doubles, so `int(...)` of a product is truncation of the exact product.
- Aggregate.GroupBy: groups come in the order in which their keys first appear in the rows, whereas pandas sorts group keys. Sums, key sets and the one-group-per-key property do not depend on order. The daily trend, whose input is in date order, is unaffected.
- Aggregate.GroupRoas: where pandas would produce `inf` or `NaN`, the result is `None`. IEEE special values are not modelled.
- Aggregate.GroupCpa: where pandas would produce `inf` or `NaN`, the result is `None`. IEEE special values are not modelled.
- CampaignDeepDive.TopRoas: it requires every group to have nonzero spend. The placement of `inf`/`NaN` ROAS values in a pandas sort is not modelled.
- CampaignDeepDive.TopCpa: it requires every group to have nonzero conversions, for the same reason.
- Dashboard.Simulate: a ROAS that pandas would compute as `inf` or `NaN` makes the projection `None` rather than an IEEE special value.
- Ranking.TopN: no tie order is promised, because pandas' default sort is not stable.
- The daily trend table keeps all four sums, although the page selects only spend and revenue. The per-channel table likewise keeps impressions. The extra sums are not used downstream.
- `total_new_budget` is computed (`Projection.totalNewBudget`) but, as on the page, not used by anything.
- Email's `cpc` range `(0.0, 0.0)` is part of the channel table, but, as in the generator, nothing reads it: Email's cost is the flat 50.

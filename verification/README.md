# Ad-campaign metrics engine, in Dafny

This project models the metrics engine of an ad-campaign analytics dashboard
(`utils.py`). The engine takes five tables of synthetic ad-tech events:
advertisers, campaigns, impressions, clicks and conversions. From them it
builds the dashboard's derived tables:

- **basic metrics**: one row per campaign with a won impression. Each row has
  spend, eCPM, CTR, CPC, CPA, ROAS and conversion rate, joined with the
  campaign's attributes.
- **revenue by channel**: per-impression spend summed by device, by auction
  type, by country and by advertiser industry. The four tables are stacked in
  that order.
- **margin analysis**: for each campaign, the buy cost, the sell revenue and
  the margin. The buy cost is a random 70–80% share of the win price.
- **pacing**: for each delivering campaign, budget spent against campaign time
  elapsed. It gives an ahead / behind / on-pace status and a run-rate forecast.
- **cash flow**: receivables, grouped by advertiser and month with 45-day
  terms, and payables, grouped by publisher and month with 30-day terms. Each
  row gets a due date, days outstanding, an aging bucket and a random
  paid/outstanding status. Payables carry publisher display names.
- **time series**: one row per calendar day with a won impression.
- the K/M scale that `format_number` picks.

The tables are modelled as sequences of immutable records. Every operation is
a pure function over them. Money and ratios are exact `real`s. Instants are
whole seconds on a common epoch, and a calendar date is a day number. Things
the engine draws at random or reads from the clock are parameters:

- the buy-side fractions and the publisher shares;
- the payment statuses;
- today's date;
- the calendar (month of an instant, last day of a month).

Modules:

| module | file | what it holds |
|---|---|---|
| `GroupBy` | groupby.dfy | group-by on sequences: members of a key, the group index, per-group totals, and the partition and reordering lemmas |
| `Records` | records.dfy | the five record types, won-impression filtering, per-impression spend, the campaign lookup |
| `Ratios` | ratios.dfy | the zero-guarded ratios and percentages |
| `BasicMetrics` | basic_metrics.dfy | `calculate_basic_metrics` |
| `RevenueByChannel` | revenue.dfy | `calculate_revenue_by_channel` |
| `MarginAnalysis` | margin.dfy | `calculate_margin_analysis` |
| `Pacing` | pacing.dfy | `calculate_pacing_analysis` |
| `Display` | display.dfy | splitting on `_`, publisher display names, the `format_number` scale |
| `CashFlow` | cash_flow.dfy | `calculate_cash_flow_analysis` |
| `TimeSeries` | time_series.dfy | `prepare_time_series_data` |

Basic metrics keep the source's batch-level spend convention (see Findings).
`CalculateBasicMetrics` computes spend as the summed win price times the
impression count over a thousand. The model also defines the evidently
intended per-impression spend and proves what it would give.

## Model

| member | source | states |
|---|---|---|
| GroupBy.Total | utils.py:16 | the sum of a column over a list of rows, as `sum` in the aggregations; zero for no rows |
| GroupBy.Members | utils.py:133 | the rows of a key: every member carries that key, every row with that key is a member, and the group is empty exactly when no row has the key |
| GroupBy.GroupKeys | utils.py:15-20 | the group index: each key with at least one row appears exactly once, and no other key appears |
| GroupBy.GroupTotal | utils.py:67-79 | `groupby(key)[col].sum()` for one key: the column summed over that key's rows |
| GroupBy.GroupTotalCases | utils.py:67-79 | a key no row carries totals zero; a key every row carries totals the whole column |
| GroupBy.SumGroups | utils.py:142 | the sum of a grouped column (`daily_spend.sum()`), key by key; what it adds up to is stated by GroupBy.PartitionBy and GroupBy.SumGroupsEmpty |
| GroupBy.Partition | utils.py:139-142 | summing a column group by group over the index gives the column's total over all rows |
| GroupBy.PartitionBy | utils.py:139-142 | summing group by group over any duplicate-free key list that covers every row's key gives the column's total |
| GroupBy.SumGroupsReorder | utils.py:317-321 | the per-group totals add up to the same sum in whatever order the index lists the keys |
| GroupBy.GroupKeysCount | utils.py:144 | the length of the group index equals the number of distinct keys and is at most the number of rows |
| GroupBy.Least | utils.py:17 | the `min` of a non-empty column: attained by some row and no larger than any row's value |
| GroupBy.Greatest | utils.py:17 | the `max` of a non-empty column: attained by some row and no smaller than any row's value |
| Records.DateOf | utils.py:128 | the calendar day of an instant: the day whose 86400-second window contains it |
| Records.ImpressionSpend | utils.py:127 | an impression's spend is its CPM win price over a thousand |
| Records.WonImpressions | utils.py:12 | keeps exactly the impressions whose outcome is won |
| Records.DeliveredIffWonOf | utils.py:133-136 | a campaign has delivered exactly when its list of won impressions is non-empty |
| Records.FindCampaign | utils.py:56 | the left join with the campaigns: no match exactly when no campaign has the id, and a match is a campaign with that id |
| Records.UniqueKeyMatchesAtMostOnce | utils.py:82-83 | when a table's ids are distinct, a merge on that id matches at most one row |
| Ratios.SafeDiv | utils.py:46-51 | the quotient when the denominator is positive, zero otherwise |
| Ratios.SafePercent | utils.py:147-148 | the percentage when the denominator is positive, zero otherwise |
| Ratios.Percent | utils.py:45 | an unguarded percentage: the result times the denominator is a hundred times the numerator |
| BasicMetrics.BatchSpend | utils.py:23 | the batch-level spend as written: summed win price times impression count over a thousand |
| BasicMetrics.EcpmIsWinPriceSum | utils.py:23-24 | with batch-level spend, eCPM comes out as the summed win price of the campaign |
| BasicMetrics.DeriveRow | utils.py:23-53 | spend, eCPM, mean CPM, CTR, CPC, CPA, ROAS and conversion rate, each zero when its denominator is zero |
| BasicMetrics.CampaignRow | utils.py:15-56 | a row's impression count, raw spend, first and last timestamps, clicks, click spend, conversions, conversion value and campaign come from that campaign's events only |
| BasicMetrics.DeliveryWindow | utils.py:15-18 | every won impression of a campaign falls between the row's first and last timestamps, and both are attained |
| BasicMetrics.RowsHaveFacts | utils.py:15-56 | every row built along the group index satisfies the row facts for its campaign |
| BasicMetrics.CalculateBasicMetrics | utils.py:8-58 | a campaign has a row exactly when it won an impression; rows have distinct ids; every row satisfies the row facts |
| BasicMetrics.RowsMatchDelivery | utils.py:15-20 | rows laid out along the group index cover exactly the delivering campaigns, each once |
| BasicMetrics.RowsFollowIndex | utils.py:15-20 | the rows follow the order of the campaign group index |
| BasicMetrics.UndeliveredCampaignVanishes | utils.py:41-42 | a campaign with clicks or conversions but no won impression gets no row |
| BasicMetrics.NoEngagementGivesZeros | utils.py:41-53 | a campaign without clicks or conversions reports zero clicks, conversions, CTR, CPC, CPA, ROAS and conversion rate |
| BasicMetrics.ZeroEngagement | utils.py:44-53 | with no clicks, conversions or conversion value, CTR, CPC, conversion rate, CPA and ROAS are all zero |
| BasicMetrics.SpendIsScaledWinPrice | utils.py:64 | summing per-impression spend equals a thousandth of the summed win price |
| BasicMetrics.BatchSpendOvercounts | utils.py:23-24 | as written, spend is the impression count times the campaign's actual spend, and eCPM is the count times the mean win price |
| BasicMetrics.BatchSpendExample | utils.py:23-24 | two won impressions at 1000 give spend 4.0 against an actual 2.0, and an eCPM of 2000 |
| BasicMetrics.IntendedEcpm | utils.py:24 | the corrected eCPM, spend per thousand impressions: it times the count is the summed win price |
| BasicMetrics.IntendedSpendAgrees | utils.py:23-24 | with the corrected spend, each row's spend is its impressions' spend and its eCPM is the mean win price; the rows add up to the total won spend |
| RevenueByChannel.ChannelTable | utils.py:67-69 | one row per value present, with distinct channels; each row's revenue is the summed spend of that value; the table's revenue is the total spend |
| RevenueByChannel.GroupRowsChannels | utils.py:67 | a grouped table has a row for a channel exactly when some impression has that value |
| RevenueByChannel.GroupRowsTotal | utils.py:67 | a grouped table's revenue adds up to the column's total |
| RevenueByChannel.ChannelTables | utils.py:66-86 | four tables, the i-th holding only rows of the i-th channel type, each with distinct channels; they are the grouped tables of won spend by device, auction type and country, and of merged spend by industry |
| RevenueByChannel.CalculateRevenueByChannel | utils.py:89-91 | the stacked table lists device, then auction, then geo, then industry rows; within a type, channels are distinct |
| RevenueByChannel.Flatten | utils.py:89 | the tables concatenated in order, as `pd.concat` with a fresh index |
| RevenueByChannel.FlattenOrdered | utils.py:89 | stacking tables of increasing type rank keeps the ranks in order and keeps channels distinct within a type |
| RevenueByChannel.PickTable | utils.py:89 | the rows of one channel type in the stacked table are exactly that type's table |
| RevenueByChannel.TableInStack | utils.py:66-89 | a table stacked where no other part shares its type keeps, within the stack, a row for exactly the values present, each with its summed value, and its revenue total |
| RevenueByChannel.StackedTables | utils.py:60-91 | in the returned table, the rows of each type are exactly the values present in that dimension, each carrying that value's summed spend |
| RevenueByChannel.ChannelTotals | utils.py:64-89 | the device, auction and geo revenues each sum to the total won spend; industry revenue sums to the spend that survives the two merges |
| RevenueByChannel.JoinIndustries | utils.py:82-83 | the industries reached from a list of campaigns through the advertiser merge, one per matching advertiser row |
| RevenueByChannel.IndustryJoin | utils.py:82-83 | won impressions through both inner merges, projected to (industry, spend), one entry per matching (campaign, advertiser) pair |
| RevenueByChannel.ImpressionIndustriesAtMostOne | utils.py:82-83 | with distinct campaign and advertiser ids, an impression joins at most one industry, and exactly one when both lookups succeed |
| RevenueByChannel.IndustryJoinBounded | utils.py:82-84 | the spend that survives the inner merges is at most the won spend, and equal when every impression resolves |
| RevenueByChannel.IndustryRevenueBounded | utils.py:81-86 | industry revenue never exceeds the total won spend, and equals it when every won impression resolves to an industry |
| MarginAnalysis.KeptShare | utils.py:103-104 | when buy cost is a fraction f of the sell price, the margin percentage is (1 − f) × 100 |
| MarginAnalysis.Line | utils.py:101-104 | sell revenue is the win price and buy cost is the win price times the drawn fraction f; the margin is sell minus buy and never negative; the margin percentage is (1 − f) × 100, so it lies in (20, 30] |
| MarginAnalysis.MarginLines | utils.py:101-104 | one line per won impression, in order: the j-th line has the j-th impression's campaign and win price, buy cost win price × the j-th fraction, and margin percentage (1 − that fraction) × 100 |
| MarginAnalysis.MeanWithin | utils.py:111 | a mean of values in (lo, hi] lies in (lo, hi] |
| MarginAnalysis.DeriveRow | utils.py:107-116 | margin is sell minus buy; the mean margin percentage is the percentage sum over the count and lies in (20, 30]; margin per impression times the count is the margin |
| MarginAnalysis.CampaignMargin | utils.py:106-119 | a campaign's row counts its lines and sums their buy cost, sell revenue and margin, takes the mean of their margin percentages, and is joined with its campaign |
| MarginAnalysis.GroupSums | utils.py:106-112 | over a campaign's lines the summed margin is sell minus buy, buy never exceeds sell, and the summed margin percentage lies in (20n, 30n] for n lines |
| MarginAnalysis.CalculateMarginAnalysis | utils.py:93-121 | a campaign has a row exactly when it won an impression; ids are distinct; count and sell revenue come from its won impressions; buy cost, margin and mean margin percentage come from its margin lines; margin bounds hold |
| MarginAnalysis.MarginRowsCover | utils.py:106-113 | rows laid out along the campaign index exist exactly for the delivering campaigns, with distinct ids |
| MarginAnalysis.MarginRowsFacts | utils.py:106-119 | every such row carries the margin facts, its campaign's won impression count and sell revenue, the buy, margin and mean percentage of its campaign's lines, and its campaign's details |
| MarginAnalysis.LinesFollowImpressions | utils.py:107-115 | a campaign's lines are non-empty exactly when it won an impression |
| MarginAnalysis.MarginPartition | utils.py:107-110 | the per-campaign margins add up to the total margin over all lines |
| Pacing.Classify | utils.py:150-154 | ahead above time + 10 points, behind below time − 10 points, on pace on and between both boundaries |
| Pacing.ClassifyMonotone | utils.py:150-154 | at a fixed elapsed time, more budget spent never yields a lower status |
| Pacing.ForecastRunRate | utils.py:156-157 | the run-rate forecast times the active days equals total spend times campaign days |
| Pacing.DeriveRow | utils.py:143-172 | the guarded budget and time percentages, the status iffs, the daily average and the forecast |
| Pacing.CampaignPacing | utils.py:133-172 | total spend is the campaign's won spend; active days is the number of distinct delivery dates, between 1 and the impression count; total days is end − start + 1 |
| Pacing.Delivering | utils.py:132-136 | the campaigns kept by the loop are those with a won impression, in input order |
| Pacing.DeliveringAppend | utils.py:132-136 | the skip is a filter, so it commutes with concatenation and keeps relative order |
| Pacing.CalculatePacingAnalysis | utils.py:123-174 | one row per delivering campaign, in campaign order |
| Pacing.PacingRowsFacts | utils.py:130-172 | every row belongs to a listed campaign that delivered and copies its id, name, total and daily budget; it sums its won spend over its distinct delivery days, and carries the percentages, status and forecast |
| Pacing.AheadScenario | utils.py:147-154 | 5000 of a 10000 budget spent over 3 of 10 days is 50% against 30%: ahead |
| Pacing.ForecastOnceEveryDayDelivered | utils.py:156-157 | a campaign that delivered on every day of its run is forecast to spend exactly what it spent |
| CashFlow.AgingOf | utils.py:198-200 | current at 0 days or fewer, 30_days for 1–30, 60_days for 31–60, 90_plus_days above 60 |
| CashFlow.AgingMonotone | utils.py:198-200 | more days outstanding never gives a younger bucket |
| CashFlow.Settle | utils.py:196-206 | due date is month end plus the term; days outstanding is today minus due; the bucket follows; outstanding amount is the amount when outstanding, else 0 |
| CashFlow.OutstandingAllOrNothing | utils.py:204-206 | the outstanding amount is either zero or the whole amount, never more than a non-negative amount |
| CashFlow.ImpressionEntries | utils.py:189 | an impression yields one entry per campaign with its id, each carrying that campaign's advertiser, the impression's month and its spend; every such campaign yields its entry |
| CashFlow.AdvertiserEntries | utils.py:189 | every merged entry comes from a won impression and a campaign with that id, and every such pair yields its entry |
| CashFlow.AdvertiserEntriesTotal | utils.py:189-191 | with distinct campaign ids, merged spend is at most the won spend, and equal when every campaign is known |
| CashFlow.GroupEntries | utils.py:191 | one entry per (advertiser, month) group, in index order, carrying the group's summed spend |
| CashFlow.NameEntry | utils.py:192 | a group is repeated once per advertiser row with its id; every copy carries a listed name for that id, and every listing with that id yields a copy with its name |
| CashFlow.NameEntries | utils.py:192 | named entries come from groups and advertisers; every group whose advertiser is listed gets a name |
| CashFlow.Receivables | utils.py:186-206 | a non-empty (advertiser, month) group has a row exactly when its advertiser is listed; each row holds the group's spend, its name and the settlement facts for 45-day terms |
| CashFlow.ReceivableRowsCoverGroups | utils.py:191-192 | after the inner merge with advertisers, a group has a row exactly when its advertiser is listed |
| CashFlow.ReceivablesDistinct | utils.py:190-192 | with distinct advertiser ids, no (advertiser, month) pair has more than one receivable row |
| CashFlow.NameEntriesDistinct | utils.py:192 | with distinct advertiser ids, naming groups with distinct keys keeps the keys distinct |
| CashFlow.ReceivablesFollowImpressions | utils.py:186-192 | a won impression whose campaign is listed under a listed advertiser puts a row on that advertiser's month; every row's advertiser is listed and its month is that of a won impression of one of its campaigns |
| CashFlow.NameEntriesTotal | utils.py:192 | with distinct advertiser ids and every group's advertiser listed, naming the groups keeps their total |
| CashFlow.ReceivablesAccount | utils.py:186-192 | with distinct advertiser ids and every campaign's advertiser listed, the receivable amounts add up to the merged spend; with distinct campaign ids and every campaign known, that is the total won spend |
| CashFlow.ShareWithinSpend | utils.py:213 | a 70–80% share of a non-negative spend lies between zero and the spend |
| CashFlow.PayoutOf | utils.py:213 | a payout keeps the publisher, month and spend of its impression, is the spend times the drawn share, and never exceeds a non-negative spend |
| CashFlow.Payouts | utils.py:213 | one payout per won impression, in order; the j-th is the j-th impression's spend times the j-th share |
| CashFlow.PayableRows | utils.py:215-227 | one row per (publisher, month) group, in index order, each with the group's summed payout, the publisher name and 30-day settlement facts |
| CashFlow.PayableRowsCoverGroups | utils.py:215 | a (publisher, month) pair has a row exactly when it has a payout, and no pair has two rows |
| CashFlow.Payables | utils.py:208-227 | fails exactly when some won impression's publisher id has no underscore; otherwise one row per (publisher, month) group with its payout, name and settlement facts |
| CashFlow.PayablesAccount | utils.py:213-215 | the payable amounts add up to the total payout, and each row's amount is at most its group's spend when win prices are non-negative |
| CashFlow.PayoutsWithinSpend | utils.py:213 | with non-negative win prices, no payout exceeds the spend it comes from |
| CashFlow.CalculateCashFlowAnalysis | utils.py:176-229 | fails exactly when a won impression's publisher id has no underscore; otherwise the receivables and payables tables as above |
| Display.Split | utils.py:210 | at least one part, and no part contains the separator |
| Display.JoinSplit | utils.py:210 | joining the parts of a split with the separator gives back the string |
| Display.SplitJoin | utils.py:210 | splitting separator-free parts joined with the separator gives back the parts |
| Display.SplitCount | utils.py:210 | a split has two or more parts exactly when the separator occurs |
| Display.SplitShape | utils.py:210 | the second part of a split is the first part of whatever follows the first separator |
| Display.PublisherName | utils.py:210 | no name exactly when the id has no underscore; otherwise "Publisher " followed by the text between the first and second underscore |
| Display.ScaleFor | utils.py:354-361 | millions from 1,000,000 up, thousands from 1,000 up to 1,000,000, plain units below 1,000 |
| Display.Mantissa | utils.py:356-359 | the mantissa times the scale is the value; it is at least 1 under a suffix and below 1000 with K |
| TimeSeries.DeriveDay | utils.py:337-342 | a day's mean CPM and CTR, with CPC and CPA zero on a day without clicks or conversions |
| TimeSeries.Day | utils.py:317-335 | a day's impression count and spend come from that day's won impressions; its clicks and conversions come from that day's events, zero when there are none |
| TimeSeries.Insert | utils.py:317 | inserting into an increasing list keeps it increasing and adds exactly one element |
| TimeSeries.SortDates | utils.py:317 | the group index of dates, sorted strictly ascending, with the same members |
| TimeSeries.PrepareTimeSeriesData | utils.py:309-344 | a day has a row exactly when an impression was won on it; dates strictly ascend; every row satisfies the day facts |
| TimeSeries.DaysCoverDates | utils.py:317 | rows laid out along the date index cover exactly the days with a won impression |
| TimeSeries.DailyTotals | utils.py:317-321 | daily spend adds up to the total won spend, and daily impressions to the number of won impressions |

## Left out

- Rounding is not modelled. This covers `.round(n)` and `round(x, n)` on every column. All amounts and ratios are exact reals, so each equation holds before rounding.
- Row order of the pandas group index is not modelled for grouping keys other than dates. `groupby` sorts its keys, while the model lists campaigns, channels and (party, month) pairs in first-appearance order. Only row order differs; row contents and row sets do not. The time series sorts its dates as pandas does.
- Randomness is not modelled. The buy-side fractions, the publisher shares and the payment statuses are parameters, and the 90/10 and 95/5 status probabilities are not modelled.
- `datetime.now()` is a parameter (`today`). The calendar is two parameters: `monthOf`, the month period of an instant, and `monthEnd`, the day of a month's end.
- Campaign start and end dates are day numbers, and instants are seconds since a common epoch in one time zone.
- MarginAnalysis.CalculateMarginAnalysis requires positive win prices. A zero win price makes pandas compute a NaN or infinite margin percentage, and NaN is not modelled.
- Records.FindCampaign takes the first campaign with a given id. Pandas' `join` on a duplicated index would repeat the row instead. With distinct campaign ids, the two agree.
- CashFlow.Receivables states which (advertiser, month) groups get a row, and CashFlow.ReceivablesDistinct gives one row per group when advertiser ids are distinct. Neither states the row count when an advertiser id is listed more than once. The model then repeats the row once per listing, as the merge does.
- The chart builders (`utils.py:231-307`), `format_currency` and `format_percentage` are presentation only and are not modelled. Neither is the text that `format_number` renders: the model covers the scale choice and the mantissa, not the digits or the thousands separator.
- The Streamlit application, the synthetic data generator and the deployment scripts are not part of this model.
- Creative records are never read by the engine and are not modelled.

## Findings

| source | as written | input that shows it | evidently intended | confidence | as-written member | corrected member |
|---|---|---|---|---|---|---|
| utils.py:23-24 | basic-metrics spend is the summed win price times the impression count over 1000; eCPM is that spend over (count / 1000), which is the summed win price | one campaign with two won impressions at a win price of 1000: the row reports spend 4.0 and eCPM 2000, while revenue, pacing, cash flow and the time series count that campaign's spend as 2.0 | spend is the summed win price over 1000, so eCPM is the mean win price | medium, not executed | BasicMetrics.BatchSpendOvercounts | BasicMetrics.IntendedSpendAgrees |

`BasicMetrics.BatchSpendExample` works the example input through the
as-written formula. `BasicMetrics.IntendedEcpm` is the corrected eCPM. The
main `BasicMetrics.CalculateBasicMetrics` keeps the as-written convention,
because it is the one the dashboard documents and displays. No other table of
the model reads the basic-metrics spend.

# COVID-19 vaccination and infection statistics — a verified model

This project models the computational core of a small Python data pipeline.
The pipeline studies COVID-19 infections and vaccinations in the United States.
It reads three case tables:
- Our World in Data (OWID): daily rows with location, new cases, people vaccinated and population;
- the World Health Organization (WHO): weekly rows with country and new cases;
- the New York Times (NYT): a national table of cumulative cases.

It cleans and merges them into one daily table. It computes Bernoulli, conditional, Binomial and two-proportion z-test statistics on that table. It also prepares the numbers behind a dashboard chart that lines up the three sources week by week.

The model is written in Dafny, in five modules:

- `Common` (common.dfy): `Option` for missing (NaN) cells, `Result` for raised errors, and sums over columns with gaps. It also holds association lists standing in for Python dicts, which keep insertion order and let the last value win. Sorting and filtering helpers complete it.
- `Resample` (resample.dfy): pandas time resampling. Dates are day numbers counted from 1970-01-01. The weekly alias "W" bins Monday to Sunday and labels each bin by its Sunday. "M"/"ME" bins by calendar month. Empty bins between the first and the last bin are kept. Aggregations are sum, mean, count, max and min.
- `Analyze` (analyze.dfy): the estimators of `src/analyze.py`. A daily table is a sequence of `Obs(day, i, v)`, where `i` is the infection indicator and `v` the vaccination rate.
- `Process` (process_data.dfy): country filtering, OWID and WHO cleaning, the inner join on date, and period aggregation with flattened column names, from `src/process_data.py`.
- `Chart` (generate_html.dfy): `prepare_chart_data` of `src/generate_html.py`. This covers the three weekly source series, NYT cumulative-to-daily differencing, dict building, base-date selection, the 200-row truncation, nearest-date matching, and the summary numbers.

Conventions:
- pandas NaN is `None`.
- An exception the Python code raises is a `Failure`:
  - `ZeroDivisionError` is `DivisionByZero`;
  - `iloc[0]` on an empty column is `IndexOutOfBounds`;
  - `strftime` on the `NaT` minimum of an empty index is `NoCoverage`;
  - an unknown pandas frequency alias is `UnsupportedAlias`.
- `np.sqrt` and `scipy.stats.norm.cdf` are function-valued parameters (`sqrt`, `cdf`). Nothing is assumed about them unless a lemma says so.

## Model

| member | source | states |
|---|---|---|
| Common.FromPairs | src/generate_html.py:78-80 | `dict(zip(dates, values))`: every key appears once, and a key's value is the last value zipped with it |
| Common.SortByKey | src/generate_html.py:38 | `sort_index()`/`sort_values('date')`: the result is ascending by date and is a permutation of the input |
| Resample.ParseAlias | src/process_data.py:146-185 | "W" selects weekly bins, "M" and "ME" month-end bins, "D" the daily branch; any other alias is not one the model resamples |
| Resample.WindowStartIs2020January1 | src/generate_html.py:39 | the window's first day number is 2020-01-01 in the proleptic Gregorian calendar |
| Resample.WindowEndIs2022December31 | src/generate_html.py:39 | the window's last day number is 2022-12-31 |
| Resample.WeeklyBinIsMondayToSunday | src/process_data.py:151 | a "W" bin's label is a Sunday, falls 0 to 6 days after each of its days, and lies in its own bin |
| Resample.WeeklyLabelsIncrease | src/process_data.py:151 | later weekly bins have labels at least a week later |
| Resample.Span | src/process_data.py:151 | the number of output rows is zero exactly for no input; otherwise every day's bin lies in the range, and so does the last bin |
| Resample.MaxPresent | src/process_data.py:136 | the `max` aggregation is NaN exactly when the bin has no value; otherwise it is one of the bin's values and no value exceeds it |
| Resample.MinPresent | src/process_data.py:136 | the `min` aggregation is NaN exactly when the bin has no value; otherwise it is one of the bin's values and none is below it |
| Resample.Apply | src/process_data.py:132-144 | `sum` and `count` are never NaN, and `count` is the number of present cells; `mean`, `max` and `min` are NaN exactly when no cell is present |
| Resample.MeanTimesCount | src/process_data.py:132 | the `mean` of a bin with values, times their count, is their sum |
| Resample.ResampleColumn | src/process_data.py:151 | a resampled column has one row per bin from the first to the last bin |
| Resample.BinsAt | src/process_data.py:151 | row j of a resampled column aggregates exactly the cells whose day falls in the j-th bin |
| Resample.Labels | src/process_data.py:151-152 | the index after `reset_index` has one label per row, the label of the j-th bin after the first |
| Resample.WeeklyLabelsAscend | src/process_data.py:151 | weekly labels are strictly ascending |
| Resample.WeeklyLabelsAreSundays | src/process_data.py:151 | every weekly label is a Sunday |
| Resample.WeeklyLabelsCoverDays | src/process_data.py:151 | every input day has a weekly label 0 to 6 days after it |
| Resample.ResamplePreservesTotals | src/process_data.py:151 | over all bins, the `sum` column adds up to the column's total and the `count` column to its number of present cells |
| Resample.BinSumAndCount | src/process_data.py:151 | each bin's `sum` and `count` are present and are the sum and count of the bin's cells |
| Resample.IndicatorSumAtMostCount | src/process_data.py:76 | a 0/1 column's sum lies between 0 and its number of present cells |
| Resample.ResampledIndicatorSumAtMostCount | src/process_data.py:151 | for a 0/1 column, every bin has 0 ≤ `sum` ≤ `count` |
| Resample.BinsIndicatorSumAtMostCount | src/process_data.py:151 | the same bound for every bin of any range of bins |
| Analyze.MeanI | src/analyze.py:23 | `df['I'].mean()` is NaN exactly for an empty table; otherwise it times the row count equals the sum of I |
| Analyze.MeanV | src/analyze.py:24 | the mean vaccination rate, NaN exactly for an empty table, times the row count equals the sum of V |
| Analyze.BinarySumIsCount | src/analyze.py:23 | for a 0/1 indicator, the sum of I is the number of infected days |
| Analyze.BernoulliVarianceBound | src/analyze.py:26-27 | p·(1−p) lies in [0, 1/4] for p in [0, 1] |
| Analyze.BernoulliParameters | src/analyze.py:23-38 | no parameters for an empty table; otherwise p_I and p_V are the means of I and V, the variances are p_I·(1 − p_I) and p_V·(1 − p_V), and the standard deviations are `sqrt` of the variances |
| Analyze.ShareOfInfectedRows | src/analyze.py:23 | for a 0/1 indicator, p_I is the share of infected days |
| Analyze.BernoulliOfIndicator | src/analyze.py:23-26 | for a 0/1 indicator and n > 0, p_I lies in [0, 1] |
| Analyze.BernoulliVarianceOfIndicator | src/analyze.py:26 | for a 0/1 indicator and n > 0, var_I lies in [0, 1/4] |
| Analyze.BernoulliOfRates | src/analyze.py:24-27 | with rates in [0, 1] and n > 0, p_V lies in [0, 1] and var_V in [0, 1/4] |
| Analyze.AtLeast | src/analyze.py:54 | the high-vaccination rows all have V ≥ threshold and are no more than the table |
| Analyze.Below | src/analyze.py:55 | the low-vaccination rows all have V < threshold and are no more than the table |
| Analyze.PartitionSplitsRows | src/analyze.py:54-62 | n_high + n_low = n, and the two groups' infections add up to the table's |
| Analyze.PartitionPermutesRows | src/analyze.py:54-55 | the two groups together are a permutation of the table's rows |
| Analyze.PartitionMembership | src/analyze.py:54-55 | a row is high exactly when it is in the table with V ≥ threshold (V equal to the threshold included), and low exactly when V < threshold |
| Analyze.PartitionKeepsBinary | src/analyze.py:54-58 | both groups of a 0/1 indicator table are 0/1 tables |
| Analyze.GroupError | src/analyze.py:65-66 | a group's standard error is 0 when the group is empty or its rate is NaN, and otherwise `sqrt` of p(1 − p)/n |
| Analyze.GroupSummary | src/analyze.py:57-77 | group means are NaN exactly for empty groups and otherwise times their size give the group sum; difference = p_high − p_low when both exist; se is 0 for an empty group, and each group's se is the `GroupError` of its own rate and size; sizes and threshold are reported |
| Analyze.GroupErrorOfNonEmptyGroups | src/analyze.py:65-66 | a non-empty group has a rate p, and its standard error is `sqrt` of p(1 − p)/n |
| Analyze.ConditionalProbabilities | src/analyze.py:54-79 | the summary of the ≥-threshold and <-threshold groups, whose sizes add up to n |
| Analyze.ExamplePartition | src/analyze.py:54-55 | on a four-day table, the day at V = 0.3 is low and the days at V = 0.6, 0.6 and 0.8 are high |
| Analyze.ConditionalExample | src/analyze.py:54-71 | on that table p_high = 2/3, p_low = 1 and difference = −1/3 |
| Analyze.NTrials | src/analyze.py:98-103 | n_trials is 30 for "M" and "ME", and 7 for "W" and every other alias |
| Analyze.AliasFor | src/analyze.py:110-115 | the alias the code resamples with ("ME" for "M") selects the same bins as the period asked for |
| Analyze.SampleVariance | src/analyze.py:118 | `actual.var()` is NaN for fewer than two present values; otherwise it is non-negative and, times n − 1, gives the sum of squared deviations from the mean (the n − 1 divisor) |
| Analyze.ConstantColumnHasZeroVariance | src/analyze.py:118 | the sample variance of a constant column with two or more values is 0 |
| Analyze.Difference | src/analyze.py:128-129 | a difference is NaN exactly when a side is NaN, and otherwise added to the subtrahend gives the minuend |
| Analyze.PeriodCounts | src/analyze.py:110-115 | `actual` has one row per period of the resampled range |
| Analyze.BinomialSummary | src/analyze.py:106-130 | expected_mean = n·p_I and expected_variance = n·p_I·(1−p_I); actual mean and variance are those of the period sums; both differences are actual − expected |
| Analyze.BinomialParameters | src/analyze.py:95-132 | fails (`UnsupportedAlias`) exactly for an alias other than D, W, M and ME; otherwise returns the summary with n_trials, p_I = mean I, and the per-period sums as `actual` |
| Analyze.PeriodCountsAddUp | src/analyze.py:110-115 | the per-period sums of I add up to the table's infections |
| Analyze.ExpectedMomentsBound | src/analyze.py:106-107 | for p in [0, 1], 0 ≤ n·p ≤ n and 0 ≤ n·p·(1−p) ≤ n/4 |
| Analyze.BinomialMomentsOfIndicator | src/analyze.py:95-107 | for a 0/1 indicator table, the expected moments exist and satisfy those bounds |
| Analyze.BinomialSummaryOfProbability | src/analyze.py:106-107 | for a probability p_I, the summary's expected moments satisfy those bounds |
| Analyze.ProbabilityOfIndicator | src/analyze.py:95 | for a 0/1 indicator table, the daily p_I lies in [0, 1] |
| Analyze.PeriodCountsAreBounded | src/analyze.py:110-115 | for a 0/1 indicator, each period's infections lie between 0 and the number of days in it |
| Analyze.SummedPeriodsArePresent | src/analyze.py:111 | a resampled `sum` has no NaN, empty periods included |
| Analyze.PeriodSumsOfIndicator | src/analyze.py:110-117 | every period sum is present, and they add up to the infections |
| Analyze.WholePeriodsMeetExpectation | src/analyze.py:106-117 | when the table fills its periods of n_trials days exactly, actual_mean equals expected_mean |
| Analyze.Proportion | src/analyze.py:154 | x / n, and 0 for n = 0 |
| Analyze.ProportionIsProbability | src/analyze.py:154-157 | with 0 ≤ x ≤ n, the proportion lies in [0, 1] |
| Analyze.Finish | src/analyze.py:163-177 | z·se = p1 − p2 with the sign of p1 − p2 when se > 0; the two-tailed p-value 2·(1 − cdf(|z|)) when se > 0; z = 0, p-value 1 and not significant when se ≤ 0; significant ⇔ p-value < 0.05 |
| Analyze.ProportionTest | src/analyze.py:148-180 | p1, p2 and pooled are the proportions; with both groups non-empty se² = p(1−p)(1/n1 + 1/n2) and se = sqrt(se²); an empty group gives se = 0, z = 0, p-value 1, not significant; p-value 2·(1 − cdf(|z|)) when se > 0; the sign and significance facts of `Finish` |
| Analyze.ProportionTestAsWritten | src/analyze.py:152-166 | as written, the test raises `ZeroDivisionError` exactly when there are rows but one group is empty |
| Analyze.AsWrittenAgreesWhenDefined | src/analyze.py:157-166 | where the as-written test does not raise, it returns what the corrected test returns |
| Analyze.ProportionTestOfCounts | src/analyze.py:152-177 | with 0 ≤ x1 ≤ n1 and 0 ≤ x2 ≤ n2, p1, p2 and the pooled proportion lie in [0, 1] and se² ≥ 0 |
| Analyze.UniformOutcomeIsNotSignificant | src/analyze.py:157-166 | a pooled proportion of 0 or 1 gives se² = 0, z = 0, p-value 1, not significant |
| Analyze.StatisticalTests | src/analyze.py:148-180 | the corrected test on the ≥-threshold and <-threshold groups' sizes and infections, whose sizes add up to n |
| Analyze.StatisticalTestsAsWritten | src/analyze.py:148-166 | as written, the table test raises exactly when the table is non-empty and one group is empty; otherwise it agrees with the corrected one |
| Analyze.OneSidedTableRaises | src/analyze.py:160 | a one-day table with V = 0.8 raises as written, while the corrected test gives z = 0 and p-value 1 |
| Analyze.TestOfIndicatorIsWellFormed | src/analyze.py:152-177 | on a 0/1 indicator table, p_high, p_low and pooled lie in [0, 1] and se² ≥ 0 |
| Analyze.UniformTableIsNotSignificant | src/analyze.py:157-177 | if every day is infected or none is, the test is not significant |
| Analyze.ConditionalAgreesWithTest | src/analyze.py:148-154 | the test's p_high/p_low and group sizes are the conditional analysis's, with 0 in place of NaN |
| Analyze.CompleteAnalysis | src/analyze.py:183-238 | Bernoulli parameters are absent exactly for an empty table; conditional at threshold 0.5 and the test split the n rows; weekly Binomial with 7 trials and p_I = mean I |
| Analyze.CompleteAnalysisAsWritten | src/analyze.py:183-238 | as written, the analysis fails with `DivisionByZero` exactly when the table is non-empty and all its rates lie on one side of 0.5; otherwise it returns the corrected analysis |
| Analyze.CompleteAnalysisCounts | src/analyze.py:216 | the weekly infections returned add up to all infections |
| Process.CountryNames | src/process_data.py:25-34 | "United States" and "USA" map to ("United States", "United States of America"); any other name maps to itself twice |
| Process.FilterCountry | src/process_data.py:30-40 | the filtered tables keep exactly the rows whose location or country equals the mapped name, with their multiplicities |
| Process.UnitedStatesAliases | src/process_data.py:25-28 | filtering for "USA" is filtering for "United States", and keeps only WHO rows of "United States of America" |
| Process.LastPresentIsLatest | src/process_data.py:65 | the last present value of a prefix is NaN only if all are NaN; otherwise it is the value at the latest present position |
| Process.ForwardFill | src/process_data.py:65 | `ffill` keeps the length and leaves present values unchanged |
| Process.ForwardFillIsLastPresent | src/process_data.py:65 | every cell after `ffill` is the last present value up to it |
| Process.ForwardFillGaps | src/process_data.py:65 | a cell stays NaN after `ffill` exactly when it and all before it are NaN; otherwise it takes the latest present value at or before it |
| Process.FillZero | src/process_data.py:68 | `fillna(0)` keeps present values and turns NaN into 0 |
| Process.FillZeroKeepsSum | src/process_data.py:68 | `fillna(0)` keeps the column's total |
| Process.InfectionIndicator | src/process_data.py:76 | I = 1 exactly when new cases are present and positive, else 0 |
| Process.VaccinationRate | src/process_data.py:71-73 | vaccinated / population, and 0 when either is missing |
| Process.VaccinationRateBounds | src/process_data.py:72 | with a positive population the rate is non-negative, and at most 1 exactly when vaccinated ≤ population (there is no clipping) |
| Process.CleanOwid | src/process_data.py:49-81 | per row: dates and population kept, missing new cases become 0, present people vaccinated kept, rate = people vaccinated / population (0 if missing), I = 1 exactly when new cases > 0 |
| Process.CleanOwidCarriesVaccinations | src/process_data.py:65-73 | a row's people vaccinated is the last reported value so far, NaN only before the first report, and then its rate is 0 |
| Process.CleanWho | src/process_data.py:84-111 | per row: date and new cases kept (NaN stays NaN), I = 1 exactly when new cases are present and positive |
| Process.Join | src/process_data.py:216-226 | a merged row takes date, rate and new cases from OWID, both indicators, and I = I_owid |
| Process.Matches | src/process_data.py:216-222 | one OWID row joins exactly the WHO rows of its date |
| Process.Merge | src/process_data.py:212-226 | the inner join holds exactly the joins of equal-date OWID and WHO rows, and each has I = I_owid |
| Process.MergedDatesAreCommonDates | src/process_data.py:216-222 | a date is in the merged table exactly when it is in both tables |
| Process.NoMatchesWithoutDate | src/process_data.py:216-222 | an OWID row whose date WHO lacks joins nothing |
| Process.MatchesOfUniqueDates | src/process_data.py:216-222 | with unique WHO dates, an OWID row joins at most one row |
| Process.MergeOfUniqueDates | src/process_data.py:216-226 | with unique dates in both tables, merged dates are unique and each row carries its OWID row's I and rate |
| Process.MergedIndicatorIsBinary | src/process_data.py:224-226 | the merged I column of cleaned tables is 0/1 |
| Process.OwidFrame | src/process_data.py:79 | the cleaned OWID table as a date-indexed frame whose columns all have one cell per date |
| Process.WhoFrame | src/process_data.py:109 | the cleaned WHO table as a date-indexed frame whose columns all have one cell per date |
| Process.CleanedFrameColumns | src/process_data.py:71-106 | the OWID frame has I, vaccination_rate, new_cases and people_vaccinated; the WHO frame has I and new_cases only; I cells are the rows' indicators |
| Process.AddIfPresent | src/process_data.py:131-144 | adding an entry to the aggregation plan keeps its keys unique |
| Process.AddIfPresentKey | src/process_data.py:131-144 | a column is planned after the step exactly when it was before, or it is the step's column and the frame has it |
| Process.AggregationPlan | src/process_data.py:128-144 | the plan has unique columns |
| Process.AggregationPlanColumns | src/process_data.py:128-144 | a column is planned exactly when the frame has it and it is the primary column or one of vaccination_rate, new_cases, people_vaccinated |
| Process.AggregationPlanLists | src/process_data.py:131-144 | the primary column comes first with sum, mean, count; vaccination_rate gets mean, max, min; new_cases sum, mean, max; people_vaccinated mean, max |
| Process.FlattenName | src/process_data.py:153-163 | a tuple column becomes `<column>_<aggregation>`, and an empty second part keeps just the column name |
| Process.FlattenNameIsInjective | src/process_data.py:153-163 | with aggregation names free of `_`, distinct (column, aggregation) pairs get distinct flattened names |
| Process.AggNamesHaveNoUnderscore | src/process_data.py:157-158 | every aggregation name is non-empty and has no `_` |
| Process.AggregateByPeriod | src/process_data.py:114-197 | "D" returns the frame unchanged; an empty plan gives a frame with only the dates; it fails (`UnsupportedAlias`) exactly for an alias other than D, W, M and ME with a non-empty plan |
| Process.PrimaryColumnsAfterAggregation | src/process_data.py:148-164 | after resampling, the index is the bin labels and `<column>_sum`, `_mean`, `_count` are the resampled primary column |
| Process.AggregateShape | src/process_data.py:146-197 | with a non-empty plan and a known alias other than "D", the result is the bin labels with the aggregated columns of the plan |
| Process.IndicatorTotalsAfterAggregation | src/process_data.py:131-164 | for a 0/1 I column, I_sum and I_count exist with one cell per bin, add up to the total and the count of I, and 0 ≤ I_sum ≤ I_count in every bin |
| Process.AggregatedIndicatorColumns | src/process_data.py:148-164 | aggregating on I gives the bin labels, with I_sum and I_count the resampled sum and count of I |
| Process.IndicatorColumnNames | src/process_data.py:157-158 | the flattened names are "I_sum" and "I_count", and I is not one of the extra columns |
| Process.IndicatorBins | src/process_data.py:151 | a 0/1 column's weekly or monthly sums and counts keep its totals and have 0 ≤ sum ≤ count per bin |
| Process.CleanedIndicatorColumns | src/process_data.py:76-106 | the I columns of both cleaned frames are 0/1 |
| Chart.Diff | src/generate_html.py:67 | `diff()` keeps the length |
| Chart.ClipAtZero | src/generate_html.py:67 | `clip(lower=0)` keeps NaN and raises a value to at least 0 and at least itself |
| Chart.Increments | src/generate_html.py:67 | fails (`iloc[0]`) exactly for an empty column; otherwise keeps the length and every present increment is ≥ 0 |
| Chart.IncrementsOfPresent | src/generate_html.py:67 | without gaps, out[0] = max(c[0], 0) and out[i] = max(c[i] − c[i−1], 0) |
| Chart.IncrementsExample | src/generate_html.py:67 | [10, 10, 15, 12] becomes [10, 0, 5, 0] |
| Chart.IncrementsAddUpToCumulative | src/generate_html.py:60-67 | for a non-decreasing non-negative count, the increments up to day i add up to the count on day i |
| Chart.NearestIsFirstClosest | src/generate_html.py:113-123 | the scan finds nothing exactly when no source date is within 7 days; otherwise the value of the first source date of least distance |
| Chart.MatchOfKey | src/generate_html.py:109-124 | a date that is a key gets that key's value, a stored 0.0 included |
| Chart.MatchOffKey | src/generate_html.py:113-124 | a date that is not a key gets 0.0 with no source date within 7 days, and otherwise the value of a closest source date within 7 days, the first in dict order |
| Chart.BaseDatesOfThreeSources | src/generate_html.py:84-95 | with all three sources, base dates ascend strictly and are exactly the union's dates that have a date within 7 days in each source |
| Chart.BaseDatesFallbacks | src/generate_html.py:96-103 | OWID and NYT give their sorted common dates; OWID alone or with WHO its sorted dates; NYT alone its sorted dates; otherwise none |
| Chart.OwidWindow | src/generate_html.py:35-39 | the OWID rows kept are exactly the United States rows dated 2020-01-01 to 2022-12-31, in date order |
| Chart.OwidSeries | src/generate_html.py:34-45 | one weekly value per weekly date, and no dates or values without a date column |
| Chart.OwidSeriesKeepsCases | src/generate_html.py:39-43 | the weekly OWID values add up to the window's new cases |
| Chart.WhoWindow | src/generate_html.py:48-52 | the WHO rows kept are exactly the "United States of America" rows in the window, in date order |
| Chart.WhoSeries | src/generate_html.py:47-58 | one value per WHO date, and no dates or values without a date column |
| Chart.WhoSeriesOfWindow | src/generate_html.py:48-56 | each WHO date is a United States of America report date in the window, the dates ascend, and the values add up to the window's new cases |
| Chart.NytWindow | src/generate_html.py:62-65 | the NYT rows kept are exactly those in the window, in date order |
| Chart.NytSeries | src/generate_html.py:60-74 | fails exactly when the table has a date column but no row in the window; otherwise one value per weekly date; no column gives no dates |
| Chart.NytSeriesKeepsCases | src/generate_html.py:60-72 | for a gap-free non-decreasing cumulative count, the weekly NYT values add up to the last count |
| Chart.WeeklyIncrementsKeepTotal | src/generate_html.py:67-70 | the zero-filled weekly sums of the increments of such a count add up to its last value |
| Chart.WeeklySumKeepsTotal | src/generate_html.py:41 | summing a daily column per week and zero-filling keeps its total |
| Chart.SourceDict | src/generate_html.py:78-80 | a source's dict has unique keys, and each date maps to the last value zipped with it |
| Chart.SourceDictIsEmptyWithoutDates | src/generate_html.py:78-84 | a source's dict is empty exactly when the source has no dates |
| Chart.GroupMeanOrZero | src/generate_html.py:28-29 | a group's p_I is 0 for an empty group, and otherwise times its size gives its infections |
| Chart.MeanNewCases | src/generate_html.py:154 | the mean of new cases is NaN exactly for an empty table, and otherwise times n gives the total |
| Chart.CoverageOf | src/generate_html.py:132-136 | start and end are dates of the table, every date lies between them, and totalDays is the row count |
| Chart.TimelineOf | src/generate_html.py:137-141 | one date and one vaccination rate per row, in table order |
| Chart.Column | src/generate_html.py:126-127 | a source's comparison values are its weekly matches at the comparison dates |
| Chart.WhoColumn | src/generate_html.py:128 | the WHO values are all 0.0 for an empty dict and the weekly matches otherwise |
| Chart.ComparisonOf | src/generate_html.py:106-128 | the comparison dates are the first min(len, 200) base dates, and all three value lists have that length |
| Chart.ComparisonMatches | src/generate_html.py:126-128 | each source's value against a comparison date is its weekly match there, and WHO shows zeros when it has no dates |
| Chart.StatsOf | src/generate_html.py:149-161 | the new-cases mean, p_I present exactly for a non-empty table, and p_I + p_I_0 = 1 |
| Chart.StatsAgreeWithAnalysis | src/generate_html.py:26-29 | the highVax and lowVax shown are the conditional analysis's at 0.5, with 0 for an empty group |
| Chart.StatsInUnitInterval | src/generate_html.py:24-29 | on a non-empty 0/1 table, highVax, lowVax, p_I and p_I_0 lie in [0, 1] |
| Chart.PrepareChart | src/generate_html.py:10-164 | fails exactly when the NYT series fails or the table is empty (then `NoCoverage`); otherwise totalDays and the timeline have one entry per row and at most 200 dates are compared |
| Chart.ChartOfPipelineIsProbabilistic | src/generate_html.py:149-160 | the chart of cleaned and merged tables shows highVax, lowVax and p_I in [0, 1] |

## Left out

- Input and output are left out: CSV download and reading, file writing, printing, `process_all_data` (src/process_data.py:240-318) and `main.py`. These only move data; the model starts from tables already in memory.
- HTML, CSS and JavaScript rendering and the matplotlib/plotly charts are left out. This covers `create_html_dashboard` and `src/visualize.py`.
- `np.sqrt` and `stats.norm.cdf` are parameters, because floating-point functions from numpy/scipy cannot be modelled exactly. Standard errors are stated as `sqrt` applied to their formula, together with the guard branches.
- `median` and `std` of the descriptive statistics (src/generate_html.py:155-156) are left out. They are floating-point summaries with no promise to check; only `mean` is modelled.
- `p_V` in `prepare_chart_data` (src/generate_html.py:25) is computed and never used, so it is not modelled.
- Date strings are left out:
  - `strftime` labels and the `weekNumbers` lists (`Week i`) are not modelled;
  - dates are day numbers, and a chart shows day numbers where the page shows formatted text;
  - the coverage block keeps the first and last day numbers.
- Analyze.BinomialParameters: pandas resamples many more aliases ("Q", "2W", "h", …), and raises only for an unknown one. The model knows D, W, M and ME, the periods the pipeline uses, and gives `UnsupportedAlias` for every other alias.
- Analyze.CompleteAnalysis: it uses the corrected z-test. When the rates all lie on one side of 0.5, the code raises `ZeroDivisionError` instead (src/analyze.py:224, then :160); `Analyze.CompleteAnalysisAsWritten` models that failure.
- Process.VaccinationRate: a zero population gives 0 here. In floating point it gives ±inf, or NaN for 0/0, which `fillna(0)` turns into 0 only for NaN.
- Process.OwidFrame: the frame holds only the columns the pipeline uses (I, vaccination_rate, new_cases, people_vaccinated), not the raw table's other columns.
- Process.AggregateByPeriod: `reset_index()` puts the dates in a `date` column; the model keeps them as the frame's dates. pandas also resamples aliases other than D, W, M and ME ("Q", "2W", "h", …) in the last branch (src/process_data.py:182-197); with a non-empty plan the model gives `UnsupportedAlias` for them.
- Common.SortByKey: pandas sorts with an unstable quicksort, and the model sorts stably. Order differs only among rows with the same date.
- Analyze.WholePeriodsMeetExpectation: it takes p_I through the product p_I·n = ΣI rather than the `MeanI` value itself.
- Process.Merge: the branches for a merge without `I_owid` (src/process_data.py:227-231) cannot run. Both merged tables always carry `I`, so `I_owid` always exists; the model only has the first branch.
- Chart.NytSeriesKeepsCases: it assumes a cumulative count with no gaps. With a NaN inside the window the difference beside it is filled with the first count instead.

The model follows these details of the code:
- src/process_data.py:71-72 does not clip the vaccination rate to [0, 1].
- src/process_data.py:216-222 merges on the shared dates only and does not reindex onto a full calendar.
- src/process_data.py:64 forward-fills `people_vaccinated`, so leading missing values stay missing; :72 then gives their rate 0.
- src/analyze.py:54 and src/generate_html.py:26 compare with `>=`, so a rate equal to the threshold counts as high vaccination.
- src/generate_html.py:67 fills every NaN difference with the first cumulative count, not only the first one.

## Findings

| source | as written | input that shows it | evidently intended | confidence | as-written member | corrected member |
|---|---|---|---|---|---|---|
| src/analyze.py:160 | the guard checks only `n1 + n2 > 0` and then evaluates `1/n1 + 1/n2` on Python ints, which raises `ZeroDivisionError` when exactly one group is empty | a one-day table with V = 0.8 and threshold 0.5 (n1 = 1, n2 = 0) | a test with an empty group has no standard error: z = 0, p-value 1, not significant, as for no data | not executed | Analyze.StatisticalTestsAsWritten | Analyze.StatisticalTests |

`Analyze.OneSidedTableRaises` exhibits the input. `Analyze.ProportionTestAsWritten` and `Analyze.ProportionTest` are the same pair on counts. `Analyze.CompleteAnalysisAsWritten` carries the failure into the whole analysis, and `Analyze.CompleteAnalysis` uses the corrected test.

# Dashboard aggregation engine

This project models the aggregation engine behind the lead dashboard, `DashboardView.tsx`. The engine reads four kinds of records:

- signups (`rawUsers`);
- payments (`rawTransactions`);
- email-campaign rows (`rawEmails`);
- lead-scoring rows (`rawScoring`).

It also reads a list of comparison periods, the current one first. From these it computes the metric tables the dashboard shows:

- the acquisition scorecard and the `Trend` percentage;
- the per-period validation breakdown;
- the UTM-medium tables;
- the profession and campaign heatmaps;
- the conversion and revenue report;
- the 30-day conversion-speed cohort;
- the email-campaign sums;
- the lead-scoring distribution.

Days are integers and a period is `Period(name, start, end)` with both ends inclusive. Every record carries, next to its raw text fields, what the dashboard's external helpers make of it:

- `created` is `parseDateBR` of the signup date;
- `formValid` is `isUserValid`;
- `amount` is `parseMoney` of the payment value.

The helpers `parseDateBrevo`, `parseRate`, `parseFloat`, `calculateMeanMedian` and `getComparisonPeriods` are function parameters. The list `TARGET_PROFESSIONS` is a sequence parameter.

Modules follow the structure of the component:

- `Records`: the records and the periods.
- `Fields`: `getVal` and `cleanNum`.
- `Text`: trimming and case.
- `Acquisition`: the scorecard, `Trend` and `validadosData`.
- `Mediums`: `mediumTableData`.
- `Heatmap`: `entityMetrics`.
- `Ledger`: grouping by `username`.
- `Conversion`: `conversionData`.
- `Cohort`: `cohortDashData` and `maxCohortVal`.
- `Email`: `emailMetrics`.
- `Scoring` and `ScoringReport`: `scoringMetrics`.
- `Seqs` and `Dicts`: support modules for sorting and filtering, and for JS objects used as dictionaries with their key insertion order.

The loops that bump counters or fill dictionaries are methods with loop invariants, proved against specification functions. The map, filter and sort pipelines are functions. The properties are proved about those specification functions.

The scorecard's `varValid` is 0 when the previous period had no valid lead and the current one has some (`DashboardView.tsx:191`), while `Trend` gives 100 in that case. `Acquisition.Variation` models `varValid` as written, and `Acquisition.TrendAgainstVariation` proves where the two part.

## Model

| member | source | states |
|---|---|---|
| Fields.GetVal | DashboardView.tsx:30-36 | no value exactly when the row is absent or none of the keys holds a value other than undefined, null or `''`; otherwise the value of the first such key in list order |
| Fields.GetValPrefix | DashboardView.tsx:30-36 | more fallback keys after one that is present change nothing |
| Fields.StripNumber | DashboardView.tsx:287 | the text given to `parseInt` has no white space, and keeps a `.` only when it also has a `,` |
| Fields.StripNumberCounts | DashboardView.tsx:287 | exactly the white space, and every `.` of a text without a `,`, is removed; every other character keeps its number of occurrences |
| Fields.StripNumberFrom | DashboardView.tsx:287 | stripping only removes characters |
| Fields.StripNumberIdempotent | DashboardView.tsx:287 | stripping twice is stripping once |
| Fields.CleanNum | DashboardView.tsx:287 | a missing value reads as 0, and a value with no minus sign never reads as negative |
| Fields.CleanNumThousands | DashboardView.tsx:287 | `1.234` reads as 1234: a dot alone is a thousands separator |
| Fields.CleanNumDecimalComma | DashboardView.tsx:287 | `2,5` reads as 2: `parseInt` stops at the comma |
| Fields.CleanNumNotANumber | DashboardView.tsx:287 | text without digits reads as 0: a `NaN` from `parseInt` falls back to 0 |
| Text.Trim | DashboardView.tsx:181 | the result is no longer than the input and neither starts nor ends with white space |
| Text.TrimSlice | DashboardView.tsx:181 | `trim` keeps exactly the slice of the input between its leading and its trailing white space |
| Text.TrimStart | DashboardView.tsx:181 | a suffix of the input, after only white space, not starting with white space |
| Text.TrimEnd | DashboardView.tsx:181 | a prefix of the input, before only white space, not ending with white space |
| Text.ToLower | DashboardView.tsx:261 | `toLowerCase`, character by character, length kept |
| Text.RemoveSpaces | DashboardView.tsx:287 | `replace(/\s/g, '')`: no white space is left and the text does not grow |
| Text.RemoveSpacesCounts | DashboardView.tsx:287 | exactly the white space is removed: every other character keeps its number of occurrences |
| Text.RemoveSpacesAppend | DashboardView.tsx:287 | removal works piece by piece, so the kept characters stay in their order |
| Text.RemoveChar | DashboardView.tsx:287 | `replace(/\./g, '')`: every dot is gone and the text does not grow |
| Text.RemoveCharCounts | DashboardView.tsx:287 | exactly the dots are removed: every other character keeps its number of occurrences |
| Text.RemoveCharKeeps | DashboardView.tsx:287 | every other character is kept and nothing is added; on any split of the text, removal works piece by piece, so the order is kept |
| Text.RemoveCharAppend | DashboardView.tsx:287 | removing a character from a concatenation is removing it from each part |
| Text.ReplaceFirst | DashboardView.tsx:392 | `replace(',', '.')`: only the first comma becomes a point; without a comma the text is unchanged |
| Records.Classify | DashboardView.tsx:202-204 | Google exactly when the trimmed `value` is `UserCadastroGoogle`; form-invalid exactly when the signup is neither Google nor form-valid |
| Records.GoogleFirst | DashboardView.tsx:203-204 | a Google signup that is also form-valid is classed Google |
| Records.MediumOf | DashboardView.tsx:232 | a signup always has a medium key, `(not set)` standing in for none |
| Records.ScoringReference | DashboardView.tsx:152-165 | the scoring periods start 14 days before the chosen day in weekly mode, and at the start of the month before in monthly mode |
| Records.ComparisonPeriods | DashboardView.tsx:138-165 | no periods without a chosen day or month; otherwise the periods the calculator gives for the reference day, or, for the scoring periods, for the day 14 days earlier (weekly) or the start of the month before (monthly) |
| Acquisition.Partition | DashboardView.tsx:199-206 | the signups of a period split into Google, form-valid and form-invalid, and the valid ones are the Google plus the form-valid ones |
| Acquisition.ValidAtMostTotal | DashboardView.tsx:174-188 | the valid signups of a period are at most all of its signups |
| Acquisition.Percent | DashboardView.tsx:217-218 | the rate is 0 without a denominator; otherwise `part/whole*100`, and between 0 and 100 for a part of the whole |
| Acquisition.Variation | DashboardView.tsx:191 | 0 when the previous count is 0; otherwise the relative change in percent, non-negative exactly when the count did not fall, never below -100 |
| Acquisition.Trend | DashboardView.tsx:79-90 | no percentage when both values are 0; 100 (or 0) against a previous 0; otherwise the relative change; "up" exactly when the change is non-negative |
| Acquisition.TrendDirection | DashboardView.tsx:79-90 | against a positive previous value, the trend is up exactly when the value did not fall |
| Acquisition.TrendExamples | DashboardView.tsx:79-90 | `(0,0)` shows nothing, `(5,0)` +100, `(8,4)` +100 and `(3,6)` -50 |
| Acquisition.TrendAgainstVariation | DashboardView.tsx:79-90 | `Trend` and `varValid` agree when the previous count is positive; against a previous 0 with a current count, `Trend` gives 100 and `varValid` 0 |
| Acquisition.CountLeads | DashboardView.tsx:174-188 | the counters end as the number of signups of the period and of the valid ones |
| Acquisition.WeeklyScorecard | DashboardView.tsx:172-193 | nothing without two periods; otherwise the current total and valid counts, the previous valid count, `valid <= total`, the rate in 0..100 (0 without signups) and the variation of the valid counts |
| Acquisition.ClassifyPeriod | DashboardView.tsx:198-206 | the three counters end as the class counts of the period |
| Acquisition.ValidationBreakdown | DashboardView.tsx:195-221 | one row per period, oldest first; each row's classes add up to its total, and its two rates are shares in 0..100 that are 0 without a denominator |
| Mediums.ValidAtMostFormTotal | DashboardView.tsx:236 | per medium and period, the valid non-Google signups are at most the non-Google ones |
| Mediums.Bump | DashboardView.tsx:234-235 | one count cell goes up by one and no other cell changes |
| Mediums.BumpEff | DashboardView.tsx:236 | one efficiency cell's total goes up, its valid count goes up when the signup is valid, and no other cell changes |
| Mediums.Step | DashboardView.tsx:228-236 | one signup adds its hit to the valid, Google and efficiency tables of its medium and period, and to nothing else |
| Mediums.TallyPeriod | DashboardView.tsx:227-238 | after one period's pass, every cell of that period grew by its medium's counts in the period |
| Mediums.FillTables | DashboardView.tsx:226-239 | every cell holds the count of its medium and period, for valid, Google, non-Google and valid non-Google signups |
| Mediums.CountRows | DashboardView.tsx:240 | one row per key, holding the key's counts for the two latest periods |
| Mediums.EfficiencyRows | DashboardView.tsx:241 | one row per key, holding its efficiency rates (0 when nothing was counted) and its current volume |
| Mediums.FmtSound | DashboardView.tsx:240 | each listed medium holds its true counts, has a count in one of the two latest periods, and the list is sorted by the current count, largest first |
| Mediums.FmtKeys | DashboardView.tsx:240 | a count table lists each medium once |
| Mediums.FmtComplete | DashboardView.tsx:240 | every medium with a signup in one of the two latest periods is listed |
| Mediums.EffSound | DashboardView.tsx:241 | each efficiency row holds the valid share of its non-Google signups, has current volume, and the rows are sorted by current efficiency |
| Mediums.EffKeys | DashboardView.tsx:241 | the efficiency table lists each medium once |
| Mediums.EffComplete | DashboardView.tsx:241 | every medium with current non-Google signups is listed |
| Mediums.MediumTableData | DashboardView.tsx:223-243 | empty tables without periods; otherwise the three sorted tables, each row correct, each medium listed once, every medium with signups in `p0` or `p1` present in `all` and `google`, and every medium with current non-Google signups present in `eff` |
| Heatmap.DayRange | DashboardView.tsx:249-251 | the days from the period's start to its end, one each, in order (none for an empty period) |
| Heatmap.FindDay | DashboardView.tsx:263 | the index of the day, or -1 exactly when it is not listed |
| Heatmap.RawKey | DashboardView.tsx:260 | the grouping key is never empty: `(vazio)` stands in for none |
| Heatmap.NormalizeProfession | DashboardView.tsx:261 | a target profession that names the key ignoring case and surrounding blanks, or `Outros` when none does |
| Heatmap.NormalizeProfessionFirst | DashboardView.tsx:261 | the first matching target wins |
| Heatmap.KeyOf | DashboardView.tsx:260-261 | campaigns keep their raw key; professions are folded onto a target or `Outros` |
| Heatmap.Entry | DashboardView.tsx:262 | every row has one day cell per day of the current period |
| Heatmap.EntryAbsent | DashboardView.tsx:262 | a key no counted signup falls under has the all-zero row |
| Heatmap.DailySum | DashboardView.tsx:263 | the day cells of a row add up to its current total |
| Heatmap.VisitStep | DashboardView.tsx:256-264 | after each signup, every key's entry is the count of the signups so far |
| Heatmap.Aggregate | DashboardView.tsx:254-266 | every key of `data` holds its row: current and previous totals and the day cells |
| Heatmap.TopVolume | DashboardView.tsx:271 | none exactly when there is no named row; otherwise a named row with the largest current total |
| Heatmap.TopGrowth | DashboardView.tsx:272-273 | a named row with the largest rise, and only when that rise is positive |
| Heatmap.TopDrop | DashboardView.tsx:274-275 | a named row with the largest fall, and only when that fall is negative |
| Heatmap.SummaryLeaders | DashboardView.tsx:269-275 | the three standouts are named rows (not `(vazio)`, `-` or blank) with the stated extremes |
| Heatmap.SummaryScaled | DashboardView.tsx:277-278 | `maxDaily` is the largest day cell of any row, or 1 when no cell is larger |
| Heatmap.RowSound | DashboardView.tsx:267 | every listed row is its key's count, has a count in one of the two periods, and its days add up |
| Heatmap.RowsComplete | DashboardView.tsx:267 | every key with a counted signup in either period is listed |
| Heatmap.RowsNamesOnce | DashboardView.tsx:262-267 | the listed rows name each key once, as `Object.values` lists one row per key |
| Heatmap.AggregateField | DashboardView.tsx:253-280 | the breakdown lists the active keys once each, by current total, largest first, each row counted from the signups, with its standouts and its heat scale `Math.max(...allDaily, 1)` |
| Heatmap.EntityMetrics | DashboardView.tsx:245-282 | nothing without two periods; otherwise the days of the current period and the profession and campaign breakdowns, each listing its keys once with their counts and heat scale |
| Ledger.TxsOf | DashboardView.tsx:313 | the transactions of a user are transactions of that user |
| Ledger.TxsComplete | DashboardView.tsx:313 | every transaction of the user is among them |
| Ledger.GroupByUser | DashboardView.tsx:313 | each grouped list is exactly that user's transactions, in order |
| Ledger.LookupIsFilter | DashboardView.tsx:313 | looking a user up in the grouped map gives that user's transactions, or none |
| Conversion.OriginOf | DashboardView.tsx:326 | a sale always has an origin: `Direto / Orgânico` stands in for none |
| Conversion.DaysBetween | DashboardView.tsx:326 | the days from signup to sale, clamped at 0 |
| Conversion.SalesOfSound | DashboardView.tsx:322-328 | every sale comes from a transaction of the user that is dated in the current period and has a positive amount |
| Conversion.AllSalesSound | DashboardView.tsx:315-332 | every sale belongs to a valid signup of the current period and one of its qualifying transactions |
| Conversion.SalesPositive | DashboardView.tsx:326 | every sale has a positive value |
| Conversion.AddUserSales | DashboardView.tsx:322-328 | one user's pass appends its sales and keeps the revenue and the days as their sums |
| Conversion.CollectSales | DashboardView.tsx:313-332 | the conversions are the sales of the period, and the two accumulators are their total value and total days |
| Conversion.GroupSales | DashboardView.tsx:334-335 | `byPlan` and `byOrigin` hold for each key the count and value of its sales and, per origin, each plan's count |
| Conversion.MixAtMostOrigin | DashboardView.tsx:335 | the sales of a plan through an origin are at most the sales through that origin |
| Conversion.PlanRowsMatch | DashboardView.tsx:336 | each plan row holds its plan's count (positive) and value |
| Conversion.PlanRowsCover | DashboardView.tsx:336 | every plan sold has a row |
| Conversion.PlanRowsTotal | DashboardView.tsx:336 | the row counts add up to the number of sales and the row values to the total revenue |
| Conversion.PlanRowsSound | DashboardView.tsx:336 | the plan rows, sorted by value, largest first, are exactly the plans sold and add up to the whole |
| Conversion.MixMatch | DashboardView.tsx:337 | each mix entry holds its plan's count of sales through the origin |
| Conversion.MixCover | DashboardView.tsx:337 | every plan sold through the origin is in the mix |
| Conversion.MixSound | DashboardView.tsx:337 | the mix is sorted by count and is exactly the plans sold through the origin |
| Conversion.OriginRowsMatch | DashboardView.tsx:337 | each origin row holds its origin's count, value and plan mix |
| Conversion.OriginRowsCover | DashboardView.tsx:337 | every origin sold through has a row |
| Conversion.OriginRowsSound | DashboardView.tsx:337 | the origin rows, sorted by value, are exactly the origins sold through and add up to the whole |
| Conversion.Average | DashboardView.tsx:333 | 0 without sales; otherwise the total divided by the count |
| Conversion.ConversionData | DashboardView.tsx:311-339 | nothing without periods; otherwise the count, revenue and averages of the current period's sales and its plan and origin rows |
| Cohort.Cohort | DashboardView.tsx:346 | the signups created within the period, and only those |
| Cohort.CohortCounts | DashboardView.tsx:346 | the cohort holds each signup created within the period as often as the input does, so `cohortUsers.length` counts duplicate rows |
| Cohort.FirstSaleEarliest | DashboardView.tsx:352-353 | the first conversion exists exactly when some transaction has a positive amount on or after signup, and it is the earliest such one |
| Cohort.EarliestAt | DashboardView.tsx:352-353 | in the date-sorted list the first qualifying transaction is no later than any other qualifying one |
| Cohort.Outcomes | DashboardView.tsx:347-357 | one outcome per cohort member, in order |
| Cohort.ConvertsIff | DashboardView.tsx:348-354 | a member converts exactly when it is valid, has a creation day and has a qualifying transaction of its own |
| Cohort.ConvertedCounts | DashboardView.tsx:354 | the conversion days of the converted members, each day as often as the outcomes hold it |
| Cohort.ConversionDays | DashboardView.tsx:347-357 | each member converts at most once |
| Cohort.CountUpToMonotone | DashboardView.tsx:354 | a wider window never counts fewer conversions |
| Cohort.CohortCountsOrdered | DashboardView.tsx:345-358 | `count0to7 <= count0to30 <= conversions <= cohort size` |
| Cohort.Tick | DashboardView.tsx:354 | `dailySpeed[diffDays]++` keeps the histogram equal to the counts of the conversion days |
| Cohort.Record | DashboardView.tsx:354 | one outcome bumps the total, the window counters it falls into and its histogram day |
| Cohort.CountUser | DashboardView.tsx:348-355 | one member's outcome is counted on top of the earlier members' |
| Cohort.CountCohort | DashboardView.tsx:345-357 | the counters are the conversions in all, within 7 days and within 30 days, and `dailySpeed` has 31 days that add up to the 30-day count |
| Cohort.UserOutcome | DashboardView.tsx:349-355 | the grouped lookup gives the member's conversion days |
| Cohort.CohortRowOf | DashboardView.tsx:344-358 | a period's row: `leadVolume` is the cohort size or 1, the counts and the percentages of the cohort, 31 histogram days |
| Cohort.CohortDashData | DashboardView.tsx:341-361 | one row per period in period order, and `history` repeats each row's label and percentages |
| Cohort.MaxCohortVal | DashboardView.tsx:363 | the largest histogram slot of any row, or 1 when no slot is larger or there are no rows |
| Cohort.MaxCohortBounds | DashboardView.tsx:363 | no histogram day exceeds it |
| Email.Round | DashboardView.tsx:304 | the nearest integer |
| Email.Readings | DashboardView.tsx:290-292 | one reading per campaign row, in order |
| Email.Stats | DashboardView.tsx:288-296 | the count is the number of campaigns and `sent`/`delivered` their sums; the open and unsubscribe rates are 0 without deliveries and otherwise the weighted opens and unsubscriptions per delivery, in percent; the click-to-open rate is 0 without weighted opens and otherwise the weighted clicks per open, in percent |
| Email.StatsBounded | DashboardView.tsx:293-295 | with plausible readings the rates stay in 0..100 and the unsubscribes at most the deliveries |
| Email.CalcStats | DashboardView.tsx:288-296 | the loop's sums are the period's statistics |
| Email.EmailsIn | DashboardView.tsx:298 | the campaigns sent within the period, and only those |
| Email.EmailsInCounts | DashboardView.tsx:298 | each campaign sent within the period is kept as often as the input holds it |
| Email.TrendRowOf | DashboardView.tsx:297-300 | the row of a period holds its label and its statistics |
| Email.TrendsAt | DashboardView.tsx:297-300 | one trend row per period, oldest first |
| Email.TrendRows | DashboardView.tsx:297-300 | the loop builds the trend rows |
| Email.ActionsOf | DashboardView.tsx:303-305 | one campaign row per email, in order |
| Email.ActionRowsOrdered | DashboardView.tsx:303-306 | exactly the campaigns of the current period, each dated within it, in order of sending day |
| Email.EmailMetrics | DashboardView.tsx:285-308 | nothing without campaigns or two periods; otherwise the current and previous statistics, the trend rows and the campaign list |
| Scoring.Capitalize | DashboardView.tsx:409 | the first character upper case and the rest lower case, length kept |
| Scoring.ProfessionOf | DashboardView.tsx:408-409 | `Profissão customizada` for none, `Não Informado` or blank; otherwise the first matching target name or the trimmed, capitalised text |
| Scoring.ReadLeads | DashboardView.tsx:388-409 | one lead per row, in order |
| Scoring.Stamps | DashboardView.tsx:373 | one stamp per transaction, its email lowercased and trimmed |
| Scoring.EarliestIsMin | DashboardView.tsx:373 | an email has a date exactly when it has a dated transaction; the date is one of them and no later than any of them |
| Scoring.EarliestByEmail | DashboardView.tsx:373 | the map holds, for every email with a dated transaction and only those, its earliest date |
| Scoring.TransMap | DashboardView.tsx:373 | the map of earliest dates exists |
| Scoring.EarliestMapUnique | DashboardView.tsx:373 | and it is unique |
| Scoring.BucketOf | DashboardView.tsx:396 | the six score bands: below 0, below 25, below 50, below 75, below 100, 100 or more |
| Scoring.QualifiedBuckets | DashboardView.tsx:395-396 | the qualified leads (score at least 50) are those of the three top bands |
| Scoring.BucketsPartition | DashboardView.tsx:394-396 | the bands add up to the number of scored leads |
| Scoring.SaleDays | DashboardView.tsx:403 | days to a sale exactly when the email has a transaction on or after the lead's day |
| Scoring.CountDaysAtMostVol | DashboardView.tsx:398-403 | a plan's leads with a later sale are at most its leads |
| Scoring.GroupStep | DashboardView.tsx:405-410 | adding a lead keeps each key's scores and count exact and the counts adding up |
| Scoring.PlanStep | DashboardView.tsx:398-403 | adding a lead keeps each plan's scores, count and days to sale exact |
| Scoring.Bump | DashboardView.tsx:396 | `bucketCounts[b]++` keeps every band's count exact |
| Scoring.CalcStats | DashboardView.tsx:378-414 | the period's scores, count, qualified count, six band counts adding up to the count, and the plan, origin and profession tables |
| ScoringReport.Dedup | DashboardView.tsx:425 | the distinct keys, none lost |
| ScoringReport.KeysOfBoth | DashboardView.tsx:425 | the keys of either period, each once |
| ScoringReport.PlanRowReading | DashboardView.tsx:426-430 | the plan row built from the tables is the one the leads call for |
| ScoringReport.PlanRowsSound | DashboardView.tsx:425-431 | the plan rows skip `gratuito`, `trial` and `engehall_curso` plans, keep those with leads now or a previous mean, are sorted by current mean, list each plan once, and cover every such plan |
| ScoringReport.PlanRowsOnce | DashboardView.tsx:425-431 | each plan has at most one row |
| ScoringReport.GroupRowReading | DashboardView.tsx:433-437 | the origin or profession row built from the tables is the one the leads call for |
| ScoringReport.GroupRowsSound | DashboardView.tsx:433-437 | exactly the keys with current leads, each once, sorted by current mean |
| ScoringReport.GroupRowsOnce | DashboardView.tsx:433-437 | each key has at most one row |
| ScoringReport.Percent | DashboardView.tsx:423 | 0 without a total; otherwise the share in percent |
| ScoringReport.DistributionTotals | DashboardView.tsx:421-423 | the band counts add up to the count and the current shares to 100 |
| ScoringReport.QualifiedRateBands | DashboardView.tsx:423 | the qualified rate is the sum of the shares of the three top bands |
| ScoringReport.AssembleReport | DashboardView.tsx:416-439 | the report built from the two periods' tallies is the report of their leads |
| ScoringReport.ScoringMetrics | DashboardView.tsx:369-440 | nothing without scoring rows or two periods; otherwise the report of the current period's leads against the previous period's, matched against each email's earliest sale |
| Seqs.SortDesc | DashboardView.tsx:267 | a permutation of the input, sorted by the key, largest first |
| Seqs.SortDistinct | DashboardView.tsx:267 | sorting keeps the names of the rows distinct |
| Seqs.Filter | DashboardView.tsx:267-269 | the elements that pass, all of them, each from the input, and no more often than there |
| Seqs.FilterCounts | DashboardView.tsx:267-269 | each element that passes is kept as often as it occurs, and no other is |
| Seqs.FilterAppend | DashboardView.tsx:267-269 | filtering works piece by piece, so the kept elements stay in their order |
| Seqs.FilterKeepsSorted | DashboardView.tsx:267-269 | filtering a sorted list keeps it sorted |
| Seqs.FilterDistinct | DashboardView.tsx:267-269 | filtering keeps the names of the rows distinct |
| Seqs.FindFirst | DashboardView.tsx:353 | the index of the first element that passes, or -1 when none does |
| Seqs.MaxOr | DashboardView.tsx:278 | `Math.max(...s, floor)`: at least the floor, no element above it, and the floor or an element |
| Dicts.Put | DashboardView.tsx:262 | a new key goes to the end of the key order; an existing one keeps its place |

## Left out

- Rendering: the JSX, the `WeeklyScorecard` and `ProgressBar` components, the colour tables (`bucketColors`, the heatmap shades) and the table markup. This is presentation, not aggregation.
- Framework glue: the `useReport` context, the file inputs, `processData` with its alerts, and the `useState`/`useMemo` plumbing. The model assumes the data is processed, so the `!processed` guards are not modelled.
- The external helpers `parseDateBR`, `parseDateBrevo`, `parseMoney`, `parseRate`, `isUserValid`, `getComparisonPeriods`, `calculateMeanMedian` and `parseFloat`, and the contents of `TARGET_PROFESSIONS`. Their results are record fields or parameters. `../utils/helpers` is not part of this model.
- JS `Date` arithmetic. Dates are day numbers, so the millisecond differences divided by a day are plain subtraction. The monthly scoring shift (`setMonth(getMonth() - 1)`) is the parameter `previousMonthStart`. Time zones, `setDate`/`setMonth` overflow and `toDateString` are not modelled.
- Date labels. `dateHeaders` and the campaign `date` column are `toLocaleDateString` text; the model keeps the day numbers.
- Floating point. Rates, means and money are `real`, so `toFixed`, `toLocaleString`, rounding error and the `isFinite` guard in `Trend`, which always passes over the reals, are not modelled. `parseFloat` of the two-decimal mean text is the `mean` the `stats` parameter returns.
- `Text.Trim`, `Text.RemoveSpaces`: white space is the ASCII white space, no-break space and the byte-order mark. The other Unicode space separators that `trim` and `\s` also remove are not modelled.
- `Text.ToLower`, `Text.LowerChar`, `Text.UpperChar`: case mapping covers ASCII and Latin-1 letters only, with `ÿ` and `µ` upper-cased to `Ÿ` and the Greek capital mu. `ß` stays `ß`, where JS upper-cases it to the two letters `SS`; `Scoring.Capitalize`'s length-keeping contract therefore does not hold in JS for a name that starts with `ß`.
- `Fields.CleanNum`: `parseInt` is modelled as an optional sign followed by decimal digits. Its other prefixes, such as `0x`, are not modelled. The contract states the missing-value and sign cases; the three examples pin the separator behaviour.
- JS object key order. Dictionaries keep keys in insertion order, which is what `Object.keys` does for non-numeric keys. Integer-like keys, which JS lists first in numeric order, and the special key `__proto__` are not modelled. Neither are keys that name a member every plain `{}` inherits, such as `constructor`, `toString` or `valueOf`: they read as present before any write. In JS a username `constructor` makes `transMap[u].push(t)` throw (lines 313 and 342), a campaign `toString` makes `data[key].daily[dayIdx]++` throw (lines 262-263), and a medium `constructor` writes its count onto the inherited function so that the row is missing from `Object.keys` (lines 234 and 240). The model's dictionaries start empty.
- Ties in the sorts. Every sort is proved a permutation sorted by its key. The relative order of rows with equal keys is not stated.
- `Conversion.OriginRows`: the plan mix is a list of `(plan, count)` entries. The joined text ``p (n), …`` is not built.
- Absent text fields are `''`, so a signup without `username` matches the transactions without one. In JS both sides read the key `"undefined"`, which also matches a user literally named `undefined`.
- `Cohort.DaysFrom`: the per-user sort and `find` of `sortedTxs` is a function over the user's transactions, not a loop.
- `Heatmap.EntityMetrics`: the `dates` it returns are day numbers, not the formatted `dateHeaders`.

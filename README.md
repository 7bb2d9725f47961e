# Pharmaceutical process MES core, modelled in Dafny

This project models the rule-driven core of a pharmaceutical manufacturing-execution (MES) assistant.
The source works over an in-memory catalog of process definitions. Each product has a list of
steps, and each step carries a name, its key parameters (`关键参数`), its equipment (`设备`), its PAT
(process analytical technology) entries (`PAT应用`) and its duration fields. Three components read
that catalog:

- **Risk, compliance and metrics** (`analytics.py`, modules `Risk`, `Compliance`, `Metrics`):
  - ICH Q9 style keyword scoring of steps, with a 1.5 weight on critical steps;
  - a five-tier risk level and a fixed-shape list of recommendations;
  - GMP compliance findings, tallied by severity, with a pass/fail gate;
  - parameter, equipment and duration metrics, a complexity score and a blank batch-record template.
- **Batch records and batch statistics** (`mes_features.py`, modules `BatchRecords`, `SeriesStats`,
  `BatchAnalysis`):
  - a simulated batch-record table, with batch numbers, dates, staff rotation and up to three
    parameter readings per step;
  - column statistics: mean, standard deviation, extremes, coefficient of variation, trend label,
    capability index and outliers;
  - the quality report and the OEE (overall equipment effectiveness) figure.
- **Catalog queries** (`database.py`, modules `Catalog`, `CatalogReports`):
  - the category and product lookups, and the merged catalog;
  - the process summary table, with durations normalised to minutes;
  - the GMP risk matrix, the PAT application matrix and the equipment master list;
  - the high-risk percentage of the MES requirements report.

Supporting modules:
- `Wrappers` (Option);
- `Seqs` (sums, counts, filters, de-duplication);
- `Text` (Python's `in`, `lower`, `title`, `split`, `float` and zero-padded formatting over `seq<char>`);
- `Assoc` (an insertion-ordered dict as a sequence of pairs);
- `Sorting` (a total-order insertion sort);
- `Process` (the step and product records).

Each loop of the source is a method, and that method is proved equal to a specification function.
The properties the source promises are then proved about those functions as lemmas.

Inputs the source draws from outside are parameters of the model:
- **Random draws.**
  - Each batch's seeded numpy draws are a `Draws` value per batch number.
  - A normal draw is `loc + scale * g`.
  - A uniform draw is `lo + (hi - lo) * u`.
  - A weighted choice goes through cumulative thresholds.
- **Dates.** Day numbers, with "today" as a parameter.
- **Square root.** An oracle `sqrt` that any lemma needing it requires to be a true square root
  (`IsSqrt`).
- **Unseeded OEE draws.** Two parameters `u1`, `u2`.

## Model

| member | source | states |
|---|---|---|
| Risk.ParamRisk | analytics.py:67-73 | a parameter's term is the sum of three independent keyword checks (+1, +3, +2): between 0 and 6, and at least 3 when it names 无菌/病毒/内毒素 |
| Risk.EquipmentRisk | analytics.py:77-83 | each equipment item adds exactly one of 2, 1.5 or 1 |
| Risk.EvaluateStepRiskFactors | analytics.py:61-85 | the two loops return the base score: the parameter terms plus the equipment terms |
| Risk.BaseScoreBounds | analytics.py:63-85 | the base score is at least the equipment count (so never negative) and at most 6 per parameter plus 2 per item |
| Risk.AddParamRaisesScore | analytics.py:26-30 | one more parameter adds its term, weighted 1.5 on a critical step; a sterility parameter strictly raises the step score |
| Risk.RiskFactors | analytics.py:88-108 | a step's factors are among the five named risks |
| Risk.ParamRiskFactors | analytics.py:100-106 | the parameter loop collects exactly the temperature/pressure/pH factors some parameter mentions |
| Risk.IdentifyRiskFactors | analytics.py:88-108 | the factors are the name factors plus the parameter factors, as a set without duplicates |
| Risk.RiskFactorsByParam | analytics.py:94-106 | each factor is present iff its keyword occurs in the step name or in some parameter |
| Risk.RiskLevelMonotone | analytics.py:111-122 | a higher average never gives a lower level |
| Risk.RiskLevelThresholds | analytics.py:111-122 | the level's rank counts the closed-below thresholds 2, 4, 6, 8 the average reaches |
| Risk.HighLevelExactly | analytics.py:113-116 | the level text holds 极高风险/高风险 exactly when the average is at least 6 |
| Risk.DetermineRiskLevel | analytics.py:111-122 | one of the five levels; critical exactly from 8 on, acceptable exactly below 2 |
| Risk.RiskRecommendations | analytics.py:125-142 | length 2 + 3·[high] + (k > 0 ? 1 + min(k, 3) : 0); the control lines first when high; then the count line and the first min(k, 3) step lines; the two closing lines last |
| Risk.GenerateRiskRecommendations | analytics.py:125-142 | the appends build exactly that list |
| Risk.CriticalStepLines | analytics.py:136-137 | one "  - 步骤n: name" line per shown critical step, in order |
| Risk.AssessStep | analytics.py:22-45 | one loop pass: the weighted score, the critical entry iff the name is critical, the high-risk entry iff the score exceeds 5 |
| Risk.AssessProcessRisk | analytics.py:15-58 | the total is the sum of weighted scores, the average is total / max(n, 1), the level is read off the average, the lists are the critical and high-risk steps in order, and the recommendations come from level and critical list |
| Risk.CriticalStepsSound | analytics.py:29-36 | every critical entry names a critical step by its 1-based number, is marked 关键 and carries 1.5 times its base score |
| Risk.CriticalEntrySound | analytics.py:29-36 | the same for one entry, including the constant 关键 mark |
| Risk.CriticalStepsComplete | analytics.py:21-36 | entries are in ascending step order, every critical step has one, and there are as many as critical steps |
| Risk.HighRiskStepsExact | analytics.py:40-45 | the high-risk list holds exactly the steps scoring above 5, in step order, each with its factors |
| Risk.EmptyProcessAcceptable | analytics.py:48-49 | no steps: total and average 0, level acceptable |
| Risk.SterilizationScenario | analytics.py:21-49 | a one-step sterilisation process is critical as step 1, scores above 5 and is rated medium or higher |
| Compliance.TopRecommendations | analytics.py:280 | the recommendations of the first min(5, n) findings, in order |
| Compliance.CheckStep | analytics.py:235-255 | a step's findings: the sterility finding, then the control finding, each iff its rule fires |
| Compliance.CheckSteps | analytics.py:234-255 | the step loop's findings are each step's findings, in step order |
| Compliance.CheckGmpCompliance | analytics.py:226-281 | class defaults to 未分类; items are the step findings plus the description finding; counts are by severity; status is 合规 iff no severe finding; the first five recommendations |
| Compliance.StepFindingsShape | analytics.py:239-255 | a step yields at most one severe finding (iff 灭菌/无菌 in the name and no sterility parameter), at most one moderate finding (iff 过滤/层析/纯化 and no pressure/flow parameter), and no minor one |
| Compliance.AllStepFindingsCounts | analytics.py:234-255 | the severe and moderate counts are the numbers of steps breaking each rule; minor is 0 |
| Compliance.ComplianceCounts | analytics.py:257-271 | a missing or empty description adds exactly one moderate finding; the counts sum to the number of findings |
| Compliance.SeverityPartition | analytics.py:267-271 | the three severity counts always sum to the number of findings |
| Compliance.ComplianceGate | analytics.py:273 | no severe finding iff no sterile step lacks a sterility parameter |
| Compliance.EmptyProcessCompliant | analytics.py:228-273 | a described product without steps has no findings |
| Compliance.FiltrationWithoutControlScenario | analytics.py:248-255 | a filtration step without pressure or flow parameter yields exactly one moderate finding |
| Metrics.CountParameters | analytics.py:148 | the total of the parameter-list lengths |
| Metrics.CollectEquipment | analytics.py:151-153 | every step's equipment, concatenated in order |
| Metrics.AllEquipmentMembers | analytics.py:151-154 | a name is in the collected equipment iff some step lists it |
| Metrics.ReadDuration | analytics.py:160-170 | only key 时间 is read: 天 text ×24, h text as hours (a bad number escapes as an error), other text parsed with 0 on failure |
| Metrics.AddDurationTo | analytics.py:171 | the running total grows by the step's hours, or becomes an error |
| Metrics.AddDuration | analytics.py:159-172 | one pass of the duration loop extends the total over one more step |
| Metrics.SumDurations | analytics.py:157-172 | the loop computes the total over all steps |
| Metrics.TotalHoursStep | analytics.py:159-172 | the total over one more step adds that step's hours |
| Metrics.TotalOfMeaning | analytics.py:159-172 | the running total fails iff some element is unreadable, and otherwise is the sum of the hours |
| Metrics.TotalHoursMeaning | analytics.py:159-172 | the total fails iff some step's duration is unreadable, and otherwise is the sum of the step hours |
| Metrics.TotalHoursPrefixNone | analytics.py:163-165 | once a step raises, the whole call fails |
| Metrics.NoDurationKeyTotalsZero | analytics.py:160 | steps without 时间 give a total of 0 |
| Metrics.DayDurationHours | analytics.py:162-163 | "n天" reads as 24·n hours |
| Metrics.HourDurationHours | analytics.py:164-165 | "nh" reads as n hours |
| Metrics.CalculateProcessMetrics | analytics.py:145-185 | step count, parameter total, distinct equipment count and set, total hours, average parameters (0 with no steps), complexity score; nothing when a duration raises |
| Metrics.ComplexityParamWeight | analytics.py:199-205 | each parameter weighs between 1 and 3 |
| Metrics.ComplexityEquipmentWeight | analytics.py:213-219 | each equipment item weighs between 1 and 3 |
| Metrics.CalculateComplexityScore | analytics.py:188-223 | the nested loops give 0.5 per step + 0.3 per parameter point + 0.2 per equipment point |
| Metrics.StepParamBounds | analytics.py:197-205 | a step's parameter points lie between its parameter count and three times it |
| Metrics.StepEquipmentBounds | analytics.py:211-219 | a step's equipment points lie between its item count and three times it |
| Metrics.ParamPointBounds | analytics.py:196-205 | the parameter points lie between the parameter count and three times it |
| Metrics.EquipmentPointBounds | analytics.py:210-219 | the equipment points lie between the equipment count and three times it |
| Metrics.PointBounds | analytics.py:196-219 | both point bounds together |
| Metrics.ComplexityBounds | analytics.py:188-223 | the score lies between 0.5·steps + 0.3·params + 0.2·items and 0.5·steps + 0.9·params + 0.6·items |
| Metrics.UniqueParameters | analytics.py:315-322 | the template's parameter records, keyed in first-insertion order without repeats |
| Metrics.TemplateParameters | analytics.py:315-322 | a step template keys every parameter of the step once |
| Metrics.GenerateBatchRecordTemplate | analytics.py:284-326 | the seven blank header fields; one step template per step, numbered from 1, with name, parameters, equipment and raw 时间 field |
| BatchRecords.AcidityBranchUnreachable | mes_features.py:66-82 | no parameter is classified as pH: the lower-cased name never holds "pH" |
| BatchRecords.DurationTarget | mes_features.py:82-91 | a step without a 时间 field, a number, a text with neither 天 nor h and a text whose number does not parse all target 4 hours; a negative target can only come from a 时间 text holding 天 or h |
| BatchRecords.DayTextTarget | mes_features.py:83-87 | a time of n days written as digits and 天 targets 24·n hours |
| BatchRecords.HourTextTarget | mes_features.py:88-89 | a time of n hours written as digits and h targets n hours |
| BatchRecords.ReadingOf | mes_features.py:66-100 | the simulated value is the target plus the branch's scale times the standard draw; only a time reading targets the step's duration, the others 25, 1, 7 or 100 |
| BatchRecords.DeviationBand | mes_features.py:69 | a draw lands within the tolerance exactly when the scaled standard draw does |
| BatchRecords.ReadingStatusBand | mes_features.py:66-100 | temperature and pressure readings are 正常 iff the standard draw is within 4/3; other readings iff within 2.5 |
| BatchRecords.DurationStatusBand | mes_features.py:93-95 | a time reading with a positive target is 正常 iff the standard draw is within 1.5 |
| BatchRecords.RaisesIffNegativeTarget | mes_features.py:92-94 | a parameter's normal draw has a negative scale exactly when it is a time parameter of a step with a negative target |
| BatchRecords.StepSlotsRaise | mes_features.py:61-94 | some draw of a step's first three parameters raises iff one of them is a time parameter and the step's target is negative |
| BatchRecords.AnyRaisesMeaning | mes_features.py:57-94 | a batch raises iff some step has such a time parameter among its first three |
| BatchRecords.NoTimeFieldNeverRaises | mes_features.py:82-94 | steps without a 时间 field never raise |
| BatchRecords.NegativeHoursRaise | mes_features.py:82-94 | a step timed "-2h" with a time parameter targets -2 hours, and generating one batch fails |
| BatchRecords.StepSlots | mes_features.py:61 | at most the first three parameters of a step are simulated |
| BatchRecords.ParamSlots | mes_features.py:57-62 | at most three simulated parameters per step |
| BatchRecords.SlotKeys | mes_features.py:63 | each simulated parameter has key step_i_ followed by its first 10 characters, spaces as _ and lower-cased |
| BatchRecords.ReadingKeys | mes_features.py:62-100 | the record's reading columns are the parameter keys in first-assignment order, a repeated key kept once |
| BatchRecords.SameColumnsEveryBatch | mes_features.py:57-100 | the reading columns do not depend on the random draws |
| BatchRecords.ReadingCount | mes_features.py:57-62 | a record holds at most three readings per step |
| BatchRecords.SimulateStep | mes_features.py:57-100 | one step's parameter loop assigns its readings, consuming one normal draw per parameter, and stops with nothing at a draw with negative scale |
| BatchRecords.SimulateReadings | mes_features.py:57-100 | the step loop assigns the readings of every simulated parameter, or stops with nothing when a draw raises |
| BatchRecords.MakeBatchRecord | mes_features.py:36-102 | nothing iff a draw raises; otherwise batch n: number, name, date base + 2n, expiry 730 days on, chosen size, line and shift, staff ids, yield, statuses and readings |
| BatchRecords.Rows | mes_features.py:35 | exactly max(num_batches, 0) rows |
| BatchRecords.GenerateRows | mes_features.py:32-102 | the batch loop appends batches 1..num_batches in order, or fails at the first batch when a draw raises |
| BatchRecords.GenerateBatchRecords | mes_features.py:16-104 | nothing when the description's first word raises; empty with no steps; nothing when a draw raises; otherwise the batch rows |
| BatchRecords.BatchCount | mes_features.py:24-104 | fails iff the description is blank but not empty, or steps exist, at least one batch is requested and a simulated draw has a negative scale; no steps, no rows; otherwise exactly max(num_batches, 0) rows |
| BatchRecords.BatchNumbersDistinct | mes_features.py:42 | different batch numbers give different BATCH- ids |
| BatchRecords.BatchNumbersOfRows | mes_features.py:35-42 | row k of the table carries batch number k+1, and no two rows share one |
| BatchRecords.BatchDates | mes_features.py:33-45 | expiry is 730 days after manufacture, batch k+1 is made 2(k+1) days after the base, and the last one today |
| BatchRecords.StaffRotation | mes_features.py:49-50 | the operator repeats every 5 batches, the supervisor every 3 |
| BatchRecords.YieldRange | mes_features.py:51 | the yield lies in [85, 98) |
| BatchRecords.ReproducibleBatches | mes_features.py:35-39 | batch k has the same contents whatever the row count; only its dates shift |
| Text.ZeroPadValue | mes_features.py:42 | the zero-padded text reads back as the number |
| Text.ZeroPadInjective | mes_features.py:42 | different numbers pad to different text |
| Text.ZeroPadExactWidth | mes_features.py:42 | a number below 10^w pads to exactly w digits |
| Text.FirstWord | mes_features.py:24 | `split()[0]`: a non-empty word without white space, failing exactly on white space only |
| Text.LowerNeverContainsUpperH | mes_features.py:76 | a lower-cased text never holds "pH" |
| Text.TitleKeepsLower | mes_features.py:120 | title-casing a column name changes letter case only |
| Text.ParseFloatOfNat | analytics.py:163 | float() reads a decimal numeral back as its value |
| SeriesStats.MinOf | mes_features.py:129 | the least value, taken from the values |
| SeriesStats.MaxOf | mes_features.py:130 | the greatest value, taken from the values |
| SeriesStats.SampleVariance | mes_features.py:128 | the sample variance is never negative |
| SeriesStats.MeanBetweenExtremes | mes_features.py:127-130 | min ≤ mean ≤ max |
| SeriesStats.ZeroDeviationIffConstant | mes_features.py:166-168 | the squared deviations vanish iff every value equals the mean |
| SeriesStats.ConstantSeriesStable | mes_features.py:146-154 | a constant series has slope 0 and, from three values on, a stable trend |
| SeriesStats.Trend | mes_features.py:140-156 | one of the four trend labels; 数据不足 exactly below three values; from three values on, rising iff the slope exceeds 0.05 and falling iff it is below -0.05 |
| SeriesStats.LinearSeriesSlope | mes_features.py:146-154 | the fitted slope of the points a + b·i is b, so a slope beyond ±0.05 gives the rising or falling label |
| SeriesStats.LinearSxy | mes_features.py:147 | the centred cross sum of the points a + b·i is b times the centred sum of squares |
| SeriesStats.LinearMean | mes_features.py:147 | the mean of the points a + b·i is the value at the middle position |
| SeriesStats.Cpk | mes_features.py:159-180 | 0 below two values or for a non-positive σ; 1 for a positive σ, the limits lying at mean ± 3σ |
| SeriesStats.CpkIsOneOrZero | mes_features.py:159-180 | with limits at mean ± 3σ the index is 1 when the values vary and 0 otherwise |
| SeriesStats.DetectOutliers | mes_features.py:183-203 | [] for fewer than 3 values or σ = 0; otherwise the loop collects the indices with z-score above 2 |
| SeriesStats.CollectOutliers | mes_features.py:195-201 | the loop returns the ascending indices whose value is above 2σ from the mean |
| SeriesStats.OutliersBelowQuarter | mes_features.py:195-201 | fewer than a quarter of n−1 values lie more than 2σ from the mean |
| SeriesStats.OutlierBound | mes_features.py:183-201 | 4 · |outliers| < max(n − 1, 1) |
| BatchAnalysis.ColumnValues | mes_features.py:121-124 | the numbers of a column, at most one per row |
| BatchAnalysis.ActualCell | mes_features.py:116-121 | the _actual column of a reading key holds the reading's actual value |
| BatchAnalysis.FullColumn | mes_features.py:121-124 | a column with a number in every row keeps all of them |
| BatchAnalysis.StatsSound | mes_features.py:126-135 | min ≤ mean ≤ max; std missing iff one value; cv missing iff one value and nonzero mean; cpk 0 or 1; outliers ascending, in range and below a quarter; trend 数据不足 below three values |
| BatchAnalysis.AddColumnsKeys | mes_features.py:119-135 | the inner loop adds exactly the names of matching columns with numbers |
| BatchAnalysis.AddColumnsKey | mes_features.py:119-135 | the same for one name |
| BatchAnalysis.AddColumnsValues | mes_features.py:119-135 | every entry is the one before the loop or the statistics of one of its columns |
| BatchAnalysis.AddColumnValueAt | mes_features.py:119-135 | one more column keeps that property |
| BatchAnalysis.AddColumnsUnique | mes_features.py:126 | the result dict keeps one entry per name |
| BatchAnalysis.SelectedNameSnoc | mes_features.py:114-116 | a column picked by one more pattern was picked before or matches it |
| BatchAnalysis.AddPatternsKeys | mes_features.py:114-135 | the names are exactly those of columns some pattern selects (case-insensitive match and _actual) that hold numbers |
| BatchAnalysis.AddPatternsValues | mes_features.py:114-135 | every entry holds the statistics of a selected column of its name |
| BatchAnalysis.AddPatternValueStep | mes_features.py:114-135 | one more pattern keeps every entry explained |
| BatchAnalysis.AddPatternsUnique | mes_features.py:112-126 | one entry per name |
| BatchAnalysis.TrendsEntries | mes_features.py:107-137 | keys are the selected names, values the statistics of a selected column of that name, without duplicates |
| BatchAnalysis.TrendsEmpty | mes_features.py:109-110 | an empty table or no patterns gives {} |
| BatchAnalysis.AnalyzeColumns | mes_features.py:119-135 | the column loop computes the inner fold |
| BatchAnalysis.AnalyzeBatchTrends | mes_features.py:107-137 | the pattern loop computes the trends dict |
| BatchAnalysis.Yields | mes_features.py:217 | the yield column, row by row |
| BatchAnalysis.TierMeaning | mes_features.py:239 | 高 iff cv < 5, 中 iff 5 ≤ cv < 10, 低 otherwise (NaN included) |
| BatchAnalysis.AssessStability | mes_features.py:230-244 | the stability loop over the first five _actual columns |
| BatchAnalysis.AdviseOnStability | mes_features.py:253-255 | one advice per low-stability parameter, in report order |
| BatchAnalysis.Recommend | mes_features.py:246-255 | failed-batch advice, then low-yield advice, then the stability advices |
| BatchAnalysis.GenerateQualityReport | mes_features.py:206-257 | {} for an empty table; otherwise summary, distribution, stability and recommendations |
| BatchAnalysis.QualityReportOf | mes_features.py:206-260 | {} exactly for an empty table; otherwise the total is the row count and the average yield lies between the least and the greatest |
| BatchAnalysis.LowStabilityAdvicesCount | mes_features.py:253-255 | as many stability advices as low entries |
| BatchAnalysis.StabilityFoldEntries | mes_features.py:230-244 | one entry per name, at most one per column, exactly the names of columns with numbers |
| BatchAnalysis.SummaryCounts | mes_features.py:213-216 | total is the row count and passed + failed = total; no failures iff every batch passed |
| BatchAnalysis.DistributionCounts | mes_features.py:220-224 | the rejected count is right however the guard falls; the three counts cover every row when statuses are the three known ones |
| BatchAnalysis.QualityPartition | mes_features.py:220-224 | the three quality counts sum to the row count |
| BatchAnalysis.ReportCounts | mes_features.py:212-224 | the summary and distribution counts of the report |
| BatchAnalysis.ReportShape | mes_features.py:229-255 | at most five stability entries, one per name; one advice per triggered rule; the failure advice iff some batch failed |
| BatchAnalysis.AdviceNeverFailure | mes_features.py:247-248 | no failure advice without failed batches |
| BatchAnalysis.LowAdvicesEnding | mes_features.py:255 | every stability advice ends with the fixed text |
| BatchAnalysis.OeeLevelMonotone | mes_features.py:281 | the OEE tier only rises with the OEE |
| BatchAnalysis.OeeOf | mes_features.py:263-290 | {} exactly for an empty table; otherwise the level is read off the OEE, the OEE is the product of the three rates, each loss is 100 minus its rate, and availability and performance lie in their uniform ranges |
| BatchAnalysis.OeeOfGeneratedYields | mes_features.py:263-287 | for simulated yields the OEE is never 需要改进; in exact arithmetic it lies in [65.025, 91.238) |
| BatchAnalysis.ProductBounds | mes_features.py:274 | bounds of the availability × performance × quality product |
| Catalog.FirstHolding | database.py:829-837 | the first group holding the category, or none |
| Catalog.MergeDictGet | database.py:804-808 | `dict.update`: the later dict's entry wins; keys are the union |
| Catalog.AllProcesses | database.py:802-809 | the merged catalog is a dict again, each category once, holding exactly the categories of the four groups |
| Catalog.AllProcessesGet | database.py:802-809 | the merged catalog takes each category from the last group holding it |
| Catalog.MainCategories | database.py:817-824 | every category of every group, each exactly once |
| Catalog.CategoryEntryFirstGroup | database.py:827-852 | lookups consult API, dosage, biological, novel in order and stop at the first holding the category |
| Catalog.GetProducts | database.py:827-838 | the product names of the category in the first group holding it, in the order API, dosage, biological, novel; [] for an unknown category |
| Catalog.GetProductInfo | database.py:841-852 | the product's definition from the first group holding the category, None (the source's {}) otherwise; present iff get_products lists the product |
| Catalog.UnknownCategory | database.py:837-838 | an unknown category gives [] and {} |
| Catalog.LookupsAgree | database.py:802-852 | with no category in two groups, the lookup agrees with the merged catalog |
| Catalog.CatalogRowsStep | database.py:859-860 | the table over one more category extends it by that category's rows |
| Catalog.OneRowPerProduct | database.py:859-913 | one row per product of the catalog |
| Catalog.CatalogRowsMembers | database.py:859-913 | a row is in the table iff it belongs to some product |
| Catalog.CategoryRowsMembers | database.py:860 | a row of a category belongs to one of its products |
| Catalog.CollectRows | database.py:857-915 | the two nested loops append each product's rows in catalog order |
| Catalog.FirstKey | database.py:871-883 | the first of the five time keys a step carries |
| Catalog.ReadStepMinutes | database.py:868-883 | a step's minutes come from its first time key only |
| Catalog.KeyUnitAt | database.py:875-880 | the five keys read min ×1, h ×60, 天 ×1440, h ×60, min ×1 |
| Catalog.StepMinutesFirstKey | database.py:871-883 | one duration per step, from the first key present |
| Catalog.StepMinutesNoKey | database.py:870-883 | a step without a time key adds nothing |
| Catalog.EquipmentSetMembers | database.py:890-891 | the equipment set holds exactly the items some step lists |
| Catalog.EquipmentCountBound | database.py:910 | the distinct equipment count is at most the number of items listed |
| Catalog.ShortDescriptionShape | database.py:912 | a description over 100 characters keeps its first 100 and gains "..."; shorter ones stay |
| Catalog.SummarizeProduct | database.py:862-913 | the product row: class (default 未分类), step count, minutes, PAT count, parameter count, distinct equipment, features, short description |
| Catalog.GetProcessSummary | database.py:855-915 | the summary rows of every product, in catalog order |
| Catalog.SummaryRowCount | database.py:855-915 | one summary row per product |
| CatalogReports.LevelNameInjective | database.py:12-19 | the six levels have different names |
| CatalogReports.GmpScoreOfLevels | database.py:929-940 | LOW 1, MEDIUM 2, MEDIUM_HIGH 3, HIGH 4, CRITICAL and ATMP 5; 0 iff the class names no level; never above 5 |
| CatalogReports.JoinOrShape | database.py:947-949 | the fallback for an empty list; otherwise every item occurs in the joined text |
| CatalogReports.GetGmpRiskMatrix | database.py:918-954 | None (the sort's KeyError) exactly when there are no rows; otherwise a permutation of one row per product, sorted by descending score |
| CatalogReports.RiskMatrixEmpty | database.py:953-954 | the risk matrix has no rows exactly when the merged catalog has no product |
| CatalogReports.RiskMatrixRows | database.py:918-954 | one row per product, its score read off its class, scores descending |
| CatalogReports.CountHighRisk | database.py:1039-1042 | the loop counts a category's HIGH, CRITICAL and ATMP products |
| CatalogReports.CatalogStatisticsOf | database.py:1032-1044 | category count, product count, high-risk count and the guarded percentage |
| CatalogReports.HighRiskAtMostProducts | database.py:1037-1042 | no more high-risk products than products |
| CatalogReports.HighRiskPercentageBounds | database.py:1044 | between 0 and 100; 0 iff no high-risk product (or none at all); 100 iff all are high risk |
| CatalogReports.MatchedMembers | database.py:985-987 | a technology name is matched iff its key occurs in the entry |
| CatalogReports.NoneMatched | database.py:989 | no match iff no key occurs in the entry |
| CatalogReports.EntryApps | database.py:985-990 | every PAT entry contributes at least one application |
| CatalogReports.AddMatches | database.py:985-987 | the table loop adds the matched names and reports whether any matched |
| CatalogReports.AddEntryApps | database.py:983-990 | an entry adds its matched names, or itself verbatim when none matched |
| CatalogReports.AddStepApps | database.py:981-990 | a step adds the applications of its entries |
| CatalogReports.CollectPatApps | database.py:978-990 | the product's set of applications |
| CatalogReports.PatAppsMembers | database.py:979-990 | an application is in the set iff some entry contributes it: a matched key's name, or the entry itself when no key matches |
| CatalogReports.PatRowsOf | database.py:992-1002 | a row iff the set is non-empty, with sorted names, count and automation tier |
| CatalogReports.PatRowIffPatUsed | database.py:992 | at most one row per product, and one iff some step has a PAT entry |
| CatalogReports.PatRowShape | database.py:993-1001 | count ≥ 1; every application named; 高 iff ≥ 4, 中 iff 2–3, 低 iff 1 |
| CatalogReports.PatCategory | database.py:977-1002 | the rows of one category's products |
| CatalogReports.GetPatApplicationMatrix | database.py:957-1005 | None (the sort's KeyError) exactly when there are no rows; otherwise a permutation of the product rows, sorted by descending count |
| CatalogReports.PatMatrixEmpty | database.py:976-1005 | the PAT matrix has no rows exactly when no step of any product lists a PAT entry |
| CatalogReports.FoldSnoc | database.py:1018-1023 | one more occurrence registers it |
| CatalogReports.FoldContents | database.py:1010-1023 | keys are the equipment names in first-seen order; each list is the product labels in first-seen order without duplicates |
| CatalogReports.RegisterKnown | database.py:1021-1023 | a known item gets the label appended unless present |
| CatalogReports.RegisterNew | database.py:1019-1023 | a new item is created empty and gets the label |
| CatalogReports.RegisterStep | database.py:1018-1023 | the equipment loop of one step registers each item with the product label |
| CatalogReports.RegisterSteps | database.py:1016-1023 | the step loop registers each step's equipment |
| CatalogReports.RegisterCategory | database.py:1013-1023 | the product loop registers each product's steps |
| CatalogReports.GetEquipmentMasterList | database.py:1008-1026 | the equipment dict, sorted by name |
| CatalogReports.EquipmentMasterListContents | database.py:1008-1026 | one entry per name; an item is listed iff some product uses it; each list holds exactly its users, once each |
| CatalogReports.EquipmentOccurrencesMembers | database.py:1014-1021 | a product's occurrences pair "category - product" with exactly the equipment its steps list |

## Left out

- Rounding: `round(…, 2)` on scores, metrics and statistics, `round(…, 1)` of readings and of the high-risk percentage, and `round(…, 4)` of the OEE are not modelled; all arithmetic is exact over reals. The source judges a reading's status on the rounded value, so at the edge of a band (BatchRecords.ReadingStatusBand, BatchRecords.DurationStatusBand) the model's status can differ from the source's.
- BatchAnalysis.Recommend: the low-yield test compares the exact mean yield with 90, where the source compares the mean rounded to two places.
- SeriesStats.CpkIsOneOrZero: it holds for exact reals; with floating point, `(usl - mean) / (3 * std)` may differ from 1 in the last bit.
- Floating-point behaviour: NaN beyond the single-value standard deviation, infinities, the numerics of `np.polyfit`, and the square root (an oracle parameter).
- The trend's `计算失败` branch: it catches a failure of the fit, which exact least squares never raises.
- Python's `float()` is modelled for decimal text only (white space, sign, digits, one point). Exponents, `inf`, `nan`, underscores and non-ASCII decimal digits (such as full-width "２") parse as failures in the model.
- `str.lower()` and `str.title()` are modelled on ASCII letters only.
- Random draws and seeding: `np.random.seed`, normal, uniform and choice are per-batch draw parameters, and the OEE's unseeded uniforms are the parameters `u1`, `u2`. No distribution is modelled.
- Dates: `datetime.now()` and `strftime` are left out. Dates are day numbers from a `today` parameter.
- The quality report's `yield_range` text is left out. The model keeps the minimum and maximum yields as numbers.
- `pd.to_numeric` over text columns: only `batch_size`, `yield_percent` and the `_target`/`_actual`/`_status` numbers are read. Every other fixed column counts as non-numeric.
- DataFrame construction and column layout: the model keeps the table as a list of batch records, and a column's rows are read through `Cell`.
- The `isinstance(product_info, dict)` guard and the `st.error`/`st.warning` side effects are left out. A product is always a record.
- Exceptions the source catches with a generic `except` (quality report, OEE) cannot arise in the model and are not modelled. The exceptions the source lets escape become None: a bad `天`/`h` number in the metrics, `split()[0]` of a blank description, `np.random.normal` with the negative scale of a negative time target in the batch records, and the `KeyError` of `sort_values` on the empty frame of a risk matrix or PAT matrix without rows.
- The pH branch of the batch-record synthesiser (`mes_features.py:76`) is kept as written and proved unreachable (BatchRecords.AcidityBranchUnreachable).
- The time branch reads the bare key `时间`, which catalog steps do not carry; such steps target 4 hours (BatchRecords.DurationTarget) and never raise (BatchRecords.NoTimeFieldNeverRaises).
- Set iteration order:
  - `list(set(...))` in the risk factors and the metrics' equipment list is a `set`;
  - `get_main_categories` promises only distinct elements and the right members;
  - `pat_apps` is kept in first-insertion order and is sorted before it is joined.
- CatalogReports.GetGmpRiskMatrix, CatalogReports.GetPatApplicationMatrix: pandas' default sort is not stable, so only "sorted by the key and a permutation of the rows" is promised, not the order of ties.
- CatalogReports.GetEquipmentMasterList: promises the sorted order and the permutation; `dict(sorted(...))` with distinct names is exactly that.
- The catalog's content (`API_PROCESSES` and the other static dictionaries) is left out. Every catalog operation is stated for any well-formed catalog.
- `get_all_products_summary`, the prose sections and timestamp of `generate_mes_requirements_report`, the `PROCESSES` property and the `__main__` export block are not part of this model.
- `app.py`, `components.py`, `visualizations.py` and `config.py` are display code and constant tables, and are not part of this model.
- Risk.RiskFactors: the source returns `list(set(factors))`, whose order depends on string hashing; the model returns the set.
- Metrics.CalculateProcessMetrics: `equipment_list` is the set of names, for the same reason.
- Catalog.MainCategories: the categories come out in first-seen order; the source's order is the set's arbitrary order, so only distinctness and membership are stated.


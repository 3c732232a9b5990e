# Validation and transformation engine of the SBF retail warehouse, in Dafny

This project models the part of the warehouse pipeline that moves retail
sales data from the `trusted` schema to the analytical `refined` schema and
gates each layer with rule-based checks:

- the trusted-layer validator (`script/validacao/validate_trusted.py`):
  seven steps of SQL counts over the six trusted tables (`marca`, `produto`,
  `data`, `pedido`, `pedido_item`, `meta`), each count graded SUCCESS,
  WARNING or ERROR into a run log, and an exit code that is 0 exactly when
  the log holds no ERROR;
- the refined-layer validator (`script/validacao/validate_refined.py`):
  existence, volume, ranking, attainment-percentage, cross-layer
  reconciliation, date-range and completeness checks on the refined tables,
  with the per-step `try/except` that turns a failing query into one ERROR;
- the six refined transformation jobs and their driver
  (`script/transformacao/transform_refined.py`): best sellers per month and
  state with `RANK()`, brand performance against monthly targets, monthly
  sales KPIs, cancellation analysis, month-over-month category variation with
  `LAG()`, and regional analysis, each a `DROP TABLE` / `CREATE TABLE AS` in
  its own transaction, run in a fixed order with per-job failure isolation.

Tables are sequences of row datatypes. Every trusted column, and every
refined column that its query can leave NULL, is an `Option` (SQL NULL);
refined columns computed by `RANK()`, `COUNT` or `COALESCE` are plain values. Money is integer cents and percentages are integer hundredths of a
percent. `ROUND(x, 2)` is rounding half away from zero of the exact ratio.
`DATE_TRUNC('month', d)` is a (year, month) pair. Join `=` never matches
NULL, and `GROUP BY` puts all NULL keys in one group. `SUM` skips NULLs and
is NULL over no values. `RANK() ... DESC` sorts NULL totals first. `LAG()`
over `mes_ano` ascending sorts NULL months last.

Module layout:

- `Sql`: the SQL semantics listed above.
- `Trusted`: the trusted rows and the joins.
- `Results`: the run log. `Results.ResultLog` is a class whose `results`
  and `totalErrors` fields stand for the module-level `validation_results`
  and `total_errors` globals.
- `TrustedChecks` and `TrustedValidator`: the trusted validator, as pure
  counts and as the step-by-step run.
- `Refined`: the refined schema, each table present or absent.
- One module per job: `BestSellers`, `BrandPerformance`, `SalesKpis`,
  `CancellationAnalysis`, `CategoryVariation`, `RegionalAnalysis`.
- `Pipeline`: the driver. `Pipeline.RefinedSchema` is a class whose fields
  are the six refined tables.
- `RankChecks`, `RefinedChecks` and `RefinedValidator`: the refined
  validator.
- `CrossLayer`: what the refined validator reports on tables the jobs have
  just written.

Inputs the code takes from its environment are parameters:

- the trusted and refined data (`TrustedDb`, `RefinedDb`);
- the current date (`today`) for the future-date warning;
- the set of jobs whose statement raises a database error (`failing`).

## Consequences of the code worth knowing

Each of these is a fact about the program as written, and the model keeps it:

- **Rank ties are flagged as gaps.** The best-seller job ranks with `RANK()`
  (`transform_refined.py:58-61`), so equal totals share a position and the
  next position skips: 1, 1, 3. The refined validator's check whose stated
  purpose is to find gaps in the rankings (`validate_refined.py:128-146`)
  compares each position with the previous one plus one, so the repeated 1
  already counts as a gap. `RankChecks.RankedTieCounted` and
  `CrossLayer.TieWarns` prove that any tie in a table built by `RANK()`
  makes the ranking step warn.
- **Exactly 1 % is consistent.** The reconciliation warns only when
  `diff_pct > 1` (`validate_refined.py:210` and `:229`), so a divergence of
  exactly 1 % is a SUCCESS (`RefinedChecks.OnePercentBoundary`).
- **An empty refined table only warns.** A count of 0 is logged as a
  WARNING, not an ERROR (`validate_refined.py:100-101`); only a failing
  count query is an ERROR.
- **Five foreign-key rules.** The trusted validator checks five
  relationships, `pedido.data -> data.data` among them
  (`validate_trusted.py:86-112`).
- **LAG with a non-positive prior.** The month-over-month variation is NULL
  whenever the previous month's value is NULL or not positive
  (`transform_refined.py:208-221`), so a negative or zero prior both give
  NULL.
- **No exception handling in the trusted validator.** Its steps have no
  `try/except`, so a failing query there ends the run instead of becoming
  an ERROR result; the refined validator catches each step's failure and
  logs one ERROR.
- **Cross-layer warnings on correct data.** Best-seller quantities include
  cancelled items, while the trusted side of the reconciliation sums only
  non-cancelled ones (`BestSellers.BestSellersTotal`). The brand-performance
  total counts each order's `vlr_total` once per joined item row
  (`BrandPerformance.PerformanceTotal`). The cross-layer checks can
  therefore warn on correct data.

## Model

| member | source | states |
|---|---|---|
| Results.ResultLog.constructor | script/validacao/validate_trusted.py:26-27 | a run starts with an empty result list and an error counter of 0 |
| Results.ResultLog.LogSuccess | script/validacao/validate_trusted.py:33-36 | appends exactly one SUCCESS entry after the unchanged earlier entries; the error counter stays equal to the number of ERROR entries |
| Results.ResultLog.LogWarning | script/validacao/validate_trusted.py:38-41 | appends exactly one WARNING entry, earlier entries unchanged, error counter unchanged |
| Results.ResultLog.LogError | script/validacao/validate_trusted.py:43-48 | appends exactly one ERROR entry and increments `total_errors` by one, so the counter always equals the number of ERROR entries |
| Results.StatusCountsPartition | script/validacao/validate_trusted.py:311-313 | the success, warning and error counts of the summary add up to the number of logged results |
| Results.ExitCode | script/validacao/validate_trusted.py:320-327 | `main` returns 0 or 1, and 0 exactly when no logged result is an ERROR |
| Results.GradedErrorFree | script/validacao/validate_trusted.py:114-121 | a list of checks graded by one rule is ERROR-free exactly when the rule grades no check's count as ERROR |
| Trusted.PedidoItens | script/validacao/validate_trusted.py:241-242 | the inner join holds an (order, item) pair exactly when both rows exist and the item's non-NULL `id_pedido` equals the order's id |
| Trusted.OrderLines | script/transformacao/transform_refined.py:131-132 | the left join pairs each order with each of its non-cancelled items, and pairs it with NULL exactly when it has no such item |
| Trusted.Vendas | script/transformacao/transform_refined.py:62-64 | the order-item-product join holds exactly the triples linked by non-NULL equal keys |
| TrustedChecks.VolumeStatus | script/validacao/validate_trusted.py:73-78 | a table count is an ERROR iff 0, a WARNING iff 1 to 9, a SUCCESS iff 10 or more |
| TrustedChecks.VolumeChecksPass | script/validacao/validate_trusted.py:66-78 | the six volume results, one per table, hold no ERROR exactly when all six trusted tables have rows |
| TrustedChecks.OrphansNone | script/validacao/validate_trusted.py:86-121 | the orphan count is 0 exactly when every child key is non-NULL and equals some parent key (a NULL child key is an orphan) |
| TrustedChecks.OrphansNoneRows | script/validacao/validate_trusted.py:86-121 | the orphan count of a relationship is 0 exactly when every child row references an existing parent row |
| TrustedChecks.ForeignKeyChecksPass | script/validacao/validate_trusted.py:86-121 | all five orphan counts are 0 exactly when each of the five relationships resolves for every child row |
| TrustedChecks.NullCountZero | script/validacao/validate_trusted.py:142-149 | a field's NULL count is 0 exactly when every row has a value in it |
| TrustedChecks.NullChecksPass | script/validacao/validate_trusted.py:129-149 | all ten NULL counts are 0 exactly when every required field is present in every row |
| TrustedChecks.RangeChecksPass | script/validacao/validate_trusted.py:157-191 | all four range counts are 0 exactly when no order total is negative, no quantity is at most 0, every non-NULL UF is two letters A-Z and every non-NULL month lies in 1..12 |
| TrustedChecks.TwoOccurrences | script/validacao/validate_trusted.py:199-203 | a key value is in a `HAVING COUNT(*) > 1` group exactly when two rows carry it |
| TrustedChecks.DuplicateKeysNone | script/validacao/validate_trusted.py:222-227 | the number of duplicated key groups is 0 exactly when the key column has no repeated value |
| TrustedChecks.NoDuplicateRows | script/validacao/validate_trusted.py:199-227 | the duplicate count of a table is 0 exactly when no two of its rows share a key (two NULL keys count as equal, as in GROUP BY) |
| TrustedChecks.DuplicateChecksPass | script/validacao/validate_trusted.py:199-227 | all five duplicate counts are 0 exactly when all five keys are unique |
| TrustedChecks.DivergenceFound | script/validacao/validate_trusted.py:236-253 | the reported divergence count is at most the LIMIT of 10, and positive exactly when some order with an item has a stored total more than 0.01 away from the sum of its non-cancelled items |
| TrustedChecks.DivergentHasOrder | script/validacao/validate_trusted.py:237-246 | every divergent group comes from an existing order with an existing item that diverges |
| TrustedChecks.OrderDivergent | script/validacao/validate_trusted.py:237-246 | an existing order with an item whose totals diverge is one of the divergent groups |
| TrustedChecks.OneItemOrderDivergence | script/validacao/validate_trusted.py:236-253 | with one item of 5 x 2.00, a stored total is reported as one divergent order exactly when it is more than one cent from 10.00 (10.00 and 10.01 pass, 12.00 does not) |
| TrustedChecks.OrdersWithoutItemsFound | script/validacao/validate_trusted.py:256-265 | the orders-without-items count is positive exactly when some order has no referencing item or a referencing item with a NULL id |
| TrustedChecks.DateChecksPass | script/validacao/validate_trusted.py:274-284 | the inconsistent-date count is 0 exactly when year, month and day agree with `data` wherever both are non-NULL |
| TrustedChecks.WarningsNeverFail | script/validacao/validate_trusted.py:249-265 | the business-rule results are never ERRORs, whatever the counts |
| TrustedChecks.TrustedVerdict | script/validacao/validate_trusted.py:290-327 | the trusted validator exits with 0 exactly when every table has rows, every foreign key resolves, every required field is present, every value is in range, every key is unique and every date is consistent |
| TrustedValidator.CheckEachNoneFound | script/validacao/validate_trusted.py:114-121 | the loop over a check dictionary appends one graded entry per check, in order, keeping `total_errors` equal to the ERROR count |
| TrustedValidator.ValidateTableCounts | script/validacao/validate_trusted.py:60-78 | appends one volume-graded entry per trusted table, in list order |
| TrustedValidator.ValidateForeignKeys | script/validacao/validate_trusted.py:80-121 | appends one entry per relationship, ERROR exactly when it has an orphan |
| TrustedValidator.ValidateNullConstraints | script/validacao/validate_trusted.py:123-149 | appends one entry per required field, ERROR exactly when it holds a NULL |
| TrustedValidator.ValidateDataRanges | script/validacao/validate_trusted.py:151-191 | appends the four range results in order, each ERROR exactly when a row violates it |
| TrustedValidator.ValidateDuplicates | script/validacao/validate_trusted.py:193-227 | appends one entry per key, ERROR exactly when some key value is duplicated |
| TrustedValidator.ValidateBusinessRules | script/validacao/validate_trusted.py:229-265 | appends the two business-rule results, WARNING or SUCCESS, never changing the error counter |
| TrustedValidator.ValidateDateConsistency | script/validacao/validate_trusted.py:267-284 | appends one entry, ERROR exactly when some calendar row is inconsistent |
| TrustedValidator.RunTrustedValidation | script/validacao/validate_trusted.py:290-327 | the run logs exactly the results of the seven steps in order, `total_errors` equals the ERROR count, and the exit code is 0 exactly when the trusted layer is healthy |
| RankChecks.StartFailuresFound | script/validacao/validate_refined.py:115-126 | the start check reports a partition exactly when some row lies in a (month, state) partition whose smallest position is not 1 |
| RankChecks.StartsOffMeaning | script/validacao/validate_refined.py:115-120 | a partition is reported exactly when it has rows and either no row is at position 1 or some row is below 1 |
| RankChecks.SortAsc | script/validacao/validate_refined.py:135 | ORDER BY posicao yields the partition's positions as an ascending permutation |
| RankChecks.GapsPositive | script/validacao/validate_refined.py:138-139 | the gap count of an ordered partition is positive exactly when some position is not its predecessor plus one |
| RankChecks.PartitionGapsZero | script/validacao/validate_refined.py:129-139 | a partition has no gap exactly when its sorted positions are consecutive integers |
| RankChecks.RepeatIsGap | script/validacao/validate_refined.py:135-139 | in ascending order a repeated position sits next to itself and is counted as a gap |
| RankChecks.TieIsGap | script/validacao/validate_refined.py:129-139 | two rows of one partition with the same position make that partition's gap count positive |
| RankChecks.TieCounted | script/validacao/validate_refined.py:129-146 | a shared position anywhere in the table makes the gap query count at least one row |
| RankChecks.RankedStartsAtOne | script/validacao/validate_refined.py:115-126 | on a competition-ranked table the start check reports no partition |
| RankChecks.RankedTieCounted | script/validacao/validate_refined.py:129-146 | on a competition-ranked table, two products of one month and state with equal totals make the gap count positive |
| RefinedChecks.PresenceErrorFree | script/validacao/validate_refined.py:66-105 | the existence and volume results hold no ERROR exactly when both checked tables exist; an empty table only warns |
| RefinedChecks.RankingErrorFree | script/validacao/validate_refined.py:113-149 | the ranking step logs no ERROR exactly when the best-sellers table exists and every partition starts at 1; gaps only warn |
| RefinedChecks.PercOffExact | script/validacao/validate_refined.py:159-163 | a performance row is counted exactly when its target is positive, both figures are non-NULL and the percentage is more than 0.01 from total / target x 100, on exact ratios |
| RefinedChecks.PerformanceErrorFree | script/validacao/validate_refined.py:157-184 | the performance step logs no ERROR exactly when the table exists and no row is off by more than 0.01 or negative |
| RefinedChecks.AboveOnePercentExact | script/validacao/validate_refined.py:205-213 | the integer tolerance test is exactly `diff_pct > 1` on exact ratios, with `diff_pct` 0 when the trusted total is not positive |
| RefinedChecks.ReconcileRule | script/validacao/validate_refined.py:203-232 | a comparison logs one entry exactly when both totals are non-NULL and non-zero, never an ERROR, and a WARNING exactly when `diff_pct > 1` |
| RefinedChecks.OnePercentBoundary | script/validacao/validate_refined.py:208-210 | a refined total exactly 1 % off the trusted one is consistent in both directions, and one unit further warns |
| RefinedChecks.AggregationErrorFree | script/validacao/validate_refined.py:192-235 | the reconciliation step fails only when one of the two tables is missing |
| RefinedChecks.LatestMonth | script/validacao/validate_refined.py:245-253 | MAX(mes_ano) is NULL exactly when every month is NULL, otherwise it is a month of the table and no month exceeds it |
| RefinedChecks.FutureDates | script/validacao/validate_refined.py:253-262 | the future-date warning is logged exactly when some month of the table starts after the current date |
| RefinedChecks.DateRangeErrorFree | script/validacao/validate_refined.py:243-265 | the date-range step logs an ERROR only when the best-sellers table is missing |
| RefinedChecks.IncompleteExact | script/validacao/validate_refined.py:284-296 | the integer completeness test is exactly completeness < 95 % on exact ratios, with an empty table at 0 % |
| RefinedChecks.BrandsCovered | script/validacao/validate_refined.py:299-311 | no brand is reported exactly when every brand has a performance row with its id, and a brand with a NULL id is always reported |
| RefinedChecks.QualityErrorFree | script/validacao/validate_refined.py:273-314 | the quality step logs an ERROR only when one of the two tables is missing |
| RefinedChecks.RefinedVerdict | script/validacao/validate_refined.py:320-357 | the refined validator exits with 0 exactly when both tables exist, every ranking starts at 1 and no performance row is off or negative |
| RefinedValidator.ValidateTableExistence | script/validacao/validate_refined.py:60-84 | appends one entry per checked table, SUCCESS when it exists in schema `refined`, ERROR otherwise |
| RefinedValidator.ValidateRefinedCounts | script/validacao/validate_refined.py:86-105 | appends one entry per table: ERROR when the count query fails, WARNING when empty, SUCCESS otherwise |
| RefinedValidator.ValidateRanking | script/validacao/validate_refined.py:107-149 | appends the start and gap results, or one ERROR and nothing else when the table is missing |
| RefinedValidator.ValidatePerformance | script/validacao/validate_refined.py:151-184 | appends the percentage and sign results, or one ERROR when the table is missing |
| RefinedValidator.CompareTotals | script/validacao/validate_refined.py:203-213 | logs nothing unless both totals are truthy, then SUCCESS or WARNING by the 1 % rule, never touching the error counter |
| RefinedValidator.ValidateAggregation | script/validacao/validate_refined.py:186-235 | appends the two reconciliations, keeping the quantity result when the second table's query fails and then adding one ERROR |
| RefinedValidator.ValidateDateRanges | script/validacao/validate_refined.py:237-265 | appends the date-range results for the given current date |
| RefinedValidator.ValidateQuality | script/validacao/validate_refined.py:267-314 | appends the two completeness SUCCESS entries, a WARNING below 95 %, and the brands-without-performance result, or an ERROR after the entries already logged when a table is missing |
| RefinedValidator.RunRefinedValidation | script/validacao/validate_refined.py:320-357 | the run logs exactly the results of the seven steps in order, `total_errors` equals the ERROR count, and the exit code is 0 exactly when the refined schema is healthy |
| BestSellers.BestSellersRanked | script/transformacao/transform_refined.py:58-61 | each `posicao` is 1 plus the number of rows of the same (month, state) with a strictly larger total |
| BestSellers.BestSellersGroups | script/transformacao/transform_refined.py:52-65 | one row per (month, state, product, name) occurring among the joined sales, and no other |
| BestSellers.BestSellersTotal | script/transformacao/transform_refined.py:57-65 | the table's quantities add up to the quantity of every item that joins an order and a product, cancelled items included |
| BestSellers.RankBounds | script/transformacao/transform_refined.py:58-61 | every rank is at least 1 and at most the size of its partition |
| BestSellers.RankOrder | script/transformacao/transform_refined.py:58-61 | within a partition a smaller rank means a strictly larger total, and equal totals share a rank |
| BestSellers.Ahead | script/transformacao/transform_refined.py:58-61 | a row ahead in its partition's ordering has a strictly smaller rank |
| BestSellers.TopRank | script/transformacao/transform_refined.py:58-61 | every non-empty partition has a row ranked 1 |
| BrandPerformance.Attainment | script/transformacao/transform_refined.py:88-91 | the percentage is NULL exactly when the total or target is NULL or the target is 0, and otherwise within 0.005 % of total / target x 100 |
| BrandPerformance.GroupRowAttainment | script/transformacao/transform_refined.py:86-91 | each group's percentage agrees with its `vlr_meta` and `vlr_total_vendido` |
| BrandPerformance.BrandSaleSources | script/transformacao/transform_refined.py:92-100 | every joined row is made of trusted rows, and its target, when present, is the brand's target for that year and month |
| BrandPerformance.PerformanceColumns | script/transformacao/transform_refined.py:86-101 | `vlr_meta` follows `LEFT JOIN meta ... COALESCE(mt.valor, 0)` both ways: a non-zero value is the value of one of the brand's targets for that year and month, and a brand that has such a target gets the (COALESCEd) value of one of them; the percentage is consistent with it |
| BrandPerformance.SaleFindsTarget | script/transformacao/transform_refined.py:97-100 | a joined sale whose brand has a target for the sale's year and month is never left with a NULL target by the LEFT JOIN |
| BrandPerformance.PerformanceGroups | script/transformacao/transform_refined.py:84-101 | the table holds one row per (year, month, brand id, brand name, COALESCEd target) that occurs among the joined sales, and no other |
| BrandPerformance.PerformanceAlike | script/transformacao/transform_refined.py:87-101 | two rows share all their key columns only when `vlr_meta` is 0 and the brand has a target with a NULL value that month, which `GROUP BY mt.valor` keeps apart from a target of 0 |
| BrandPerformance.PerformanceUnique | script/transformacao/transform_refined.py:84-101 | when every target has a value, no two rows share (year, month, brand id, brand name, `vlr_meta`) |
| BrandPerformance.PerformanceTotal | script/transformacao/transform_refined.py:86-101 | the sold values add up to each order's total taken once per joined item row |
| BrandPerformance.PerformanceNonNegative | script/transformacao/transform_refined.py:86-87 | without negative order totals and targets, no row has a negative total or target |
| SalesKpis.CancellationRate | script/transformacao/transform_refined.py:124-128 | the cancellation rate is NULL exactly without orders, within 0.005 % of the exact share, and in [0, 100] % when the cancellations are among the orders |
| SalesKpis.CancelledAmongOrders | script/transformacao/transform_refined.py:120-123 | a group's distinct cancelled orders are no more than its distinct orders |
| SalesKpis.KpiCancellations | script/transformacao/transform_refined.py:120-128 | every month has `qtd_cancelamentos <= qtd_pedidos` and a rate that is their rounded ratio in [0, 100] % |
| SalesKpis.LineOrder | script/transformacao/transform_refined.py:131-132 | every joined row carries an order of the trusted table |
| SalesKpis.OrderKept | script/transformacao/transform_refined.py:131-132 | the left join keeps every order |
| SalesKpis.KpiMonths | script/transformacao/transform_refined.py:119-133 | one row per month in which some order was placed (NULL dates form one month), and no other |
| SalesKpis.KpiTotals | script/transformacao/transform_refined.py:121-130 | item quantities and revenue add up to the sums over the joined rows: each non-cancelled item once, each order's total once per such item |
| CancellationAnalysis.CancelledSales | script/transformacao/transform_refined.py:158-162 | the aggregated rows are exactly the joined rows whose order is 'CANCELADO' or whose item is flagged 'S' |
| CancellationAnalysis.CancellationGroups | script/transformacao/transform_refined.py:150-163 | one row per (month, state, brand) of such a row, and no other |
| CancellationAnalysis.CancellationHasOrder | script/transformacao/transform_refined.py:154-159 | every row counts at least one cancelled order |
| CancellationAnalysis.CancellationTotal | script/transformacao/transform_refined.py:155-162 | the cancelled values add up to the order totals of every qualifying row |
| CategoryVariation.LiveSales | script/transformacao/transform_refined.py:186-189 | only joined rows of non-cancelled items are aggregated |
| CategoryVariation.MonthlyGroups | script/transformacao/transform_refined.py:180-190 | one monthly row per (month, category) and no other; a product without category counts under 'Sem Categoria' |
| CategoryVariation.MonthlyTotals | script/transformacao/transform_refined.py:184-185 | the monthly quantities and values add up to those of every aggregated item |
| CategoryVariation.Previous | script/transformacao/transform_refined.py:198-199 | LAG reads the same category's row of the latest earlier month, or nothing when no earlier month exists |
| CategoryVariation.Change | script/transformacao/transform_refined.py:207-222 | the variation is NULL exactly when the previous value is NULL or not positive or the current one is NULL, otherwise within 0.005 % of (cur - prev) / prev x 100 |
| CategoryVariation.VariationLag | script/transformacao/transform_refined.py:192-222 | a category's first month has NULL variations, and every other month's variations are taken against its immediately preceding month |
| RegionalAnalysis.LineOrder | script/transformacao/transform_refined.py:249-251 | every joined row carries an order of the trusted table |
| RegionalAnalysis.OrderKept | script/transformacao/transform_refined.py:249-251 | both left joins keep every order |
| RegionalAnalysis.GroupHasOrder | script/transformacao/transform_refined.py:249-253 | every group comes from an order with a state |
| RegionalAnalysis.OrderHasGroup | script/transformacao/transform_refined.py:249-253 | every order with a state lands in its (month, state) group |
| RegionalAnalysis.RegionalGroups | script/transformacao/transform_refined.py:240-253 | one row per (month, state) of an order with a state, and no other |
| RegionalAnalysis.RegionalStates | script/transformacao/transform_refined.py:252 | no row has a NULL state |
| RegionalAnalysis.RegionalTotal | script/transformacao/transform_refined.py:244-253 | the revenue adds up to the order totals of every joined row of an order with a state |
| Pipeline.Failures | script/transformacao/transform_refined.py:277-281 | the reported failures are exactly the listed jobs that fail |
| Pipeline.AfterJobsKeeps | script/transformacao/transform_refined.py:277-281 | a table whose job is not run or fails keeps its prior contents |
| Pipeline.AfterJobsProduces | script/transformacao/transform_refined.py:277-281 | a job that runs and succeeds leaves exactly the table its query computes |
| Pipeline.PipelineFresh | script/transformacao/transform_refined.py:268-281 | without failures the run leaves every refined table as computed from the trusted layer, whatever it held before |
| Pipeline.PipelineIdempotent | script/transformacao/transform_refined.py:268-281 | running the pipeline twice leaves the same schema as running it once, for any set of failing jobs |
| Pipeline.RefinedSchema.Restore | script/transformacao/transform_refined.py:68-69 | a rolled-back transaction puts back the schema as it was |
| Pipeline.RefinedSchema.Drop | script/transformacao/transform_refined.py:50 | `DROP TABLE IF EXISTS` removes the job's table and nothing else |
| Pipeline.RefinedSchema.Create | script/transformacao/transform_refined.py:51 | `CREATE TABLE ... AS` sets the job's table to its query result and nothing else |
| Pipeline.RefinedSchema.RunJob | script/transformacao/transform_refined.py:68-69 | one job either commits its new table or rolls back to the prior schema, and reports which |
| Pipeline.RefinedSchema.RunJobs | script/transformacao/transform_refined.py:277-281 | every listed job is attempted once in order, the failing ones are reported, and the schema ends as the jobs dictate |
| Pipeline.RefinedSchema.RunTransformations | script/transformacao/transform_refined.py:264-283 | the script attempts its six jobs and leaves each table recomputed or, when its job fails, as before |
| CrossLayer.FreshRankingStarts | script/validacao/validate_refined.py:115-126 | the start check never fires on a best-sellers table the job wrote |
| CrossLayer.FreshPercentages | script/validacao/validate_refined.py:159-163 | the 0.01 percentage check never fires on a performance table the job wrote |
| CrossLayer.FreshNonNegative | script/validacao/validate_refined.py:172-175 | without negative amounts in the trusted layer, the sign check never fires on the job's output |
| CrossLayer.PipelineThenValidation | script/validacao/validate_refined.py:320-357 | when no order total (`pedido.vlr_total`) and no monthly target (`meta.valor`) of the trusted layer is negative, a failure-free transformation run followed by the refined validator exits with 0, whatever the prior schema and the date; a negative amount would fail the sign check of `validate_refined.py:172-181` |
| CrossLayer.MissingTableFails | script/validacao/validate_refined.py:60-84 | when the best-sellers job fails on a schema that never had its table, the validator exits with 1 |
| CrossLayer.TieWarns | script/validacao/validate_refined.py:129-146 | two products tied in one month and state make the ranking step warn about correctly ranked output |
| Sql.RoundDiv | script/transformacao/transform_refined.py:124-128 | ROUND of the ratio n / d is the integer nearest to it, an exact half rounded away from zero |
| Sql.RoundedAvg | script/transformacao/transform_refined.py:122 | ROUND(AVG(x), 2) is NULL exactly when every value is NULL, and otherwise within half a unit of the mean of the non-NULL values |

## Left out

- Refined columns computed by `RANK()`, `COUNT` or `COALESCE` (`posicao`,
  `vlr_meta`, the order and item counts, `categoria`) are typed non-NULL,
  because the jobs never leave them NULL. The refined validator is therefore
  modelled only on tables that can hold no NULL there; a table edited by
  hand to hold, say, a NULL `posicao` (where `MIN(posicao) != 1` is unknown)
  is not represented.
- Connections, `create_engine`, environment variables and `execute_query`:
  the data a query would read is a parameter.
- Console output: emojis, headers, and the exact wording of messages and
  formatted numbers. A result keeps its severity, its subject and the count
  it measured.
- `datetime.now()` timestamps on log entries, which are not modelled. The
  current date of the future-date check is a parameter.
- The `float()` conversion in `diff_pct`: the tolerance tests are proved
  on exact ratios, and floating-point rounding at the 1 % boundary is not
  modelled.
- Money as integer cents: `NUMERIC` amounts with more than two decimals,
  and the exact division precision of `NUMERIC`, are not modelled. The
  business-rule tolerance of 0.01 is "more than one cent".
- The PostgreSQL regular-expression engine: only the predicate
  "two characters A-Z" of `^[A-Z]{2}$` is modelled.
- Output `ORDER BY` clauses of the created tables: row order is not part
  of a table's contract, and the model's row order is the order of first
  occurrence of each group.
- Transactional visibility of `DROP` + `CREATE` inside `engine.begin()`:
  each job is a whole-table replacement, or no change when it fails.
- Query failures other than a missing refined table. A failing job is a
  parameter (`failing`).
- Exceptions in the trusted validator, which has no handler and ends the
  run.
- `inicializar_schemas`: the schema DDL is assumed to succeed.
- The final completion message of the transformation driver.
- `script/ingestao/load_data_rds.py` and `dags/sbf_pipeline_dag.py` are
  not part of this model: they are CSV loading through a library and
  Airflow scheduling, with no decisions of their own.
- Sql.RoundedAvg: states that the average is within half a hundredth of
  the exact mean, leaving open which way an exact half rounds.
- BrandPerformance.Attainment: states the half-hundredth bound, leaving
  open which way an exact half rounds.
- SalesKpis.CancellationRate: states the half-hundredth bound; the
  direction of an exact half is fixed only by `Sql.RoundDiv`, which it
  calls.
- CategoryVariation.Change: states the half-hundredth bound; the direction
  of an exact half is fixed only by `Sql.RoundDiv`, which it calls.

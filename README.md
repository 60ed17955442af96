# Fleet analytics: the report and dashboard aggregations

This project models the analytics core of a fleet-management backend. Two controllers are covered.

The report controller builds the data of the period report:
- the financial summary;
- the KPIs;
- the daily line series;
- the per-vehicle and per-employee analyses;
- the top-5 rankings and the insights;
- the chart data.

The dashboard controller serves these endpoints:
- the KPI cards;
- the six-month cost and revenue charts;
- the spending pie;
- the per-vehicle cost bars;
- the five most expensive vehicles.

The database is a `Ledger.Snapshot`, a value. It holds the four ledgers (revenues, refuelings, maintenances, general expenses) and the two rosters (vehicles, employees). A query is a function over it:
- `Op.between` on a date is `Ledger.InPeriod`;
- a foreign-key filter is `Folds.Keyed`;
- `Model.sum` is `Ledger.OrmSum`, which is null when no row matches;
- `|| 0` is `Ledger.OrZero`.

Dates are `Calendar.Date` values. The date-fns calls (`eachDayOfInterval`, `startOfMonth`, `endOfMonth`, `subMonths`, `format`, `parseISO` of 'yyyy-MM-dd') are functions on them. The wall clock (`new Date()`) is a `today` parameter.

The source's loops are methods, each proved equal to a specification function:
- the daily breakdown;
- the vehicle analysis with its `fleetTotalKmDriven +=` accumulator;
- the employee analysis with its in-place `dailyRevenues` dictionary;
- the six-month chart loops;
- the per-vehicle cost loop;
- the `vehicleCosts` loop.

The rest of the model is functions:
- `toNumber`;
- the `reduce` totals;
- `getPeriod`;
- the `sort`/`slice` rankings, as a stable insertion sort by descending key.

The lemmas state what these functions promise.

Modules:
- `Wrappers`: `Option`.
- `Calendar`: dates, days of an interval, month windows and the date strings.
- `Folds`: totals and filters.
- `Ranking`: the sort, the top-5 slice and the first maximum.
- `Ledger`: the rows, numeric coercion and the ORM sum.
- `Vehicles`, `Employees`, `Daily`: the three analyses.
- `Report`: assembly and `generateReport`.
- `Dashboard`: the dashboard endpoints.

Two facts about the source shape the contracts:
- Rankings are non-increasing, and ties keep input order, because `Array.prototype.sort` is stable.
- In `generateReport`, a date that is present but malformed reaches `parseISO` and the catch block, so the status is 500, not 400.

## Model

| member | source | states |
|---|---|---|
| Ledger.ToNumber | backend/src/controllers/report.controller.js:36-39 | a finite parsed value is kept, anything else becomes 0 |
| Ledger.CoercedTotal | backend/src/controllers/report.controller.js:71-74 | a total of coerced values equals the total of the finite values only |
| Ledger.InPeriod | backend/src/controllers/report.controller.js:59-62 | the date filter never adds rows |
| Ledger.InPeriodMembers | backend/src/controllers/report.controller.js:59-62 | a row is kept iff it is in the table and its date lies between start and end, both included |
| Ledger.Fetch | backend/src/controllers/report.controller.js:59-64 | the rosters are fetched whole |
| Ledger.FetchWithinPeriod | backend/src/controllers/report.controller.js:59-62 | every fetched ledger row is dated inside the period |
| Ledger.OrmSum | backend/src/controllers/dashboard.controller.js:27-30 | the ORM sum is null iff no row matches |
| Ledger.OrZero | backend/src/controllers/dashboard.controller.js:32 | `value \|\| 0` is 0 for a null sum and the value itself otherwise |
| Ledger.OrZeroSum | backend/src/controllers/dashboard.controller.js:32 | a coalesced ORM sum equals the plain total of the matching rows (0 for none) |
| Calendar.NextDay | backend/src/controllers/report.controller.js:80 | the next day is a real day after d, and no real day lies strictly between them |
| Calendar.DaysOfInterval | backend/src/controllers/report.controller.js:80 | every listed day is a real day inside the interval; the list is non-empty iff start is not after end |
| Calendar.DaysOfIntervalAscending | backend/src/controllers/report.controller.js:80 | the days are strictly increasing |
| Calendar.DaysOfIntervalComplete | backend/src/controllers/report.controller.js:80 | every real day between start and end is listed |
| Calendar.OrdinalOrder | backend/src/controllers/report.controller.js:144 | the numeric day key orders real days chronologically and identifies them |
| Calendar.FormatIso | backend/src/controllers/dashboard.controller.js:14-15 | 'yyyy-MM-dd' is ten characters |
| Calendar.ParseIso | backend/src/controllers/report.controller.js:80 | a parsed date is a real day with a four-digit year |
| Calendar.ParseFormatIso | backend/src/controllers/dashboard.controller.js:14-15 | parsing a formatted day gives the day back |
| Calendar.FormatParseIso | backend/src/controllers/report.controller.js:80 | formatting a parsed string gives the string back |
| Calendar.MonthsBefore | backend/src/controllers/dashboard.controller.js:54 | subMonths(d, i) lands i months before d's month, in a valid month |
| Calendar.MonthWindow | backend/src/controllers/dashboard.controller.js:58-59 | [startOfMonth, endOfMonth] holds exactly the real days of that month |
| Calendar.MonthLabel | backend/src/controllers/dashboard.controller.js:55 | 'MM/yyyy' is seven characters with '/' at index 2 |
| Calendar.MonthLabelSpells | backend/src/controllers/dashboard.controller.js:55 | for a valid month of a year below 10000, the label's two fields are digits spelling the month and the year |
| Calendar.DayMonthLabel | backend/src/controllers/report.controller.js:87 | 'dd/MM' is five characters with '/' at index 2 |
| Calendar.DayMonthLabelSpells | backend/src/controllers/report.controller.js:87 | for a real day, the label's two fields are digits spelling the day and the month |
| Folds.Keyed | backend/src/controllers/report.controller.js:97-99 | the filter never adds rows |
| Folds.KeyedMembers | backend/src/controllers/report.controller.js:97-99 | a row survives iff it is in the list and carries the key |
| Folds.SumByPermutation | backend/src/controllers/report.controller.js:144 | reordering a list does not change its total |
| Folds.PartitionSum | backend/src/controllers/report.controller.js:81-85 | per-key totals over distinct keys that cover every row add up to the whole total |
| Ranking.Insert | backend/src/controllers/report.controller.js:150 | one insertion step grows the list by one |
| Ranking.InsertPermutes | backend/src/controllers/report.controller.js:150 | an insertion adds exactly the inserted element |
| Ranking.InsertNonIncreasing | backend/src/controllers/report.controller.js:150 | inserting into a descending list keeps it descending |
| Ranking.SortDesc | backend/src/controllers/report.controller.js:150-154 | the sort keeps the length |
| Ranking.SortDescPermutes | backend/src/controllers/report.controller.js:150-154 | the sort is a permutation of its input |
| Ranking.SortDescOrdered | backend/src/controllers/report.controller.js:150-154 | the sorted list is non-increasing by key |
| Ranking.FirstMaxIndex | backend/src/controllers/report.controller.js:193-196 | the index holds the largest key, and no earlier element's key is as large |
| Ranking.SortDescHead | backend/src/controllers/report.controller.js:193-196 | the head of the sorted list is the first element with the largest key |
| Ranking.Top | backend/src/controllers/report.controller.js:150-154 | `.slice(0, 5)` keeps min(length, 5) elements |
| Ranking.TopIsRanking | backend/src/controllers/report.controller.js:150-154 | the top 5 are non-increasing and drawn from the list; nothing left out ranks above the last entry |
| Ranking.First | backend/src/controllers/report.controller.js:193-196 | `list[0] \|\| null` is null iff the list is empty, else its head |
| Ranking.InsightIsFirstMaximum | backend/src/controllers/report.controller.js:193-196 | an insight is null for an empty list, else the first element with the largest key |
| Ranking.ChampionIsFirstMax | backend/src/controllers/report.controller.js:161-163 | the `>`-reduce seeded with the first element returns the first element with the largest key |
| Vehicles.ByOdometer | backend/src/controllers/report.controller.js:98 | the odometer sort keeps the length |
| Vehicles.ByOdometerAscending | backend/src/controllers/report.controller.js:98 | after the sort, odometer readings ascend |
| Vehicles.MinReading | backend/src/controllers/report.controller.js:101 | the smallest reading is a reading, and none is smaller |
| Vehicles.MaxReading | backend/src/controllers/report.controller.js:101 | the largest reading is a reading, and none is larger |
| Vehicles.SpanIsReadingRange | backend/src/controllers/report.controller.js:101 | km driven is max minus min reading with two or more refuelings, else 0, and never negative |
| Vehicles.SpanIgnoresOrder | backend/src/controllers/report.controller.js:98-101 | km driven does not depend on the order rows were fetched in |
| Vehicles.FuelEconomy | backend/src/controllers/report.controller.js:103 | the economy is positive iff km driven and litres are both positive, and 0 otherwise |
| Vehicles.FuelEconomyIsRatio | backend/src/controllers/report.controller.js:103 | a positive economy times the litres gives back the km driven |
| Vehicles.VehicleDistance | backend/src/controllers/report.controller.js:98-101 | an entry's km driven is the reading range of its own refuelings (0 for fewer than two), never negative |
| Vehicles.VehicleStatsOf | backend/src/controllers/report.controller.js:96-121 | an entry carries its vehicle's plate and model and its maintenance count; balance plus cost is revenue; without km driven the economy and per-km figures are 0 |
| Vehicles.VehicleTotals | backend/src/controllers/report.controller.js:104-107 | an entry's cost is its fuel plus maintenance total, revenue its revenue total, and balance plus cost is revenue |
| Vehicles.VehicleRates | backend/src/controllers/report.controller.js:103-119 | an entry's economy and per-km figures are the guarded quotients of its totals over its km and litres: each gives back its dividend over a positive divisor and is 0 otherwise |
| Vehicles.OdometerOrderKeepsTotals | backend/src/controllers/report.controller.js:98-104 | sorting by odometer changes neither the litres nor the fuel cost total |
| Vehicles.VehicleRowsAreItsOwn | backend/src/controllers/report.controller.js:97-99 | a vehicle's rows are exactly the fetched rows carrying its id |
| Vehicles.VehicleAnalysis | backend/src/controllers/report.controller.js:96-123 | the analysis has no more entries than the roster has vehicles |
| Vehicles.AnalyzeVehicles | backend/src/controllers/report.controller.js:94-123 | the loop pushes exactly the analysis, and the fleet km is the sum of the listed km |
| Vehicles.VehicleAnalysisMembers | backend/src/controllers/report.controller.js:109 | an entry is listed iff it belongs to a roster vehicle and has positive cost or revenue |
| Vehicles.FleetKmNonNegative | backend/src/controllers/report.controller.js:95-110 | the fleet distance is never negative |
| Vehicles.WithEconomy | backend/src/controllers/report.controller.js:153 | the economy filter keeps exactly the entries with a positive economy |
| Employees.FindDay | backend/src/controllers/report.controller.js:135 | a day's slot is found iff the dictionary has that day, and it holds that day |
| Employees.AddToDay | backend/src/controllers/report.controller.js:135 | adding to a day updates a slot or appends one |
| Employees.GroupByDay | backend/src/controllers/report.controller.js:132-136 | the dictionary has no more days than revenues |
| Employees.GroupRevenuesByDay | backend/src/controllers/report.controller.js:132-136 | the in-place `forEach` builds exactly the grouping function |
| Employees.GroupByDayIsGrouped | backend/src/controllers/report.controller.js:132-136 | one entry per distinct day with a revenue; each holds that day's total |
| Employees.AddToDayGrouped | backend/src/controllers/report.controller.js:135 | one `dailyRevenues[day] = (… \|\| 0) + amount` step keeps the dictionary grouped |
| Employees.AddToDayTotal | backend/src/controllers/report.controller.js:135 | one step adds the amount to the dictionary's total |
| Employees.GroupByDayTotal | backend/src/controllers/report.controller.js:132-136 | the daily amounts add up to the revenues' total |
| Employees.Chronological | backend/src/controllers/report.controller.js:144 | the date sort keeps the length |
| Employees.ChronologicalOrder | backend/src/controllers/report.controller.js:144 | the sort is a permutation and puts distinct days strictly in date order |
| Employees.ChronologicalKeepsDays | backend/src/controllers/report.controller.js:144 | sorting neither adds nor drops a day nor changes an amount |
| Employees.EmployeeListed | backend/src/controllers/report.controller.js:128-138 | an employee gets an entry iff some fetched revenue carries their id |
| Employees.EmployeeStatsOf | backend/src/controllers/report.controller.js:128-146 | an employee has an entry iff they have a revenue in the period; it carries their name and their revenue count as trips |
| Employees.EmployeeTotals | backend/src/controllers/report.controller.js:128-143 | name, total revenue and trip count of the entry; the average times the trips gives back the total |
| Employees.EntryAverage | backend/src/controllers/report.controller.js:143 | the average revenue per trip times the trips gives back the total |
| Employees.EmployeeDailyRevenues | backend/src/controllers/report.controller.js:132-144 | one daily entry per day with a trip, each the day's total, strictly by date, adding up to the total |
| Employees.EmployeeAnalysis | backend/src/controllers/report.controller.js:126-147 | the analysis has no more entries than the roster has employees |
| Employees.AnalyzeEmployees | backend/src/controllers/report.controller.js:126-147 | the loop pushes exactly the analysis |
| Employees.EmployeeAnalysisMembers | backend/src/controllers/report.controller.js:138 | an entry is listed iff it is the entry of a roster employee with a trip |
| Daily.DailySeries | backend/src/controllers/report.controller.js:79-91 | one point per day |
| Daily.BuildDailyBreakdown | backend/src/controllers/report.controller.js:79-91 | the loop pushes exactly the series over the period's days |
| Daily.DailySeriesPoints | backend/src/controllers/report.controller.js:81-90 | point k carries day k's 'dd/MM' label, revenue, and fuel + maintenance + general expenses |
| Daily.DailySeriesSums | backend/src/controllers/report.controller.js:82-89 | the series adds up the per-day totals of each ledger |
| Daily.DailyTotals | backend/src/controllers/report.controller.js:71-91 | with rows inside the period, the daily revenues and expenses add up to the period totals |
| Report.ExpenseCategories | backend/src/controllers/report.controller.js:156-160 | three categories in the order fuel, maintenance, general, with the source's HTML-entity labels and the given totals as their values |
| Report.TopExpenseCategory | backend/src/controllers/report.controller.js:161-163 | the reduce returns one of the categories, and no category holds more |
| Report.TopExpenseCategoryIsLargest | backend/src/controllers/report.controller.js:161-163 | the top category holds the largest value; a tie goes to the earlier category |
| Report.Summary | backend/src/controllers/report.controller.js:173-178 | the summary carries the revenue and expenses it was given; net result plus expenses is revenue; the margin is 0 without revenue |
| Report.KpisOf | backend/src/controllers/report.controller.js:179-183 | trips is the given count; cost per km is 0 without distance and revenue per trip is 0 without trips |
| Ledger.Ratio | backend/src/controllers/report.controller.js:177-182 | a guarded quotient (margin, cost per km, revenue per trip, and the per-km figures at :118-119) is 0 for a non-positive divisor |
| Ledger.RatioIsQuotient | backend/src/controllers/report.controller.js:177-182 | over a positive divisor, the guarded quotient times the divisor gives back the dividend |
| Report.SummaryMeaning | backend/src/controllers/report.controller.js:75-77 | net result plus expenses is revenue; margin times revenue is the net result, or 0 without revenue |
| Report.KpisMeaning | backend/src/controllers/report.controller.js:179-183 | cost per km and revenue per trip are guarded quotients; trips is the revenue count |
| Report.Assemble | backend/src/controllers/report.controller.js:150-208 | the report's parts agree: the summary balances, the bar shows its revenue and expenses, the pie splits the expenses, the top category is at least every slice, trips is the revenue count, and the line is the daily breakdown |
| Report.ReportFor | backend/src/controllers/report.controller.js:71-208 | one line point per day of the interval; revenue is the fetched revenue total; record counts are the fetched sizes |
| Report.ComputeReport | backend/src/controllers/report.controller.js:71-208 | the three loops plus assembly produce exactly the report of the period |
| Report.GenerateReport | backend/src/controllers/report.controller.js:49-54 | 400 iff a date is missing; 500 on an unparsable date or end before start; otherwise the report of the rows fetched for the period |
| Report.ReportFigures | backend/src/controllers/report.controller.js:71-76 | over the fetched rows, net result plus expenses is revenue, margin times revenue is the net result (0 without revenue), cost per km times the fleet km is the expenses and revenue per trip times the trips is the revenue (each 0 without a positive divisor) |
| Report.AssembledFigures | backend/src/controllers/report.controller.js:173-183 | an assembled report's summary balances its totals and its KPIs are the guarded quotients over the given fleet km and the revenue count |
| Report.ReportLineMatchesBar | backend/src/controllers/report.controller.js:199-202 | the line chart adds up to the bar chart's revenue and expenses |
| Report.ReportTopLists | backend/src/controllers/report.controller.js:150-154 | every top list ranks its analysis; the economy list has only positive economies |
| Report.ReportInsights | backend/src/controllers/report.controller.js:192-198 | each insight is the head of its ranking: the first entry with the largest key, or null |
| Report.ReportAnalyses | backend/src/controllers/report.controller.js:184-206 | vehicles are listed iff they have cost or revenue, employees iff they have a trip; record counts are the fetched sizes |
| Dashboard.GetPeriod | backend/src/controllers/dashboard.controller.js:6-18 | with both dates given, the strings are returned unchanged |
| Dashboard.Bounds | backend/src/controllers/dashboard.controller.js:27-30 | a period resolves iff both strings are 'yyyy-MM-dd' dates of real days |
| Dashboard.DefaultPeriodIsCurrentMonth | backend/src/controllers/dashboard.controller.js:12-16 | without both dates, the period resolves to exactly the days of today's month |
| Dashboard.KpisMeaning | backend/src/controllers/dashboard.controller.js:24-38 | the cards count the active vehicles and employees; cost and revenue are the totals of the rows in the period |
| Dashboard.KpisOver | backend/src/controllers/dashboard.controller.js:24-38 | the active counts never exceed the roster sizes |
| Dashboard.GetKpis | backend/src/controllers/dashboard.controller.js:20-43 | status 500 with 'Erro ao buscar KPIs.' iff the period does not resolve to two days (a model choice for malformed strings, see Left out) |
| Dashboard.GetKpisOutcome | backend/src/controllers/dashboard.controller.js:20-43 | a resolved period gives the cards: cost and revenue are the totals of the period's rows, the counts are the active rosters'; without a period, the current month's cards |
| Dashboard.ChartMonth | backend/src/controllers/dashboard.controller.js:54 | every chart month is a valid month with a non-negative year |
| Dashboard.ChartMonthsAreLastSix | backend/src/controllers/dashboard.controller.js:53-54 | six consecutive months, oldest first, ending with the current month |
| Dashboard.ChartLabels | backend/src/controllers/dashboard.controller.js:55-56 | one label per month |
| Dashboard.ChartSeries | backend/src/controllers/dashboard.controller.js:65-70 | one value per month |
| Dashboard.ChartIndexIsMonth | backend/src/controllers/dashboard.controller.js:53-71 | index k of every array refers to month k |
| Dashboard.GetCostEvolution | backend/src/controllers/dashboard.controller.js:47-74 | six labels, costs and revenues, index-aligned by month |
| Dashboard.GetRevenueVsExpenses | backend/src/controllers/dashboard.controller.js:83-103 | six labels, revenues and expenses over the same months |
| Dashboard.MonthWindowRows | backend/src/controllers/dashboard.controller.js:58-59 | a month's window selects exactly the rows dated in that month, in table order |
| Dashboard.MonthFiguresByMonth | backend/src/controllers/dashboard.controller.js:58-70 | each month's cost and revenue are the totals of the rows dated in that month |
| Dashboard.SpendingMatchesKpis | backend/src/controllers/dashboard.controller.js:115-120 | three slices (fuel, maintenance, general), each its ledger total, summing to the KPI month cost |
| Dashboard.SpendingOver | backend/src/controllers/dashboard.controller.js:115-120 | three labels and three values, which add up to the KPI month cost |
| Dashboard.GetSpendingByCategory | backend/src/controllers/dashboard.controller.js:112-125 | status 500 with 'Erro ao buscar dados do gráfico.' iff the period does not resolve to two days (a model choice for malformed strings, see Left out) |
| Dashboard.GetSpendingOutcome | backend/src/controllers/dashboard.controller.js:112-125 | a resolved period gives the three labelled ledger totals of its rows; without a period, the current month's pie |
| Dashboard.CostsPerVehicle | backend/src/controllers/dashboard.controller.js:131-142 | the three arrays are index-aligned over the active vehicles, in roster order |
| Dashboard.GetCostsPerVehicle | backend/src/controllers/dashboard.controller.js:128-146 | 500 iff the period does not resolve to two days (a model choice for malformed strings, see Left out), else the aligned arrays |
| Dashboard.VehicleCosts | backend/src/controllers/dashboard.controller.js:155-162 | there are no more entries than the roster has vehicles |
| Dashboard.VehicleCostsMembers | backend/src/controllers/dashboard.controller.js:155-162 | a vehicle is listed, with its plate and cost, iff its fuel plus maintenance cost is positive |
| Dashboard.Top5ExpensiveVehicles | backend/src/controllers/dashboard.controller.js:153-165 | the loop and the sort/slice/map produce exactly the top-5 chart |
| Dashboard.GetTop5ExpensiveVehicles | backend/src/controllers/dashboard.controller.js:150-170 | 500 iff the period does not resolve to two days (a model choice for malformed strings, see Left out), else the top-5 chart |
| Dashboard.Top5ChartMeaning | backend/src/controllers/dashboard.controller.js:159-165 | at most 5 bars; non-increasing positive costs; labels[i] is the plate of the cost data[i]; no left-out vehicle costs more than the last bar |
| Dashboard.Top5AgreesWithReport | backend/src/controllers/dashboard.controller.js:156-158 | a vehicle's dashboard cost equals its total cost in the report over the same period |

## Left out

- PDF rendering is not modelled: the HTML template, the headless-browser print and the response stream. Their failure paths (status 500 after the data is ready) are not modelled either.
- Locale formatting (`Intl.NumberFormat`) and the `toFixed(2)` strings of the KPI cards are not modelled. Values stay reals.
- The logo cache (file I/O) is not modelled, and neither are the company constants of the report header.
- Database failures are not modelled. These are the catch blocks of every endpoint whose cause is the database.
- The ORM's `order` clauses are not modelled. The snapshot's table order stands in for 'date ASC', 'plate ASC' and 'name ASC'.
- Amounts are reals, not IEEE doubles. Floating-point rounding in the sums and quotients is not modelled.
- The JavaScript `-` in the odometer comparator converts with `Number`, not `parseFloat`. The model sorts by the `toNumber` value. The two differ only on readings that are not finite numbers.
- Ranking.SortDesc: stability is documented but not proved. Ties keep their input order in the model's sort.
- Dates are calendar days. Times of day and time zones are not modelled. Neither is `parseISO` of any form other than 'yyyy-MM-dd'.
- The `dailyRevenues` keys ('dd/MM/yyyy' strings) are the days themselves. The label format is not modelled.
- Dashboard.Bounds: a given string that is not a 'yyyy-MM-dd' real day is not modelled. The model answers 500 for it. The database's answer is not captured: MySQL may accept the ORM's rendering of such a string, or compare against it with only a warning, and the endpoint would then answer 200.
- Dashboard.GetKpis: its status 500 for a given string that is not a 'yyyy-MM-dd' real day follows Dashboard.Bounds, and the database's answer for such a string is not captured.
- Dashboard.GetSpendingByCategory: its status 500 for a given string that is not a 'yyyy-MM-dd' real day follows Dashboard.Bounds, and the database's answer for such a string is not captured.
- Dashboard.GetCostsPerVehicle: its status 500 for a given string that is not a 'yyyy-MM-dd' real day follows Dashboard.Bounds, and the database's answer for such a string is not captured.
- Dashboard.GetTop5ExpensiveVehicles: its status 500 for a given string that is not a 'yyyy-MM-dd' real day follows Dashboard.Bounds, and the database's answer for such a string is not captured.
- Calendar.ParseIso: year 0000 is rejected, because a valid date here has a year of at least 1. `parseISO` accepts '0000-MM-dd', so for such a date the model's `generateReport` and dashboard endpoints answer 500 where the source goes on.
- `eachDayOfInterval` with the end before the start is taken to throw, which is a status 500. This is the behaviour of date-fns 2. The library version is not part of this model.
- Dashboard.GetCostEvolution: `new Date()` is read once as `today`. The source reads the clock on every iteration, so a loop that runs across a month boundary is not modelled.
- Ledger.OrmSum: SQL SUM is also null when every matching cell is NULL. The model's sum is null only for no rows. After `|| 0` both give 0.
- `Vehicle.count` and `Employee.count` are the lengths of the status filters.
- The report's `label` field is named `name` in the model.
- The CRUD controllers, the routes, authentication, the models and the frontend are not part of this model.

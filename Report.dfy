/**
 * The fleet report endpoint: the validation of the requested period, and the
 * report data assembled from the whole-period totals, the daily breakdown,
 * the vehicle and employee analyses, the top-5 rankings and the top expense
 * category.
 */
module Report {
  import opened Wrappers
  import opened Calendar
  import opened Folds
  import opened Ranking
  import opened Ledger
  import opened Daily
  import opened Vehicles
  import opened Employees

  datatype FinancialSummary = FinancialSummary(totalRevenue: real, totalExpenses: real, netResult: real, margin: real)
  datatype Kpis = Kpis(fleetAvgCostPerKm: real, totalTrips: nat, avgRevenuePerTrip: real)
  datatype RecordSummary = RecordSummary(revenues: nat, refuelings: nat, maintenances: nat, generalExpenses: nat, vehicles: nat, employees: nat)
  datatype Category = Category(name: string, value: real)
  datatype Insights = Insights(
    topVehicleCost: Option<VehicleStats>,
    topVehicleRevenue: Option<VehicleStats>,
    topVehicleBalance: Option<VehicleStats>,
    topEmployeeRevenue: Option<EmployeeStats>,
    topExpenseCategory: Category)
  datatype ChartData = ChartData(pie: seq<real>, bar: seq<real>, line: seq<DailyPoint>)
  datatype TopLists = TopLists(
    vehiclesCost: seq<VehicleStats>,
    vehiclesRevenue: seq<VehicleStats>,
    vehiclesBalance: seq<VehicleStats>,
    vehiclesEconomy: seq<VehicleStats>,
    employeesRevenue: seq<EmployeeStats>)
  datatype DetailedLists = DetailedLists(revenues: seq<Revenue>, refuelings: seq<Refueling>, maintenances: seq<Maintenance>, generalExpenses: seq<GeneralExpense>)

  datatype ReportData = ReportData(
    financialSummary: FinancialSummary,
    kpis: Kpis,
    recordSummary: RecordSummary,
    insights: Insights,
    chartData: ChartData,
    topLists: TopLists,
    vehicleAnalysis: seq<VehicleStats>,
    employeeAnalysis: seq<EmployeeStats>,
    detailedLists: DetailedLists)

  // ---------------------------------------------------------------------------
  // Expense categories
  // ---------------------------------------------------------------------------

  function CategoryValue(c: Category): real { c.value }

  /** The three categories, in the order fuel, maintenance, general (labels as HTML entities). */
  function ExpenseCategories(refuelingCost: real, maintenanceCost: real, generalExpenseCost: real): (cs: seq<Category>)
    ensures |cs| == 3
    ensures cs[0].value == refuelingCost && cs[1].value == maintenanceCost && cs[2].value == generalExpenseCost
    ensures cs[0].name == "Combust&iacute;vel" && cs[1].name == "Manuten&ccedil;&atilde;o" && cs[2].name == "Despesas Gerais"
  {
    [Category("Combust&iacute;vel", refuelingCost),
     Category("Manuten&ccedil;&atilde;o", maintenanceCost),
     Category("Despesas Gerais", generalExpenseCost)]
  }

  /** `expenseCategories.reduce((max, current) => current.value > max.value ? current : max, expenseCategories[0])`. */
  function TopExpenseCategory(cs: seq<Category>): (top: Category)
    requires |cs| > 0
    ensures top in cs
    ensures forall k :: 0 <= k < |cs| ==> cs[k].value <= top.value
  {
    ChampionIsFirstMax(cs, CategoryValue);
    ChampionFrom(cs, CategoryValue, cs[0])
  }

  /**
   * The top category holds the largest of the three values and no earlier
   * category holds as much: a tie goes to the category listed first.
   */
  lemma {:induction false} TopExpenseCategoryIsLargest(refuelingCost: real, maintenanceCost: real, generalExpenseCost: real)
    ensures var cs := ExpenseCategories(refuelingCost, maintenanceCost, generalExpenseCost);
      var top := TopExpenseCategory(cs);
      && top in cs
      && top.value >= refuelingCost && top.value >= maintenanceCost && top.value >= generalExpenseCost
      && (top.value == refuelingCost ==> top == cs[0])
      && (top.value == maintenanceCost && top != cs[0] ==> top == cs[1])
  {
    var cs := ExpenseCategories(refuelingCost, maintenanceCost, generalExpenseCost);
    ChampionIsFirstMax(cs, CategoryValue);
    var i := FirstMaxIndex(cs, CategoryValue);
    assert IsFirstMax(cs, CategoryValue, i);
    assert CategoryValue(cs[0]) <= CategoryValue(cs[i]);
    assert CategoryValue(cs[1]) <= CategoryValue(cs[i]);
    assert CategoryValue(cs[2]) <= CategoryValue(cs[i]);
  }

  // ---------------------------------------------------------------------------
  // Assembly
  // ---------------------------------------------------------------------------

  /**
   * A summary of `totalRevenue` and `totalExpenses` whose net result is what
   * the revenue leaves after the expenses, and whose margin is the net
   * result per unit of revenue, or 0 without revenue.
   */
  predicate Balanced(fs: FinancialSummary, totalRevenue: real, totalExpenses: real) {
    && fs.totalRevenue == totalRevenue && fs.totalExpenses == totalExpenses
    && fs.netResult + totalExpenses == totalRevenue
    && (totalRevenue > 0.0 ==> fs.margin * totalRevenue == fs.netResult)
    && (totalRevenue <= 0.0 ==> fs.margin == 0.0)
  }

  /** `financialSummary`: the net result and the margin, guarded against a period without revenue. */
  function Summary(totalRevenue: real, totalExpenses: real): (fs: FinancialSummary)
    ensures fs.totalRevenue == totalRevenue && fs.totalExpenses == totalExpenses
    ensures fs.netResult + totalExpenses == totalRevenue
    ensures totalRevenue <= 0.0 ==> fs.margin == 0.0
  {
    var netResult := totalRevenue - totalExpenses;
    FinancialSummary(totalRevenue, totalExpenses, netResult, Ratio(netResult, totalRevenue))
  }

  /**
   * The net result is what the revenue leaves after the expenses, and the
   * margin is the net result per unit of revenue, or 0 without revenue.
   */
  lemma {:induction false} SummaryMeaning(totalRevenue: real, totalExpenses: real)
    ensures Balanced(Summary(totalRevenue, totalExpenses), totalRevenue, totalExpenses)
  {
    RatioIsQuotient(totalRevenue - totalExpenses, totalRevenue);
  }

  /**
   * KPIs whose fleet cost per km gives back the expenses over a positive
   * distance and is 0 otherwise, whose trips are `trips`, and whose average
   * per trip gives back the revenue over the trips and is 0 without trips.
   */
  predicate QuotientKpis(k: Kpis, totalExpenses: real, fleetTotalKmDriven: real, totalRevenue: real, trips: nat) {
    && (fleetTotalKmDriven > 0.0 ==> k.fleetAvgCostPerKm * fleetTotalKmDriven == totalExpenses)
    && (fleetTotalKmDriven <= 0.0 ==> k.fleetAvgCostPerKm == 0.0)
    && k.totalTrips == trips
    && (trips > 0 ==> k.avgRevenuePerTrip * trips as real == totalRevenue)
    && (trips == 0 ==> k.avgRevenuePerTrip == 0.0)
  }

  /** `kpis`: fleet cost per km and revenue per trip, guarded against a zero divisor. */
  function KpisOf(totalExpenses: real, fleetTotalKmDriven: real, totalRevenue: real, trips: nat): (k: Kpis)
    ensures k.totalTrips == trips
    ensures fleetTotalKmDriven <= 0.0 ==> k.fleetAvgCostPerKm == 0.0
    ensures trips == 0 ==> k.avgRevenuePerTrip == 0.0
  {
    Kpis(Ratio(totalExpenses, fleetTotalKmDriven), trips, Ratio(totalRevenue, trips as real))
  }

  /**
   * The fleet cost per km gives back the expenses over a positive distance and
   * is 0 otherwise; the average per trip gives back the revenue over the
   * trips and is 0 without trips.
   */
  lemma {:induction false} KpisMeaning(totalExpenses: real, fleetTotalKmDriven: real, totalRevenue: real, trips: nat)
    ensures QuotientKpis(KpisOf(totalExpenses, fleetTotalKmDriven, totalRevenue, trips), totalExpenses, fleetTotalKmDriven, totalRevenue, trips)
  {
    RatioIsQuotient(totalExpenses, fleetTotalKmDriven);
    RatioIsQuotient(totalRevenue, trips as real);
  }

  function EmployeeRevenueKey(s: EmployeeStats): real { s.totalRevenue }

  /**
   * The report object, given the fetched rows and what the three loops
   * produced: the daily points, the vehicle entries with the fleet distance,
   * and the employee entries. Its parts agree with one another: the summary
   * balances, the bar shows the summary's revenue and expenses, the pie splits
   * the expenses, the top category is the largest slice, and there are as many
   * trips as revenue records.
   */
  function Assemble(f: Snapshot, dailyBreakdown: seq<DailyPoint>, vehicleAnalysis: seq<VehicleStats>,
                    fleetTotalKmDriven: real, employeeAnalysis: seq<EmployeeStats>): (r: ReportData)
    ensures r.financialSummary.netResult + r.financialSummary.totalExpenses == r.financialSummary.totalRevenue
    ensures r.chartData.bar == [r.financialSummary.totalRevenue, r.financialSummary.totalExpenses]
    ensures |r.chartData.pie| == 3
    ensures r.chartData.pie[0] + r.chartData.pie[1] + r.chartData.pie[2] == r.financialSummary.totalExpenses
    ensures forall k :: 0 <= k < 3 ==> r.chartData.pie[k] <= r.insights.topExpenseCategory.value
    ensures r.kpis.totalTrips == r.recordSummary.revenues == |r.detailedLists.revenues|
    ensures r.chartData.line == dailyBreakdown
  {
    var totalRevenue := SumBy(f.revenues, RevenueAmount);
    var refuelingCost := SumBy(f.refuelings, RefuelingCost);
    var maintenanceCost := SumBy(f.maintenances, MaintenanceCost);
    var generalExpenseCost := SumBy(f.generalExpenses, ExpenseAmount);
    var totalExpenses := refuelingCost + maintenanceCost + generalExpenseCost;
    var topVehiclesCost := Top(vehicleAnalysis, CostKey);
    var topVehiclesRevenue := Top(vehicleAnalysis, RevenueKey);
    var topVehiclesBalance := Top(vehicleAnalysis, BalanceKey);
    var topVehiclesEconomy := Top(WithEconomy(vehicleAnalysis), EconomyKey);
    var topEmployeesRevenue := Top(employeeAnalysis, EmployeeRevenueKey);
    var expenseCategories := ExpenseCategories(refuelingCost, maintenanceCost, generalExpenseCost);
    assert forall k :: 0 <= k < 3 ==> expenseCategories[k].value == [refuelingCost, maintenanceCost, generalExpenseCost][k];
    ReportData(
      Summary(totalRevenue, totalExpenses),
      KpisOf(totalExpenses, fleetTotalKmDriven, totalRevenue, |f.revenues|),
      RecordSummary(|f.revenues|, |f.refuelings|, |f.maintenances|, |f.generalExpenses|, |f.vehicles|, |f.employees|),
      Insights(First(topVehiclesCost), First(topVehiclesRevenue), First(topVehiclesBalance), First(topEmployeesRevenue),
        TopExpenseCategory(expenseCategories)),
      ChartData([refuelingCost, maintenanceCost, generalExpenseCost], [totalRevenue, totalExpenses], dailyBreakdown),
      TopLists(topVehiclesCost, topVehiclesRevenue, topVehiclesBalance, topVehiclesEconomy, topEmployeesRevenue),
      vehicleAnalysis,
      employeeAnalysis,
      DetailedLists(f.revenues, f.refuelings, f.maintenances, f.generalExpenses))
  }

  /** The report of the rows `f` fetched for the period from `start` to `end`. */
  function ReportFor(f: Snapshot, start: Date, end: Date): (r: ReportData)
    requires WellFormed(start) && WellFormed(end)
    ensures |r.chartData.line| == |DaysOfInterval(start, end)|
    ensures r.financialSummary.totalRevenue == SumBy(f.revenues, RevenueAmount)
    ensures r.recordSummary == RecordSummary(|f.revenues|, |f.refuelings|, |f.maintenances|, |f.generalExpenses|, |f.vehicles|, |f.employees|)
  {
    var vehicleAnalysis := VehicleAnalysis(f, f.vehicles);
    Assemble(f, DailySeries(f, DaysOfInterval(start, end)), vehicleAnalysis,
      SumBy(vehicleAnalysis, StatsKm), EmployeeAnalysis(f, f.employees))
  }

  /** The analytics part of the endpoint: the three loops, then the report object. */
  method ComputeReport(f: Snapshot, start: Date, end: Date) returns (reportData: ReportData)
    requires WellFormed(start) && WellFormed(end)
    ensures reportData == ReportFor(f, start, end)
  {
    var dailyBreakdown := BuildDailyBreakdown(f, start, end);
    var vehicleAnalysis, fleetTotalKmDriven := AnalyzeVehicles(f);
    var employeeAnalysis := AnalyzeEmployees(f);
    reportData := Assemble(f, dailyBreakdown, vehicleAnalysis, fleetTotalKmDriven, employeeAnalysis);
  }

  // ---------------------------------------------------------------------------
  // The endpoint
  // ---------------------------------------------------------------------------

  const MissingDatesMessage: string := "Datas de início e fim são obrigatórias."
  const InternalErrorMessage: string := "Erro interno ao gerar o relatório."

  /** Status 400, status 500, or the report that is rendered into the PDF. */
  datatype ReportResponse = BadRequest(message: string) | ServerError(message: string) | Generated(report: ReportData)

  /**
   * `generateReport`: both dates are required; a date that does not parse, or
   * an end before the start (on which `eachDayOfInterval` throws), ends in the
   * catch block's status 500; otherwise the rows of the period are fetched and
   * the report computed.
   */
  method GenerateReport(db: Snapshot, startDate: Option<string>, endDate: Option<string>) returns (response: ReportResponse)
    ensures !(Given(startDate) && Given(endDate)) <==> response == BadRequest(MissingDatesMessage)
    ensures Given(startDate) && Given(endDate) ==>
      match (ParseIso(startDate.value), ParseIso(endDate.value))
      case (Some(start), Some(end)) =>
        if Before(end, start) then response == ServerError(InternalErrorMessage)
        else response == Generated(ReportFor(Fetch(db, start, end), start, end))
      case _ => response == ServerError(InternalErrorMessage)
  {
    if !Given(startDate) || !Given(endDate) {
      return BadRequest(MissingDatesMessage);
    }
    var start := ParseIso(startDate.value);
    var end := ParseIso(endDate.value);
    if start.None? || end.None? || Before(end.value, start.value) {
      return ServerError(InternalErrorMessage);
    }
    var f := Fetch(db, start.value, end.value);
    var reportData := ComputeReport(f, start.value, end.value);
    return Generated(reportData);
  }

  // ---------------------------------------------------------------------------
  // What the report states
  // ---------------------------------------------------------------------------

  /**
   * The figures of the report over the fetched rows: the financial summary
   * balances the revenue total against the expenses (fuel plus maintenance
   * plus general costs), and the KPIs are the guarded quotients of the
   * expenses over the summed distances of the listed vehicles and of the
   * revenue total over the revenue records.
   */
  lemma {:induction false} ReportFigures(f: Snapshot, start: Date, end: Date)
    requires WellFormed(start) && WellFormed(end)
    ensures var r := ReportFor(f, start, end);
      var totalRevenue := SumBy(f.revenues, RevenueAmount);
      var totalExpenses := SumBy(f.refuelings, RefuelingCost) + SumBy(f.maintenances, MaintenanceCost) + SumBy(f.generalExpenses, ExpenseAmount);
      && Balanced(r.financialSummary, totalRevenue, totalExpenses)
      && QuotientKpis(r.kpis, totalExpenses, SumBy(VehicleAnalysis(f, f.vehicles), StatsKm), totalRevenue, |f.revenues|)
  {
    var vehicleAnalysis := VehicleAnalysis(f, f.vehicles);
    var fleetKm := SumBy(vehicleAnalysis, StatsKm);
    var dailyBreakdown := DailySeries(f, DaysOfInterval(start, end));
    var employeeAnalysis := EmployeeAnalysis(f, f.employees);
    assert ReportFor(f, start, end) == Assemble(f, dailyBreakdown, vehicleAnalysis, fleetKm, employeeAnalysis);
    AssembledFigures(f, dailyBreakdown, vehicleAnalysis, fleetKm, employeeAnalysis);
  }

  /** The figures of a report assembled over the fleet distance `fleetTotalKmDriven`. */
  lemma {:induction false} AssembledFigures(f: Snapshot, dailyBreakdown: seq<DailyPoint>, vehicleAnalysis: seq<VehicleStats>,
                                            fleetTotalKmDriven: real, employeeAnalysis: seq<EmployeeStats>)
    ensures var r := Assemble(f, dailyBreakdown, vehicleAnalysis, fleetTotalKmDriven, employeeAnalysis);
      var totalRevenue := SumBy(f.revenues, RevenueAmount);
      var totalExpenses := SumBy(f.refuelings, RefuelingCost) + SumBy(f.maintenances, MaintenanceCost) + SumBy(f.generalExpenses, ExpenseAmount);
      && Balanced(r.financialSummary, totalRevenue, totalExpenses)
      && QuotientKpis(r.kpis, totalExpenses, fleetTotalKmDriven, totalRevenue, |f.revenues|)
  {
    var r := Assemble(f, dailyBreakdown, vehicleAnalysis, fleetTotalKmDriven, employeeAnalysis);
    var totalRevenue := SumBy(f.revenues, RevenueAmount);
    var totalExpenses := SumBy(f.refuelings, RefuelingCost) + SumBy(f.maintenances, MaintenanceCost) + SumBy(f.generalExpenses, ExpenseAmount);
    SummaryMeaning(totalRevenue, totalExpenses);
    KpisMeaning(totalExpenses, fleetTotalKmDriven, totalRevenue, |f.revenues|);
    assert r.financialSummary == Summary(totalRevenue, totalExpenses);
    assert r.kpis == KpisOf(totalExpenses, fleetTotalKmDriven, totalRevenue, |f.revenues|);
  }

  /**
   * When the fetched rows lie within the period, the line chart adds up to
   * the bar chart: the daily revenues to the revenue, the daily expenses to
   * the expenses.
   */
  lemma {:induction false} ReportLineMatchesBar(f: Snapshot, start: Date, end: Date)
    requires WellFormed(start) && WellFormed(end)
    requires WithinPeriod(f, start, end)
    ensures var r := ReportFor(f, start, end);
      && SumBy(r.chartData.line, PointRevenue) == r.chartData.bar[0]
      && SumBy(r.chartData.line, PointExpenses) == r.chartData.bar[1]
  {
    DailyTotals(f, start, end);
  }

  /**
   * Every top list is a ranking of the analysis it comes from (at most five
   * entries, by descending key, nothing from elsewhere, nothing left out that
   * ranks above its last entry); the economy list holds only vehicles with a
   * positive economy.
   */
  lemma {:induction false} ReportTopLists(f: Snapshot, dailyBreakdown: seq<DailyPoint>, vehicleAnalysis: seq<VehicleStats>,
                                         fleetTotalKmDriven: real, employeeAnalysis: seq<EmployeeStats>)
    ensures var r := Assemble(f, dailyBreakdown, vehicleAnalysis, fleetTotalKmDriven, employeeAnalysis);
      var t := r.topLists;
      && t.vehiclesCost == Top(r.vehicleAnalysis, CostKey) && IsRankingOf(t.vehiclesCost, r.vehicleAnalysis, CostKey)
      && t.vehiclesRevenue == Top(r.vehicleAnalysis, RevenueKey) && IsRankingOf(t.vehiclesRevenue, r.vehicleAnalysis, RevenueKey)
      && t.vehiclesBalance == Top(r.vehicleAnalysis, BalanceKey) && IsRankingOf(t.vehiclesBalance, r.vehicleAnalysis, BalanceKey)
      && IsRankingOf(t.vehiclesEconomy, WithEconomy(r.vehicleAnalysis), EconomyKey)
      && (forall s :: s in t.vehiclesEconomy ==> s in r.vehicleAnalysis && s.avgKmL > 0.0)
      && t.employeesRevenue == Top(r.employeeAnalysis, EmployeeRevenueKey)
      && IsRankingOf(t.employeesRevenue, r.employeeAnalysis, EmployeeRevenueKey)
  {
    var r := Assemble(f, dailyBreakdown, vehicleAnalysis, fleetTotalKmDriven, employeeAnalysis);
    var v := r.vehicleAnalysis;
    TopIsRanking(v, CostKey);
    TopIsRanking(v, RevenueKey);
    TopIsRanking(v, BalanceKey);
    TopIsRanking(WithEconomy(v), EconomyKey);
    TopIsRanking(r.employeeAnalysis, EmployeeRevenueKey);
    forall s | s in r.topLists.vehiclesEconomy ensures s in v && s.avgKmL > 0.0 {
      assert s in multiset(r.topLists.vehiclesEconomy);
    }
  }

  /**
   * Each insight is its ranking's first entry, or null for an empty list: the
   * first listed entry with the largest key.
   */
  lemma {:induction false} ReportInsights(f: Snapshot, dailyBreakdown: seq<DailyPoint>, vehicleAnalysis: seq<VehicleStats>,
                                         fleetTotalKmDriven: real, employeeAnalysis: seq<EmployeeStats>)
    ensures var r := Assemble(f, dailyBreakdown, vehicleAnalysis, fleetTotalKmDriven, employeeAnalysis);
      var v := r.vehicleAnalysis;
      && r.insights.topVehicleCost == First(r.topLists.vehiclesCost)
      && r.insights.topVehicleCost == (if |v| == 0 then None else Some(v[FirstMaxIndex(v, CostKey)]))
      && r.insights.topVehicleRevenue == (if |v| == 0 then None else Some(v[FirstMaxIndex(v, RevenueKey)]))
      && r.insights.topVehicleBalance == (if |v| == 0 then None else Some(v[FirstMaxIndex(v, BalanceKey)]))
      && r.insights.topEmployeeRevenue ==
        (if |r.employeeAnalysis| == 0 then None else Some(r.employeeAnalysis[FirstMaxIndex(r.employeeAnalysis, EmployeeRevenueKey)]))
      && r.insights.topExpenseCategory == TopExpenseCategory(ExpenseCategories(r.chartData.pie[0], r.chartData.pie[1], r.chartData.pie[2]))
  {
    var r := Assemble(f, dailyBreakdown, vehicleAnalysis, fleetTotalKmDriven, employeeAnalysis);
    InsightIsFirstMaximum(r.vehicleAnalysis, CostKey);
    InsightIsFirstMaximum(r.vehicleAnalysis, RevenueKey);
    InsightIsFirstMaximum(r.vehicleAnalysis, BalanceKey);
    InsightIsFirstMaximum(r.employeeAnalysis, EmployeeRevenueKey);
  }

  /**
   * The analyses in the report: a vehicle is listed exactly when it had cost
   * or revenue, an employee exactly when they had a trip, and the record
   * counts are the sizes of the fetched lists.
   */
  lemma {:induction false} ReportAnalyses(f: Snapshot, start: Date, end: Date)
    requires WellFormed(start) && WellFormed(end)
    ensures var r := ReportFor(f, start, end);
      && (forall s :: s in r.vehicleAnalysis <==> Included(s) && exists v :: v in f.vehicles && s == VehicleStatsOf(f, v))
      && (forall s :: s in r.employeeAnalysis <==> exists e :: e in f.employees && EmployeeStatsOf(f, e) == Some(s))
      && r.recordSummary == RecordSummary(|f.revenues|, |f.refuelings|, |f.maintenances|, |f.generalExpenses|, |f.vehicles|, |f.employees|)
  {
    VehicleAnalysisMembers(f, f.vehicles);
    EmployeeAnalysisMembers(f, f.employees);
  }
}

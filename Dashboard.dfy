/**
 * The dashboard endpoints: the period resolution shared by the filtered
 * charts, the KPI cards, the six-month cost/revenue charts, the spending
 * pie, the per-vehicle cost bars and the five most expensive vehicles.
 * Every `Model.sum` is the ORM sum over the rows of a date window, and
 * every `sum || 0` is `OrZero`.
 */
module Dashboard {
  import opened Wrappers
  import opened Calendar
  import opened Folds
  import opened Ranking
  import opened Ledger
  import opened Vehicles

  // ---------------------------------------------------------------------------
  // Period
  // ---------------------------------------------------------------------------

  /** The `{ start, end }` strings the filtered endpoints compare dates with. */
  datatype Period = Period(start: string, end: string)

  /** The current month of `today`. */
  function MonthOf(today: Date): YearMonth {
    YearMonth(today.year, today.month)
  }

  /**
   * `getPeriod`: both query strings unchanged when both are given, otherwise
   * the first and last day of the current month as 'yyyy-MM-dd'.
   */
  function GetPeriod(startDate: Option<string>, endDate: Option<string>, today: Date): (p: Period)
    requires Valid(today)
    ensures Given(startDate) && Given(endDate) ==> p == Period(startDate.value, endDate.value)
  {
    if Given(startDate) && Given(endDate) then Period(startDate.value, endDate.value)
    else Period(FormatIso(FirstDay(MonthOf(today))), FormatIso(LastDay(MonthOf(today))))
  }

  /** The days a window of `Op.between` holds, both ends included. */
  datatype Window = Window(start: Date, end: Date)

  /**
   * The window a period names: both strings must spell 'yyyy-MM-dd' real
   * days; any other string is answered with 500 (a model choice, see the
   * README's list of what is left out).
   */
  function Bounds(p: Period): (w: Option<Window>)
    ensures w.Some? <==> ParseIso(p.start).Some? && ParseIso(p.end).Some?
  {
    match (ParseIso(p.start), ParseIso(p.end))
    case (Some(s), Some(e)) => Some(Window(s, e))
    case _ => None
  }

  /** The window of one calendar month, `[startOfMonth, endOfMonth]`. */
  function MonthWindowOf(ym: YearMonth): Window {
    Window(FirstDay(ym), LastDay(ym))
  }

  /**
   * Without both dates the period always resolves, to the window of the
   * current month: exactly the days whose month is today's.
   */
  lemma {:induction false} DefaultPeriodIsCurrentMonth(startDate: Option<string>, endDate: Option<string>, today: Date)
    requires Valid(today)
    requires !(Given(startDate) && Given(endDate))
    ensures Bounds(GetPeriod(startDate, endDate, today)) == Some(MonthWindowOf(MonthOf(today)))
    ensures forall d :: WellFormed(d) ==>
      (NotAfter(FirstDay(MonthOf(today)), d) && NotAfter(d, LastDay(MonthOf(today))) <==> d.year == today.year && d.month == today.month)
  {
    ParseFormatIso(FirstDay(MonthOf(today)));
    ParseFormatIso(LastDay(MonthOf(today)));
    forall d | WellFormed(d)
      ensures NotAfter(FirstDay(MonthOf(today)), d) && NotAfter(d, LastDay(MonthOf(today))) <==> d.year == today.year && d.month == today.month
    {
      MonthWindow(MonthOf(today), d);
    }
  }

  /** The rows of every ledger inside a window; the rosters whole. */
  function Rows(db: Snapshot, w: Window): Snapshot {
    Fetch(db, w.start, w.end)
  }

  /** `Model.sum(column, { where: { date: { [Op.between]: [start, end] } } })`. */
  function PeriodSum<T>(rows: seq<T>, date: T -> Date, column: T -> real, w: Window): Option<real> {
    OrmSum(InPeriod(rows, date, w.start, w.end), column)
  }

  function RefuelingSum(db: Snapshot, w: Window): real {
    OrZero(PeriodSum(db.refuelings, RefuelingDate, RefuelingCost, w))
  }

  function MaintenanceSum(db: Snapshot, w: Window): real {
    OrZero(PeriodSum(db.maintenances, MaintenanceDate, MaintenanceCost, w))
  }

  function GeneralSum(db: Snapshot, w: Window): real {
    OrZero(PeriodSum(db.generalExpenses, ExpenseDate, ExpenseAmount, w))
  }

  function RevenueSum(db: Snapshot, w: Window): real {
    OrZero(PeriodSum(db.revenues, RevenueDate, RevenueAmount, w))
  }

  /** `(refuelingCost || 0) + (maintenanceCost || 0) + (generalExpenseAmount || 0)`. */
  function CostSum(db: Snapshot, w: Window): real {
    RefuelingSum(db, w) + MaintenanceSum(db, w) + GeneralSum(db, w)
  }

  /** The response of an endpoint: the JSON body, or status 500 with its message. */
  datatype Response<T> = Ok(body: T) | ServerError(message: string)

  // ---------------------------------------------------------------------------
  // getKpis
  // ---------------------------------------------------------------------------

  datatype DashboardKpis = DashboardKpis(totalVehicles: nat, totalEmployees: nat, totalMonthCost: real, totalMonthRevenue: real)

  const KpisErrorMessage: string := "Erro ao buscar KPIs."

  function VehicleState(v: Vehicle): VehicleStatus { v.status }
  function EmployeeState(e: Employee): EmployeeStatus { e.status }

  /** `Vehicle.findAll({ where: { status: 'ativo' } })`, in roster order. */
  function ActiveVehicles(vehicles: seq<Vehicle>): seq<Vehicle> {
    Keyed(vehicles, VehicleState, VehicleStatus.Active)
  }

  function ActiveEmployees(employees: seq<Employee>): seq<Employee> {
    Keyed(employees, EmployeeState, EmployeeStatus.Active)
  }

  /** The KPI cards over a window. */
  function KpisOver(db: Snapshot, w: Window): (k: DashboardKpis)
    ensures k.totalVehicles <= |db.vehicles| && k.totalEmployees <= |db.employees|
  {
    DashboardKpis(|ActiveVehicles(db.vehicles)|, |ActiveEmployees(db.employees)|, CostSum(db, w), RevenueSum(db, w))
  }

  /** `getKpis`. */
  function GetKpis(db: Snapshot, startDate: Option<string>, endDate: Option<string>, today: Date): (r: Response<DashboardKpis>)
    requires Valid(today)
    ensures r.ServerError? <==> Bounds(GetPeriod(startDate, endDate, today)).None?
    ensures r.ServerError? ==> r.message == KpisErrorMessage
  {
    match Bounds(GetPeriod(startDate, endDate, today))
    case None => ServerError(KpisErrorMessage)
    case Some(w) => Ok(KpisOver(db, w))
  }

  /**
   * The cards count the active vehicles and employees, and the month cost and
   * revenue are the plain totals of the rows in the window (a null sum
   * counts 0).
   */
  lemma {:induction false} KpisMeaning(db: Snapshot, w: Window)
    ensures var k := KpisOver(db, w);
      && k.totalMonthCost == SumBy(Rows(db, w).refuelings, RefuelingCost) + SumBy(Rows(db, w).maintenances, MaintenanceCost)
        + SumBy(Rows(db, w).generalExpenses, ExpenseAmount)
      && k.totalMonthRevenue == SumBy(Rows(db, w).revenues, RevenueAmount)
      && k.totalVehicles == |ActiveVehicles(db.vehicles)|
      && (forall v :: v in ActiveVehicles(db.vehicles) <==> v in db.vehicles && v.status == VehicleStatus.Active)
      && k.totalEmployees == |ActiveEmployees(db.employees)|
      && (forall e :: e in ActiveEmployees(db.employees) <==> e in db.employees && e.status == EmployeeStatus.Active)
  {
    KeyedMembers(db.vehicles, VehicleState, VehicleStatus.Active);
    KeyedMembers(db.employees, EmployeeState, EmployeeStatus.Active);
  }

  /**
   * A resolved period gives the cards of its rows: the month cost and revenue
   * are the plain totals of the rows in the window, and the vehicle and
   * employee counts are those of the active rosters. Without a period the
   * cards are the current month's.
   */
  lemma {:induction false} GetKpisOutcome(db: Snapshot, startDate: Option<string>, endDate: Option<string>, today: Date)
    requires Valid(today)
    ensures var b := Bounds(GetPeriod(startDate, endDate, today));
      b.Some? ==>
        var rows := Rows(db, b.value);
        var r := GetKpis(db, startDate, endDate, today);
        && r.Ok?
        && r.body.totalMonthCost == SumBy(rows.refuelings, RefuelingCost) + SumBy(rows.maintenances, MaintenanceCost)
          + SumBy(rows.generalExpenses, ExpenseAmount)
        && r.body.totalMonthRevenue == SumBy(rows.revenues, RevenueAmount)
        && r.body.totalVehicles == |ActiveVehicles(db.vehicles)|
        && r.body.totalEmployees == |ActiveEmployees(db.employees)|
    ensures !(Given(startDate) && Given(endDate)) ==>
      GetKpis(db, startDate, endDate, today) == Ok(KpisOver(db, MonthWindowOf(MonthOf(today))))
  {
    var b := Bounds(GetPeriod(startDate, endDate, today));
    if b.Some? {
      KpisMeaning(db, b.value);
    }
    if !(Given(startDate) && Given(endDate)) {
      DefaultPeriodIsCurrentMonth(startDate, endDate, today);
    }
  }

  // ---------------------------------------------------------------------------
  // getCostEvolution and getRevenueVsExpenses
  // ---------------------------------------------------------------------------

  /** The number of months the two evolution charts show. */
  const MonthsShown: int := 6

  /** The month at index `k` of the charts: `subMonths(today, 5 - k)`. */
  function ChartMonth(today: Date, k: int): (ym: YearMonth)
    requires Valid(today) && 0 <= k < MonthsShown
    ensures 0 <= ym.year && 1 <= ym.month <= 12
  {
    MonthsBefore(today, MonthsShown - 1 - k)
  }

  /** The charts run over six consecutive months, oldest first, ending with the current month. */
  lemma {:induction false} ChartMonthsAreLastSix(today: Date)
    requires Valid(today)
    ensures ChartMonth(today, MonthsShown - 1) == MonthOf(today)
    ensures forall k :: 0 <= k < MonthsShown - 1 ==> MonthIndex(ChartMonth(today, k + 1)) == MonthIndex(ChartMonth(today, k)) + 1
  {
  }

  /** The cost of a month: fuel, maintenance and general expenses in its window. */
  function MonthCost(db: Snapshot, ym: YearMonth): real {
    CostSum(db, MonthWindowOf(ym))
  }

  function MonthRevenue(db: Snapshot, ym: YearMonth): real {
    RevenueSum(db, MonthWindowOf(ym))
  }

  /** The labels of the first `n` chart months, oldest first. */
  function ChartLabels(today: Date, n: nat): (r: seq<string>)
    requires Valid(today) && n <= MonthsShown
    ensures |r| == n
  {
    if n == 0 then [] else ChartLabels(today, n - 1) + [MonthLabel(ChartMonth(today, n - 1))]
  }

  /** A monthly figure over the first `n` chart months, oldest first. */
  function ChartSeries(db: Snapshot, today: Date, n: nat, figure: (Snapshot, YearMonth) -> real): (r: seq<real>)
    requires Valid(today) && n <= MonthsShown
    ensures |r| == n
  {
    if n == 0 then [] else ChartSeries(db, today, n - 1, figure) + [figure(db, ChartMonth(today, n - 1))]
  }

  /** Index `k` of every array of the charts refers to the same month, `ChartMonth(today, k)`. */
  lemma {:induction false} ChartIndexIsMonth(db: Snapshot, today: Date, n: nat, figure: (Snapshot, YearMonth) -> real)
    requires Valid(today) && n <= MonthsShown
    ensures forall k :: 0 <= k < n ==> ChartLabels(today, n)[k] == MonthLabel(ChartMonth(today, k))
    ensures forall k :: 0 <= k < n ==> ChartSeries(db, today, n, figure)[k] == figure(db, ChartMonth(today, k))
  {
    if n > 0 {
      ChartIndexIsMonth(db, today, n - 1, figure);
    }
  }

  datatype CostEvolution = CostEvolution(labels: seq<string>, costData: seq<real>, revenueData: seq<real>)

  /** `getCostEvolution`: one label, one cost and one revenue per month, oldest first. */
  method GetCostEvolution(db: Snapshot, today: Date) returns (r: CostEvolution)
    requires Valid(today)
    ensures r.labels == ChartLabels(today, MonthsShown)
    ensures r.costData == ChartSeries(db, today, MonthsShown, MonthCost)
    ensures r.revenueData == ChartSeries(db, today, MonthsShown, MonthRevenue)
  {
    var labels: seq<string> := [];
    var costData: seq<real> := [];
    var revenueData: seq<real> := [];
    var i := MonthsShown - 1;
    while i >= 0
      invariant -1 <= i < MonthsShown
      invariant labels == ChartLabels(today, MonthsShown - 1 - i)
      invariant costData == ChartSeries(db, today, MonthsShown - 1 - i, MonthCost)
      invariant revenueData == ChartSeries(db, today, MonthsShown - 1 - i, MonthRevenue)
    {
      var targetDate := ChartMonth(today, MonthsShown - 1 - i);
      labels := labels + [MonthLabel(targetDate)];
      var window := MonthWindowOf(targetDate);
      var refuelingCost := PeriodSum(db.refuelings, RefuelingDate, RefuelingCost, window);
      var maintenanceCost := PeriodSum(db.maintenances, MaintenanceDate, MaintenanceCost, window);
      var generalExpenseAmount := PeriodSum(db.generalExpenses, ExpenseDate, ExpenseAmount, window);
      var totalCost := OrZero(refuelingCost) + OrZero(maintenanceCost) + OrZero(generalExpenseAmount);
      assert totalCost == MonthCost(db, targetDate);
      costData := costData + [totalCost];
      var totalRevenue := PeriodSum(db.revenues, RevenueDate, RevenueAmount, window);
      assert OrZero(totalRevenue) == MonthRevenue(db, targetDate);
      revenueData := revenueData + [OrZero(totalRevenue)];
      i := i - 1;
    }
    r := CostEvolution(labels, costData, revenueData);
  }

  datatype RevenueVsExpenses = RevenueVsExpenses(labels: seq<string>, revenueData: seq<real>, expenseData: seq<real>)

  /** `getRevenueVsExpenses`: the same months, revenue and expenses per month. */
  method GetRevenueVsExpenses(db: Snapshot, today: Date) returns (r: RevenueVsExpenses)
    requires Valid(today)
    ensures r.labels == ChartLabels(today, MonthsShown)
    ensures r.revenueData == ChartSeries(db, today, MonthsShown, MonthRevenue)
    ensures r.expenseData == ChartSeries(db, today, MonthsShown, MonthCost)
  {
    var labels: seq<string> := [];
    var revenueData: seq<real> := [];
    var expenseData: seq<real> := [];
    var i := MonthsShown - 1;
    while i >= 0
      invariant -1 <= i < MonthsShown
      invariant labels == ChartLabels(today, MonthsShown - 1 - i)
      invariant revenueData == ChartSeries(db, today, MonthsShown - 1 - i, MonthRevenue)
      invariant expenseData == ChartSeries(db, today, MonthsShown - 1 - i, MonthCost)
    {
      var date := ChartMonth(today, MonthsShown - 1 - i);
      labels := labels + [MonthLabel(date)];
      var window := MonthWindowOf(date);
      var revenue := PeriodSum(db.revenues, RevenueDate, RevenueAmount, window);
      var refueling := PeriodSum(db.refuelings, RefuelingDate, RefuelingCost, window);
      var maintenance := PeriodSum(db.maintenances, MaintenanceDate, MaintenanceCost, window);
      var general := PeriodSum(db.generalExpenses, ExpenseDate, ExpenseAmount, window);
      var monthRevenue := OrZero(revenue);
      var monthExpenses := OrZero(refueling) + OrZero(maintenance) + OrZero(general);
      assert monthRevenue == MonthRevenue(db, date);
      assert monthExpenses == MonthCost(db, date);
      revenueData := revenueData + [monthRevenue];
      expenseData := expenseData + [monthExpenses];
      i := i - 1;
    }
    r := RevenueVsExpenses(labels, revenueData, expenseData);
  }

  // Calendar months of the ledger rows, the reference grouping for the month windows.
  function RevenueMonth(r: Revenue): YearMonth { YearMonth(r.date.year, r.date.month) }
  function RefuelingMonth(r: Refueling): YearMonth { YearMonth(r.date.year, r.date.month) }
  function MaintenanceMonth(m: Maintenance): YearMonth { YearMonth(m.date.year, m.date.month) }
  function ExpenseMonth(g: GeneralExpense): YearMonth { YearMonth(g.date.year, g.date.month) }

  /** The window of a month selects, in table order, exactly the rows dated in that month. */
  lemma {:induction false} MonthWindowRows<T>(s: seq<T>, date: T -> Date, month: T -> YearMonth, ym: YearMonth)
    requires 1 <= ym.month <= 12
    requires forall x :: x in s ==> WellFormed(date(x)) && month(x) == YearMonth(date(x).year, date(x).month)
    ensures InPeriod(s, date, FirstDay(ym), LastDay(ym)) == Keyed(s, month, ym)
  {
    if |s| > 0 {
      var init := s[..|s| - 1];
      forall x | x in init ensures x in s {
        ListedInWhole(s, |s| - 1, x);
      }
      MonthWindowRows(init, date, month, ym);
      MonthWindow(ym, date(s[|s| - 1]));
    }
  }

  /**
   * Each month's figures are the totals of the rows dated in that month, so
   * the charts group the ledgers by calendar month.
   */
  lemma {:induction false} MonthFiguresByMonth(db: Snapshot, ym: YearMonth)
    requires 1 <= ym.month <= 12
    requires DatesWellFormed(db)
    ensures MonthCost(db, ym) ==
      SumBy(Keyed(db.refuelings, RefuelingMonth, ym), RefuelingCost)
      + SumBy(Keyed(db.maintenances, MaintenanceMonth, ym), MaintenanceCost)
      + SumBy(Keyed(db.generalExpenses, ExpenseMonth, ym), ExpenseAmount)
    ensures MonthRevenue(db, ym) == SumBy(Keyed(db.revenues, RevenueMonth, ym), RevenueAmount)
  {
    MonthWindowRows(db.refuelings, RefuelingDate, RefuelingMonth, ym);
    MonthWindowRows(db.maintenances, MaintenanceDate, MaintenanceMonth, ym);
    MonthWindowRows(db.generalExpenses, ExpenseDate, ExpenseMonth, ym);
    MonthWindowRows(db.revenues, RevenueDate, RevenueMonth, ym);
  }

  // ---------------------------------------------------------------------------
  // getSpendingByCategory
  // ---------------------------------------------------------------------------

  /** A `{ labels, data }` chart body. */
  datatype Chart = Chart(labels: seq<string>, data: seq<real>)

  const ChartErrorMessage: string := "Erro ao buscar dados do gráfico."

  const CategoryLabels: seq<string> := ["Abastecimentos", "Manutenções", "Despesas Gerais"]

  /** The spending pie over a window: fuel, maintenance, general, in that order. */
  function SpendingOver(db: Snapshot, w: Window): (c: Chart)
    ensures |c.labels| == |c.data| == 3
    ensures c.data[0] + c.data[1] + c.data[2] == KpisOver(db, w).totalMonthCost
  {
    Chart(CategoryLabels, [RefuelingSum(db, w), MaintenanceSum(db, w), GeneralSum(db, w)])
  }

  /** `getSpendingByCategory`. */
  function GetSpendingByCategory(db: Snapshot, startDate: Option<string>, endDate: Option<string>, today: Date): (r: Response<Chart>)
    requires Valid(today)
    ensures r.ServerError? <==> Bounds(GetPeriod(startDate, endDate, today)).None?
    ensures r.ServerError? ==> r.message == ChartErrorMessage
  {
    match Bounds(GetPeriod(startDate, endDate, today))
    case None => ServerError(ChartErrorMessage)
    case Some(w) => Ok(SpendingOver(db, w))
  }

  /**
   * The pie has three labelled slices, each the total of its ledger in the
   * window, and its slices add up to the month cost of the KPI card.
   */
  lemma {:induction false} SpendingMatchesKpis(db: Snapshot, w: Window)
    ensures var c := SpendingOver(db, w);
      && |c.labels| == 3 && |c.data| == 3
      && c.data[0] == SumBy(Rows(db, w).refuelings, RefuelingCost)
      && c.data[1] == SumBy(Rows(db, w).maintenances, MaintenanceCost)
      && c.data[2] == SumBy(Rows(db, w).generalExpenses, ExpenseAmount)
      && SumBy(c.data, Identity) == KpisOver(db, w).totalMonthCost
  {
    var c := SpendingOver(db, w);
    KpisMeaning(db, w);
    assert c.data == [c.data[0]] + [c.data[1]] + [c.data[2]];
    SumBySnoc([c.data[0]] + [c.data[1]], c.data[2], Identity);
    SumBySnoc([c.data[0]], c.data[1], Identity);
    SumBySnoc([], c.data[0], Identity);
  }

  function Identity(x: real): real { x }

  /**
   * A resolved period gives the three labelled slices, each the plain total
   * of its ledger's rows in the window; without a period the pie is the
   * current month's.
   */
  lemma {:induction false} GetSpendingOutcome(db: Snapshot, startDate: Option<string>, endDate: Option<string>, today: Date)
    requires Valid(today)
    ensures var b := Bounds(GetPeriod(startDate, endDate, today));
      b.Some? ==>
        var rows := Rows(db, b.value);
        GetSpendingByCategory(db, startDate, endDate, today) == Ok(Chart(CategoryLabels,
          [SumBy(rows.refuelings, RefuelingCost), SumBy(rows.maintenances, MaintenanceCost), SumBy(rows.generalExpenses, ExpenseAmount)]))
    ensures !(Given(startDate) && Given(endDate)) ==>
      GetSpendingByCategory(db, startDate, endDate, today) == Ok(SpendingOver(db, MonthWindowOf(MonthOf(today))))
  {
    var b := Bounds(GetPeriod(startDate, endDate, today));
    if b.Some? {
      SpendingMatchesKpis(db, b.value);
    }
    if !(Given(startDate) && Given(endDate)) {
      DefaultPeriodIsCurrentMonth(startDate, endDate, today);
    }
  }

  // ---------------------------------------------------------------------------
  // getCostsPerVehicle and getTop5ExpensiveVehicles
  // ---------------------------------------------------------------------------

  /** `Refueling.sum('total_cost', { where: { vehicle_id, date: between } }) || 0`. */
  function VehicleFuelCost(db: Snapshot, w: Window, v: Vehicle): real {
    OrZero(OrmSum(VehicleRefuelings(Rows(db, w), v), RefuelingCost))
  }

  function VehicleMaintenanceCost(db: Snapshot, w: Window, v: Vehicle): real {
    OrZero(OrmSum(VehicleMaintenances(Rows(db, w), v), MaintenanceCost))
  }

  datatype VehicleCostChart = VehicleCostChart(labels: seq<string>, refuelingData: seq<real>, maintenanceData: seq<real>)

  const VehicleCostsErrorMessage: string := "Erro ao buscar custos por veículo."

  /** The three arrays are index-aligned over the active vehicles, in roster order. */
  predicate AlignedCosts(c: VehicleCostChart, db: Snapshot, w: Window) {
    var active := ActiveVehicles(db.vehicles);
    && |c.labels| == |active| && |c.refuelingData| == |active| && |c.maintenanceData| == |active|
    && forall k :: 0 <= k < |active| ==>
      && c.labels[k] == active[k].plate
      && c.refuelingData[k] == VehicleFuelCost(db, w, active[k])
      && c.maintenanceData[k] == VehicleMaintenanceCost(db, w, active[k])
  }

  /** The loop of `getCostsPerVehicle` over a resolved window. */
  method CostsPerVehicle(db: Snapshot, w: Window) returns (c: VehicleCostChart)
    ensures AlignedCosts(c, db, w)
  {
    var vehicles := ActiveVehicles(db.vehicles);
    var labels: seq<string> := [];
    var refuelingData: seq<real> := [];
    var maintenanceData: seq<real> := [];
    for n := 0 to |vehicles|
      invariant |labels| == n && |refuelingData| == n && |maintenanceData| == n
      invariant forall k :: 0 <= k < n ==>
        && labels[k] == vehicles[k].plate
        && refuelingData[k] == VehicleFuelCost(db, w, vehicles[k])
        && maintenanceData[k] == VehicleMaintenanceCost(db, w, vehicles[k])
    {
      var vehicle := vehicles[n];
      labels := labels + [vehicle.plate];
      var refueling := OrmSum(VehicleRefuelings(Rows(db, w), vehicle), RefuelingCost);
      var maintenance := OrmSum(VehicleMaintenances(Rows(db, w), vehicle), MaintenanceCost);
      refuelingData := refuelingData + [OrZero(refueling)];
      maintenanceData := maintenanceData + [OrZero(maintenance)];
    }
    c := VehicleCostChart(labels, refuelingData, maintenanceData);
  }

  /** `getCostsPerVehicle`. */
  method GetCostsPerVehicle(db: Snapshot, startDate: Option<string>, endDate: Option<string>, today: Date)
    returns (response: Response<VehicleCostChart>)
    requires Valid(today)
    ensures Bounds(GetPeriod(startDate, endDate, today)).None? <==> response == ServerError(VehicleCostsErrorMessage)
    ensures response.Ok? ==> AlignedCosts(response.body, db, Bounds(GetPeriod(startDate, endDate, today)).value)
  {
    var bounds := Bounds(GetPeriod(startDate, endDate, today));
    if bounds.None? {
      response := ServerError(VehicleCostsErrorMessage);
    } else {
      var c := CostsPerVehicle(db, bounds.value);
      response := Ok(c);
    }
  }

  /** A `{ plate, totalCost }` entry of `vehicleCosts`. */
  datatype VehicleCost = VehicleCost(plate: string, totalCost: real)

  function VehicleCostKey(c: VehicleCost): real { c.totalCost }

  /** `(refueling || 0) + (maintenance || 0)`. */
  function VehicleTotalCost(db: Snapshot, w: Window, v: Vehicle): real {
    VehicleFuelCost(db, w, v) + VehicleMaintenanceCost(db, w, v)
  }

  /** `vehicleCosts`: an entry for each vehicle with a positive cost, in roster order. */
  function VehicleCosts(db: Snapshot, w: Window, vehicles: seq<Vehicle>): (r: seq<VehicleCost>)
    ensures |r| <= |vehicles|
  {
    if |vehicles| == 0 then []
    else
      var init := VehicleCosts(db, w, vehicles[..|vehicles| - 1]);
      var v := vehicles[|vehicles| - 1];
      var totalCost := VehicleTotalCost(db, w, v);
      if totalCost > 0.0 then init + [VehicleCost(v.plate, totalCost)] else init
  }

  /** The five most expensive: `vehicleCosts.sort(by totalCost, descending).slice(0, 5)`. */
  function Top5(db: Snapshot, w: Window): seq<VehicleCost> {
    Top(VehicleCosts(db, w, db.vehicles), VehicleCostKey)
  }

  /** `{ labels: top5.map(v => v.plate), data: top5.map(v => v.totalCost) }`. */
  function Top5Chart(db: Snapshot, w: Window): Chart {
    var top5 := Top5(db, w);
    Chart(seq(|top5|, i requires 0 <= i < |top5| => top5[i].plate),
      seq(|top5|, i requires 0 <= i < |top5| => top5[i].totalCost))
  }

  const Top5ErrorMessage: string := "Erro ao buscar top 5 veículos."

  /** The loop of `getTop5ExpensiveVehicles` over a resolved window, then the ranking. */
  method Top5ExpensiveVehicles(db: Snapshot, w: Window) returns (c: Chart)
    ensures c == Top5Chart(db, w)
  {
    var vehicles := db.vehicles;
    var vehicleCosts: seq<VehicleCost> := [];
    for n := 0 to |vehicles|
      invariant vehicleCosts == VehicleCosts(db, w, vehicles[..n])
    {
      var vehicle := vehicles[n];
      assert vehicles[..n + 1][..n] == vehicles[..n];
      var refueling := OrmSum(VehicleRefuelings(Rows(db, w), vehicle), RefuelingCost);
      var maintenance := OrmSum(VehicleMaintenances(Rows(db, w), vehicle), MaintenanceCost);
      var totalCost := OrZero(refueling) + OrZero(maintenance);
      if totalCost > 0.0 {
        vehicleCosts := vehicleCosts + [VehicleCost(vehicle.plate, totalCost)];
      }
    }
    assert vehicles[..|vehicles|] == vehicles;
    var top5 := Top(vehicleCosts, VehicleCostKey);
    c := Chart(seq(|top5|, i requires 0 <= i < |top5| => top5[i].plate),
      seq(|top5|, i requires 0 <= i < |top5| => top5[i].totalCost));
  }

  /** `getTop5ExpensiveVehicles`. */
  method GetTop5ExpensiveVehicles(db: Snapshot, startDate: Option<string>, endDate: Option<string>, today: Date)
    returns (response: Response<Chart>)
    requires Valid(today)
    ensures Bounds(GetPeriod(startDate, endDate, today)).None? <==> response == ServerError(Top5ErrorMessage)
    ensures response.Ok? ==> response.body == Top5Chart(db, Bounds(GetPeriod(startDate, endDate, today)).value)
  {
    var bounds := Bounds(GetPeriod(startDate, endDate, today));
    if bounds.None? {
      response := ServerError(Top5ErrorMessage);
    } else {
      var c := Top5ExpensiveVehicles(db, bounds.value);
      response := Ok(c);
    }
  }

  /**
   * `vehicleCosts` lists a vehicle exactly when its cost is positive, with
   * its plate and that cost.
   */
  lemma {:induction false} VehicleCostsMembers(db: Snapshot, w: Window, vehicles: seq<Vehicle>)
    ensures forall c :: c in VehicleCosts(db, w, vehicles) ==>
      c.totalCost > 0.0 && exists v :: v in vehicles && c == VehicleCost(v.plate, VehicleTotalCost(db, w, v))
    ensures forall v :: v in vehicles && VehicleTotalCost(db, w, v) > 0.0 ==>
      VehicleCost(v.plate, VehicleTotalCost(db, w, v)) in VehicleCosts(db, w, vehicles)
  {
    if |vehicles| > 0 {
      var init := vehicles[..|vehicles| - 1];
      var last := vehicles[|vehicles| - 1];
      VehicleCostsMembers(db, w, init);
      forall c | c in VehicleCosts(db, w, vehicles)
        ensures c.totalCost > 0.0 && exists v :: v in vehicles && c == VehicleCost(v.plate, VehicleTotalCost(db, w, v))
      {
        if c in VehicleCosts(db, w, init) {
          var v :| v in init && c == VehicleCost(v.plate, VehicleTotalCost(db, w, v));
          ListedInWhole(vehicles, |vehicles| - 1, v);
        } else {
          assert c == VehicleCost(last.plate, VehicleTotalCost(db, w, last));
        }
      }
      forall v | v in vehicles && VehicleTotalCost(db, w, v) > 0.0
        ensures VehicleCost(v.plate, VehicleTotalCost(db, w, v)) in VehicleCosts(db, w, vehicles)
      {
        if v != last {
          InitOrLast(vehicles, v);
        }
      }
    }
  }

  /**
   * The top-5 chart: at most five bars, costs non-increasing, every bar a
   * vehicle of the roster with a positive cost whose plate labels it, and
   * no left-out vehicle costing more than the last bar.
   */
  lemma {:induction false} Top5ChartMeaning(db: Snapshot, w: Window)
    ensures var c := Top5Chart(db, w);
      var costs := VehicleCosts(db, w, db.vehicles);
      && |c.labels| == |c.data| == (if |costs| < RankingSize then |costs| else RankingSize)
      && (forall i, j :: 0 <= i < j < |c.data| ==> c.data[i] >= c.data[j])
      && (forall i :: 0 <= i < |c.data| ==>
            (c.data[i] > 0.0 && exists v :: v in db.vehicles && v.plate == c.labels[i] && VehicleTotalCost(db, w, v) == c.data[i]))
      && (forall v :: v in db.vehicles && VehicleTotalCost(db, w, v) > 0.0 ==>
            (VehicleCost(v.plate, VehicleTotalCost(db, w, v)) in Top5(db, w)
             || (|c.data| == RankingSize && VehicleTotalCost(db, w, v) <= c.data[RankingSize - 1])))
  {
    var c := Top5Chart(db, w);
    var costs := VehicleCosts(db, w, db.vehicles);
    var top5 := Top5(db, w);
    TopIsRanking(costs, VehicleCostKey);
    VehicleCostsMembers(db, w, db.vehicles);
    forall i, j | 0 <= i < j < |c.data| ensures c.data[i] >= c.data[j] {
      assert VehicleCostKey(top5[i]) >= VehicleCostKey(top5[j]);
    }
    forall i | 0 <= i < |c.data|
      ensures c.data[i] > 0.0 && exists v :: v in db.vehicles && v.plate == c.labels[i] && VehicleTotalCost(db, w, v) == c.data[i]
    {
      assert top5[i] in multiset(top5);
      assert top5[i] in costs;
      var v :| v in db.vehicles && top5[i] == VehicleCost(v.plate, VehicleTotalCost(db, w, v));
    }
    forall v | v in db.vehicles && VehicleTotalCost(db, w, v) > 0.0
      ensures VehicleCost(v.plate, VehicleTotalCost(db, w, v)) in top5
        || (|c.data| == RankingSize && VehicleTotalCost(db, w, v) <= c.data[RankingSize - 1])
    {
      var x := VehicleCost(v.plate, VehicleTotalCost(db, w, v));
      assert x in multiset(costs);
      if x !in top5 {
        assert x !in multiset(top5);
        assert x in multiset(costs) - multiset(top5);
      }
    }
  }

  /**
   * The dashboard's cost of a vehicle over a window is the total cost the
   * report's vehicle analysis gives it over the same period.
   */
  lemma {:induction false} Top5AgreesWithReport(db: Snapshot, w: Window, v: Vehicle)
    ensures VehicleTotalCost(db, w, v) == VehicleStatsOf(Fetch(db, w.start, w.end), v).totalCost
  {
    VehicleTotals(Fetch(db, w.start, w.end), v);
  }
}

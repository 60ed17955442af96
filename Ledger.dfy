/**
 * The rows the analytics read: the four ledgers (revenues, refuelings,
 * maintenances, general expenses) and the two rosters (vehicles, employees),
 * with the numeric coercion applied to every monetary field and the ORM
 * aggregate `Model.sum`.
 */
module Ledger {
  import opened Wrappers
  import opened Calendar
  import opened Folds

  /**
   * A numeric column as it reaches JavaScript. DECIMAL columns arrive as text;
   * `Finite(v)` is text that `parseFloat` reads as the finite number `v`, and
   * `NonFinite` is anything for which it yields NaN or an infinity (null, empty
   * or non-numeric text, "Infinity").
   */
  datatype Numeric = Finite(value: real) | NonFinite

  /** `toNumber`: the parsed value when it is finite, otherwise 0. */
  function ToNumber(x: Numeric): (r: real)
    ensures x.Finite? ==> r == x.value
    ensures x.NonFinite? ==> r == 0.0
  {
    match x
    case Finite(v) => v
    case NonFinite => 0.0
  }

  /** The finite values of a column, added up; anything else is skipped. */
  function FiniteTotal(xs: seq<Numeric>): real {
    if |xs| == 0 then 0.0
    else if xs[0].Finite? then xs[0].value + FiniteTotal(xs[1..])
    else FiniteTotal(xs[1..])
  }

  /** A total of coerced values is the total of the finite values: nothing else leaks in. */
  lemma {:induction false} CoercedTotal(xs: seq<Numeric>)
    ensures SumBy(xs, ToNumber) == FiniteTotal(xs)
  {
    if |xs| > 0 {
      CoercedTotal(xs[1..]);
      assert xs == [xs[0]] + xs[1..];
      SumByAppend([xs[0]], xs[1..], ToNumber);
      assert [xs[0]][..0] == [];
    }
  }

  datatype Revenue = Revenue(date: Date, amount: Numeric, vehicleId: Option<int>, employeeId: Option<int>)
  datatype Refueling = Refueling(date: Date, liters: Numeric, totalCost: Numeric, vehicleKm: Numeric, vehicleId: int)
  datatype Maintenance = Maintenance(date: Date, cost: Numeric, vehicleId: int)
  datatype GeneralExpense = GeneralExpense(date: Date, amount: Numeric)

  /** The `status` enumerations ('ativo', 'inativo', 'manutencao' and 'ativo', 'inativo'). */
  datatype VehicleStatus = Active | Inactive | InMaintenance
  datatype EmployeeStatus = Active | Inactive

  datatype Vehicle = Vehicle(id: int, plate: string, model: string, status: VehicleStatus)
  datatype Employee = Employee(id: int, name: string, status: EmployeeStatus)

  /** The tables, or the rows one request fetched from them. */
  datatype Snapshot = Snapshot(
    revenues: seq<Revenue>,
    refuelings: seq<Refueling>,
    maintenances: seq<Maintenance>,
    generalExpenses: seq<GeneralExpense>,
    vehicles: seq<Vehicle>,
    employees: seq<Employee>)

  // Field projections, named so that every filter and total over a field is one term.
  function RevenueDate(r: Revenue): Date { r.date }
  function RevenueAmount(r: Revenue): real { ToNumber(r.amount) }
  function RevenueVehicle(r: Revenue): Option<int> { r.vehicleId }
  function RevenueEmployee(r: Revenue): Option<int> { r.employeeId }
  function RefuelingDate(r: Refueling): Date { r.date }
  function RefuelingCost(r: Refueling): real { ToNumber(r.totalCost) }
  function RefuelingLiters(r: Refueling): real { ToNumber(r.liters) }
  function RefuelingKm(r: Refueling): real { ToNumber(r.vehicleKm) }
  function RefuelingVehicle(r: Refueling): int { r.vehicleId }
  function MaintenanceDate(m: Maintenance): Date { m.date }
  function MaintenanceCost(m: Maintenance): real { ToNumber(m.cost) }
  function MaintenanceVehicle(m: Maintenance): int { m.vehicleId }
  function ExpenseDate(g: GeneralExpense): Date { g.date }
  function ExpenseAmount(g: GeneralExpense): real { ToNumber(g.amount) }

  /** `where: { date: { [Op.between]: [start, end] } }`: both ends included, table order kept. */
  function InPeriod<T>(s: seq<T>, date: T -> Date, start: Date, end: Date): (r: seq<T>)
    ensures |r| <= |s|
  {
    if |s| == 0 then []
    else
      var init := InPeriod(s[..|s| - 1], date, start, end);
      var x := s[|s| - 1];
      if NotAfter(start, date(x)) && NotAfter(date(x), end) then init + [x] else init
  }

  lemma {:induction false} InPeriodMembers<T>(s: seq<T>, date: T -> Date, start: Date, end: Date)
    ensures forall x :: x in InPeriod(s, date, start, end) <==> x in s && NotAfter(start, date(x)) && NotAfter(date(x), end)
  {
    if |s| > 0 {
      InPeriodMembers(s[..|s| - 1], date, start, end);
      assert s == s[..|s| - 1] + [s[|s| - 1]];
    }
  }

  /** The rows of every ledger dated within the period; the rosters whole. */
  function Fetch(db: Snapshot, start: Date, end: Date): (f: Snapshot)
    ensures f.vehicles == db.vehicles && f.employees == db.employees
  {
    Snapshot(
      InPeriod(db.revenues, RevenueDate, start, end),
      InPeriod(db.refuelings, RefuelingDate, start, end),
      InPeriod(db.maintenances, MaintenanceDate, start, end),
      InPeriod(db.generalExpenses, ExpenseDate, start, end),
      db.vehicles,
      db.employees)
  }

  /** Every ledger row in `f` is a real day between `start` and `end`. */
  predicate WithinPeriod(f: Snapshot, start: Date, end: Date) {
    && (forall r :: r in f.revenues ==> WellFormed(r.date) && NotAfter(start, r.date) && NotAfter(r.date, end))
    && (forall r :: r in f.refuelings ==> WellFormed(r.date) && NotAfter(start, r.date) && NotAfter(r.date, end))
    && (forall m :: m in f.maintenances ==> WellFormed(m.date) && NotAfter(start, m.date) && NotAfter(m.date, end))
    && (forall g :: g in f.generalExpenses ==> WellFormed(g.date) && NotAfter(start, g.date) && NotAfter(g.date, end))
  }

  /** Every ledger row holds a real calendar day, as a DATEONLY column does. */
  predicate DatesWellFormed(db: Snapshot) {
    && (forall r :: r in db.revenues ==> WellFormed(r.date))
    && (forall r :: r in db.refuelings ==> WellFormed(r.date))
    && (forall m :: m in db.maintenances ==> WellFormed(m.date))
    && (forall g :: g in db.generalExpenses ==> WellFormed(g.date))
  }

  /** What a fetch for a period returns lies within that period. */
  lemma {:induction false} FetchWithinPeriod(db: Snapshot, start: Date, end: Date)
    requires DatesWellFormed(db)
    ensures WithinPeriod(Fetch(db, start, end), start, end)
  {
    InPeriodMembers(db.revenues, RevenueDate, start, end);
    InPeriodMembers(db.refuelings, RefuelingDate, start, end);
    InPeriodMembers(db.maintenances, MaintenanceDate, start, end);
    InPeriodMembers(db.generalExpenses, ExpenseDate, start, end);
  }

  /**
   * `Model.sum(column, { where })`: SQL SUM over the matching rows, which is
   * NULL when no row matches.
   */
  function OrmSum<T>(rows: seq<T>, column: T -> real): (r: Option<real>)
    ensures r.None? <==> |rows| == 0
  {
    if |rows| == 0 then None else Some(SumBy(rows, column))
  }

  /** `value || 0`. */
  function OrZero(v: Option<real>): (r: real)
    ensures v.None? ==> r == 0.0
    ensures v.Some? ==> r == v.value
  {
    match v
    case Some(x) => x  // `|| 0` replaces a falsy 0 by 0, which leaves every number as it is
    case None => 0.0
  }

  /** A null sum contributes 0: coalescing the ORM sum gives the plain total. */
  lemma {:induction false} OrZeroSum<T>(rows: seq<T>, column: T -> real)
    ensures OrZero(OrmSum(rows, column)) == SumBy(rows, column)
  {
  }

  /**
   * `x > 0 ? a / x : 0`: the guarded quotient of the per-km figures, the
   * margin and the averages.
   */
  function Ratio(a: real, x: real): (r: real)
    ensures x <= 0.0 ==> r == 0.0
  {
    if x > 0.0 then a / x else 0.0
  }

  lemma {:induction false} RatioIsQuotient(a: real, x: real)
    ensures x > 0.0 ==> Ratio(a, x) * x == a
  {
  }

  /** A query parameter that JavaScript treats as true: present and not the empty string. */
  predicate Given(param: Option<string>) {
    param.Some? && param.value != ""
  }
}

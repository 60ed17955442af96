/**
 * The per-employee part of the fleet report: every employee's revenue, trip
 * count and average per trip, and the employee's revenue grouped by day
 * (the `dailyRevenues` dictionary, listed in chronological order), for the
 * employees with at least one trip in the period.
 */
module Employees {
  import opened Wrappers
  import opened Calendar
  import opened Folds
  import opened Ranking
  import opened Ledger

  // ---------------------------------------------------------------------------
  // Revenue by day
  // ---------------------------------------------------------------------------

  /**
   * One entry of `dailyRevenues`. The dictionary is keyed by the day written
   * 'dd/MM/yyyy', which names each day once, so the entry keeps the day itself.
   */
  datatype DayAmount = DayAmount(date: Date, amount: real)

  function AmountOf(x: DayAmount): real { x.amount }

  /** What the employee's revenues of day `d` add up to. */
  function DayTotal(rs: seq<Revenue>, d: Date): real {
    SumBy(Keyed(rs, RevenueDate, d), RevenueAmount)
  }

  predicate HasDay(entries: seq<DayAmount>, d: Date) {
    exists k :: 0 <= k < |entries| && entries[k].date == d
  }

  predicate DistinctDays(entries: seq<DayAmount>) {
    forall i, j :: 0 <= i < j < |entries| ==> entries[i].date != entries[j].date
  }

  /** The position of the entry of day `d` (`dailyRevenues[day]`), or -1 when there is none. */
  function FindDay(entries: seq<DayAmount>, d: Date): (i: int)
    ensures -1 <= i < |entries|
    ensures i >= 0 <==> HasDay(entries, d)
    ensures i >= 0 ==> entries[i].date == d
  {
    if |entries| == 0 then -1
    else if entries[0].date == d then 0
    else
      var k := FindDay(entries[1..], d);
      assert HasDay(entries[1..], d) <==> HasDay(entries, d) by {
        if HasDay(entries, d) {
          var j :| 0 <= j < |entries| && entries[j].date == d;
          assert entries[1..][j - 1].date == d;
        }
        if HasDay(entries[1..], d) {
          var j :| 0 <= j < |entries[1..]| && entries[1..][j].date == d;
          assert entries[j + 1].date == d;
        }
      }
      if k < 0 then -1 else k + 1
  }

  /** `dailyRevenues[day] = (dailyRevenues[day] || 0) + amount`: a new day goes last. */
  function AddToDay(entries: seq<DayAmount>, d: Date, amount: real): (r: seq<DayAmount>)
    ensures |r| == |entries| || |r| == |entries| + 1
  {
    var i := FindDay(entries, d);
    if i >= 0 then entries[i := DayAmount(d, entries[i].amount + amount)]
    else entries + [DayAmount(d, amount)]
  }

  /** The dictionary after the employee's revenues have been added in fetch order. */
  function GroupByDay(rs: seq<Revenue>): (r: seq<DayAmount>)
    ensures |r| <= |rs|
  {
    if |rs| == 0 then []
    else
      var last := rs[|rs| - 1];
      AddToDay(GroupByDay(rs[..|rs| - 1]), last.date, RevenueAmount(last))
  }

  /**
   * `eRevenues.forEach(...)`: the dictionary is built one revenue at a time,
   * creating a day's entry on its first revenue and adding to it afterwards.
   */
  method GroupRevenuesByDay(eRevenues: seq<Revenue>) returns (dailyRevenues: seq<DayAmount>)
    ensures dailyRevenues == GroupByDay(eRevenues)
  {
    dailyRevenues := [];
    for n := 0 to |eRevenues|
      invariant dailyRevenues == GroupByDay(eRevenues[..n])
    {
      var r := eRevenues[n];
      assert eRevenues[..n + 1][..n] == eRevenues[..n];
      var i := FindDay(dailyRevenues, r.date);
      if i >= 0 {
        dailyRevenues := dailyRevenues[i := DayAmount(r.date, dailyRevenues[i].amount + RevenueAmount(r))];
      } else {
        dailyRevenues := dailyRevenues + [DayAmount(r.date, RevenueAmount(r))];
      }
    }
    assert eRevenues[..|eRevenues|] == eRevenues;
  }

  /**
   * The dictionary of `rs`: one entry per day that has a revenue, none for any
   * other day, and each entry holding its day's total.
   */
  ghost predicate Grouped(entries: seq<DayAmount>, rs: seq<Revenue>) {
    && DistinctDays(entries)
    && (forall k :: 0 <= k < |entries| ==> entries[k].amount == DayTotal(rs, entries[k].date))
    && (forall d :: HasDay(entries, d) <==> |Keyed(rs, RevenueDate, d)| > 0)
  }

  lemma {:induction false} KeyedRevenuesSnoc(rs: seq<Revenue>, r: Revenue, d: Date)
    ensures Keyed(rs + [r], RevenueDate, d) == if r.date == d then Keyed(rs, RevenueDate, d) + [r] else Keyed(rs, RevenueDate, d)
    ensures DayTotal(rs + [r], d) == DayTotal(rs, d) + (if r.date == d then RevenueAmount(r) else 0.0)
  {
    assert (rs + [r])[..|rs|] == rs;
    if r.date == d {
      SumBySnoc(Keyed(rs, RevenueDate, d), r, RevenueAmount);
    }
  }

  /** The dictionary is what its definition says after every revenue. */
  lemma {:induction false} GroupByDayIsGrouped(rs: seq<Revenue>)
    ensures Grouped(GroupByDay(rs), rs)
  {
    if |rs| > 0 {
      var init, r := rs[..|rs| - 1], rs[|rs| - 1];
      assert rs == init + [r];
      GroupByDayIsGrouped(init);
      AddToDayGrouped(GroupByDay(init), init, r);
    }
  }

  lemma {:induction false} AddToDayGrouped(entries: seq<DayAmount>, rs: seq<Revenue>, r: Revenue)
    requires Grouped(entries, rs)
    ensures Grouped(AddToDay(entries, r.date, RevenueAmount(r)), rs + [r])
  {
    var i := FindDay(entries, r.date);
    if i >= 0 {
      GroupedAfterUpdate(entries, rs, r, i);
    } else {
      GroupedAfterAppend(entries, rs, r);
    }
  }

  lemma {:induction false} GroupedAfterUpdate(entries: seq<DayAmount>, rs: seq<Revenue>, r: Revenue, i: int)
    requires Grouped(entries, rs)
    requires 0 <= i < |entries| && entries[i].date == r.date
    ensures Grouped(entries[i := DayAmount(r.date, entries[i].amount + RevenueAmount(r))], rs + [r])
  {
    var e := entries[i := DayAmount(r.date, entries[i].amount + RevenueAmount(r))];
    assert DistinctDays(e) by {
      forall a, b | 0 <= a < b < |e| ensures e[a].date != e[b].date {
        assert e[a].date == entries[a].date && e[b].date == entries[b].date;
      }
    }
    forall k | 0 <= k < |e| ensures e[k].amount == DayTotal(rs + [r], e[k].date) {
      KeyedRevenuesSnoc(rs, r, e[k].date);
      if k != i {
        assert entries[k].date != entries[i].date;
      }
    }
    forall d ensures HasDay(e, d) <==> |Keyed(rs + [r], RevenueDate, d)| > 0 {
      KeyedRevenuesSnoc(rs, r, d);
      if HasDay(e, d) {
        var k :| 0 <= k < |e| && e[k].date == d;
        assert entries[k].date == d;
      }
      if HasDay(entries, d) {
        var k :| 0 <= k < |entries| && entries[k].date == d;
        assert e[k].date == d;
      }
    }
  }

  lemma {:induction false} GroupedAfterAppend(entries: seq<DayAmount>, rs: seq<Revenue>, r: Revenue)
    requires Grouped(entries, rs)
    requires !HasDay(entries, r.date)
    ensures Grouped(entries + [DayAmount(r.date, RevenueAmount(r))], rs + [r])
  {
    var e := entries + [DayAmount(r.date, RevenueAmount(r))];
    assert DistinctDays(e) by {
      forall a, b | 0 <= a < b < |e| ensures e[a].date != e[b].date {
        assert e[a] == entries[a];
        if b < |entries| {
          assert e[b] == entries[b];
        }
      }
    }
    forall k | 0 <= k < |e| ensures e[k].amount == DayTotal(rs + [r], e[k].date) {
      KeyedRevenuesSnoc(rs, r, e[k].date);
      if k < |entries| {
        assert e[k] == entries[k];
      } else {
        assert |Keyed(rs, RevenueDate, r.date)| == 0;
      }
    }
    forall d ensures HasDay(e, d) <==> |Keyed(rs + [r], RevenueDate, d)| > 0 {
      KeyedRevenuesSnoc(rs, r, d);
      if HasDay(e, d) && d != r.date {
        var k :| 0 <= k < |e| && e[k].date == d;
        assert entries[k].date == d;
      }
      if HasDay(entries, d) {
        var k :| 0 <= k < |entries| && entries[k].date == d;
        assert e[k].date == d;
      }
      if d == r.date {
        assert e[|entries|].date == d;
      }
    }
  }

  /** Adding a revenue to the dictionary adds its amount to the dictionary's total. */
  lemma {:induction false} AddToDayTotal(entries: seq<DayAmount>, d: Date, amount: real)
    ensures SumBy(AddToDay(entries, d, amount), AmountOf) == SumBy(entries, AmountOf) + amount
  {
    var i := FindDay(entries, d);
    if i >= 0 {
      SumByUpdate(entries, i, DayAmount(d, entries[i].amount + amount), AmountOf);
    } else {
      SumBySnoc(entries, DayAmount(d, amount), AmountOf);
    }
  }

  /** The entries of the dictionary add up to the employee's revenue. */
  lemma {:induction false} GroupByDayTotal(rs: seq<Revenue>)
    ensures SumBy(GroupByDay(rs), AmountOf) == SumBy(rs, RevenueAmount)
  {
    if |rs| > 0 {
      var init, r := rs[..|rs| - 1], rs[|rs| - 1];
      GroupByDayTotal(init);
      AddToDayTotal(GroupByDay(init), r.date, RevenueAmount(r));
      assert rs == init + [r];
      SumBySnoc(init, r, RevenueAmount);
    }
  }

  // ---------------------------------------------------------------------------
  // Chronological order
  // ---------------------------------------------------------------------------

  function NegatedDay(x: DayAmount): real { -(Ordinal(x.date) as real) }

  /**
   * `Object.entries(dailyRevenues).map(...).sort((a, b) => new Date(a) - new
   * Date(b))`, the dates read back from 'dd/MM/yyyy': ascending by day.
   */
  function Chronological(entries: seq<DayAmount>): (r: seq<DayAmount>)
    ensures |r| == |entries|
  {
    SortDesc(entries, NegatedDay)
  }

  /** Sorting keeps the entries; with one entry per real day they end up strictly by day. */
  lemma {:induction false} ChronologicalOrder(entries: seq<DayAmount>)
    requires DistinctDays(entries)
    requires forall k :: 0 <= k < |entries| ==> WellFormed(entries[k].date)
    ensures multiset(Chronological(entries)) == multiset(entries)
    ensures var c := Chronological(entries);
      forall i, j :: 0 <= i < j < |c| ==> Before(c[i].date, c[j].date)
  {
    var c := Chronological(entries);
    SortDescPermutes(entries, NegatedDay);
    SortDescOrdered(entries, NegatedDay);
    SortDescDistinctDays(entries);
    forall i, j | 0 <= i < j < |c| ensures Before(c[i].date, c[j].date) {
      assert c[i] in multiset(entries) && c[j] in multiset(entries);
      InEntries(entries, c[i]);
      InEntries(entries, c[j]);
      OrdinalOrder(c[i].date, c[j].date);
      assert NegatedDay(c[i]) >= NegatedDay(c[j]);
    }
  }

  lemma {:induction false} InEntries(entries: seq<DayAmount>, x: DayAmount)
    requires x in multiset(entries)
    requires forall k :: 0 <= k < |entries| ==> WellFormed(entries[k].date)
    ensures WellFormed(x.date)
  {
    var k :| 0 <= k < |entries| && entries[k] == x;
  }

  lemma {:induction false} SortDescDistinctDays(entries: seq<DayAmount>)
    requires DistinctDays(entries)
    ensures DistinctDays(Chronological(entries))
  {
    if |entries| > 0 {
      var rest := entries[1..];
      TailDistinctDays(entries);
      SortDescDistinctDays(rest);
      SortDescPermutes(rest, NegatedDay);
      forall x | x in Chronological(rest) ensures x.date != entries[0].date {
        assert x in multiset(rest);
        var k :| 0 <= k < |rest| && rest[k] == x;
        assert entries[k + 1] == x;
      }
      InsertDistinctDays(entries[0], Chronological(rest));
    }
  }

  lemma {:induction false} TailDistinctDays(entries: seq<DayAmount>)
    requires |entries| > 0 && DistinctDays(entries)
    ensures DistinctDays(entries[1..])
  {
    var rest := entries[1..];
    forall i, j | 0 <= i < j < |rest| ensures rest[i].date != rest[j].date {
      assert rest[i] == entries[i + 1] && rest[j] == entries[j + 1];
    }
  }

  lemma {:induction false} PrependDistinctDays(h: DayAmount, t: seq<DayAmount>)
    requires DistinctDays(t)
    requires forall y :: y in t ==> y.date != h.date
    ensures DistinctDays([h] + t)
  {
    var q := [h] + t;
    forall i, j | 0 <= i < j < |q| ensures q[i].date != q[j].date {
      assert q[j] == t[j - 1];
      if i > 0 {
        assert q[i] == t[i - 1];
      }
    }
  }

  lemma {:induction false} InsertDistinctDays(x: DayAmount, r: seq<DayAmount>)
    requires DistinctDays(r)
    requires forall y :: y in r ==> y.date != x.date
    ensures DistinctDays(Insert(x, r, NegatedDay))
  {
    if |r| == 0 || NegatedDay(x) >= NegatedDay(r[0]) {
      PrependDistinctDays(x, r);
    } else {
      var rest := r[1..];
      TailDistinctDays(r);
      InsertDistinctDays(x, rest);
      var q' := Insert(x, rest, NegatedDay);
      InsertPermutes(x, rest, NegatedDay);
      forall y | y in q' ensures y.date != r[0].date {
        assert y in multiset(q');
        if y != x {
          assert y in multiset(rest);
          var k :| 0 <= k < |rest| && rest[k] == y;
          assert r[k + 1] == y;
        }
      }
      PrependDistinctDays(r[0], q');
    }
  }

  /** Sorting the dictionary neither adds nor drops a day, nor changes an amount. */
  lemma {:induction false} ChronologicalKeepsDays(entries: seq<DayAmount>, rs: seq<Revenue>)
    requires Grouped(entries, rs)
    ensures var c := Chronological(entries);
      && (forall k :: 0 <= k < |c| ==> c[k].amount == DayTotal(rs, c[k].date))
      && (forall d :: HasDay(c, d) <==> |Keyed(rs, RevenueDate, d)| > 0)
  {
    var c := Chronological(entries);
    SortDescPermutes(entries, NegatedDay);
    forall k | 0 <= k < |c| ensures c[k].amount == DayTotal(rs, c[k].date) {
      assert c[k] in multiset(entries);
      var j :| 0 <= j < |entries| && entries[j] == c[k];
    }
    forall d ensures HasDay(c, d) <==> HasDay(entries, d) {
      if HasDay(c, d) {
        var k :| 0 <= k < |c| && c[k].date == d;
        assert c[k] in multiset(entries);
        var j :| 0 <= j < |entries| && entries[j] == c[k];
      }
      if HasDay(entries, d) {
        var k :| 0 <= k < |entries| && entries[k].date == d;
        assert entries[k] in multiset(c);
        var j :| 0 <= j < |c| && c[j] == entries[k];
      }
    }
  }

  // ---------------------------------------------------------------------------
  // The employees
  // ---------------------------------------------------------------------------

  datatype EmployeeStats = EmployeeStats(
    name: string,
    totalRevenue: real,
    tripsCount: nat,
    avgRevenuePerTrip: real,
    dailyRevenues: seq<DayAmount>)

  /** `revenues.filter(r => r.employee_id === employee.id)`. */
  function EmployeeRevenues(f: Snapshot, e: Employee): seq<Revenue> {
    Keyed(f.revenues, RevenueEmployee, Some(e.id))
  }

  /** The record pushed for an employee with `tripsCount` trips. */
  function Entry(e: Employee, totalRevenueGenerated: real, tripsCount: nat, dailyRevenues: seq<DayAmount>): EmployeeStats
    requires tripsCount > 0
  {
    EmployeeStats(e.name, totalRevenueGenerated, tripsCount,
      totalRevenueGenerated / tripsCount as real, Chronological(dailyRevenues))
  }

  /** The entry of employee `e`, or `None` when the employee made no trip in the period. */
  function EmployeeStatsOf(f: Snapshot, e: Employee): (r: Option<EmployeeStats>)
    ensures r.Some? <==> |EmployeeRevenues(f, e)| > 0
    ensures r.Some? ==> r.value.name == e.name && r.value.tripsCount == |EmployeeRevenues(f, e)|
  {
    var eRevenues := EmployeeRevenues(f, e);
    if |eRevenues| > 0 then
      Some(Entry(e, SumBy(eRevenues, RevenueAmount), |eRevenues|, GroupByDay(eRevenues)))
    else None
  }

  /** An employee is listed exactly when one of the fetched revenues is theirs. */
  lemma {:induction false} EmployeeListed(f: Snapshot, e: Employee)
    ensures EmployeeStatsOf(f, e).Some? <==> exists r :: r in f.revenues && r.employeeId == Some(e.id)
  {
    var eRevenues := EmployeeRevenues(f, e);
    KeyedMembers(f.revenues, RevenueEmployee, Some(e.id));
    if |eRevenues| > 0 {
      assert eRevenues[0] in eRevenues;
    }
  }

  /**
   * A listed employee's entry carries their name, the total and count of their
   * revenues, and an average that gives back the total over the trips.
   */
  lemma {:induction false} EmployeeTotals(f: Snapshot, e: Employee)
    requires EmployeeStatsOf(f, e).Some?
    ensures var s := EmployeeStatsOf(f, e).value;
      && s.name == e.name
      && s.totalRevenue == SumBy(EmployeeRevenues(f, e), RevenueAmount)
      && s.tripsCount == |EmployeeRevenues(f, e)| > 0
      && s.avgRevenuePerTrip * s.tripsCount as real == s.totalRevenue
  {
    var eRevenues := EmployeeRevenues(f, e);
    EntryAverage(e, SumBy(eRevenues, RevenueAmount), |eRevenues|, GroupByDay(eRevenues));
  }

  lemma {:induction false} EntryAverage(e: Employee, totalRevenueGenerated: real, tripsCount: nat, dailyRevenues: seq<DayAmount>)
    requires tripsCount > 0
    ensures var s := Entry(e, totalRevenueGenerated, tripsCount, dailyRevenues);
      s.name == e.name && s.totalRevenue == totalRevenueGenerated && s.tripsCount == tripsCount
      && s.avgRevenuePerTrip * tripsCount as real == totalRevenueGenerated
  {
  }

  /**
   * The daily revenues of a listed employee: one entry per day with a trip,
   * none for any other day, each holding that day's total, strictly by day,
   * and adding up to the employee's total.
   */
  lemma {:induction false} EmployeeDailyRevenues(f: Snapshot, e: Employee)
    requires forall r :: r in f.revenues ==> WellFormed(r.date)
    requires EmployeeStatsOf(f, e).Some?
    ensures var s := EmployeeStatsOf(f, e).value;
      var eRevenues := EmployeeRevenues(f, e);
      && (forall k :: 0 <= k < |s.dailyRevenues| ==> s.dailyRevenues[k].amount == DayTotal(eRevenues, s.dailyRevenues[k].date))
      && (forall d :: HasDay(s.dailyRevenues, d) <==> |Keyed(eRevenues, RevenueDate, d)| > 0)
      && (forall i, j :: 0 <= i < j < |s.dailyRevenues| ==> Before(s.dailyRevenues[i].date, s.dailyRevenues[j].date))
      && SumBy(s.dailyRevenues, AmountOf) == s.totalRevenue
  {
    var eRevenues := EmployeeRevenues(f, e);
    var entries := GroupByDay(eRevenues);
    GroupByDayIsGrouped(eRevenues);
    ChronologicalKeepsDays(entries, eRevenues);
    KeyedMembers(f.revenues, RevenueEmployee, Some(e.id));
    forall k | 0 <= k < |entries| ensures WellFormed(entries[k].date) {
      assert HasDay(entries, entries[k].date);
      KeyedMembers(eRevenues, RevenueDate, entries[k].date);
      var r := Keyed(eRevenues, RevenueDate, entries[k].date)[0];
      assert r in Keyed(eRevenues, RevenueDate, entries[k].date);
    }
    ChronologicalOrder(entries);
    GroupByDayTotal(eRevenues);
    SortDescPermutes(entries, NegatedDay);
    SumByPermutation(Chronological(entries), entries, AmountOf);
  }

  /** The entries of the employees with a trip, in roster order. */
  function EmployeeAnalysis(f: Snapshot, employees: seq<Employee>): (r: seq<EmployeeStats>)
    ensures |r| <= |employees|
  {
    if |employees| == 0 then []
    else
      var init := EmployeeAnalysis(f, employees[..|employees| - 1]);
      match EmployeeStatsOf(f, employees[|employees| - 1])
      case Some(s) => init + [s]
      case None => init
  }

  /** The loop over the roster, grouping each employee's revenues by day in place. */
  method AnalyzeEmployees(f: Snapshot) returns (employeeAnalysis: seq<EmployeeStats>)
    ensures employeeAnalysis == EmployeeAnalysis(f, f.employees)
  {
    employeeAnalysis := [];
    for n := 0 to |f.employees|
      invariant employeeAnalysis == EmployeeAnalysis(f, f.employees[..n])
    {
      var employee := f.employees[n];
      EmployeeAnalysisStep(f, f.employees, n);
      var eRevenues := EmployeeRevenues(f, employee);
      var totalRevenueGenerated := SumBy(eRevenues, RevenueAmount);
      var tripsCount := |eRevenues|;
      var dailyRevenues := GroupRevenuesByDay(eRevenues);
      if tripsCount > 0 {
        employeeAnalysis := employeeAnalysis + [Entry(employee, totalRevenueGenerated, tripsCount, dailyRevenues)];
      }
    }
    assert f.employees[..|f.employees|] == f.employees;
  }

  lemma {:induction false} EmployeeAnalysisStep(f: Snapshot, employees: seq<Employee>, n: nat)
    requires n < |employees|
    ensures EmployeeAnalysis(f, employees[..n + 1]) ==
      match EmployeeStatsOf(f, employees[n])
      case Some(s) => EmployeeAnalysis(f, employees[..n]) + [s]
      case None => EmployeeAnalysis(f, employees[..n])
  {
    assert employees[..n + 1][..n] == employees[..n];
  }

  /** An entry is listed exactly when it is the entry of an employee of the roster. */
  lemma {:induction false} EmployeeAnalysisMembers(f: Snapshot, employees: seq<Employee>)
    ensures forall s :: s in EmployeeAnalysis(f, employees) <==> exists e :: e in employees && EmployeeStatsOf(f, e) == Some(s)
  {
    if |employees| > 0 {
      var n := |employees| - 1;
      var init, last := employees[..n], employees[n];
      EmployeeAnalysisMembers(f, init);
      assert employees[..n + 1] == employees;
      EmployeeAnalysisStep(f, employees, n);
      forall x | x in EmployeeAnalysis(f, employees)
        ensures exists e :: e in employees && EmployeeStatsOf(f, e) == Some(x)
      {
        if x in EmployeeAnalysis(f, init) {
          var e :| e in init && EmployeeStatsOf(f, e) == Some(x);
          ListedInWhole(employees, n, e);
        } else {
          assert last in employees;
        }
      }
      forall x, e | e in employees && EmployeeStatsOf(f, e) == Some(x)
        ensures x in EmployeeAnalysis(f, employees)
      {
        if e != last {
          InitOrLast(employees, e);
        }
      }
    }
  }
}

/**
 * The daily breakdown of the report (the line chart): one point per day of
 * the period, labelled 'dd/MM', with that day's revenue and that day's
 * fuel, maintenance and general expenses.
 */
module Daily {
  import opened Calendar
  import opened Folds
  import opened Ledger

  datatype DailyPoint = DailyPoint(date: string, revenue: real, expenses: real)

  function PointRevenue(p: DailyPoint): real { p.revenue }
  function PointExpenses(p: DailyPoint): real { p.expenses }

  /** `revenues.filter(r => isSameDay(parseISO(r.date), day)).reduce(...)`. */
  function DayRevenue(f: Snapshot, day: Date): real {
    SumBy(Keyed(f.revenues, RevenueDate, day), RevenueAmount)
  }

  function DayRefueling(f: Snapshot, day: Date): real {
    SumBy(Keyed(f.refuelings, RefuelingDate, day), RefuelingCost)
  }

  function DayMaintenance(f: Snapshot, day: Date): real {
    SumBy(Keyed(f.maintenances, MaintenanceDate, day), MaintenanceCost)
  }

  function DayGeneral(f: Snapshot, day: Date): real {
    SumBy(Keyed(f.generalExpenses, ExpenseDate, day), ExpenseAmount)
  }

  /** The point pushed for `day`. */
  function Point(f: Snapshot, day: Date): DailyPoint
    requires WellFormed(day)
  {
    DailyPoint(DayMonthLabel(day), DayRevenue(f, day),
      DayRefueling(f, day) + DayMaintenance(f, day) + DayGeneral(f, day))
  }

  /** The points of `days`, in order. */
  function DailySeries(f: Snapshot, days: seq<Date>): (r: seq<DailyPoint>)
    requires forall k :: 0 <= k < |days| ==> WellFormed(days[k])
    ensures |r| == |days|
  {
    if |days| == 0 then []
    else DailySeries(f, days[..|days| - 1]) + [Point(f, days[|days| - 1])]
  }

  /** The loop over `eachDayOfInterval({ start, end })`. */
  method BuildDailyBreakdown(f: Snapshot, start: Date, end: Date) returns (dailyBreakdown: seq<DailyPoint>)
    requires WellFormed(start) && WellFormed(end)
    ensures dailyBreakdown == DailySeries(f, DaysOfInterval(start, end))
  {
    var interval := DaysOfInterval(start, end);
    dailyBreakdown := [];
    for n := 0 to |interval|
      invariant dailyBreakdown == DailySeries(f, interval[..n])
    {
      var day := interval[n];
      assert interval[..n + 1][..n] == interval[..n];
      var dailyRevenue := SumBy(Keyed(f.revenues, RevenueDate, day), RevenueAmount);
      var dailyRefueling := SumBy(Keyed(f.refuelings, RefuelingDate, day), RefuelingCost);
      var dailyMaintenance := SumBy(Keyed(f.maintenances, MaintenanceDate, day), MaintenanceCost);
      var dailyGeneral := SumBy(Keyed(f.generalExpenses, ExpenseDate, day), ExpenseAmount);
      dailyBreakdown := dailyBreakdown + [DailyPoint(DayMonthLabel(day), dailyRevenue,
        dailyRefueling + dailyMaintenance + dailyGeneral)];
    }
    assert interval[..|interval|] == interval;
  }

  /** Point `k` is the day `days[k]`: its label, its revenue and its expenses. */
  lemma {:induction false} DailySeriesPoints(f: Snapshot, days: seq<Date>)
    requires forall k :: 0 <= k < |days| ==> WellFormed(days[k])
    ensures forall k :: 0 <= k < |days| ==> DailySeries(f, days)[k] == Point(f, days[k])
  {
    if |days| > 0 {
      var init := days[..|days| - 1];
      DailySeriesPoints(f, init);
      forall k | 0 <= k < |days| ensures DailySeries(f, days)[k] == Point(f, days[k]) {
        if k < |init| {
          assert init[k] == days[k];
        }
      }
    }
  }

  /** The series adds up, day by day, the per-day totals of each ledger. */
  lemma {:induction false} DailySeriesSums(f: Snapshot, days: seq<Date>)
    requires forall k :: 0 <= k < |days| ==> WellFormed(days[k])
    ensures SumBy(DailySeries(f, days), PointRevenue) == KeyedSums(f.revenues, RevenueDate, RevenueAmount, days)
    ensures SumBy(DailySeries(f, days), PointExpenses) ==
      KeyedSums(f.refuelings, RefuelingDate, RefuelingCost, days)
      + KeyedSums(f.maintenances, MaintenanceDate, MaintenanceCost, days)
      + KeyedSums(f.generalExpenses, ExpenseDate, ExpenseAmount, days)
  {
    if |days| > 0 {
      var init := days[..|days| - 1];
      DailySeriesSums(f, init);
      SumBySnoc(DailySeries(f, init), Point(f, days[|days| - 1]), PointRevenue);
      SumBySnoc(DailySeries(f, init), Point(f, days[|days| - 1]), PointExpenses);
    }
  }

  /**
   * When every fetched row lies within the period, the line chart adds up to
   * the bar chart: the daily revenues to the total revenue and the daily
   * expenses to the total expenses. No row is counted twice (the days are
   * distinct) and none is missed (every day of the period is listed).
   */
  lemma {:induction false} DailyTotals(f: Snapshot, start: Date, end: Date)
    requires WellFormed(start) && WellFormed(end)
    requires WithinPeriod(f, start, end)
    ensures var series := DailySeries(f, DaysOfInterval(start, end));
      && SumBy(series, PointRevenue) == SumBy(f.revenues, RevenueAmount)
      && SumBy(series, PointExpenses) ==
        SumBy(f.refuelings, RefuelingCost) + SumBy(f.maintenances, MaintenanceCost) + SumBy(f.generalExpenses, ExpenseAmount)
  {
    var days := DaysOfInterval(start, end);
    DaysOfIntervalAscending(start, end);
    assert Distinct(days) by {
      forall i, j | 0 <= i < j < |days| ensures days[i] != days[j] {
        assert Before(days[i], days[j]);
      }
    }
    DailySeriesSums(f, days);
    forall r | r in f.revenues ensures RevenueDate(r) in days {
      DaysOfIntervalComplete(start, end, r.date);
    }
    forall r | r in f.refuelings ensures RefuelingDate(r) in days {
      DaysOfIntervalComplete(start, end, r.date);
    }
    forall m | m in f.maintenances ensures MaintenanceDate(m) in days {
      DaysOfIntervalComplete(start, end, m.date);
    }
    forall g | g in f.generalExpenses ensures ExpenseDate(g) in days {
      DaysOfIntervalComplete(start, end, g.date);
    }
    PartitionSum(f.revenues, RevenueDate, RevenueAmount, days);
    PartitionSum(f.refuelings, RefuelingDate, RefuelingCost, days);
    PartitionSum(f.maintenances, MaintenanceDate, MaintenanceCost, days);
    PartitionSum(f.generalExpenses, ExpenseDate, ExpenseAmount, days);
  }
}

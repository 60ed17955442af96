/**
 * The per-vehicle part of the fleet report: distance from the odometer
 * readings, fuel economy, cost, revenue, balance and the per-km figures of
 * every vehicle, and the list of the vehicles that had any cost or revenue in
 * the period, together with the fleet's total distance.
 */
module Vehicles {
  import opened Wrappers
  import opened Folds
  import opened Ranking
  import opened Ledger

  datatype VehicleStats = VehicleStats(
    plate: string,
    model: string,
    kmDriven: real,
    avgKmL: real,
    totalCost: real,
    totalRevenue: real,
    balance: real,
    costPerKm: real,
    revenuePerKm: real,
    maintenanceCount: nat)

  // ---------------------------------------------------------------------------
  // Odometer
  // ---------------------------------------------------------------------------

  function NegatedOdometer(r: Refueling): real { -RefuelingKm(r) }

  /** `.sort((a, b) => a.vehicle_km - b.vehicle_km)`: ascending odometer, stable. */
  function ByOdometer(rs: seq<Refueling>): (r: seq<Refueling>)
    ensures |r| == |rs|
  {
    SortDesc(rs, NegatedOdometer)
  }

  lemma {:induction false} ByOdometerAscending(rs: seq<Refueling>)
    ensures var r := ByOdometer(rs);
      forall i, j :: 0 <= i < j < |r| ==> RefuelingKm(r[i]) <= RefuelingKm(r[j])
  {
    SortDescOrdered(rs, NegatedOdometer);
    var r := ByOdometer(rs);
    assert forall i, j :: 0 <= i < j < |r| ==> NegatedOdometer(r[i]) >= NegatedOdometer(r[j]);
  }

  /** The last reading minus the first one when there are at least two, else 0. */
  function Span(sorted: seq<Refueling>): real {
    if |sorted| > 1 then RefuelingKm(sorted[|sorted| - 1]) - RefuelingKm(sorted[0]) else 0.0
  }

  /** The lowest odometer reading. */
  function MinReading(rs: seq<Refueling>): (m: real)
    requires |rs| > 0
    ensures forall x :: x in rs ==> m <= RefuelingKm(x)
    ensures exists x :: x in rs && RefuelingKm(x) == m
  {
    if |rs| == 1 then RefuelingKm(rs[0])
    else
      var m := MinReading(rs[..|rs| - 1]);
      var last := rs[|rs| - 1];
      assert rs == rs[..|rs| - 1] + [last];
      if RefuelingKm(last) < m then RefuelingKm(last) else m
  }

  /** The highest odometer reading. */
  function MaxReading(rs: seq<Refueling>): (m: real)
    requires |rs| > 0
    ensures forall x :: x in rs ==> RefuelingKm(x) <= m
    ensures exists x :: x in rs && RefuelingKm(x) == m
  {
    if |rs| == 1 then RefuelingKm(rs[0])
    else
      var m := MaxReading(rs[..|rs| - 1]);
      var last := rs[|rs| - 1];
      assert rs == rs[..|rs| - 1] + [last];
      if RefuelingKm(last) > m then RefuelingKm(last) else m
  }

  /**
   * The distance is the spread of the readings, whatever order the refuelings
   * were fetched in, and it is never negative.
   */
  lemma {:induction false} SpanIsReadingRange(rs: seq<Refueling>)
    ensures |rs| > 1 ==> Span(ByOdometer(rs)) == MaxReading(rs) - MinReading(rs)
    ensures |rs| <= 1 ==> Span(ByOdometer(rs)) == 0.0
    ensures Span(ByOdometer(rs)) >= 0.0
  {
    var sorted := ByOdometer(rs);
    if |rs| > 1 {
      SpanOfSeveral(rs, sorted);
    }
  }

  lemma {:induction false} SpanOfSeveral(rs: seq<Refueling>, sorted: seq<Refueling>)
    requires |rs| > 1 && sorted == ByOdometer(rs) && |sorted| == |rs|
    ensures Span(sorted) == MaxReading(rs) - MinReading(rs) >= 0.0
  {
    SortDescPermutes(rs, NegatedOdometer);
    SameMembers(rs, sorted);
    ByOdometerAscending(rs);
    AscendingEnds(sorted);
    ReadingsAtEnds(rs, sorted);
  }

  lemma {:induction false} ReadingsAtEnds(rs: seq<Refueling>, sorted: seq<Refueling>)
    requires |rs| > 0 && |sorted| > 0
    requires forall x :: x in rs <==> x in sorted
    requires forall x :: x in sorted ==> RefuelingKm(sorted[0]) <= RefuelingKm(x) <= RefuelingKm(sorted[|sorted| - 1])
    ensures MinReading(rs) == RefuelingKm(sorted[0])
    ensures MaxReading(rs) == RefuelingKm(sorted[|sorted| - 1])
  {
    var lo, hi := MinReading(rs), MaxReading(rs);
    var a :| a in rs && RefuelingKm(a) == lo;
    var b :| b in rs && RefuelingKm(b) == hi;
    assert sorted[0] in sorted && sorted[|sorted| - 1] in sorted;
  }

  lemma {:induction false} SameMembers<T>(a: seq<T>, b: seq<T>)
    requires multiset(a) == multiset(b)
    ensures forall x :: x in a <==> x in b
  {
    forall x ensures x in a <==> x in b {
      assert x in a <==> x in multiset(a);
      assert x in b <==> x in multiset(b);
    }
  }

  /** In an ascending list the first reading is the lowest and the last the highest. */
  lemma {:induction false} AscendingEnds(sorted: seq<Refueling>)
    requires |sorted| > 0
    requires forall i, j :: 0 <= i < j < |sorted| ==> RefuelingKm(sorted[i]) <= RefuelingKm(sorted[j])
    ensures forall x :: x in sorted ==> RefuelingKm(sorted[0]) <= RefuelingKm(x) <= RefuelingKm(sorted[|sorted| - 1])
  {
    forall x | x in sorted ensures RefuelingKm(sorted[0]) <= RefuelingKm(x) <= RefuelingKm(sorted[|sorted| - 1]) {
      var i :| 0 <= i < |sorted| && sorted[i] == x;
      if 0 < i {
        assert RefuelingKm(sorted[0]) <= RefuelingKm(sorted[i]);
      }
      if i < |sorted| - 1 {
        assert RefuelingKm(sorted[i]) <= RefuelingKm(sorted[|sorted| - 1]);
      }
    }
  }

  /** Two fetches of the same refuelings in different orders give the same distance. */
  lemma {:induction false} SpanIgnoresOrder(a: seq<Refueling>, b: seq<Refueling>)
    requires multiset(a) == multiset(b)
    ensures Span(ByOdometer(a)) == Span(ByOdometer(b))
  {
    SpanIsReadingRange(a);
    SpanIsReadingRange(b);
    assert |a| == |b| by {
      assert |multiset(a)| == |multiset(b)|;
    }
    if |a| > 1 {
      forall x ensures x in a <==> x in b {
        assert x in a <==> x in multiset(a);
      }
      assert MaxReading(a) == MaxReading(b);
      assert MinReading(a) == MinReading(b);
    }
  }

  // ---------------------------------------------------------------------------
  // One vehicle
  // ---------------------------------------------------------------------------

  /** `km > 0 && liters > 0 ? km / liters : 0`. */
  function FuelEconomy(km: real, liters: real): (e: real)
    ensures e > 0.0 <==> km > 0.0 && liters > 0.0
    ensures !(km > 0.0 && liters > 0.0) ==> e == 0.0
  {
    if km > 0.0 && liters > 0.0 then km / liters else 0.0
  }

  /** A positive economy is the distance covered per litre. */
  lemma {:induction false} FuelEconomyIsRatio(km: real, liters: real)
    ensures FuelEconomy(km, liters) > 0.0 ==> FuelEconomy(km, liters) * liters == km
  {
  }

  function VehicleRevenues(f: Snapshot, v: Vehicle): seq<Revenue> {
    Keyed(f.revenues, RevenueVehicle, Some(v.id))
  }

  function VehicleRefuelings(f: Snapshot, v: Vehicle): seq<Refueling> {
    Keyed(f.refuelings, RefuelingVehicle, v.id)
  }

  function VehicleMaintenances(f: Snapshot, v: Vehicle): seq<Maintenance> {
    Keyed(f.maintenances, MaintenanceVehicle, v.id)
  }

  /** The entry pushed for a vehicle, from the figures computed over its rows. */
  function Entry(v: Vehicle, km: real, liters: real, fuelCost: real, maintenanceCost: real, revenue: real, maintenances: nat): VehicleStats {
    var cost := fuelCost + maintenanceCost;
    VehicleStats(
      v.plate, v.model, km, FuelEconomy(km, liters),
      cost, revenue, revenue - cost,
      Ratio(cost, km), Ratio(revenue, km),
      maintenances)
  }

  /** The analysis entry of vehicle `v` over the fetched rows `f`. */
  function VehicleStatsOf(f: Snapshot, v: Vehicle): (s: VehicleStats)
    ensures s.plate == v.plate && s.model == v.model
    ensures s.balance + s.totalCost == s.totalRevenue
    ensures s.maintenanceCount == |VehicleMaintenances(f, v)|
    ensures s.kmDriven <= 0.0 ==> s.avgKmL == 0.0 && s.costPerKm == 0.0 && s.revenuePerKm == 0.0
  {
    var refs := ByOdometer(VehicleRefuelings(f, v));
    Entry(v, Span(refs), SumBy(refs, RefuelingLiters),
      SumBy(refs, RefuelingCost), SumBy(VehicleMaintenances(f, v), MaintenanceCost),
      SumBy(VehicleRevenues(f, v), RevenueAmount), |VehicleMaintenances(f, v)|)
  }

  /**
   * The distance of an entry is the spread of its vehicle's odometer readings,
   * whatever order they were fetched in, and 0 with fewer than two refuelings.
   */
  lemma {:induction false} VehicleDistance(f: Snapshot, v: Vehicle)
    ensures var refs := VehicleRefuelings(f, v);
      && VehicleStatsOf(f, v).kmDriven == (if |refs| > 1 then MaxReading(refs) - MinReading(refs) else 0.0)
      && VehicleStatsOf(f, v).kmDriven >= 0.0
  {
    SpanIsReadingRange(VehicleRefuelings(f, v));
  }

  /**
   * The cost of an entry is its vehicle's fuel plus maintenance cost (the sort
   * by odometer does not change the fuel total), its revenue is the vehicle's
   * revenue, and the balance is revenue minus cost.
   */
  lemma {:induction false} VehicleTotals(f: Snapshot, v: Vehicle)
    ensures var s := VehicleStatsOf(f, v);
      && s.plate == v.plate && s.model == v.model
      && s.totalCost == SumBy(VehicleRefuelings(f, v), RefuelingCost) + SumBy(VehicleMaintenances(f, v), MaintenanceCost)
      && s.totalRevenue == SumBy(VehicleRevenues(f, v), RevenueAmount)
      && s.balance + s.totalCost == s.totalRevenue
      && s.maintenanceCount == |VehicleMaintenances(f, v)|
  {
    OdometerOrderKeepsTotals(VehicleRefuelings(f, v));
  }

  /**
   * The fuel economy is distance over litres when both are positive and 0
   * otherwise; the per-km figures are cost and revenue over distance, or 0
   * when no distance was driven.
   */
  lemma {:induction false} VehicleRates(f: Snapshot, v: Vehicle)
    ensures var s := VehicleStatsOf(f, v);
      var liters := SumBy(VehicleRefuelings(f, v), RefuelingLiters);
      && (s.avgKmL > 0.0 <==> s.kmDriven > 0.0 && liters > 0.0)
      && (!(s.kmDriven > 0.0 && liters > 0.0) ==> s.avgKmL == 0.0)
      && (s.avgKmL > 0.0 ==> s.avgKmL * liters == s.kmDriven)
      && (s.kmDriven > 0.0 ==> s.costPerKm * s.kmDriven == s.totalCost && s.revenuePerKm * s.kmDriven == s.totalRevenue)
      && (s.kmDriven <= 0.0 ==> s.costPerKm == 0.0 && s.revenuePerKm == 0.0)
  {
    var refs := VehicleRefuelings(f, v);
    OdometerOrderKeepsTotals(refs);
    EntryRates(v, Span(ByOdometer(refs)), SumBy(refs, RefuelingLiters), SumBy(refs, RefuelingCost),
      SumBy(VehicleMaintenances(f, v), MaintenanceCost), SumBy(VehicleRevenues(f, v), RevenueAmount),
      |VehicleMaintenances(f, v)|);
  }

  lemma {:induction false} OdometerOrderKeepsTotals(refs: seq<Refueling>)
    ensures SumBy(ByOdometer(refs), RefuelingLiters) == SumBy(refs, RefuelingLiters)
    ensures SumBy(ByOdometer(refs), RefuelingCost) == SumBy(refs, RefuelingCost)
  {
    SortDescPermutes(refs, NegatedOdometer);
    SumByPermutation(ByOdometer(refs), refs, RefuelingLiters);
    SumByPermutation(ByOdometer(refs), refs, RefuelingCost);
  }

  lemma {:induction false} EntryRates(v: Vehicle, km: real, liters: real, fuelCost: real, maintenanceCost: real, revenue: real, maintenances: nat)
    ensures var s := Entry(v, km, liters, fuelCost, maintenanceCost, revenue, maintenances);
      && (s.avgKmL > 0.0 <==> km > 0.0 && liters > 0.0)
      && (!(km > 0.0 && liters > 0.0) ==> s.avgKmL == 0.0)
      && (s.avgKmL > 0.0 ==> s.avgKmL * liters == km)
      && (km > 0.0 ==> s.costPerKm * km == s.totalCost && s.revenuePerKm * km == revenue)
      && (km <= 0.0 ==> s.costPerKm == 0.0 && s.revenuePerKm == 0.0)
  {
    FuelEconomyIsRatio(km, liters);
    RatioIsQuotient(fuelCost + maintenanceCost, km);
    RatioIsQuotient(revenue, km);
  }

  /** Only the rows of vehicle `v` go into its entry. */
  lemma {:induction false} VehicleRowsAreItsOwn(f: Snapshot, v: Vehicle)
    ensures forall r :: r in VehicleRevenues(f, v) <==> r in f.revenues && r.vehicleId == Some(v.id)
    ensures forall r :: r in VehicleRefuelings(f, v) <==> r in f.refuelings && r.vehicleId == v.id
    ensures forall m :: m in VehicleMaintenances(f, v) <==> m in f.maintenances && m.vehicleId == v.id
  {
    KeyedMembers(f.revenues, RevenueVehicle, Some(v.id));
    KeyedMembers(f.refuelings, RefuelingVehicle, v.id);
    KeyedMembers(f.maintenances, MaintenanceVehicle, v.id);
  }

  // ---------------------------------------------------------------------------
  // The fleet
  // ---------------------------------------------------------------------------

  /** `vTotalCost > 0 || vTotalRevenue > 0`. */
  predicate Included(s: VehicleStats) {
    s.totalCost > 0.0 || s.totalRevenue > 0.0
  }

  function StatsKm(s: VehicleStats): real { s.kmDriven }

  /** The entries of the vehicles with cost or revenue in the period, in roster order. */
  function VehicleAnalysis(f: Snapshot, vehicles: seq<Vehicle>): (r: seq<VehicleStats>)
    ensures |r| <= |vehicles|
  {
    if |vehicles| == 0 then []
    else
      var init := VehicleAnalysis(f, vehicles[..|vehicles| - 1]);
      var s := VehicleStatsOf(f, vehicles[|vehicles| - 1]);
      if Included(s) then init + [s] else init
  }

  /**
   * The loop over the roster: an entry is pushed for every vehicle with cost or
   * revenue, and only those vehicles' distances are added to the fleet total.
   */
  method AnalyzeVehicles(f: Snapshot) returns (vehicleAnalysis: seq<VehicleStats>, fleetTotalKmDriven: real)
    ensures vehicleAnalysis == VehicleAnalysis(f, f.vehicles)
    ensures fleetTotalKmDriven == SumBy(vehicleAnalysis, StatsKm)
  {
    vehicleAnalysis := [];
    fleetTotalKmDriven := 0.0;
    for i := 0 to |f.vehicles|
      invariant vehicleAnalysis == VehicleAnalysis(f, f.vehicles[..i])
      invariant fleetTotalKmDriven == SumBy(vehicleAnalysis, StatsKm)
    {
      var vehicle := f.vehicles[i];
      VehicleAnalysisStep(f, f.vehicles, i);
      var entry := VehicleStatsOf(f, vehicle);
      if Included(entry) {
        SumBySnoc(vehicleAnalysis, entry, StatsKm);
        fleetTotalKmDriven := fleetTotalKmDriven + entry.kmDriven;
        vehicleAnalysis := vehicleAnalysis + [entry];
      }
    }
    assert f.vehicles[..|f.vehicles|] == f.vehicles;
  }

  lemma {:induction false} VehicleAnalysisStep(f: Snapshot, vehicles: seq<Vehicle>, n: nat)
    requires n < |vehicles|
    ensures VehicleAnalysis(f, vehicles[..n + 1]) ==
      if Included(VehicleStatsOf(f, vehicles[n])) then VehicleAnalysis(f, vehicles[..n]) + [VehicleStatsOf(f, vehicles[n])]
      else VehicleAnalysis(f, vehicles[..n])
  {
    assert vehicles[..n + 1][..n] == vehicles[..n];
  }

  /** A vehicle's entry is listed exactly when it had cost or revenue in the period. */
  lemma {:induction false} VehicleAnalysisMembers(f: Snapshot, vehicles: seq<Vehicle>)
    ensures forall s :: s in VehicleAnalysis(f, vehicles) <==>
      Included(s) && exists v :: v in vehicles && s == VehicleStatsOf(f, v)
  {
    if |vehicles| > 0 {
      var n := |vehicles| - 1;
      var init, v := vehicles[..n], vehicles[n];
      VehicleAnalysisMembers(f, init);
      assert vehicles[..n + 1] == vehicles;
      VehicleAnalysisStep(f, vehicles, n);
      forall x | x in VehicleAnalysis(f, vehicles)
        ensures Included(x) && exists w :: w in vehicles && x == VehicleStatsOf(f, w)
      {
        if x in VehicleAnalysis(f, init) {
          var w :| w in init && x == VehicleStatsOf(f, w);
          ListedInWhole(vehicles, n, w);
        } else {
          assert v in vehicles;
        }
      }
      forall x, w | Included(x) && w in vehicles && x == VehicleStatsOf(f, w)
        ensures x in VehicleAnalysis(f, vehicles)
      {
        if w != v {
          InitOrLast(vehicles, w);
          assert x in VehicleAnalysis(f, init);
        }
      }
    }
  }

  /** No listed vehicle drove a negative distance, so neither did the fleet. */
  lemma {:induction false} FleetKmNonNegative(f: Snapshot, vehicles: seq<Vehicle>)
    ensures SumBy(VehicleAnalysis(f, vehicles), StatsKm) >= 0.0
  {
    VehicleAnalysisMembers(f, vehicles);
    forall s | s in VehicleAnalysis(f, vehicles) ensures StatsKm(s) >= 0.0 {
      var v :| v in vehicles && s == VehicleStatsOf(f, v);
      VehicleDistance(f, v);
    }
    SumByNonNegative(VehicleAnalysis(f, vehicles), StatsKm);
  }

  // ---------------------------------------------------------------------------
  // Ranking keys
  // ---------------------------------------------------------------------------

  function CostKey(s: VehicleStats): real { s.totalCost }
  function RevenueKey(s: VehicleStats): real { s.totalRevenue }
  function BalanceKey(s: VehicleStats): real { s.balance }
  function EconomyKey(s: VehicleStats): real { s.avgKmL }
  function HasEconomy(s: VehicleStats): bool { s.avgKmL > 0.0 }

  /** `.filter(v => v.avgKmL > 0)`. */
  function WithEconomy(analysis: seq<VehicleStats>): (r: seq<VehicleStats>)
    ensures forall s :: s in r <==> s in analysis && s.avgKmL > 0.0
  {
    KeyedMembers(analysis, HasEconomy, true);
    Keyed(analysis, HasEconomy, true)
  }
}

/**
 * One row of the traffic_analytics table as the dashboard's query returns it,
 * and the vehicle-type totals the pie chart is drawn from.
 */
module Traffic {

  /** Columns in the query's order: id, local timestamp, the four counts, total, rounded speed, congestion, rounded occupancy and density. */
  datatype Row = Row(
    id: int,
    timestamp: string,
    cars: int,
    trucks: int,
    buses: int,
    motorcycles: int,
    total: int,
    avgSpeed: real,
    congestion: string,
    laneOcc: real,
    density: real)

  /** The sums of the Cars, Trucks, Buses and Motorcycles columns. */
  datatype VehicleTotals = VehicleTotals(cars: int, trucks: int, buses: int, motorcycles: int)

  function Plus(a: VehicleTotals, b: VehicleTotals): VehicleTotals {
    VehicleTotals(a.cars + b.cars, a.trucks + b.trucks, a.buses + b.buses, a.motorcycles + b.motorcycles)
  }

  function CountsOf(r: Row): VehicleTotals {
    VehicleTotals(r.cars, r.trucks, r.buses, r.motorcycles)
  }

  /** Column-wise sum of the four count columns over a snapshot. */
  function ColumnSums(rows: seq<Row>): VehicleTotals
    decreases |rows|
  {
    if rows == [] then VehicleTotals(0, 0, 0, 0) else Plus(CountsOf(rows[0]), ColumnSums(rows[1..]))
  }

  /** Sum of the Total column over a snapshot. */
  function TotalColumnSum(rows: seq<Row>): int
    decreases |rows|
  {
    if rows == [] then 0 else rows[0].total + TotalColumnSum(rows[1..])
  }

  function Grand(t: VehicleTotals): int {
    t.cars + t.trucks + t.buses + t.motorcycles
  }

  predicate CountsNonNegative(r: Row) {
    r.cars >= 0 && r.trucks >= 0 && r.buses >= 0 && r.motorcycles >= 0
  }

  /** A row whose Total column is the sum of its four counts (expected by the schema, not enforced). */
  predicate TotalConsistent(r: Row) {
    r.total == r.cars + r.trucks + r.buses + r.motorcycles
  }

  /** Non-negative counts give non-negative pie values. */
  lemma {:induction false} ColumnSumsNonNegative(rows: seq<Row>)
    requires forall i :: 0 <= i < |rows| ==> CountsNonNegative(rows[i])
    ensures ColumnSums(rows).cars >= 0 && ColumnSums(rows).trucks >= 0
    ensures ColumnSums(rows).buses >= 0 && ColumnSums(rows).motorcycles >= 0
    decreases |rows|
  {
    if rows != [] {
      ColumnSumsNonNegative(rows[1..]);
    }
  }

  /** Summing a concatenation sums the parts: the totals do not depend on how the snapshot is split. */
  lemma {:induction false} ColumnSumsAppend(a: seq<Row>, b: seq<Row>)
    ensures ColumnSums(a + b) == Plus(ColumnSums(a), ColumnSums(b))
    decreases |a|
  {
    if a == [] {
      assert a + b == b;
    } else {
      assert (a + b)[1..] == a[1..] + b;
      ColumnSumsAppend(a[1..], b);
    }
  }

  /** When every row's Total agrees with its counts, the pie's slices add up to the Total column's sum. */
  lemma {:induction false} PieMatchesTotalColumn(rows: seq<Row>)
    requires forall i :: 0 <= i < |rows| ==> TotalConsistent(rows[i])
    ensures Grand(ColumnSums(rows)) == TotalColumnSum(rows)
    decreases |rows|
  {
    if rows != [] {
      PieMatchesTotalColumn(rows[1..]);
    }
  }

  /** matplotlib's pie refuses a negative wedge size: some column sum is below zero. */
  predicate HasNegative(t: VehicleTotals) {
    t.cars < 0 || t.trucks < 0 || t.buses < 0 || t.motorcycles < 0
  }

  /** A snapshot whose counts are all non-negative never makes the pie refuse its wedges. */
  lemma {:induction false} NonNegativeCountsDrawPie(rows: seq<Row>)
    requires forall i :: 0 <= i < |rows| ==> CountsNonNegative(rows[i])
    ensures !HasNegative(ColumnSums(rows))
  {
    ColumnSumsNonNegative(rows);
  }
}

/**
 * The small viewer over the vehicle_counts table: a fetch that retries a
 * bounded number of times when the database is busy, and a table that is
 * replaced by whatever the fetch returns.
 *
 * The connection attempts are an input: outcomes[k] is what attempt k
 * (counting from 0) meets. The one-second sleep between attempts and the
 * printed messages are not modelled, except that a ghost counter records
 * each sleep.
 */
module CountsViewer {
  import opened Wrappers

  /** A row of vehicle_counts as the viewer's columns show it. */
  datatype CountRecord = CountRecord(id: int, timestamp: string, car: int, truck: int, bus: int, motorcycle: int)

  /** What one connection attempt meets. */
  datatype ConnOutcome =
    | Success(records: seq<CountRecord>)  // the table exists and SELECT * returned these rows
    | NoTable                            // sqlite_master has no table named vehicle_counts
    | OperationalErr(message: string)    // sqlite3.OperationalError, e.g. the database is locked
    | OtherErr(message: string)          // any other sqlite3.Error

  const Retries: nat := 5

  /** The list an attempt returns when it is the last one made. */
  function Returned(o: ConnOutcome): seq<CountRecord> {
    if o.Success? then o.records else []
  }

  /** Errors after which another attempt is made (unless it was the last one). */
  predicate Retryable(o: ConnOutcome) {
    o.OperationalErr?
  }

  /** The index of the attempt at which fetch_vehicle_data returns, searching from attempt k. */
  function DecisiveFrom(outcomes: seq<ConnOutcome>, k: nat): (d: nat)
    requires |outcomes| == Retries && k < Retries
    ensures k <= d < Retries
    ensures forall j :: k <= j < d ==> Retryable(outcomes[j])
    ensures d < Retries - 1 ==> !Retryable(outcomes[d])
    decreases Retries - k
  {
    if !Retryable(outcomes[k]) || k == Retries - 1 then k else DecisiveFrom(outcomes, k + 1)
  }

  /** The index of the attempt at which fetch_vehicle_data returns. */
  function Decisive(outcomes: seq<ConnOutcome>): nat
    requires |outcomes| == Retries
  {
    DecisiveFrom(outcomes, 0)
  }

  /**
   * fetch_vehicle_data. The result None stands for falling off the end of
   * the loop (Python's implicit None); the contract shows it never happens.
   */
  method FetchVehicleData(outcomes: seq<ConnOutcome>) returns (result: Option<seq<CountRecord>>, ghost attempts: nat, ghost sleeps: nat)
    requires |outcomes| == Retries
    ensures result.Some?
    ensures 1 <= attempts <= Retries
    ensures forall k :: 0 <= k < attempts - 1 ==> Retryable(outcomes[k])
    ensures attempts < Retries ==> !Retryable(outcomes[attempts - 1])
    ensures attempts == Decisive(outcomes) + 1
    ensures result == Some(Returned(outcomes[attempts - 1]))
    ensures sleeps == attempts - 1
  {
    attempts, sleeps := 0, 0;
    var attempt := 0;
    while attempt < Retries
      invariant attempt < Retries
      invariant attempts == attempt && sleeps == attempt
      invariant forall k :: 0 <= k < attempt ==> Retryable(outcomes[k])
      invariant Decisive(outcomes) == DecisiveFrom(outcomes, attempt)
    {
      attempts := attempt + 1;
      match outcomes[attempt] {
        case NoTable =>
          return Some([]), attempts, sleeps;
        case Success(records) =>
          return Some(records), attempts, sleeps;
        case OperationalErr(_) =>
          if attempt == Retries - 1 {
            return Some([]), attempts, sleeps;
          }
          sleeps := sleeps + 1;
        case OtherErr(_) =>
          return Some([]), attempts, sleeps;
      }
      attempt := attempt + 1;
    }
    assert false;
    result := None;
  }

  /** The list fetch_vehicle_data returns for these attempt outcomes. */
  function Fetched(outcomes: seq<ConnOutcome>): (r: seq<CountRecord>)
    requires |outcomes| == Retries
    ensures r != [] ==> exists k :: 0 <= k < Retries && outcomes[k] == Success(r)
  {
    Returned(outcomes[Decisive(outcomes)])
  }

  /** A missing table or a non-operational error ends the fetch at the first attempt, with an empty list. */
  lemma FirstAttemptFinal(outcomes: seq<ConnOutcome>)
    requires |outcomes| == Retries
    requires outcomes[0].NoTable? || outcomes[0].OtherErr?
    ensures Decisive(outcomes) == 0 && Fetched(outcomes) == []
  {
  }

  /** The fetch returns records only when some attempt succeeded after nothing but busy errors, and then exactly those records. */
  lemma FetchedCharacterised(outcomes: seq<ConnOutcome>)
    requires |outcomes| == Retries
    ensures Fetched(outcomes) != [] ==>
        exists k :: 0 <= k < Retries && outcomes[k].Success? && Fetched(outcomes) == outcomes[k].records
          && forall j :: 0 <= j < k ==> Retryable(outcomes[j])
    ensures (forall k :: 0 <= k < Retries ==> Retryable(outcomes[k])) ==> Fetched(outcomes) == []
  {
  }

  /** The viewer window: its global Treeview, created empty. */
  class CountsWindow {
    var tree: seq<CountRecord>

    constructor ()
      ensures tree == []
    {
      tree := [];
    }

    /** display_data: fetch, delete every displayed row, then insert the fetched ones in order. */
    method DisplayData(outcomes: seq<ConnOutcome>)
      requires |outcomes| == Retries
      modifies this
      ensures tree == Fetched(outcomes)
    {
      var fetched, attempts, sleeps := FetchVehicleData(outcomes);
      var records := fetched.value;
      var children := tree;
      var i := 0;
      while i < |children|
        invariant 0 <= i <= |children|
        invariant tree == children[i..]
      {
        tree := tree[1..];
        i := i + 1;
      }
      i := 0;
      while i < |records|
        invariant 0 <= i <= |records|
        invariant tree == records[..i]
      {
        tree := tree + [records[i]];
        i := i + 1;
      }
    }
  }

  /** The script's start: the window is built, then display_data fills the table once. */
  method Launch(outcomes: seq<ConnOutcome>) returns (window: CountsWindow)
    requires |outcomes| == Retries
    ensures fresh(window)
    ensures window.tree == Fetched(outcomes)
  {
    window := new CountsWindow();
    window.DisplayData(outcomes);
  }
}

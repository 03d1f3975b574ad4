/**
 * The dashboard controller TrafficDataViewer: the refresh pipeline (status,
 * fetch, clear-then-insert of the table, chart update, final status), the
 * conversion of a connection error into an empty frame, and the auto-refresh
 * toggle with its pending Tk timer.
 *
 * The database read and the wall clock are inputs: a refresh is given the
 * FetchOutcome the read produced and the "%H:%M:%S" text of the moment.
 * Tk's `after` is modelled by a set of pending callback ids and a counter
 * that hands out fresh ids. An exception that escapes a method is its
 * `raised` result: the method stops where the exception was raised and Tk
 * reports it, leaving the state as it was at that point.
 */
module Dashboard {
  import opened Wrappers
  import opened Traffic
  import Decimal

  /** What fetch_data meets. */
  datatype FetchOutcome =
    | Frame(rows: seq<Row>)          // pd.read_sql returned these rows
    | ConnectError(message: string)  // sqlite3.connect raised an sqlite3.Error: caught, shown, empty frame
    | QueryError(message: string)    // the query failed inside pd.read_sql (no such table, database locked);
                                     // pandas raises its own DatabaseError, not an sqlite3.Error, so it escapes

  /** The foreground colour of the status label. */
  datatype Color = Blue | Red | Green | Orange

  type TimerId = nat

  const ReadyText := "Ready"
  const RefreshingText := "Refreshing data..."
  const NoDataText := "No data available"
  const StoppedText := "Auto-refresh stopped"
  const StartLabel := "Start Auto-Refresh (5s)"
  const StopLabel := "Stop Auto-Refresh"
  const UpdatedPrefix := "Last updated: "
  const CountSeparator := " | "
  const RecordsSuffix := " records shown"

  /** The status fetch_data shows for a caught error: a fixed prefix, then the error's own text. */
  function ErrorText(message: string): (r: string)
    ensures |r| == |"Database error: "| + |message|
    ensures r[..|"Database error: "|] == "Database error: " && r[|"Database error: "|..] == message
  {
    "Database error: " + message
  }

  /** The success status: the time of the refresh and the number of records shown. */
  function SuccessStatus(now: string, count: nat): (r: string)
    ensures |r| > |UpdatedPrefix| + |now| + |RecordsSuffix|
    ensures r[..|UpdatedPrefix|] == UpdatedPrefix && r[|UpdatedPrefix|..|UpdatedPrefix| + |now|] == now
    ensures r[|r| - |RecordsSuffix|..] == RecordsSuffix
  {
    UpdatedPrefix + now + CountSeparator + Decimal.Show(count) + RecordsSuffix
  }

  /** The record count a status line reports, read back from its end; None when it reports none. */
  function RecordsShown(status: string): Option<nat> {
    if |status| < |RecordsSuffix| || status[|status| - |RecordsSuffix|..] != RecordsSuffix then None
    else
      var body := status[..|status| - |RecordsSuffix|];
      var k := Decimal.TrailingDigits(body);
      if k == 0 then None
      else
        var digits := body[|body| - k..];
        assert Decimal.AllDigits(digits) by {
          Decimal.TrailingAreDigits(body);
        }
        Some(Decimal.Parse(digits))
  }

  /** The success status reports exactly the count it was built from, whatever the clock text. */
  lemma SuccessStatusReportsCount(now: string, count: nat)
    ensures RecordsShown(SuccessStatus(now, count)) == Some(count)
  {
    var digits := Decimal.Show(count);
    var p := UpdatedPrefix + now + CountSeparator;
    var s := SuccessStatus(now, count);
    assert s == (p + digits) + RecordsSuffix;
    assert s[..|s| - |RecordsSuffix|] == p + digits;
    assert s[|s| - |RecordsSuffix|..] == RecordsSuffix;
    Decimal.TrailingDigitsAfter(p, digits);
    assert (p + digits)[|p + digits| - |digits|..] == digits;
    Decimal.ParseShow(count);
  }

  /** The frame fetch_data hands back when it returns: the rows read, or an empty frame after a connection error. */
  function Snapshot(outcome: FetchOutcome): seq<Row> {
    match outcome
    case Frame(rows) => rows
    case ConnectError(_) => []
    case QueryError(_) => []  // fetch_data does not return
  }

  /** Whether refresh_data ends with an exception: from the query, or from the pie over a non-empty frame. */
  predicate Raises(outcome: FetchOutcome) {
    outcome.QueryError? || (Snapshot(outcome) != [] && HasNegative(ColumnSums(Snapshot(outcome))))
  }

  /** The status a refresh leaves: an exception leaves "Refreshing data..." on screen. */
  function FinalStatus(outcome: FetchOutcome, now: string): string {
    if Raises(outcome) then RefreshingText
    else if Snapshot(outcome) == [] then NoDataText
    else SuccessStatus(now, |Snapshot(outcome)|)
  }

  function FinalColor(outcome: FetchOutcome): Color {
    if Raises(outcome) then Blue else if Snapshot(outcome) == [] then Orange else Green
  }

  /** Every status text a refresh shows, in order. */
  function StatusTrail(outcome: FetchOutcome, now: string): seq<string> {
    [RefreshingText]
    + (if outcome.ConnectError? then [ErrorText(outcome.message)] else [])
    + (if Raises(outcome) then [] else [FinalStatus(outcome, now)])
  }

  /** The final status of a refresh reports a record count exactly when rows were shown without an exception, and then their number. */
  lemma RefreshReportsCount(outcome: FetchOutcome, now: string)
    ensures RecordsShown(FinalStatus(outcome, now))
         == if Snapshot(outcome) == [] || Raises(outcome) then None else Some(|Snapshot(outcome)|)
  {
    if Raises(outcome) {
      assert RefreshingText[|RefreshingText| - |RecordsSuffix|..] != RecordsSuffix;
    } else if Snapshot(outcome) != [] {
      SuccessStatusReportsCount(now, |Snapshot(outcome)|);
    } else {
      assert NoDataText[|NoDataText| - |RecordsSuffix|..] != RecordsSuffix;
    }
  }

  /** After a connection error the error text shown by fetch_data does not survive the refresh. */
  lemma DatabaseErrorOverwritten(message: string, now: string)
    ensures FinalStatus(ConnectError(message), now) != ErrorText(message)
  {
    assert ErrorText(message)[0] != NoDataText[0];
  }

  class TrafficDataViewer {
    /** The rows the Treeview displays, top to bottom. */
    var tree: seq<Row>
    var status: string
    var statusColor: Color
    var buttonLabel: string
    var autoRefreshActive: bool
    var autoRefreshId: Option<TimerId>
    /** The `after` callbacks that are armed and have neither fired nor been cancelled. */
    var pending: set<TimerId>
    /** The id the next `after` call hands out. */
    var nextTimer: TimerId
    /** What the vehicle-type pie axes hold; None when cleared or never drawn. */
    var pieChart: Option<VehicleTotals>
    /** Every pie drawn, in order: one entry per completed pie. */
    ghost var pieLog: seq<VehicleTotals>
    /** Every status text shown, in order. */
    ghost var statusLog: seq<string>
    /** How many times refresh_data has been entered. */
    ghost var refreshes: nat

    /**
     * At most one timer is pending, and only the stored one while auto-refresh
     * is on; none while it is off. Auto-refresh can be on with nothing pending:
     * an exception in a refresh skips the re-arm.
     */
    ghost predicate Valid()
      reads this
    {
      (forall t :: t in pending ==> t < nextTimer)
      && (autoRefreshActive ==> pending <= (if autoRefreshId.Some? then {autoRefreshId.value} else {}))
      && (!autoRefreshActive ==> pending == {})
    }

    /** The display state a refresh with this outcome at this time leaves. */
    twostate predicate Refreshed(outcome: FetchOutcome, now: string)
      reads this
    {
      var rows := Snapshot(outcome);
      status == FinalStatus(outcome, now)
      && statusColor == FinalColor(outcome)
      && statusLog == old(statusLog) + StatusTrail(outcome, now)
      && refreshes == old(refreshes) + 1
      // a query error escapes before the table is touched
      && (outcome.QueryError? ==>
            tree == old(tree) && pieChart == old(pieChart) && pieLog == old(pieLog))
      // otherwise the table becomes the frame, whatever it showed before
      && (!outcome.QueryError? ==> tree == rows)
      && (rows == [] ==> pieChart == old(pieChart) && pieLog == old(pieLog))
      && (rows != [] && !Raises(outcome) ==>
            pieChart == Some(ColumnSums(rows)) && pieLog == old(pieLog) + [ColumnSums(rows)])
      // the pie axes were cleared before the pie refused a negative wedge
      && (rows != [] && Raises(outcome) ==> pieChart == None && pieLog == old(pieLog))
    }

    /** setup_ui: the initial status, button label and auto-refresh state. */
    constructor ()
      ensures Valid()
      ensures !autoRefreshActive && autoRefreshId == None && pending == {} && nextTimer == 0
      ensures buttonLabel == StartLabel
      ensures tree == [] && pieChart == None && pieLog == []
      ensures status == ReadyText && statusColor == Blue && statusLog == [ReadyText]
      ensures refreshes == 0
    {
      tree := [];
      status := ReadyText;
      statusColor := Blue;
      statusLog := [ReadyText];
      buttonLabel := StartLabel;
      pieChart := None;
      pieLog := [];
      refreshes := 0;
      autoRefreshId := None;
      autoRefreshActive := false;
      pending := {};
      nextTimer := 0;
    }

    /** lbl_status.config: the status label's text and colour. */
    method SetStatus(text: string, color: Color)
      modifies this`status, this`statusColor, this`statusLog
      ensures status == text && statusColor == color
      ensures statusLog == old(statusLog) + [text]
    {
      status := text;
      statusColor := color;
      statusLog := statusLog + [text];
    }

    /**
     * fetch_data: a connection error is shown in red and turned into an empty
     * frame; a query error escapes with the status untouched.
     */
    method FetchData(outcome: FetchOutcome) returns (df: seq<Row>, raised: bool)
      modifies this`status, this`statusColor, this`statusLog
      ensures raised == outcome.QueryError?
      ensures !raised ==> df == Snapshot(outcome)
      ensures outcome.ConnectError? ==>
          status == ErrorText(outcome.message) && statusColor == Red
          && statusLog == old(statusLog) + [ErrorText(outcome.message)]
      ensures !outcome.ConnectError? ==> unchanged(this`status, this`statusColor, this`statusLog)
    {
      match outcome
      case Frame(rows) =>
        df, raised := rows, false;
      case ConnectError(message) =>
        SetStatus(ErrorText(message), Red);
        df, raised := [], false;
      case QueryError(_) =>
        df, raised := [], true;
    }

    /** Deletes every displayed row, one child at a time. */
    method ClearTable()
      modifies this`tree
      ensures tree == []
    {
      var children := tree;
      var i := 0;
      while i < |children|
        invariant 0 <= i <= |children|
        invariant tree == children[i..]
      {
        tree := tree[1..];
        i := i + 1;
      }
    }

    /** Appends the rows of df at the end of the table, in order. */
    method InsertRows(df: seq<Row>)
      modifies this`tree
      ensures tree == old(tree) + df
    {
      var i := 0;
      while i < |df|
        invariant 0 <= i <= |df|
        invariant tree == old(tree) + df[..i]
      {
        tree := tree + [df[i]];
        i := i + 1;
      }
      assert df[..i] == df;
    }

    /**
     * update_charts, as far as the pie goes: the pie axes are cleared and the
     * pie is drawn from the snapshot's column sums; a negative sum makes the
     * pie raise after the clear.
     */
    method UpdateCharts(df: seq<Row>) returns (raised: bool)
      modifies this`pieChart, this`pieLog
      ensures raised == HasNegative(ColumnSums(df))
      ensures raised ==> pieChart == None && pieLog == old(pieLog)
      ensures !raised ==> pieChart == Some(ColumnSums(df)) && pieLog == old(pieLog) + [ColumnSums(df)]
    {
      pieChart := None;
      var vehicleCounts := ColumnSums(df);
      if HasNegative(vehicleCounts) {
        return true;
      }
      pieChart := Some(vehicleCounts);
      pieLog := pieLog + [vehicleCounts];
      raised := false;
    }

    /**
     * The second half of refresh_data: delete every row; when the frame has
     * rows, insert them, update the charts and show the success status,
     * otherwise show "No data available".
     */
    method ShowFrame(df: seq<Row>, now: string) returns (raised: bool)
      modifies this`tree, this`status, this`statusColor, this`statusLog, this`pieChart, this`pieLog
      ensures tree == df
      ensures raised == (df != [] && HasNegative(ColumnSums(df)))
      ensures df == [] ==>
          status == NoDataText && statusColor == Orange && statusLog == old(statusLog) + [NoDataText]
          && pieChart == old(pieChart) && pieLog == old(pieLog)
      ensures df != [] && !raised ==>
          status == SuccessStatus(now, |df|) && statusColor == Green
          && statusLog == old(statusLog) + [SuccessStatus(now, |df|)]
          && pieChart == Some(ColumnSums(df)) && pieLog == old(pieLog) + [ColumnSums(df)]
      ensures raised ==>
          unchanged(this`status, this`statusColor, this`statusLog)
          && pieChart == None && pieLog == old(pieLog)
    {
      ClearTable();
      raised := false;
      if df != [] {
        InsertRows(df);
        raised := UpdateCharts(df);
        if raised {
          return;
        }
        SetStatus(SuccessStatus(now, |df|), Green);
      } else {
        SetStatus(NoDataText, Orange);
      }
    }

    /** refresh_data: the "Refresh Now" button, the start-up refresh and each auto-refresh tick. */
    method Refresh(outcome: FetchOutcome, now: string) returns (raised: bool)
      modifies this`tree, this`status, this`statusColor, this`statusLog, this`pieChart, this`pieLog, this`refreshes
      ensures raised == Raises(outcome)
      ensures Refreshed(outcome, now)
    {
      refreshes := refreshes + 1;
      SetStatus(RefreshingText, Blue);
      var df;
      df, raised := FetchData(outcome);
      if raised {
        return;
      }
      assert df == Snapshot(outcome);
      raised := ShowFrame(df, now);
    }

    /** root.after: arms a callback and returns its fresh id. */
    method After() returns (id: TimerId)
      requires forall t :: t in pending ==> t < nextTimer
      modifies this`pending, this`nextTimer
      ensures id == old(nextTimer) && id !in old(pending)
      ensures forall t :: t in old(pending) ==> t < id
      ensures pending == old(pending) + {id} && nextTimer == id + 1
    {
      id := nextTimer;
      nextTimer := nextTimer + 1;
      pending := pending + {id};
    }

    /** root.after_cancel: the callback will not fire. Cancelling an id that is not pending does nothing. */
    method AfterCancel(id: TimerId)
      modifies this`pending
      ensures pending == old(pending) - {id}
    {
      pending := pending - {id};
    }

    /**
     * run_auto_refresh: while auto-refresh is on, refresh and re-arm, unless
     * the refresh raised; otherwise nothing. Called only when no callback is
     * pending.
     */
    method RunAutoRefresh(outcome: FetchOutcome, now: string) returns (raised: bool)
      requires pending == {}
      modifies this
      ensures Valid()
      ensures raised == (old(autoRefreshActive) && Raises(outcome))
      ensures buttonLabel == old(buttonLabel) && autoRefreshActive == old(autoRefreshActive)
      ensures old(autoRefreshActive) ==> Refreshed(outcome, now)
      ensures old(autoRefreshActive) && !raised ==>
          autoRefreshId == Some(old(nextTimer)) && pending == {old(nextTimer)}
          && nextTimer == old(nextTimer) + 1
      ensures raised ==>
          autoRefreshId == old(autoRefreshId) && pending == {} && nextTimer == old(nextTimer)
      ensures !old(autoRefreshActive) ==> unchanged(this)
    {
      raised := false;
      if autoRefreshActive {
        raised := Refresh(outcome, now);
        if raised {
          return;
        }
        var id := After();
        autoRefreshId := Some(id);
      }
    }

    /** toggle_auto_refresh: the "Start/Stop Auto-Refresh" button. */
    method Toggle(outcome: FetchOutcome, now: string) returns (raised: bool)
      requires Valid()
      modifies this
      ensures Valid()
      ensures autoRefreshActive == !old(autoRefreshActive)
      ensures raised == (!old(autoRefreshActive) && Raises(outcome))
      ensures old(autoRefreshActive) ==>
          buttonLabel == StartLabel
          && status == StoppedText && statusColor == Blue
          && statusLog == old(statusLog) + [StoppedText]
          && pending == {}
          && autoRefreshId == old(autoRefreshId)
          && nextTimer == old(nextTimer)
          && tree == old(tree) && pieChart == old(pieChart) && pieLog == old(pieLog)
          && refreshes == old(refreshes)
      ensures !old(autoRefreshActive) ==>
          buttonLabel == StopLabel
          && Refreshed(outcome, now)
      ensures !old(autoRefreshActive) && !raised ==>
          autoRefreshId == Some(old(nextTimer)) && pending == {old(nextTimer)}
          && nextTimer == old(nextTimer) + 1
      ensures raised ==>
          autoRefreshId == old(autoRefreshId) && pending == {} && nextTimer == old(nextTimer)
    {
      raised := false;
      if autoRefreshActive {
        if autoRefreshId.Some? {
          AfterCancel(autoRefreshId.value);
        }
        autoRefreshActive := false;
        buttonLabel := StartLabel;
        SetStatus(StoppedText, Blue);
      } else {
        autoRefreshActive := true;
        buttonLabel := StopLabel;
        raised := RunAutoRefresh(outcome, now);
      }
    }

    /**
     * The Tk main loop firing a pending `after` callback: the callback is no
     * longer pending and run_auto_refresh runs. When the refresh raises,
     * auto-refresh stays on with nothing pending: it has stopped, though the
     * button still offers to stop it.
     */
    method TimerFires(id: TimerId, outcome: FetchOutcome, now: string) returns (raised: bool)
      requires Valid() && id in pending
      modifies this
      ensures Valid()
      ensures raised == Raises(outcome)
      ensures autoRefreshActive && buttonLabel == old(buttonLabel)
      ensures Refreshed(outcome, now)
      ensures !raised ==>
          autoRefreshId == Some(old(nextTimer)) && pending == {old(nextTimer)}
          && nextTimer == old(nextTimer) + 1
      ensures raised ==> autoRefreshId == old(autoRefreshId) && pending == {} && nextTimer == old(nextTimer)
    {
      pending := pending - {id};
      raised := RunAutoRefresh(outcome, now);
    }
  }

  /**
   * The program's start (data_display.py's main block and __init__): set-up,
   * then one refresh. When that refresh raises, the constructor call fails and
   * the main loop never starts.
   */
  method Launch(outcome: FetchOutcome, now: string) returns (viewer: TrafficDataViewer, raised: bool)
    ensures fresh(viewer) && viewer.Valid()
    ensures raised == Raises(outcome)
    ensures !viewer.autoRefreshActive && viewer.autoRefreshId == None && viewer.pending == {}
    ensures viewer.buttonLabel == StartLabel
    ensures viewer.status == FinalStatus(outcome, now) && viewer.statusColor == FinalColor(outcome)
    ensures viewer.statusLog == [ReadyText] + StatusTrail(outcome, now)
    ensures viewer.tree == (if outcome.QueryError? then [] else Snapshot(outcome))
    ensures viewer.pieChart ==
      (if Snapshot(outcome) != [] && !Raises(outcome) then Some(ColumnSums(Snapshot(outcome))) else None)
    ensures viewer.pieLog ==
      (if Snapshot(outcome) != [] && !Raises(outcome) then [ColumnSums(Snapshot(outcome))] else [])
    ensures viewer.nextTimer == 0
    ensures viewer.refreshes == 1
  {
    viewer := new TrafficDataViewer();
    raised := viewer.Refresh(outcome, now);
  }

  /**
   * Starting and then stopping auto-refresh before any tick: one refresh (the
   * immediate one) and no callback left pending, so no tick can refresh again.
   */
  method StartThenStop(viewer: TrafficDataViewer, outcome: FetchOutcome, now: string, later: FetchOutcome, laterNow: string)
    requires viewer.Valid() && !viewer.autoRefreshActive
    modifies viewer
    ensures viewer.Valid() && !viewer.autoRefreshActive && viewer.pending == {}
    ensures viewer.refreshes == old(viewer.refreshes) + 1
    ensures !outcome.QueryError? ==> viewer.tree == Snapshot(outcome)
    ensures viewer.status == StoppedText && viewer.buttonLabel == StartLabel
  {
    var raised := viewer.Toggle(outcome, now);
    raised := viewer.Toggle(later, laterNow);
  }
}

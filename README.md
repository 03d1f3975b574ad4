# Traffic analytics dashboard — Dafny model

This project models the control logic of a small traffic dashboard. The dashboard reads
periodic vehicle-count aggregates from an SQLite table and shows them as a table, a pie
of vehicle types and a trend chart, with an optional five-second auto-refresh.

The database, Tk widgets and clock are replaced by plain values:

- A database read is an input. The dashboard's `FetchOutcome` has three cases:
  - `Frame(rows)`: the rows `pd.read_sql` returned.
  - `ConnectError(message)`: an `sqlite3.Error` from `sqlite3.connect`. `fetch_data`
    catches it, shows "Database error: …" in red and returns an empty frame.
  - `QueryError(message)`: a failure while the query runs, such as a missing table
    or a lock wait that runs out. `pd.read_sql` re-raises it as pandas' own
    `DatabaseError`, which is not an `sqlite3.Error`, so it escapes `fetch_data`.
- The retrying viewer takes one `ConnOutcome` per connection attempt:
  `Success(records)`, `NoTable`, `OperationalErr` or `OtherErr`.
- The time shown in the success status is an input string.
- The Treeview is a `seq` of rows. The status label is a string and a colour. The
  toggle button label is a string.
- Tk's `after` and `after_cancel` are a set of pending callback ids plus a counter
  that hands out fresh ids. `TimerFires` is the main loop dispatching a pending
  callback.
- An exception that escapes a method is its `raised` result. The method stops where
  the exception was raised; what was already done stays done.
- Ghost logs record every status text shown, every pie drawn and the number of
  refreshes. The contracts use them to say how often things happen.

Modules:

- `Dashboard` (data_display.py): the `TrafficDataViewer` class.
  - The refresh pipeline: a "Refreshing data..." status, the fetch, deleting every
    row, then either inserting the frame's rows, redrawing the pie and showing
    "Last updated: … | N records shown", or showing "No data available".
  - A connection error still clears the table. It ends on "No data available", which
    overwrites the error text.
  - A query error escapes before the table is touched. The table and pie stay as
    they were, and the status stays "Refreshing data...".
  - A negative column sum makes matplotlib's pie raise after the rows are inserted
    and the pie axes cleared. The status again stays "Refreshing data...".
  - The auto-refresh toggle. `Valid()` is the scheduler invariant: while
    auto-refresh is on, at most the stored callback is pending; while off, none is.
  - An exception in a timed refresh skips the re-arm. Auto-refresh then stays on
    with nothing pending: it has stopped, while the button still reads
    "Stop Auto-Refresh".
  - If the start-up refresh raises, the constructor call fails and the main loop
    never starts.
- `CountsViewer` (tempCodeRunnerFile.py): `fetch_vehicle_data` and `display_data`.
  The fetch makes up to 5 attempts and retries only on `sqlite3.OperationalError`.
  `display_data` replaces the table with what the fetch returns.
- `Traffic`: the row of the dashboard's query and the column sums the pie is drawn from.
- `Decimal`: the decimal rendering of the record count in the status line, and reading
  it back.
- `Wrappers`: `Option`.

## Model

| member | source | states |
|---|---|---|
| `Decimal.Show` | data_display.py:156 | the record count is written in decimal: at least one character, all digits, no leading zero unless the count is 0 |
| `Decimal.ParseShow` | data_display.py:156 | reading the written count back gives the count |
| `Decimal.ShowInjective` | data_display.py:156 | different counts are written differently |
| `Traffic.ColumnSums` | data_display.py:165 | the per-column sums of Cars, Trucks, Buses and Motorcycles over the frame, taken row by row; its properties are the lemmas below |
| `Traffic.ColumnSumsNonNegative` | data_display.py:165 | if every row's four counts are ≥ 0, each pie value is ≥ 0 |
| `Traffic.NonNegativeCountsDrawPie` | data_display.py:165-166 | if every row's four counts are ≥ 0, no column sum is negative, so the pie does not refuse its wedges |
| `Traffic.ColumnSumsAppend` | data_display.py:165 | the column sums of two snapshots joined together are the sums of the two parts, added column by column |
| `Traffic.PieMatchesTotalColumn` | data_display.py:165-166 | if every row's Total equals the sum of its four counts, the pie slices add up to the sum of the Total column |
| `Dashboard.ErrorText` | data_display.py:133-134 | the status for a caught database error is "Database error: " followed by exactly the error's text |
| `Dashboard.SuccessStatus` | data_display.py:156 | the success line starts with "Last updated: " followed by the clock text, and ends with " records shown" |
| `Dashboard.SuccessStatusReportsCount` | data_display.py:156-157 | for any clock text, the count can be read back from the end of the success status, and it is the count the status was built from |
| `Dashboard.RefreshReportsCount` | data_display.py:149-159 | a refresh's final status reports a count exactly when the frame is non-empty and nothing raised, and then the count is the number of rows |
| `Dashboard.DatabaseErrorOverwritten` | data_display.py:132-135 | after a connection error, the "Database error: <text>" status does not survive the refresh |
| `Dashboard.TrafficDataViewer.constructor` | data_display.py:79-106 | set-up gives status "Ready" in blue, auto-refresh off, no timer id, nothing pending, label "Start Auto-Refresh (5s)", an empty table and no pie |
| `Dashboard.TrafficDataViewer.SetStatus` | data_display.py:133-134 | a status update (as also at lines 139, 157, 159 and 194) sets the label's text and colour and adds the text to the status log |
| `Dashboard.TrafficDataViewer.FetchData` | data_display.py:108-135 | a frame is returned as read; a connection error gives an empty frame and a red "Database error: <text>" status; a query error raises; the status changes only on a connection error |
| `Dashboard.TrafficDataViewer.ClearTable` | data_display.py:145-146 | deleting each child in turn leaves the table empty |
| `Dashboard.TrafficDataViewer.InsertRows` | data_display.py:150-151 | the table afterwards is the old table followed by the frame's rows, in order |
| `Dashboard.TrafficDataViewer.UpdateCharts` | data_display.py:161-169 | the pie axes are cleared. If a column sum is negative the pie raises and the axes stay empty. Otherwise the pie shows the column sums of Cars, Trucks, Buses and Motorcycles and one pie is logged |
| `Dashboard.TrafficDataViewer.ShowFrame` | data_display.py:144-159 | the table ends equal to the frame whatever it showed before. An empty frame gives an orange "No data available" and no chart. A non-empty frame draws one pie and a green status with its row count, unless the pie raises, which leaves the status untouched |
| `Dashboard.TrafficDataViewer.Refresh` | data_display.py:137-159 | raises exactly on a query error or a negative column sum. A query error leaves table and pie untouched after "Refreshing data...". Otherwise the table equals the frame, in order, whatever was shown before. The status trail and colours follow the outcome, and only display fields change |
| `Dashboard.TrafficDataViewer.After` | data_display.py:204 | arming a callback returns a fresh id, different from and larger than every pending id, and adds it to the pending set |
| `Dashboard.TrafficDataViewer.AfterCancel` | data_display.py:191 | the cancelled id is no longer pending; nothing else changes |
| `Dashboard.TrafficDataViewer.RunAutoRefresh` | data_display.py:200-204 | while on: one refresh, then, unless it raised, a fresh timer is armed and stored as the only pending one; if it raised, nothing is pending and the id is kept. While off: nothing changes |
| `Dashboard.TrafficDataViewer.Toggle` | data_display.py:187-198 | keeps `Valid()`. When off: the flag goes on, the label becomes "Stop Auto-Refresh" and exactly one refresh runs; unless it raises, one fresh timer is armed as the only pending one. When on: the flag goes off, the label becomes "Start Auto-Refresh (5s)" and the status a blue "Auto-refresh stopped". The stored timer, if any, is cancelled, so none is pending. Nothing is refreshed, and the stored id is kept though stale |
| `Dashboard.TrafficDataViewer.TimerFires` | data_display.py:204 | a pending callback fires only while on. It gives one refresh; unless that raises, it re-arms exactly one fresh timer. If it raises, auto-refresh stays on with nothing pending |
| `Dashboard.Launch` | data_display.py:15-21 | set-up then one refresh: the status, table, pie, pie log and status trail are those of that refresh after "Ready"; auto-refresh is off with no timer ever armed; raises exactly when that refresh raises |
| `Dashboard.StartThenStop` | data_display.py:187-204 | starting then stopping before any tick gives exactly one refresh, the immediate one, and leaves no callback pending, so no tick can refresh again |
| `CountsViewer.DecisiveFrom` | tempCodeRunnerFile.py:11-33 | the attempt at which the fetch returns is below the bound of 5 attempts; every attempt before it failed with an OperationalError; it is not an OperationalError unless it is the fifth |
| `CountsViewer.FetchVehicleData` | tempCodeRunnerFile.py:9-33 | always returns a list, never the implicit `None` after the loop. Makes 1 to 5 attempts, all but the last an OperationalError, stopping before the fifth only on an outcome that is not retried. Sleeps once per retry. Returns the succeeding attempt's records, `[]` otherwise |
| `CountsViewer.Fetched` | tempCodeRunnerFile.py:11-33 | the list `fetch_vehicle_data` returns: the records of the attempt it returns at, or `[]`; a non-empty list is some attempt's successful result |
| `CountsViewer.FirstAttemptFinal` | tempCodeRunnerFile.py:16-20 | a missing table or another sqlite3.Error on the first attempt ends the fetch there, with an empty list |
| `CountsViewer.FetchedCharacterised` | tempCodeRunnerFile.py:21-30 | the fetch returns a non-empty list only if some attempt succeeded after busy errors only, and then it is exactly that attempt's records; five OperationalErrors give an empty list |
| `CountsViewer.CountsWindow.constructor` | tempCodeRunnerFile.py:50-57 | the Treeview starts empty; the start-up `display_data()` call is `CountsViewer.Launch` |
| `CountsViewer.CountsWindow.DisplayData` | tempCodeRunnerFile.py:36-43 | the table afterwards equals the records the fetch returns, in order, whatever was shown before |
| `CountsViewer.Launch` | tempCodeRunnerFile.py:46-62 | after start-up the table holds exactly the records the first fetch returns |

## Left out

- The SQL query itself is done by SQLite: column selection, `datetime(…,'localtime')`,
  `ROUND`, `ORDER BY timestamp DESC` and `LIMIT 100`. The frame is taken as given: any
  length, any order.
- The trend chart is not modelled. It parses timestamps, re-indexes the frame and
  draws Total and Avg Speed on twin axes (data_display.py:171-185). That is
  pandas/matplotlib behaviour on dates and floats.
- Pie drawing and its percentage labels (`autopct`) are not modelled, nor what
  matplotlib does when all counts sum to zero. Only the column sums the pie is given
  are modelled, and the refusal of a negative sum.
- The trend chart is assumed to draw without raising. The model does not capture
  pandas or matplotlib exceptions there, for instance a frame with no numeric
  Avg Speed values.
- A refused pie leaves the earlier image on the canvas until the next draw. The model
  records the cleared axes (`pieChart == None`), not the canvas image.
- Exceptions other than database errors and the pie's refusal are not modelled. The
  `conn.close()` skipped when the query raises is not modelled either.
- `root.update()` inside `refresh_data` (data_display.py:140) is not modelled. It can
  dispatch pending Tk events in the middle of a refresh. The model treats each refresh
  as atomic.
- The 5000 ms delay, the real firing of timers, and `time.sleep(1)` are not modelled.
  Timers are abstract ids. A sleep is only counted.
- `print` messages in tempCodeRunnerFile.py are not modelled.
- The clock text `datetime.now().strftime('%H:%M:%S')` is an input string.
- Status colours are modelled as four named values. Fonts, layout, column widths and
  scrollbars are not modelled.
- database_setup.py is not part of this model. It only creates the table.
- `Toggle` takes a fetch outcome and a clock text even when it does not refresh; the
  value is then unused.
- `CountsViewer.FetchVehicleData` requires exactly one outcome per possible attempt
  (5 outcomes). Outcomes after the attempt that returns are never looked at.
- `Dashboard.TrafficDataViewer.RunAutoRefresh` requires that no callback is pending.
  This holds at its two call sites in the code: the toggle, and the callback that has
  just fired.

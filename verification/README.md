# dbstats in Dafny

A model of the core of `dbstats`, an instrumentation layer for Go's
`database/sql/driver`. The layer wraps a backend driver. Every lifecycle
event of a database interaction is reported to the registered hooks:

- connection opened and closed;
- statement prepared and closed;
- transaction began, committed and rolled back;
- query, exec and row iterated.

The caller gets the backend's errors and every pass-through value unchanged.
Connections, statements, transactions and cursors come back wrapped in a proxy
when the call that returns them succeeds. A proxy offers only the optional
interfaces the layer knows (Queryer, Execer, ColumnConverter), and only when
the wrapped object offers them.

The project has four modules:

- `Events` (`events.dfy`): the event contract of the `Hook` interface. A backend
  error is `Option<Error>`, where `None` is Go's nil. `Error.EOF` is the
  `io.EOF` end-of-data sentinel.
- `Driver` (`driver.go`, in `driver.dfy`):
  - `StatsDriver`, the dispatch root. It is a class holding the open function,
    the hooks in registration order (`hooks`) and every callback made so far
    (`delivered`). It also keeps a ghost `emitted` log of events. `Broadcast`
    is the loop that all ten fan-out methods run.
  - The proxies, as immutable datatypes that hold a reference to the driver.
    Each proxy method takes the wrapped backend call's answer as its `reply`
    parameter. It states which event it emitted (`Emitted`: exactly that event,
    delivered once to each hook in order) and what it returned.
  - Capability selection at open time (`SelectShape`). The four connection
    proxies are the four values of `ConnShape`. The column-converter variant
    of a statement is the `converter` flag.
- `Counter` (`counterhook.go`, in `counter.dfy`):
  - The reference observer as a class with the struct's eighteen `int` fields,
    one method per callback and one function per accessor.
  - A value-level specification beside it. `Record` is one callback's update,
    and `Replay` folds `Record` over a history. `Tally` is an independent
    definition of each counter as a count of the events received.
  - A ghost `history` field ties the class to that specification.
- `Scenarios` (`scenarios.dfy`): the driver and the counter together. A hook's
  counters are `Replay` of the events delivered to it.

Behaviour of the code worth noting:

- A failed `Open` returns the backend's connection value together with the
  error (driver.go:52-54).
- The open gauges are not kept non-negative: a close that outnumbers the
  successful opens drives them below zero (counterhook.go:134-181).
  `GaugesNonNegativeIff` states exactly when they stay non-negative.
- `CounterHook` has no reset: its only operations are the accessors and the
  callbacks (counterhook.go:33-208), and no callback lowers a total or error
  counter (`RecordMonotone`, `ReplayMonotone`).

## Model

| member | source | states |
|---|---|---|
| `Counter.CounterHook.constructor` | counterhook.go:10-30 | the zero-value struct: every counter is 0 and nothing has been received |
| `Counter.CounterHook.OpenConns` | counterhook.go:33-35 | open connections = successful ConnOpened minus every ConnClosed received |
| `Counter.CounterHook.TotalConns` | counterhook.go:38-40 | = number of successful ConnOpened received |
| `Counter.CounterHook.OpenStmts` | counterhook.go:43-45 | = successful StmtPrepared minus every StmtClosed |
| `Counter.CounterHook.TotalStmts` | counterhook.go:48-50 | = number of successful StmtPrepared |
| `Counter.CounterHook.OpenTxs` | counterhook.go:53-55 | = successful TxBegan minus every TxCommitted and TxRolledback, whatever their outcome |
| `Counter.CounterHook.TotalTxs` | counterhook.go:58-60 | = number of successful TxBegan |
| `Counter.CounterHook.CommittedTxs` | counterhook.go:63-65 | = number of successful TxCommitted |
| `Counter.CounterHook.RolledbackTxs` | counterhook.go:68-70 | = number of successful TxRolledback |
| `Counter.CounterHook.Queries` | counterhook.go:73-75 | = number of successful Queried |
| `Counter.CounterHook.Execs` | counterhook.go:78-80 | = number of successful Execed |
| `Counter.CounterHook.RowsIterated` | counterhook.go:83-85 | = number of successful RowIterated |
| `Counter.CounterHook.ConnErrs` | counterhook.go:88-90 | = number of failed ConnOpened |
| `Counter.CounterHook.StmtErrs` | counterhook.go:93-95 | = number of failed StmtPrepared |
| `Counter.CounterHook.TxOpenErrs` | counterhook.go:98-100 | = number of failed TxBegan |
| `Counter.CounterHook.TxCloseErrs` | counterhook.go:104-106 | = failed TxCommitted plus failed TxRolledback |
| `Counter.CounterHook.QueryErrs` | counterhook.go:109-111 | = number of failed Queried |
| `Counter.CounterHook.ExecErrs` | counterhook.go:114-116 | = number of failed Execed |
| `Counter.CounterHook.RowErrs` | counterhook.go:119-121 | = number of failed RowIterated |
| `Counter.CounterHook.ConnOpened` | counterhook.go:124-131 | on nil: openConns and totalConns +1 and nothing else; on error: connErrs +1 and nothing else |
| `Counter.CounterHook.ConnClosed` | counterhook.go:134-136 | openConns −1 whatever the error, nothing else changes |
| `Counter.CounterHook.StmtPrepared` | counterhook.go:139-146 | on nil: openStmts and totalStmts +1; on error: only stmtErrs +1 |
| `Counter.CounterHook.StmtClosed` | counterhook.go:149-151 | openStmts −1 whatever the error, nothing else changes |
| `Counter.CounterHook.TxBegan` | counterhook.go:154-161 | on nil: openTxs and totalTxs +1; on error: only txOpenErrs +1 |
| `Counter.CounterHook.TxCommitted` | counterhook.go:164-171 | openTxs −1 always; committedTxs +1 on nil, txCloseErrs +1 on error |
| `Counter.CounterHook.TxRolledback` | counterhook.go:174-181 | openTxs −1 always; rolledbackTxs +1 on nil, txCloseErrs +1 on error |
| `Counter.CounterHook.Queried` | counterhook.go:184-190 | exactly one of queries / queryErrs +1; duration and query ignored |
| `Counter.CounterHook.Execed` | counterhook.go:193-199 | exactly one of execs / execErrs +1; duration and query ignored |
| `Counter.CounterHook.RowIterated` | counterhook.go:202-208 | exactly one of rowsIterated / rowErrs +1 |
| `Counter.ReplayIsTally` | counterhook.go:124-208 | folding the callbacks from zero yields, for every counter, its count of received events |
| `Counter.ReplayAppend` | counterhook.go:124-208 | the counters after two histories in sequence are the sum of those after each alone |
| `Counter.GaugeInvariants` | counterhook.go:124-181 | reachable states: openConns = totalConns − #ConnClosed, openStmts = totalStmts − #StmtClosed, openTxs = totalTxs − committedTxs − rolledbackTxs − txCloseErrs |
| `Counter.GaugesNonNegativeIff` | counterhook.go:124-181 | a gauge is ≥ 0 if and only if its closes do not outnumber its successful opens |
| `Counter.RecordMonotone` | counterhook.go:124-208 | no callback lowers a success or error counter; each except the closes raises their sum by one |
| `Counter.ReplayMonotone` | counterhook.go:124-208 | more callbacks never lower any counter other than the three open gauges |
| `Counter.TwoTransactions` | counterhook.go:154-181 | two begins, one rollback, one commit: totalTxs 2, openTxs 0, committedTxs 1, rolledbackTxs 1 |
| `Driver.StatsDriver.constructor` | driver.go:40-42 | `New(open)`: stores the open function, no hooks, nothing delivered |
| `Driver.StatsDriver.AddHook` | driver.go:72-74 | appends the hook to the end of the list |
| `Driver.StatsDriver.Broadcast` | driver.go:75-124 | the loop: one callback per registered hook, in registration order, and nothing else |
| `Driver.StatsDriver.ConnOpened` | driver.go:75-79 | emits ConnOpened(err) to every hook in order |
| `Driver.StatsDriver.ConnClosed` | driver.go:80-84 | emits ConnClosed(err) to every hook in order |
| `Driver.StatsDriver.StmtPrepared` | driver.go:85-89 | emits StmtPrepared(query, err) to every hook in order |
| `Driver.StatsDriver.StmtClosed` | driver.go:90-94 | emits StmtClosed(err) to every hook in order |
| `Driver.StatsDriver.TxBegan` | driver.go:95-99 | emits TxBegan(err) to every hook in order |
| `Driver.StatsDriver.TxCommitted` | driver.go:100-104 | emits TxCommitted(err) to every hook in order |
| `Driver.StatsDriver.TxRolledback` | driver.go:105-109 | emits TxRolledback(err) to every hook in order |
| `Driver.StatsDriver.Queried` | driver.go:110-114 | emits Queried(d, query, err) to every hook in order |
| `Driver.StatsDriver.Execed` | driver.go:115-119 | emits Execed(d, query, err) to every hook in order |
| `Driver.StatsDriver.RowIterated` | driver.go:120-124 | emits RowIterated(err) to every hook in order |
| `Driver.Fanout` | driver.go:75-124 | one delivery per registered hook, the i-th to the i-th hook |
| `Driver.ReceivedFanout` | driver.go:75-124 | a hook registered k times receives an emitted event exactly k times |
| `Driver.StatsDriver.Open` | driver.go:49-70 | calls open with `name` unchanged; emits one ConnOpened with the backend's error; on error returns the backend's pair as is; on success a proxy that is Queryer iff and Execer iff the backend connection is |
| `Driver.SelectShape` | driver.go:56-69 | the selected proxy has Query iff isQueryer and Exec iff isExecer, and is the only proxy that does (all four combinations) |
| `Driver.StatsConn.Prepare` | driver.go:131-146 | one StmtPrepared(query, err); on error the backend's pair unwrapped; on success a statement proxy holding `query` that is a ColumnConverter iff the backend statement is |
| `Driver.StatsConn.Close` | driver.go:148-152 | one ConnClosed carrying the backend's error; returns that error |
| `Driver.StatsConn.Begin` | driver.go:154-161 | one TxBegan(err); wraps the transaction only on success; returns the backend's error |
| `Driver.StatsConn.Query` | driver.go:168-177 | Queryer proxies only (a proxy wraps a connection with exactly its interfaces, `Valid`): one Queried(d, query, err); cursor wrapped only when err is nil |
| `Driver.StatsConn.Exec` | driver.go:184-190 | Execer proxies only (`Valid`): one Execed(d, query, err); result and error returned unwrapped |
| `Driver.StatsStmt.ColumnConverter` | driver.go:209-211 | column-converter proxies only: forwards the backend's converter, emits nothing |
| `Driver.StatsStmt.Close` | driver.go:213-217 | one StmtClosed carrying the backend's error; returns that error |
| `Driver.StatsStmt.NumInput` | driver.go:219-221 | forwards the backend's count, emits nothing |
| `Driver.StatsStmt.Exec` | driver.go:223-229 | one Execed with the query text captured at prepare time; result never wrapped |
| `Driver.StatsStmt.Query` | driver.go:231-240 | one Queried with the prepared query text; cursor wrapped only when err is nil |
| `Driver.StatsRows.Columns` | driver.go:247-249 | forwards the backend's columns, emits nothing |
| `Driver.StatsRows.Close` | driver.go:250-252 | forwards the backend's error, emits nothing |
| `Driver.StatsRows.Next` | driver.go:253-259 | returns the backend's result unchanged; emits RowIterated(result) iff it is not io.EOF, nothing otherwise |
| `Driver.CursorEventsAreRows` | driver.go:14-17 | for every sequence of backend answers, the cursor reports exactly one RowIterated per answer that is not io.EOF, and no reported event carries io.EOF |
| `Driver.StatsRows.Read` | driver.go:253-259 | calling Next once per answer returns the answers unchanged and emits exactly `CursorEvents` of them |
| `Driver.ExhaustedCursor` | driver.go:253-259 | reading n good rows and then io.EOF emits exactly n successful RowIterated events |
| `Driver.StatsTx.Commit` | driver.go:266-270 | one TxCommitted carrying the backend's error; returns that error |
| `Driver.StatsTx.Rollback` | driver.go:272-276 | one TxRolledback carrying the backend's error; returns that error |
| `Scenarios.CursorCounts` | driver.go:253-259 | a counting hook that sees a cursor of n rows read to its end gains exactly n rowsIterated and no row error |
| `Scenarios.ReceivedOnce` | driver.go:75-124 | a hook registered once receives each emitted event exactly once, after everything it had received before |
| `Scenarios.StatementLifecycle` | driver_test.go:338-371 | open, prepare, exec, query, one row then io.EOF, close the cursor, close the statement: the hook's counters show one connection, one statement opened and closed, one exec, one query, one row; the cursor close counts nothing |

## Left out

- Wall-clock timing: the proxies' `time.Now` and `Sub` calls are left out. The
  elapsed time is the opaque `Duration` parameter that Query and Exec pass on
  in their events.
- `sync/atomic` and every concurrency claim are left out. Each callback is one
  sequential step. The unsynchronised race between `AddHook` and dispatch is
  not modelled.
- Counters are unbounded `int`: int64 wrap-around and the `int(...)`
  conversion in the accessors are not modelled.
- The backend drivers are code outside this model. Each proxy method receives
  the wrapped call's answer as a `reply` parameter. The backend's own state
  and call ordering are not modelled.
- The query arguments (`args`), the `dest` slice of `Next`, and the contents of
  `driver.Result`, `driver.Rows` and `driver.ValueConverter` are opaque
  handles or are left out.
- Go's type assertions and struct embedding are replaced by capability flags
  on the backend values and by `ConnShape` / `converter` on the proxies.
- Hooks are identities (`HookId`). Dispatch records each callback made in
  `delivered` and does not run observer code; a counting hook's state is
  `Replay` of the events delivered to it (`Scenarios`).
- `database/sql` registration, pooling and `Ping` are left out.
- Driver.StatsConn.Prepare: does not show that `query` reaches the backend's
  Prepare unchanged, because the backend's answer is a parameter.
- Driver.StatsConn.Query: does not show that the query text and the arguments
  reach the backend unchanged, because the backend's answer is a parameter.
- Driver.StatsConn.Exec: does not show that the query text and the arguments
  reach the backend unchanged, because the backend's answer is a parameter.

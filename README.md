# BaseDatabase connection/transaction state machine

A Dafny model of `BaseDatabase` from mysql-async-wrapper. This class wraps a
mysql pool connection so it can be used with promises. Each instance holds
two fields:

- a leased connection, which may be null;
- a transaction flag.

Six operations change those fields: `getConnection`, `beginTransaction`,
`executeQuery`, `commit`, `rollback` and `close`. The repository has two
variants of the class, and each one gets its own module:

- `LibDatabase` models `lib/index.ts`. Its `rollback` needs a connection *and* a
  transaction. Its `close` only releases the connection.
- `SrcDatabase` models `src/base-database.ts`. Its `rollback` needs only a
  connection. Its `close` commits a pending transaction before it releases.

`Session` holds what the two variants share:

- the state `State(conn, inTx)`;
- the error values, with the two literal messages `"Connection Doesn't Exist"`
  and `"Connection or Transaction Doesn't Exist"`;
- the driver calls `Begin | Query | Commit | Rollback | Release`;
- `getConnection` and `beginTransaction`, which are the same code in both files.

Each operation appears twice in the model.

- A **step function** (`QueryStep`, `CommitStep`, …) maps the old state and the
  answers of the pool and driver to three things: the new state, the driver
  calls issued in order, and what the promise settles with. The contracts of
  these functions state the behaviour.
- A **method** of the class `BaseDatabase` does the same work step by step,
  following the source: its fields are `connection`, `inTransaction` and a
  ghost `log` of driver calls. Its `ensures` makes the new fields, the calls
  added to `log` and the return value equal to what the step function gives.

Pool and driver results are parameters. `Outcome<T>` is either `Ok(value)` or
`Err(error)`. A callback without a value gets a `Reply`: `Succeeded`, or
`Failed(error)`. The optional rollback callback becomes a returned `Callback`:

- `None` means no callback was given;
- `Some(None)` means `cb(null)`;
- `Some(Some(e))` means `cb(e)`.

`Run` applies a sequence of calls (`Op`) one after another. The lemmas about
`Run` state properties of whole traces.

## Model

| member | source | states |
|---|---|---|
| Session.GetConnectionStep | lib/index.ts:36-56 | A pool failure rejects with the pool's error, changes nothing and calls nothing. A lease sets the connection, and it stays set even when the requested transaction fails to begin. A begin success sets the flag. Without `transaction: true`, no driver call is made and the flag is unchanged. The call resolves exactly when the pool succeeds and the begin (if asked for) succeeds. It is the same code at src/base-database.ts:32-52. |
| Session.BeginStep | lib/index.ts:58-69 | Issues exactly one driver `Begin`. On success it sets the flag and resolves. On failure it rejects with the driver error and changes nothing. It needs a held connection. It is the same code at src/base-database.ts:54-65. |
| LibDatabase.RollbackStep | lib/index.ts:124-143 | A driver `Rollback` is issued exactly when the instance has both a connection and a transaction. In that case the flag is cleared and the callback gets the driver error or null. Otherwise nothing changes and the callback gets "Connection Doesn't Exist". |
| LibDatabase.QueryStep | lib/index.ts:76-100 | With no connection: rejects with "Connection Doesn't Exist", makes no driver call and changes nothing. With a connection: the only driver call is `Query`, never a `Rollback`. A success returns the rows and changes nothing. A failure rejects with the query's own error and ends with the flag false. A failure outside a transaction changes nothing. |
| LibDatabase.CommitStep | lib/index.ts:103-121 | Without both a connection and a transaction: rejects with "Connection or Transaction Doesn't Exist", changes nothing, makes no call. On success: one `Commit`, then the flag is cleared. On failure: exactly one `Rollback`, the flag ends false, and the commit error surfaces whatever the rollback answers. |
| LibDatabase.CloseStep | lib/index.ts:146-151 | With a connection: exactly one `Release`, and the connection becomes null. With none: a no-op. The transaction flag is never changed. |
| LibDatabase.Apply | lib/index.ts:21-152 | A single public call releases at most the connection it held or leased. It issues a driver rollback only if it is `commit` or `rollback`. |
| LibDatabase.ReleasedAtMostOncePerLease | lib/index.ts:146-151 | At most one `Release` per lease, counted over the trace: over any sequence of calls, the number of `Release`s plus the connection still held is at most the connection held at the start plus the leases obtained. The count does not say which connection each `Release` returns. |
| LibDatabase.QueriesNeverRollBack | lib/index.ts:83-89 | Over any sequence of calls, driver rollbacks are at most the number of `commit` and `rollback` calls. A failed query never reaches the driver's rollback, because its flag is cleared before `rollback` checks it. |
| LibDatabase.RollbackTwiceIsDriverNoOp | lib/index.ts:124-142 | A second `rollback` straight after a first makes no driver call. If it was given a callback, that callback gets "Connection Doesn't Exist". |
| LibDatabase.CloseKeepsTransactionFlag | lib/index.ts:146-151 | Closing during a transaction leaves the flag set. Leasing a new connection afterwards makes a `commit` pass its guard and reach the driver on that new connection. |
| LibDatabase.BaseDatabase.constructor | lib/index.ts:23-29 | A new instance has no connection, no transaction and an empty call log. |
| LibDatabase.BaseDatabase.GetConnection | lib/index.ts:36-56 | Fields, new driver calls and result are those of `GetConnectionStep`. |
| LibDatabase.BaseDatabase.BeginTransaction | lib/index.ts:58-69 | Fields, new driver calls and result are those of `BeginStep`. |
| LibDatabase.BaseDatabase.ExecuteQuery | lib/index.ts:76-100 | Fields, new driver calls and result are those of `QueryStep`. The flag is cleared before the nested `Rollback` call. |
| LibDatabase.BaseDatabase.Commit | lib/index.ts:103-121 | Fields, new driver calls and result are those of `CommitStep`. |
| LibDatabase.BaseDatabase.Rollback | lib/index.ts:124-143 | Fields, new driver calls and callback argument are those of `RollbackStep`. |
| LibDatabase.BaseDatabase.Close | lib/index.ts:146-151 | Fields and new driver calls are those of `CloseStep`. |
| SrcDatabase.RollbackStep | src/base-database.ts:113-132 | With a connection: the flag is cleared and exactly one driver `Rollback` is issued, even with no active transaction. The callback gets the driver error or null. Without a connection: nothing changes, no call is made, and the callback gets "Connection Doesn't Exist". |
| SrcDatabase.QueryStep | src/base-database.ts:67-91 | With no connection: rejects with "Connection Doesn't Exist", makes no call and changes nothing. A success returns the rows and changes nothing. A failure inside a transaction issues `Query` then exactly one `Rollback`, clears the flag and rejects with the query error. A failure outside a transaction issues only `Query` and changes nothing. Every path keeps the invariant that a transaction implies a connection. |
| SrcDatabase.CommitStep | src/base-database.ts:93-111 | The guard: no change, no call, and the literal error. On success: one `Commit`, then the flag is cleared. On failure: `Commit`, then exactly one `Rollback`, the flag ends false, and the commit error surfaces. The invariant is kept. |
| SrcDatabase.CloseStep | src/base-database.ts:134-143 | With no connection: a no-op. Otherwise exactly one commit attempt if a transaction is pending, and none if not. If that commit fails, the calls are exactly `[Commit, Rollback]`: there is no `Release`, the connection is kept, the flag is cleared by commit's rollback, and the commit error propagates. Otherwise the calls are exactly `[Commit, Release]` after an auto-commit or `[Release]` without a transaction, and the instance ends with no connection and no transaction. |
| SrcDatabase.Apply | src/base-database.ts:22-144 | Every public call keeps the invariant that a transaction implies a connection. It releases at most the connection it held or leased. |
| SrcDatabase.RunKeepsConsistent | src/base-database.ts:134-143 | Over any sequence of calls from a state where a transaction implies a connection, the final state has the same property. This holds because `close` commits or keeps the connection, and `rollback` clears the flag. |
| SrcDatabase.ReleasedAtMostOncePerLease | src/base-database.ts:134-143 | At most one `Release` per lease, counted over the trace: the number of `Release`s plus the connection still held is at most the connection held at the start plus the leases obtained. |
| SrcDatabase.RollbackTwiceReachesDriverTwice | src/base-database.ts:113-126 | While a connection is held, two rollbacks in a row issue two driver `Rollback`s. The second callback gets the driver's answer. |
| SrcDatabase.BaseDatabase.constructor | src/base-database.ts:24-30 | A new instance has no connection, no transaction and an empty log, and it satisfies the invariant. |
| SrcDatabase.BaseDatabase.GetConnection | src/base-database.ts:32-52 | Fields, new driver calls and result are those of `GetConnectionStep`. The invariant is kept. |
| SrcDatabase.BaseDatabase.BeginTransaction | src/base-database.ts:54-65 | Fields, new driver calls and result are those of `BeginStep`. The invariant holds afterwards. |
| SrcDatabase.BaseDatabase.ExecuteQuery | src/base-database.ts:67-91 | Fields, new driver calls and result are those of `QueryStep`. The invariant is kept. |
| SrcDatabase.BaseDatabase.Commit | src/base-database.ts:93-111 | Fields, new driver calls and result are those of `CommitStep`. The invariant is kept. |
| SrcDatabase.BaseDatabase.Rollback | src/base-database.ts:113-132 | Fields, new driver calls and callback argument are those of `RollbackStep`. The invariant is kept. |
| SrcDatabase.BaseDatabase.Close | src/base-database.ts:134-143 | Fields, new driver calls and result are those of `CloseStep`, with `commit` run first. The invariant is kept. |

## Behaviour of note

The model follows the code, and each of these is proved.

- **Query failure inside a transaction (`lib`).** The comments at lib/index.ts:11-12 and lib/index.ts:72 say that rollback is called automatically when a query fails inside a transaction. The code clears `_inTransaction` (lib/index.ts:85) before it calls `rollback`, and `rollback` checks that flag (lib/index.ts:125). So no driver rollback is ever issued (`LibDatabase.QueryStep`, `LibDatabase.QueriesNeverRollBack`). `src` issues exactly one (`SrcDatabase.QueryStep`).
- **Rollback twice.** In `lib`, a second `rollback` straight after a first makes no driver call (`LibDatabase.RollbackTwiceIsDriverNoOp`). In `src`, the guard checks only the connection, so two rollbacks issue two driver rollbacks (`SrcDatabase.RollbackTwiceReachesDriverTwice`).
- **close and the transaction flag.** In `lib`, `close` leaves `_inTransaction` set; after a new lease, `commit` passes its guard on the new connection (`LibDatabase.CloseKeepsTransactionFlag`). In `src`, a transaction is active only while a connection is held (`SrcDatabase.RunKeepsConsistent`).
- **beginTransaction while a transaction is active.** The code does not check, and it issues a driver `Begin` again (`Session.BeginStep`).
- **close with no connection.** In both files it does nothing (`LibDatabase.CloseStep`, `SrcDatabase.CloseStep`).
- **getConnection on an instance that holds a connection.** The code overwrites that connection without releasing it (`Session.GetConnectionStep`: no `Release` among its calls). This is why the release lemmas are stated as "at most".

## Left out

- **Retries.** The repository's code does not retry, so there is nothing to model.
- **Promises, callbacks and async.** Each operation is one sequential method. The answers of the pool and the driver are input parameters. The order of driver calls is kept in `log`. The model assumes every driver callback fires exactly once; a callback that never fires would leave a promise unsettled, and that is not modelled.
- **Pool and driver.** The pool object given to the constructor, the mysql connection internals, SQL text, query parameters and result rows are all opaque. Connections are `ConnId`, rows pass through untouched, and driver errors are `DriverError(code)`.
- **beginTransaction with no connection.** In the source this raises a JavaScript `TypeError`. The model makes "connection held" a `requires` of `BeginStep` and `BeginTransaction`. In `Run`, such a call changes nothing.
- **The lib query-error callback.** The callback that the `lib` query-error path passes to `rollback` always receives "Connection Doesn't Exist". That value is discarded, as the code discards it.
- **getConnection's resolved value.** `getConnection` resolves with the instance itself (`resolve(this)`). The model returns `Ok(())`, because the instance is the object the method is called on.
- **Concurrency.** The code has no locking, and the model assumes one caller uses an instance sequentially.

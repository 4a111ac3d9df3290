# DBAL connection manager, modelled in Dafny

This project models the connection class `DBAL` of the Aimeos base library's
database layer (`src/DB/Connection/DBAL.php`). The class owns one physical link
to the database server. Its integer field `txnumber` counts nested logical
transactions on that single link: only the outermost `begin` and the matching
outermost `commit` or `rollback` reach the driver. `connect` reuses a link that
still answers `ping`; otherwise it opens a new link, resets the counter and
replays the configured bootstrap statements. `create` picks a plain or a
prepared statement from the SQL text, and `close` rolls back a running
transaction before closing the link.

Doctrine DBAL and PDO are replaced by an abstract driver (`Driver.Link`). Its
answers are configured in a `Driver.Behaviour` value: whether the server
answers `ping` (a ping to a reachable server reopens a closed link, as
Doctrine's does), the boolean results of `beginTransaction`, `commit` and `rollBack`, the SQL texts
whose statement object cannot be built, and the SQL texts whose execution
throws. The link keeps its own "transaction active" flag and a log of the
physical calls made on it.

Files:

- `Db.dfy`: `Option`, `Result` and the layer's own exception `DbError`.
- `Driver.dfy`: the abstract driver (class `Link`).
- `Statements.dfy`: statement creation and the bootstrap replay, as functions, with lemmas.
- `Transactions.dfy`: the nesting counter as pure step functions over a `Session`
  (counter, open flag, driver flag, call log), runs of several calls, and lemmas about them.
- `Connection.dfy`: class `DBAL`. Each method changes the counter and the link in
  place, and its postcondition ties the new state to the step function in
  `Transactions` or `Statements`. Two client methods show the contracts composing.

Three behaviours of the code that a reader might not expect, all modelled as written:

- `close` consults the driver's own transaction flag, not the counter. With the
  counter at 2 it only decrements the counter to 1 and makes no physical rollback.
- `commit` and `rollback` decrement the counter below 0 without complaint. Afterwards a
  `begin`/`commit` pair reaches the driver not at all, or at the wrong nesting level.
- A bootstrap statement that throws aborts `connect`, but the new link stays
  installed with the counter at 0.
- `connect` after `close` finds a link that answers ping once the server is reachable,
  because the ping reopens it. The counter then stays where `close` left it, and the
  bootstrap statements are not replayed: after a close at counter 2 the counter is 1
  with no physical transaction (client method `Connection.CloseNestedThenReconnect`).

## Model

| member | source | states |
|---|---|---|
| `Statements.CreateStatement` | src/DB/Connection/DBAL.php:97-111 | Fails exactly when building the statement throws, and the error keeps the driver's message and code. Otherwise the statement carries the SQL and is `Simple` iff no character of the SQL is `?` (else `Prepared`). |
| `Statements.Perform` | src/DB/Connection/DBAL.php:83-109 | One bootstrap statement is executed (one `Execute` call) unless it cannot be built. It succeeds iff it can be both built and executed. A statement that cannot be built fails with the layer's exception carrying the driver's message and code; an execution error is the one the server raises. |
| `Statements.ReplayHaltsOnError` | src/DB/Connection/DBAL.php:82-84 | Once a prefix of the bootstrap list has thrown, the rest of the list is never run. |
| `Statements.ReplayAllSucceed` | src/DB/Connection/DBAL.php:82-84 | The replay succeeds iff every statement succeeds. It then executes each statement exactly once, in list order. |
| `Statements.ReplayStopsAtFirstFailure` | src/DB/Connection/DBAL.php:82-84 | A failed replay names its first failing statement. Every earlier statement ran in order, and that statement's error is the one `connect` throws. |
| `Transactions.Begin` | src/DB/Connection/DBAL.php:150-161 | A physical `beginTransaction` happens iff the counter is 0. It fails iff the driver refuses, with "Unable to start new transaction"; a failure leaves the counter unchanged and a success raises it by exactly 1. Consistency of driver flag and counter is preserved. |
| `Transactions.Commit` | src/DB/Connection/DBAL.php:169-180 | A physical `commit` happens iff the counter is exactly 1. A refusal throws "Failed to commit transaction" and keeps the counter. Otherwise the counter drops by 1 with no floor at 0. Consistency is preserved. |
| `Transactions.Rollback` | src/DB/Connection/DBAL.php:188-199 | Same as commit, with a physical `rollBack` and "Failed to roll back transaction". |
| `Transactions.Close` | src/DB/Connection/DBAL.php:47-55 | The driver's flag, not the counter, decides whether one `rollback` runs first. A refused physical rollback (only possible at counter 1) aborts before the link is closed. Otherwise the link ends closed with no transaction, the log gains at most one `RollBack` and then `Close`, and the counter drops by 1 only if a rollback ran. |
| `Transactions.RunKeepsConsistent` | src/DB/Connection/DBAL.php:150-199 | Any sequence of begin/commit/rollback calls, failing or not, keeps "on an open link the driver's flag is set iff the counter is positive". So `inTransaction` agrees with the counter. |
| `Transactions.LogicalRunIsSilent` | src/DB/Connection/DBAL.php:150-199 | Calls that never meet the counter value at which they reach the driver make no physical call and cannot fail. They only move the counter by their net count. |
| `Transactions.NestedCallsAreSilent` | src/DB/Connection/DBAL.php:150-199 | While the counter stays at 1 or above, nested begin/commit/rollback calls never reach the driver, whatever it would answer. |
| `Transactions.OutermostPair` | src/DB/Connection/DBAL.php:150-199 | From counter 0, an outermost begin … commit (or rollback) around any properly nested calls makes exactly one physical begin and one physical commit (or rollback). It ends at counter 0 with no transaction active. |
| `Transactions.NestedScenario` | src/DB/Connection/DBAL.php:150-180 | From counter 0, begin; begin; commit; commit moves the counter through 1, 2, 1, 0 and logs exactly one `BeginTransaction` and one `Commit`. |
| `Transactions.StrayCommitSkipsNextTransaction` | src/DB/Connection/DBAL.php:150-180 | A commit at counter 0 makes the counter -1, after which begin; commit makes no physical call at all, whatever the driver answers. |
| `Transactions.CloseAtDepthTwo` | src/DB/Connection/DBAL.php:47-55 | With the counter at 2 and a transaction active, `close` leaves the counter at 1 and logs only `Close`, with no physical rollback. |
| `Connection.DBAL.Open` | src/DB/Connection/DBAL.php:33-39 | Construction stores the bootstrap list and connects to a new link with counter 0. The link's calls and the thrown error are exactly those of replaying the list. |
| `Connection.DBAL.Connect` | src/DB/Connection/DBAL.php:63-87 | While the current link answers ping, the link, its calls and the counter are kept; a closed link is reopened by that ping with no transaction active. Otherwise a fresh link is installed, the counter is 0, and the link's calls and the error are exactly the replay of the bootstrap statements in order. The old link is left untouched. |
| `Connection.DBAL.Create` | src/DB/Connection/DBAL.php:97-111 | Returns the statement, or the rewrapped error, that `CreateStatement` specifies for the current link. |
| `Connection.DBAL.InTransaction` | src/DB/Connection/DBAL.php:130-139 | Reports the driver's own flag. When driver and counter are consistent, this is true iff the counter is positive. |
| `Connection.DBAL.Begin` | src/DB/Connection/DBAL.php:150-161 | The new counter, driver flag, call log and thrown error are those of `Transactions.Begin` on the old state. |
| `Connection.DBAL.Commit` | src/DB/Connection/DBAL.php:169-180 | The new state and error are those of `Transactions.Commit`. |
| `Connection.DBAL.Rollback` | src/DB/Connection/DBAL.php:188-199 | The new state and error are those of `Transactions.Rollback`. |
| `Connection.DBAL.Close` | src/DB/Connection/DBAL.php:47-55 | The new state and error are those of `Transactions.Close`, and the link object is kept. |

## Left out

- The Doctrine `DriverManager`, PDO and the driver options set before connecting (src/DB/Connection/DBAL.php:69-73): foreign library calls. The new link is a parameter (`Driver.Behaviour`) of `connect`, and the connection parameters are not modelled.
- `inTransaction`'s choice between the wrapped PDO object and its native connection (src/DB/Connection/DBAL.php:132-138): both read the same driver flag, which is `Link.inTx`.
- The driver answers `beginTransaction`, `commit` and `rollBack` with fixed configured booleans. PDO's exception on a nested physical begin is not modelled, and only `ping` reopens a closed link: a begin, commit or rollback on a closed link is answered from the configured results without reopening it. Exceptions thrown by the driver inside these calls are not modelled either, only `false` results.
- The `Simple` and `Prepared` statement classes (not part of this model): a statement is a tag with its SQL. Execution is one logged call whose failure is configured per SQL text, and `finish()` is not modelled.
- `getRawObject` (src/DB/Connection/DBAL.php:119-122): it only exposes the foreign connection object.
- Method chaining: methods that return `$this` in the source return an optional error here.
- Garbage collection of the dropped link (`unset`, src/DB/Connection/DBAL.php:80): the old link object is simply left untouched.
- `Connection.DBAL.Create`: it calls nothing on the link, so a construction error cannot depend on earlier calls.

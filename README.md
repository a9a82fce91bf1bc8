# Fake async MySQL connection

This project models `AsyncMysqlConnection` from hack-sql-fake. It is a
stand-in for HHVM's async MySQL client. It sends every query to an in-process
SQL command processor, not to a network server. The model covers:

- the connection's own state: `open` and `reusable`, both true on
  construction, the current database `dbname`, and the fixed `host` and `port`;
- the process-wide `QueryContext` statics: the current query text and the
  strict-SQL and strict-schema flags;
- the backend `Server` that all connections to a host share, with a fixed
  configuration (`strict_sql_mode`, `strict_schema_mode`,
  `inherit_schema_from`, each possibly absent) and the data the processor works on.

The command processor (`SQLCommandProcessor::execute`) is an oracle of type
`(Dispatch, Store) -> Step`. It sees a `Dispatch`: the query text, the
QueryContext values at call time, and the connection's host and current
database. It returns either `Success(rows, affected)` or `Failure(err)`,
together with the server data it leaves behind. It may change that data on
either path. A thrown value (`Thrown`) records its class, its message, and
whether that class is an `\Exception`.

The files are:

- `types.dfy` (module `SqlFakeTypes`): the values exchanged.
- `query_semantics.dfy` (module `QuerySemantics`): `query` and `multiQuery`
  as functions on a value `State`, plus the lemmas about them.
- `connection.dfy` (module `AsyncMysql`): the classes `Server`,
  `QueryContext` and `AsyncMysqlConnection`. Their methods update fields in
  place. Each query method is proved equal to its function in `QuerySemantics`.

`Query` sets the context's query text first. Next it saves both strict flags
and raises each one the configuration requests; a flag is never cleared. It
then writes a non-empty `inherit_schema_from` into the connection's database
and calls the processor. On success, and when the processor throws an
`\Exception`, it puts the two flags back. Its handler catches only
`\Exception`. Any other throwable (an `\Error` such as `TypeError`) passes
through without the restore, so a flag the configuration raised stays raised.
It then returns the rows and affected count, or raises what the processor
threw, unchanged. The query text is left in place, and so is the schema
override, even when the processor fails. `Query` does not check `open`:
a closed connection still runs queries. The model keeps this gap
(`AsyncMysql.CloseThenQuery`).

`multiQuery` hands its texts to `Vec\map_async`. `query` contains no `await`,
so HHVM runs each call to completion as soon as it starts. The queries
therefore run one after another in input order, and an exception is stored in
that call's awaitable. The model runs every text in order, each from the state
the previous one left. It returns all results in input order, or raises the
error of the first query that failed (`QuerySemantics.Gather`).

## Model

| member | source | states |
|---|---|---|
| `QuerySemantics.ApplyConfig` | src/AsyncMysql/AsyncMysqlConnection.php:46-57 | while the processor runs, the context holds the query text; each strict flag is true if the config requests it and otherwise keeps its prior value; a true flag is never cleared |
| `QuerySemantics.RestoreFlags` | src/AsyncMysql/AsyncMysqlConnection.php:66-77 | after a restore (on success or a thrown `\Exception`), both strict flags equal their saved values; the query text stays as set |
| `QuerySemantics.ApplyThenRestore` | src/AsyncMysql/AsyncMysqlConnection.php:46-77 | raising and then restoring the flags leaves the entry context with only the query text replaced |
| `QuerySemantics.InheritedSchema` | src/AsyncMysql/AsyncMysqlConnection.php:59-61 | a non-empty `inherit_schema_from` (absent counts as empty) becomes the database; otherwise the database is unchanged |
| `QuerySemantics.InheritedSchemaIdempotent` | src/AsyncMysql/AsyncMysqlConnection.php:59-61 | applying the schema override again changes nothing |
| `QuerySemantics.Adapt` | src/AsyncMysql/AsyncMysqlConnection.php:63-79 | the result is an error exactly when the processor failed, and then it is the same error; on success it has exactly the processor's rows, in order, and its affected count |
| `QuerySemantics.QueryTransition` | src/AsyncMysql/AsyncMysqlConnection.php:40-80 | after one query, the flags equal their entry values when it returns or the processor threw an `\Exception`, and stay raised by the config when it threw any other throwable; the query text is the new text; the database is the inherited one; the server data is what the processor left; the error is the processor's, unchanged; the rows and count are the processor's |
| `QuerySemantics.MultiTransition` | src/AsyncMysql/AsyncMysqlConnection.php:97-104 | a batch yields one result per text; afterwards the flags equal their values before the batch unless some query threw a non-`\Exception`, in which case they are the config's raises over those values; the query text is the last text, or is unchanged for an empty batch |
| `QuerySemantics.MultiTransitionSnoc` | src/AsyncMysql/AsyncMysqlConnection.php:97-104 | running one more query after a batch gives the same state and results as the batch extended by that text |
| `QuerySemantics.MultiTransitionAt` | src/AsyncMysql/AsyncMysqlConnection.php:102-103 | the i-th result of a batch is what `query(texts[i])` returns when run after the first i queries |
| `QuerySemantics.MultiDispatchFlags` | src/AsyncMysql/AsyncMysqlConnection.php:49-57 | every query of a batch is dispatched with the flags the config raises over the flags in force when the batch started, even after a query that skipped its restore |
| `QuerySemantics.MultiSchema` | src/AsyncMysql/AsyncMysqlConnection.php:59-61 | the schema override persists across a batch: after a non-empty batch the database is the inherited one, and an empty batch leaves it unchanged |
| `QuerySemantics.Gather` | src/AsyncMysql/AsyncMysqlConnection.php:102-103 | the batch succeeds exactly when every query succeeded, and then returns every value in input order; `GatherFirstFailure` gives the error it raises otherwise |
| `QuerySemantics.MultiQueryValueAt` | src/AsyncMysql/AsyncMysqlConnection.php:102-103 | a successful batch returns one value per text, and the i-th is what `query(texts[i])` returns after the first i queries |
| `QuerySemantics.GatherFirstFailure` | src/AsyncMysql/AsyncMysqlConnection.php:102-103 | when the i-th result is the first failure, the batch raises exactly that result's error |
| `QuerySemantics.MultiQueryErrorFrom` | src/AsyncMysql/AsyncMysqlConnection.php:102-103 | when `query(texts[i])`, run after the first i queries, is the first query of the batch to fail, `multiQuery` raises exactly that query's error |
| `AsyncMysql.Server.constructor` | src/AsyncMysql/AsyncMysqlConnection.php:34 | a server holds the given name, fixed config and data |
| `AsyncMysql.QueryContext.constructor` | src/AsyncMysql/AsyncMysqlConnection.php:46-57 | the context starts with the given query text and flags |
| `AsyncMysql.AsyncMysqlConnection.constructor` | src/AsyncMysql/AsyncMysqlConnection.php:10-37 | a new connection is open and reusable, with the given host, port, database, formatter and the server named by its host |
| `AsyncMysql.AsyncMysqlConnection.GetDatabase` | src/AsyncMysql/AsyncMysqlConnection.php:24-26 | returns the current database, including one set by a schema override |
| `AsyncMysql.AsyncMysqlConnection.SetDatabase` | src/AsyncMysql/AsyncMysqlConnection.php:28-30 | the current database becomes the argument |
| `AsyncMysql.AsyncMysqlConnection.Query` | src/AsyncMysql/AsyncMysqlConnection.php:40-80 | the save / raise / override / dispatch / restore sequence on the live objects produces the state and result of `QueryTransition`; flags are restored on success and on a thrown `\Exception` and stay raised on any other throwable; the override is kept on every path; `open` and `reusable` are untouched, and the method has no precondition on `open` |
| `AsyncMysql.AsyncMysqlConnection.QueryAsync` | src/AsyncMysql/AsyncMysqlConnection.php:82-85 | formats the structured query, then behaves as `Query` on the formatted text |
| `AsyncMysql.AsyncMysqlConnection.Queryf` | src/AsyncMysql/AsyncMysqlConnection.php:87-94 | formats the format string and arguments, then behaves as `Query` on the formatted text |
| `AsyncMysql.AsyncMysqlConnection.MultiQuery` | src/AsyncMysql/AsyncMysqlConnection.php:96-104 | the loop over `Query` produces the state of `MultiTransition` and returns `Gather` of its results; flags end as they started unless some query threw a non-`\Exception`; the schema override is kept |
| `AsyncMysql.AsyncMysqlConnection.EscapeString` | src/AsyncMysql/AsyncMysqlConnection.php:106-110 | returns its input unchanged for every string |
| `AsyncMysql.AsyncMysqlConnection.Close` | src/AsyncMysql/AsyncMysqlConnection.php:112-115 | afterwards the connection is closed, whatever it was before, so a second close keeps it closed |
| `AsyncMysql.AsyncMysqlConnection.IsValid` | src/AsyncMysql/AsyncMysqlConnection.php:120-123 | reports whether the connection is open |
| `AsyncMysql.AsyncMysqlConnection.WarningCount` | src/AsyncMysql/AsyncMysqlConnection.php:131-134 | always zero |
| `AsyncMysql.AsyncMysqlConnection.Host` | src/AsyncMysql/AsyncMysqlConnection.php:136-139 | the host given to the constructor |
| `AsyncMysql.AsyncMysqlConnection.Port` | src/AsyncMysql/AsyncMysqlConnection.php:141-144 | the port given to the constructor |
| `AsyncMysql.AsyncMysqlConnection.SetReusable` | src/AsyncMysql/AsyncMysqlConnection.php:146-149 | the reusable flag becomes the argument |
| `AsyncMysql.AsyncMysqlConnection.IsReusable` | src/AsyncMysql/AsyncMysqlConnection.php:151-154 | reports the reusable flag, so it returns `b` after `SetReusable(b)` |
| `AsyncMysql.CloseThenQuery` | src/AsyncMysql/AsyncMysqlConnection.php:113-123 | after closing twice the connection is invalid, and a query still runs exactly as `QueryTransition` says |

## Left out

- `SQLCommandProcessor::execute`: SQL parsing and execution are not part of this model. They are the `Processor` oracle. It is assumed to change only the server's data, not the connection or the QueryContext.
- `Logger::log` and `Logger::logResult` (lines 45, 70-73, 78): logging only, with no effect on state or results.
- `Server::getOrCreate` (line 34): the registry lookup. The connection is given its `Server` object instead, and its name must be the connection's host, as the lookup guarantees.
- `QueryStringifier::createForTypesafeHack` (line 36): choosing the default formatter is not modelled. The formatter is a constructor argument. `formatQuery` and `formatString` are oracles.
- The `invariant($query is string, …)` in `queryf` (line 92): a check on the type of the format string; the model's format string is always text.
- The timeout and query-attribute arguments are accepted and ignored, as in the source. Nothing in any contract depends on them.
- `lastActivityTime` (lines 156-161): based on floating-point wall-clock time.
- `serverInfo`, `connectResult` and `releaseConnection` (lines 117-129, 163-166): a constant string, a stored constant object and a no-op.
- `getServer` (lines 20-22): the model's `server` field is a public constant.
- The `<<__MockClass>>` substitution of the native class (line 7).
- The initial values of the QueryContext statics: that class is not part of this model, so they are constructor arguments.
- Concurrent fan-out in `multiQuery`: queries run in a sequential loop, which is how they run in the source (see above).
- Floating-point cells in result rows: `Value` has null, integer and string cells only. Rows pass through the connection untouched.
- Column order within a row: a row is a map from column name to cell, so the key order of a Hack `dict` is not represented. The connection passes rows through unchanged (line 79), so no behaviour of the connection depends on it.

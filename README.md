# kysely-planetscale connection adapter, modelled in Dafny

This project models the core of `kysely-planetscale`, the adapter that lets the
Kysely query builder run over the PlanetScale serverless client
(`@planetscale/database`). The core is `PlanetScaleConnection` in `src/index.ts`:

- it holds an optional transaction connection. With none it is idle; with one it is in a transaction;
- it consults a registry, `sharedConnections`, that maps a configuration object to at most one shared connection;
- it rewrites `Date` parameters with `formatDate`;
- it normalises the client's raw results;
- `PlanetScaleDriver` forwards its transaction calls to it.

How the model is built:

- A connection is an opaque id. `client.connection()` hands out the next unused id, with no I/O (`Wire.Backend.NewConnection`).
- Every statement sent is appended to a log, together with the target it was sent on: the client itself or one connection id.
- The database is an arbitrary but fixed function from (statements sent so far, new statement) to a reply. The reply either throws or returns a raw result. So every property is proved for every possible database behaviour.
- The pure parts are Dafny functions and lemmas. Routing, `execute`, `beginTransaction`, `commitTransaction` and `rollbackTransaction` are pure step functions in module `Transactions`. The methods of the `PlanetScaleConnection` class are proved to take exactly those steps.
- Modules: `Types` (results and errors), `JsText` (`String.prototype.trim`), `DateFormat`, `BigIntText` (`BigInt(string)`), `Queries`, `Results`, `Wire`, `Transactions`, `Connection`, `Driver`.

In these places the code does not do what one might expect, and the model follows the code:

- The insert id is compared as text with `'0'`. So a non-canonical zero such as `"00"` becomes `0n`, not "absent" (`Results.NonCanonicalZeroInsertId`). The client always writes canonical text, and for that text the id is absent exactly when it is zero (`Results.InsertIdRoundTrip`).
- The `useSharedConnection` option of the dialect's configuration (src/index.ts:25-30) has no effect. `acquireConnection` builds every adapter with the default flags (`new PlanetScaleConnection(this.#client)`), and `PlanetScaleConnection` is not exported. So shared mode, and with it every use of the registry, is unreachable for a caller of the dialect (`Driver.PlanetScaleDriver.AcquireConnection`). `Connection.SharedModeSharesConnection` and `Driver.SharedAdaptersShareConnection` take the constructor's flags as parameters. They describe what shared mode would do, on a path no such caller reaches.
- Even if shared mode were reached, the registry is keyed by the client's configuration object, and the driver gives each client a fresh copy of the caller's configuration (`{cast: inflateDates, ...config}`). So only adapters built on one client could share a connection, never two drivers built from one configuration (`Driver.PlanetScaleDriver.constructor`).
- With shared mode off, a query is executed by the client itself (`client.execute`). The adapter does not obtain a per-call connection.
- The results of `SET TRANSACTION`, `BEGIN`, `COMMIT` and `ROLLBACK` are awaited and then dropped. An error embedded in such a result is therefore ignored; only a thrown error fails the call (`Transactions.Acknowledge`).
- `beginTransaction` has no `finally`. When `SET TRANSACTION` or `BEGIN` throws, the transaction connection stays held.

## Model

| member | source | states |
|---|---|---|
| `JsText.TrimStart` | src/index.ts:204 | leading white space removed: the result is a suffix, everything dropped is white space, and it does not start with white space |
| `JsText.TrimEnd` | src/index.ts:204 | trailing white space removed: the result is a prefix, everything dropped is white space, and it does not end with white space |
| `JsText.Trim` | src/index.ts:204 | `.trim()` leaves neither end white space and never lengthens the string |
| `JsText.TrimCharacterised` | src/index.ts:204 | independent definition of `.trim()`: for white-space runs `pre` and `suf` around a middle that does not start or end with white space, the result is exactly that middle |
| `JsText.TrimIdempotent` | src/index.ts:204 | trimming twice equals trimming once |
| `DateFormat.ReplaceTZ` | src/index.ts:204 | `replace(/[TZ]/g, ' ')` keeps the length and turns each `T` and `Z`, and nothing else, into a space |
| `DateFormat.FormatDate` | src/index.ts:203-205 | neither end of the formatted date is white space, and it is no longer than the ISO string |
| `DateFormat.FormatDateHasNoTZ` | src/index.ts:204 | no `T` or `Z` survives formatting, whatever the input |
| `DateFormat.FormatIsoDate` | src/index.ts:203-205 | for an ISO string `date + "T" + time + "Z"` (date `YYYY-MM-DD` or a signed 6-digit year, time `HH:mm:ss.sss`), the result is exactly `date + " " + time` |
| `DateFormat.FormatDateExample` | src/index.ts:203-205 | `2024-01-02T03:04:05.678Z` becomes `2024-01-02 03:04:05.678` |
| `BigIntText.ParseBigInt` | src/index.ts:153 | `BigInt(text)`: text made only of white space is zero, and text whose trimmed form does not end on a hexadecimal digit is refused; the round-trip lemmas below pin the value |
| `BigIntText.ParseLiteral` | src/index.ts:153 | the trimmed literal: empty is zero, a negative value needs a leading minus sign, an accepted literal ends on a hexadecimal digit, and a run of decimal digits is read as that decimal number |
| `BigIntText.DecimalRoundTrip` | src/index.ts:153 | `BigInt` of the decimal text of any natural number gives that number back |
| `BigIntText.IntegerRoundTrip` | src/index.ts:153 | `BigInt` of the canonical text of any integer, negative ones included, gives that integer back |
| `BigIntText.IntegerTextZero` | src/index.ts:153 | the canonical text is `"0"` exactly for zero, so the `'0'` test is a zero test on canonical ids |
| `BigIntText.DoubleZero` | src/index.ts:153 | `BigInt("00")` is zero: leading zeros are accepted |
| `Queries.FormatParam` | src/index.ts:141 | the `map` callback: a valid `Date` becomes the text `formatDate` gives; an invalid `Date` raises `InvalidTimeValue`; any other value is returned unchanged |
| `Queries.RewriteParams` | src/index.ts:139-141 | with a custom `format` the parameters pass through unchanged; otherwise they are mapped, a failure is the invalid-time error, and the length is kept |
| `Queries.FormatAll` | src/index.ts:141 | `parameters.map(...)` fails only with the invalid-time error and keeps the length |
| `Queries.FormatAllFailsExactly` | src/index.ts:141 | the map fails exactly when some parameter is an invalid `Date` |
| `Queries.FormatAllPointwise` | src/index.ts:141 | when the map succeeds, every element is the callback's value for the element at the same position |
| `Queries.RewriteLeavesNoDates` | src/index.ts:139-141 | after the rewrite no `Date` is left, and every non-`Date` value sits unchanged at its position |
| `Queries.RewriteIdempotent` | src/index.ts:139-141 | rewriting already rewritten parameters changes nothing |
| `Results.Normalize` | src/index.ts:145-158 | an embedded error is raised, not returned. Otherwise the call fails only on an insert id `BigInt` rejects. `numAffectedRows` is absent exactly when `rowsAffected` is null, and otherwise equals it. `insertId` is absent exactly when the raw id is null or the text `'0'`, and otherwise is its `BigInt` value. `rows` pass through |
| `Results.InsertIdRoundTrip` | src/index.ts:153 | for canonical integer text, the normalised insert id is that integer, and absent exactly when it is zero (never `0n`) |
| `Results.NonCanonicalZeroInsertId` | src/index.ts:153 | the `'0'` test is on the text: the raw id `"00"` yields an insert id of `0n` |
| `Transactions.Route` | src/index.ts:130-134 | the target is the transaction connection if one is held. Otherwise, in shared mode, it is the registry's connection for this configuration, or the client if the registry has none. Otherwise it is the client |
| `Transactions.Settle` | src/index.ts:143-148 | a thrown client error is passed on unchanged; a returned result is normalised |
| `Transactions.Acknowledge` | src/index.ts:164-166 | an awaited statement whose result is dropped fails exactly when the client throws, with that error |
| `Transactions.ExecuteOn` | src/index.ts:137-159 | at most one statement is sent, on the chosen target, with the SQL unchanged. Nothing is sent exactly when a parameter cannot be formatted, and the call then fails with `InvalidTimeValue`. Otherwise the statement carries the rewritten parameters and the result is the settled reply |
| `Transactions.Begin` | src/index.ts:161-167 | afterwards a transaction connection is always held. A held one is reused; otherwise exactly one fresh one is acquired. Only one or two statements are sent, all on that connection. `SET TRANSACTION ISOLATION LEVEL` is sent first, and only when a level is given. `BEGIN` follows it only if it did not throw. The call succeeds exactly when `BEGIN` was sent and did not throw |
| `Transactions.End` | src/index.ts:169-185 | afterwards no transaction connection is held, whatever happened. With none held, the call fails with "No transaction to commit" / "No transaction to rollback" and sends nothing. With one held, exactly `COMMIT` / `ROLLBACK` is sent on it, and the call fails exactly when that statement throws, with the error it threw (`finally` does not swallow it) |
| `Transactions.BeginFailurePassesOn` | src/index.ts:161-167 | a failed `beginTransaction` rejects with exactly the error that the last statement sent (`SET TRANSACTION` or `BEGIN`) threw |
| `Transactions.SetIsolationSql` | src/index.ts:164 | the statement is `SET TRANSACTION ISOLATION LEVEL ` followed by the level's text |
| `Transactions.NoTransactionText` | src/index.ts:169-185 | the error raised with no transaction held reads "No transaction to commit" or "No transaction to rollback" |
| `Transactions.StepsKeepIssued` | src/index.ts:161-185 | begin, commit and rollback keep the held transaction connection one the client has handed out |
| `Transactions.NextTransactionIsFresh` | src/index.ts:162 | after a commit or rollback attempt, successful or not, and even with no transaction held, the next `beginTransaction` acquires a connection never used before |
| `Transactions.BeginTwiceKeepsConnection` | src/index.ts:162 | a second `beginTransaction` while one is open reuses the same connection and acquires none |
| `Connection.Registry.constructor` | src/index.ts:110 | `sharedConnections` starts empty |
| `Connection.Lookup` | src/index.ts:133 | `get` finds an entry exactly when the key is registered, and returns its connection |
| `Connection.Register` | src/index.ts:125 | `set(config, get(config) ?? connection())`: afterwards the configuration has an entry and no other key is added; every entry already present keeps its connection; a new entry holds the candidate |
| `Connection.RegisterNeverReplaces` | src/index.ts:125 | the registry entry is created only when absent: an existing entry is never replaced, and registering twice equals registering once |
| `Connection.RegisterKeepsOthers` | src/index.ts:125 | registering one configuration leaves every other entry as it was |
| `Connection.SharedModeSharesConnection` | src/index.ts:123-134 | two shared-mode adapters on one configuration, with no transaction open, route to the same connection: the one registered earlier, or else the first adapter's candidate |
| `Connection.PlanetScaleConnection.constructor` | src/index.ts:121-127 | shared mode is `useSharedConnection && !isForTransaction`. In shared mode the configuration's registry entry is created with a fresh connection if absent, and otherwise left alone. No transaction is held, and no statement is sent |
| `Connection.PlanetScaleConnection.Execute` | src/index.ts:137-159 | performs exactly the step `ExecuteOn` on the given target, acquiring no connection |
| `Connection.PlanetScaleConnection.ExecuteQuery` | src/index.ts:129-135 | performs exactly `ExecuteOn` on the target `Route` picks from the held transaction connection, the shared mode and the registry |
| `Connection.PlanetScaleConnection.BeginTransaction` | src/index.ts:161-167 | the adapter's new state and outcome are exactly those of the step `Begin` |
| `Connection.PlanetScaleConnection.CommitTransaction` | src/index.ts:169-176 | the adapter's new state and outcome are exactly those of `End` with `COMMIT`; the connection is dropped even when `COMMIT` throws |
| `Connection.PlanetScaleConnection.RollbackTransaction` | src/index.ts:178-185 | the adapter's new state and outcome are exactly those of `End` with `ROLLBACK`; the connection is dropped even when `ROLLBACK` throws |
| `Connection.PlanetScaleConnection.StreamQuery` | src/index.ts:187-189 | streaming always fails with the streaming error, for any query, and touches no state |
| `Wire.Client.Connection` | src/index.ts:162 | `client.connection()` returns an id never handed out before and sends nothing |
| `Wire.Client.Execute` | src/index.ts:143 | `conn.execute` appends exactly one statement to the log and returns the database's answer to it |
| `Driver.PlanetScaleDriver.constructor` | src/index.ts:83-85 | the client's configuration is a fresh copy of the caller's, so the registry key is private to this driver |
| `Driver.PlanetScaleDriver.AcquireConnection` | src/index.ts:89-91 | builds a new adapter with default arguments: never in shared mode, with no transaction held, and touching neither the registry nor the wire |
| `Driver.PlanetScaleDriver.BeginTransaction` | src/index.ts:93-95 | forwards to the adapter: the step `Begin` |
| `Driver.PlanetScaleDriver.CommitTransaction` | src/index.ts:97-99 | forwards to the adapter: `End` with `COMMIT` |
| `Driver.PlanetScaleDriver.RollbackTransaction` | src/index.ts:101-103 | forwards to the adapter: `End` with `ROLLBACK` |
| `Driver.NoTransactionToFinish` | src/index.ts:169-185 | on a fresh adapter, commit and rollback fail with their own errors and send nothing |
| `Driver.CommitThenBeginAgain` | src/index.ts:161-176 | begin, commit, begin: the second transaction runs on a different connection, and each statement went to its own transaction's connection |
| `Driver.SharedAdaptersShareConnection` | src/index.ts:121-134 | with the constructor's flags as parameters (no caller of the dialect sets them), two shared-mode adapters on one client send their queries on the same connection |

## Left out

- `PlanetScaleDialect` (src/index.ts:56-78): it only builds the stock Kysely MySQL adapter, compiler and introspector.
- `inflateDates` (src/index.ts:197-201): it delegates to date-fns `parseJSON` and the client's `cast`, both foreign code.
- The driver's `init`, `releaseConnection` and `destroy`: they do nothing.
- The transport, retries and connection handling of `@planetscale/database`: the database is an arbitrary answering function. A query sent via the client is logged with target `ViaClient`; the connection the client opens internally for it is not modelled.
- Asynchrony: every call is one sequential step, and interleavings of concurrent calls are not modelled.
- The registry is not a single global: each driver and adapter is handed a `Registry` object. Keys are each driver's private configuration copy, so this changes no behaviour as long as all adapters of one client are handed the same `Registry`, which the driver does.
- `WeakMap` collection: the registry is a plain map keyed by object identity, and entries are never removed.
- `Date` and `toISOString`: a valid date is its ISO string, and an invalid date is the `InvalidDate` parameter, whose formatting raises a RangeError.
- `Queries.Param`: the open set of non-`Date` parameter values is represented by a few constructors. The adapter never inspects them.
- `Results.Normalize`: `rowsAffected` is a natural number and `insertId` a string or null. `BigInt` of a non-integral number, and an `insertId` that is `undefined` rather than null (which makes `toString` throw), are not modelled.
- `BigIntText.ParseBigInt`: follows StringToBigInt for trimmed, signed decimal and `0x`/`0o`/`0b` literals. Only the failure, not the exact SyntaxError text, is modelled.
- `Connection.PlanetScaleConnection.StreamQuery`: the source is an async generator, which fails on the first `next()` rather than at the call. The model fails at once.
- The `format` function in the configuration: only whether it is set matters here, so `Config` records just that.

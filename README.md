# isqlx in Dafny

isqlx is a thin tracing layer over sqlx. Each query call on a connection
handle (`dbx`) or a transaction handle (`tx`) starts one span. The span is
named `<driver>.<operation>` and is tagged with `db.system`,
`db.operation` and `db.statement`. It also carries the bound parameters
(`db.statement.param_<index-or-key>`) and, where the outcome allows, a
row count (`db.result.returned_rows`). Driver errors are recorded on the
span and returned unchanged. "No rows" is tagged as a zero row count,
not as an error. The transaction handle adds `Commit` and the deferred
closer `TxClose`, which always tries exactly one rollback. TxClose
ignores the result of that rollback and raises a panic again if one was
in flight.

The model has these modules:

- `Classifier` (classifier.dfy): `parseQueryOperation` as a function over
  strings. Lemmas cover prefix matching, mutual exclusion of the verbs,
  case-insensitivity and the documented examples.
- `RowCount` (row_count.dfy): `getReturnedRows` over a datatype `Dest`
  that stands for the shape `reflect` reports.
- `Spans` (spans.dfy): a span is a class holding an append-only log of
  the calls made on it (`SetAttr`, `RecordedError`, `Ended`). The tracer
  is a class that keeps every span it started. This module also holds
  `newSpan`, the `customSpan` helpers, and projections of a log:
  the values set for a key, the errors recorded, and the number of `End`
  calls.
- `Executors` (executors.dfy): `getContext`, `selectContext` and
  `namedExecContext` as methods. Each one is proved against a function
  that gives its span's whole log. Lemmas then state the tagging rules
  about those functions.
- `Transactions` (transactions.dfy): the driver's transaction as a
  small state machine (Open, Committed or RolledBack). It also holds the
  `tx` handle with `Commit` and `TxClose`, the `dbx` handle with
  `Begin`, and client methods that run the documented lifecycles.
- `Format` (format.dfy) and `Outcomes` (outcomes.dfy): `fmt.Sprint` for
  the argument kinds the model uses, decimal indexes, and the error
  values.

Driver calls are inputs to the model. An executor receives the outcome
the driver produced and, for a multi-row fetch, the shape of the
destination after the call. A Go panic is an input `panicking` to
`TxClose`, and the value raised again is its output `reraised`. Go's map
iteration order is not fixed, so `namedExecContext` reports the order it
used as a ghost output.

`newSpan` defers `span.End()` (isqlx.go:239), so the span it returns has
already been ended once. Each executor ends the span again. The model
keeps this as written: every span log has two `Ended` events, and
`Executors.ExecutorLogShape` states that count.

`getReturnedRows` inspects the destination value it is given. A pointer
is its own shape (`Pointer`), whatever it points to, so it gives -1 as
the source does.

## Model

| member | source | states |
|---|---|---|
| `Classifier.ParseQueryOperation` | isqlx.go:194-211 | A result other than unknown is one of the six verbs and prefixes the lower-cased query. The result is unknown exactly when no verb prefixes it. |
| `Classifier.Lower` | isqlx.go:195 | Lower-casing keeps the length of the query. |
| `Classifier.LowerIdempotent` | isqlx.go:195 | Lower-casing an already lower-cased query changes nothing. |
| `Classifier.KeywordsExclusive` | isqlx.go:196-208 | At most one verb prefixes any text, so the order of the tests never decides the result. |
| `Classifier.ParseFindsPrefixKeyword` | isqlx.go:195-210 | A verb that prefixes the lower-cased query is exactly the tag returned. |
| `Classifier.ParseIgnoresCase` | isqlx.go:195 | A query and its lower-cased form get the same tag. |
| `Classifier.ParseKeepsPrefix` | isqlx.go:196-208 | Text appended after a recognised verb does not change the tag. |
| `Classifier.LeadingSpaceIsUnknown` | isqlx.go:195-210 | A query that starts with a blank is always unknown. |
| `Classifier.UpperAndLowerSelect` | isqlx.go:195-199 | "SELECT 1" and "select 1" are both select. |
| `Classifier.IndentedSelect` | isqlx.go:194-211 | "  select 1" is unknown. |
| `Classifier.TransactionVerbs` | isqlx.go:204-207 | The texts "commit" and "rollback" get the tags commit and rollback. |
| `RowCount.GetReturnedRows` | isqlx.go:216-227 | The result is at least -1. It is -1 exactly when the destination is neither a slice nor an array. Otherwise it is the slice's current length or the array's declared length. |
| `Format.NatToStringInjective` | isqlx.go:251-253 | Distinct argument indexes print as distinct decimal strings. |
| `Spans.KeyNameInjective` | isqlx.go:241-263 | No two attribute keys of the vocabulary share a key string, whatever the parameter suffixes are. |
| `Spans.ParamKeyIsDistinct` | isqlx.go:261-263 | A `db.statement.param_<k>` key never equals one of the fixed keys. |
| `Spans.NewSpan` | isqlx.go:235-248 | Starts exactly one span, named `driver + "." + tag`. Its log is the three core attributes and then the deferred `End`. |
| `Spans.NewSpanTags` | isqlx.go:235-248 | The span from `newSpan` has `db.system`=driver, `db.operation`=tag and `db.statement`=query, each once. It has no other attribute and no error, and it has been ended once. |
| `Spans.Span.AddAffectedRowsAttribute` | isqlx.go:257-259 | Appends exactly one `db.result.returned_rows` attribute with the given count. |
| `Spans.Span.AddQueryParamAttribute` | isqlx.go:261-263 | Appends exactly one `db.statement.param_<k>` attribute with value v. |
| `Spans.Span.AddQueryParams` | isqlx.go:250-254 | Appends one parameter attribute per positional argument, in order (the corrected behaviour, see Findings). |
| `Spans.PositionalParamsTags` | isqlx.go:250-254 | The i-th argument is tagged exactly once, under `param_<i>`, with its text. No other parameter key is set. |
| `Spans.AddQueryParamsAsWrittenDiverges` | isqlx.go:250-254 | As written, `addQueryParams` never finishes on a non-empty argument list, at any stack depth. |
| `Spans.CallSiteDiverges` | isqlx.go:132-136 | The executors pass their arguments as one element, so as written the tagging never finishes, even for a query without arguments. |
| `Executors.ExecutorLogShape` | isqlx.go:132-192 | In every executor log, the core attributes appear once each. Parameter attributes come only from the parameter step. The row count and errors come only from the outcome step. `End` is called twice. |
| `Executors.GetContext` | isqlx.go:132-148 | Returns the driver's error unchanged. Starts exactly one span, named after the driver and the query, whose log is `GetContextEvents`. |
| `Executors.GetContextTags` | isqlx.go:132-148 | "No rows" gives row count 0 and no recorded error. Any other failure records that error and gives no row count. Success gives neither. The core and parameter attributes are set. |
| `Executors.SelectContext` | isqlx.go:150-168 | Returns the driver's error unchanged. Starts exactly one span whose log is `SelectContextEvents`. |
| `Executors.SelectContextTags` | isqlx.go:150-168 | Failures are tagged as in `getContext`. On success the row count is `getReturnedRows(dest)` exactly when that is not -1, and there is no row count otherwise. No error is recorded. |
| `Executors.NamedParamsTags` | isqlx.go:176-180 | Each key of the argument map gets exactly one `param_<key>` attribute with the text of its value. Absent keys get none, and there are as many attributes as keys. |
| `Executors.NamedExecContext` | isqlx.go:170-192 | Returns the driver's result unchanged. Iterates over every key of a map argument exactly once. Starts exactly one span whose log is `NamedExecEvents`. |
| `Executors.NamedExecTags` | isqlx.go:170-192 | A map argument gives one parameter attribute per key, and any other argument gives none. A "no rows" failure records nothing. Any other failure records that error. A success tags the affected-row count when the driver reports one. |
| `Executors.NamedExecIdExample` | isqlx.go:176-179 | The argument `{"id": 7}` tags `db.statement.param_id` with "7". |
| `Executors.AffectedRowsAsWrittenDropsCount` | isqlx.go:187-189 | As written, a mutation that reports 3 affected rows tags no count. The corrected test tags 3. |
| `Transactions.SqlTx.Commit` | isqlx.go:103 | The first finalisation commits, whatever the driver reports. Any later one returns ErrTxDone and changes nothing. |
| `Transactions.SqlTx.Rollback` | isqlx.go:120-128 | The first finalisation rolls back, whatever the driver reports. Any later one returns ErrTxDone and changes nothing. |
| `Transactions.TransactionSpanNames` | isqlx.go:99-115 | The handle's spans are named `<driver>.commit` and `<driver>.rollback`. |
| `Transactions.CommitTags` | isqlx.go:99-109 | The commit span records an error exactly when the commit failed, and then exactly that error. It carries no row count. |
| `Transactions.TxCloseTags` | isqlx.go:114-130 | The closer span never records an error. |
| `Transactions.Tx.Commit` | isqlx.go:99-109 | Makes exactly one commit attempt and returns its error unchanged. From Open the state becomes Committed. On a finished transaction it returns ErrTxDone. It records the error on one span. |
| `Transactions.Tx.TxClose` | isqlx.go:114-130 | Makes exactly one rollback attempt and discards its outcome. The panic value is raised again unchanged. A transaction that was already finished keeps its state. One rollback span is started. |
| `Transactions.Tx.GetContext` | isqlx.go:87-89 | Delegates to `getContext` with the handle's driver and tracer. |
| `Transactions.Tx.SelectContext` | isqlx.go:91-93 | Delegates to `selectContext` with the handle's driver and tracer. |
| `Transactions.Tx.NamedExecContext` | isqlx.go:95-97 | Delegates to `namedExecContext` with the handle's driver and tracer. |
| `Transactions.DBX.GetContext` | isqlx.go:66-68 | Delegates to `getContext` with the handle's driver and tracer. |
| `Transactions.DBX.SelectContext` | isqlx.go:70-72 | Delegates to `selectContext` with the handle's driver and tracer. |
| `Transactions.DBX.NamedExecContext` | isqlx.go:74-76 | Delegates to `namedExecContext` with the handle's driver and tracer. |
| `Transactions.DBX.Begin` | isqlx.go:78-85 | A driver failure gives no handle and that same error. Otherwise it gives a new handle over an open transaction, with the same driver and tracer. |
| `Transactions.CommitThenClose` | isqlx.go:99-130 | Begin, Commit, TxClose: the transaction stays committed and nothing is raised. One commit and one rollback are attempted. Two spans are started. |
| `Transactions.PanicThenClose` | isqlx.go:114-121 | After a panic in the transaction, TxClose rolls back once and raises the same value again. |
| `Transactions.CloseTwice` | isqlx.go:122-129 | Calling TxClose twice never raises. The second rollback is refused and ignored. |
| `Transactions.CommitTwice` | isqlx.go:99-109 | A second commit returns ErrTxDone and the transaction stays committed. |

## Left out

- OpenTelemetry's tracer and span are foreign. The model records the calls made on a span, not what an exporter keeps. A real SDK ignores attributes and errors set after `End`. Since `newSpan` already ended the span, it would drop everything the executors add after the core attributes. That effect is not modelled.
- `context.Context`: propagation, deadlines and cancellation are passed through and not modelled.
- The database driver and sqlx are not part of this model. `Beginx`, `Commit`, `Rollback`, `GetContext`, `SelectContext`, `NamedExecContext` and `RowsAffected` are inputs: the outcome each reports.
- The handle methods pass the handle itself as the `Querier` (isqlx.go:67, 71, 75, 88, 92, 96). So the executor's driver call (isqlx.go:138, 156, 182) re-enters the same handle method without end. The model's executors take the driver's outcome directly instead. It also passes the positional arguments through as one sequence, where the source wraps them differently at isqlx.go:67, 71 and 92 than at 88.
- `log.Printf` in `TxClose` (isqlx.go:119): the diagnostic is not modelled.
- Go's panic and recover runtime is modelled as an input value and an output value. Two cases are not modelled. One is `recover` returning nil when `TxClose` is not called directly by a deferred call. The other is `panic(nil)` before Go 1.21.
- `NewMySQLDBX` and `GetSQLX` are a constructor and an escape hatch with no logic. The `DBX` constructor takes the driver name as a parameter.
- `reflect` is replaced by the `Dest` datatype. A nil destination, for which `reflect.TypeOf(dest).Kind()` would panic, is not a `Dest`.
- Classifier.LowerRune maps ASCII capitals, U+0130 and U+212A as `unicode.ToLower` does. It keeps every other rune unchanged. Its result differs from Go's for other non-ASCII capitals, but no tag can differ, because every verb is ASCII.
- Format.Sprint renders integers, strings, booleans, nil and slices. Any other value is `Rendered(text)` with the text `%v` would give.
- Spans.AttrValue.Int64 holds an unbounded integer. The `int64` conversion of a count (isqlx.go:164) is not bounded.
- Executors.NamedExecContext tags the affected-row count when `RowsAffected()` succeeds, which is the corrected test. The test as written is kept as `Executors.AffectedRowsEventsAsWritten` (see Findings).
- Spans.Span.AddQueryParams is the corrected per-index tagging. The self-recursive version as written is kept as `Spans.AddQueryParamsAsWritten` (see Findings).

## Findings

| source | as written | input that shows it | evidently intended | confidence | as-written member | corrected member |
|---|---|---|---|---|---|---|
| isqlx.go:250-254 | `addQueryParams` calls itself with `(i, text)` instead of `addQueryParamAttribute`. The executors pass their argument list to it as one element (isqlx.go:136, 154), so that list is never empty. | Any `GetContext` or `SelectContext` call, even `"select 1"` with no arguments: the recursion never ends. | One `db.statement.param_<i>` attribute per positional argument, with that argument's text. | high, not executed | `Spans.AddQueryParamsAsWritten`, shown by `Spans.CallSiteDiverges` | `Spans.Span.AddQueryParams`, proved by `Spans.PositionalParamsTags` |
| isqlx.go:187-189 | The affected-row count is tagged only when `RowsAffected()` returns an error. | A successful mutation whose driver reports 3 affected rows tags no count. | Tag the count when `RowsAffected()` succeeds. | high, not executed | `Executors.AffectedRowsEventsAsWritten`, shown by `Executors.AffectedRowsAsWrittenDropsCount` | `Executors.AffectedRowsEvents`, used by `Executors.NamedExecContext` and proved by `Executors.NamedExecTags` |

# felipeflores/utils — a Dafny model of its typed HTTP errors and their users

This project models the packages `ferrors`, `httpmiddleware`, `rest`, `persistence`, `transactions`, `httpserver`, `dbmigrate` and `utils` of the Go module `github.com/felipeflores/utils` and proves properties about that model:

- **Typed HTTP errors.** The seven error kinds of package `ferrors` (`ErrBadRequest`, `ErrConflict`, `ErrForbidden`, `ErrInternalServer`, `ErrNotAcceptable`, `ErrNotFound`, `ErrUnauthorized`). Each wraps a cause and carries a default status message; BadRequest and Conflict also carry a field map taken from a `validation.Errors` cause.
- **Status dispatch.** `httpStatusCode` is a first-match type switch over four capability interfaces.
- **The error middleware.** It runs a handler and, on error, writes the status and a JSON error envelope.
- **Request helpers.** The path/query parameter helpers of package `rest` (including the `GetUUIDList` loop), and JSON body decoding with validation.
- **SQL error mapping.** The mapping of SQL errors onto the kinds, and the begin/handler/rollback/commit protocol of `ExecTx`.
- **Server configuration.** The timeout defaulting of `httpserver.New`.
- **Migrations.** The decision sequence and deferred close-error merge of `dbmigrate.Up`.
- **List helpers.** `utils.Has` and `utils.Map`.

How the model represents Go:

- **Errors.** A Go `error` value is one datatype, `Ferrors.Error`. `Nil` stands for the nil interface. A value is described by what the code can observe of it:
  - whether it is nil;
  - the method set of its dynamic type;
  - its `Error()` text;
  - its identity with a package-level sentinel (`sql.ErrNoRows`, `sql.ErrTxDone`, `migrate.ErrNilVersion`, `migrate.ErrNoChange`, `dbmigrate.ErrDirtyMigration`);
  - the fields a kind stores.
- **Interfaces.** A type switch case on an interface matches when the interface's method set is contained in the value's.
- **`Error()`.** `Text(e)` is defined only when the call does not panic (`Renders(e)`: no nil reached through embedded causes). `FormatS` is fmt's `%s` of an error operand, including `%!s(<nil>)` for nil.
- **In-place state.**
  - `ErrUnauthorized` is a class, because `WithMessage` and `StatusOnly` assign its `message` through the pointer.
  - An `http.ResponseWriter` is a class recording the trace of status writes, header sets and body writes.
  - An `*sql.Tx` is a class with a state (active, committed, rolled back) and the trace of calls made on it: by `ExecTx` and by the handler it passes the transaction to. What the handler does with the transaction (nothing, a Rollback or a Commit of its own) is an input.
- **Loops.** `GetUUIDList`, the options loop of `dbmigrate.Up`, `Has` and `Map` are methods with loops and invariants. `GetUUIDList` fills a preallocated `array`, as the Go code fills a preallocated slice.

Files, one module each: `common.dfy` (Option, Result), `gostrings.dfy` (strings.Split / Join), `ferrors.dfy`, `httperrors.dfy`, `httpmiddleware.dfy`, `restparameter.dfy`, `rest.dfy`, `sqltx.dfy` (the part of database/sql that is used), `persistence.dfy`, `transactions.dfy`, `httpserver.dfy`, `dbmigrate.dfy`, `utils.dfy`.

Inputs that stand for things outside the module:

- Library parsers (`strconv.Atoi`, `strconv.ParseInt`, `strconv.ParseBool`, `uuid.FromString`) are total function parameters. Each returns a value or the text of its error.
- What the JSON decoder leaves in the payload, and whether it failed, is a `Decoded` value.
- `Validate()` is a function parameter.
- `time.Now()` is a timestamp parameter.
- Whether the JSON encoder succeeds is a boolean.
- What the database reports for BeginTx, Rollback and Commit is a `Driver` value.
- What the migrator reports for each of its calls is a `Migrator` value.

Where the prose description of the module and the code differ, the model follows the code:

- `HandlerError` writes the status before `SendJSON` sets `Content-Type`.
- The envelope message is `err.Error()` (the cause's text), not the kind's message or `Msg()`.
- `Fields` is never filled in.
- The mutators of `ErrUnauthorized` change the receiver in place.
- A kind built around a nil cause is allowed; calling `Error()` on it then panics.
- The doc comment of `NewUnauthorized` (ferrors/unauthorized.go:18-21) says the message is set to `err.Error()` and that a nil err panics. The code (line 26) sets the message to "Unauthorized" and never calls `err.Error()`, so a nil err does not panic there.

## Model

| member | source | states |
|---|---|---|
| Ferrors.Capabilities | ferrors/badrequest.go:27-29 | the capability markers of a value are marker methods that its type defines |
| Ferrors.Methods | ferrors/badrequest.go:27-33 | the method set of a value's type: plain errors, validation maps and sentinels have none beyond `Error()`; `GetFields` belongs to BadRequest and Conflict (and foreign types that define it) |
| Ferrors.Text | ferrors/notfound.go:5-8 | `Error()`; a kind's `Error()` is promoted from its embedded cause |
| Ferrors.GetFields | ferrors/badrequest.go:31-33 | `GetFields()` of a BadRequest or Conflict (also ferrors/conflict.go:31-33) returns exactly the stored map |
| Ferrors.FormatS | dbmigrate/dbmigrate.go:67 | `%s` of a non-nil error is its `Error()` text; nil prints `%!s(<nil>)` |
| Ferrors.Wrap | persistence/persistence.go:79 | `errors.Wrap` is nil exactly for a nil error; otherwise its text is "msg: cause", and of the tracked methods it has only `Cause()` |
| Ferrors.FieldsOf | ferrors/badrequest.go:16-19 | the field map is present exactly when the cause is a `validation.Errors`, and is then that map |
| Ferrors.NewBadRequest | ferrors/badrequest.go:15-33 | stores the cause unchanged, message "Bad Request", fields from the cause; carries only the BadRequest marker plus `GetFields`; `Error()` is the cause's text |
| Ferrors.NewConflict | ferrors/conflict.go:15-33 | stores the cause, message "Conflict", fields from the cause; has `GetFields` but no `BadRequest`; `Error()` is the cause's text |
| Ferrors.NewForbidden | ferrors/forbidden.go:12-21 | stores the cause, message "Forbidden"; its only method is `Forbidden()`; `Error()` is the cause's text |
| Ferrors.NewInternalServer | ferrors/internalserver.go:10-19 | stores the cause, message "Internal Server Error"; its only method is `InternalServer()`; `Error()` is the cause's text |
| Ferrors.NewNotAcceptable | ferrors/notacceptable.go:10-19 | stores the cause, message "Not Acceptable"; its only method is `NotAcceptable()`; `Error()` is the cause's text |
| Ferrors.NewNotFound | ferrors/notfound.go:10-19 | stores the cause, message "Not Found"; its only method is `NotFound()`; `Error()` is the cause's text |
| Ferrors.KindsCarryOneCapability | ferrors/unauthorized.go:25-31 | every constructor yields exactly its own capability marker, whatever the cause |
| Ferrors.KindsAreSingleTagged | ferrors/notfound.go:17-19 | no kind carries two capability markers |
| Ferrors.UnauthorizedError.constructor | ferrors/unauthorized.go:25-27 | `NewUnauthorized(err)` stores err as the cause, with message "Unauthorized" |
| Ferrors.UnauthorizedError.Value | ferrors/unauthorized.go:12-16 | the pointer denotes an Unauthorized value with the current cause and message; it carries the Unauthorized marker and `Msg()`; `Error()` is the cause's text |
| Ferrors.UnauthorizedError.Msg | ferrors/unauthorized.go:34 | `Msg()` is the current message |
| Ferrors.UnauthorizedError.Cause | ferrors/unauthorized.go:49-51 | `Cause()` is the error given at construction |
| Ferrors.UnauthorizedError.WithMessage | ferrors/unauthorized.go:37-40 | sets the message in place and returns the same pointer; the cause is unchanged |
| Ferrors.UnauthorizedError.StatusOnly | ferrors/unauthorized.go:43-46 | sets the message to "" in place and returns the same pointer; the cause is unchanged |
| GoStrings.Split | rest/parameter.go:86 | `strings.Split` always yields at least one piece |
| GoStrings.JoinSplit | rest/parameter.go:86 | joining the pieces of a split with the separator gives back the string |
| GoStrings.SplitPiecesHaveNoSeparator | rest/parameter.go:86 | no piece of a split contains the separator |
| GoStrings.SplitJoin | rest/parameter.go:130 | splitting the join of separator-free pieces gives back the pieces |
| GoStrings.JoinAppend | dbmigrate/dbmigrate.go:43 | joining one more piece appends the separator and the piece |
| HttpErrors.HttpStatusCode | httpmiddleware/errors.go:36-50 | the status is one of 400, 401, 404, 406, 500; 400 exactly when the value has both `BadRequest()` and `GetFields()`, 500 exactly when it satisfies none of the four interfaces |
| HttpErrors.Satisfies | httpmiddleware/errors.go:20-34 | a value satisfies an interface exactly when its type defines every method of the interface |
| HttpErrors.FirstMatch | httpmiddleware/errors.go:37-49 | a first-match switch yields the default or the status of one of its cases |
| HttpErrors.StatusIsFirstMatch | httpmiddleware/errors.go:37-49 | the dispatch is the first-match switch over badrequest, notfound, unauthorized, notacceptable, in that order, with default 500 |
| HttpErrors.StatusPriority | httpmiddleware/errors.go:41-46 | 404, 401 and 406 each hold exactly when that interface matches and no earlier case does |
| HttpErrors.StatusDependsOnlyOnMethods | httpmiddleware/errors.go:37 | two values with the same method set get the same status |
| HttpErrors.StatusOfKinds | httpmiddleware/errors.go:38-48 | BadRequest 400, NotFound 404, Unauthorized 401, NotAcceptable 406; Conflict, Forbidden and InternalServer 500 |
| HttpErrors.BadRequestNeedsBothMethods | httpmiddleware/errors.go:21-24 | `Conflict()`+`GetFields()` and a lone `BadRequest()` give 500; both badrequest methods win over notfound |
| HttpErrors.WrappedKindIsNotRecognised | httpmiddleware/errors.go:37 | a kind wrapped by `errors.Wrap` is not unwrapped and gives 500 |
| HttpErrors.UncategorisedIsInternal | httpmiddleware/errors.go:47-48 | a value without any of the four dispatched marker methods (`BadRequest`, `NotFound`, `Unauthorized`, `NotAcceptable`) gives 500 |
| HttpErrors.UnauthorizedObjectIs401 | ferrors/unauthorized.go:31 | an `ErrUnauthorized` gives 401 whatever its message |
| HttpMiddleware.ResponseWriter.constructor | httpmiddleware/middleware.go:18 | a fresh writer has an empty trace |
| HttpMiddleware.ResponseWriter.WriteHeader | httpmiddleware/middleware.go:25 | records one status write |
| HttpMiddleware.ResponseWriter.SetHeader | httpmiddleware/middleware.go:37 | records one header set |
| HttpMiddleware.ResponseWriter.Encode | httpmiddleware/middleware.go:38 | records the body exactly when encoding succeeds, and reports it |
| HttpMiddleware.SentStatus | httpmiddleware/middleware.go:25 | no status is on the wire exactly when the trace holds only header sets |
| HttpMiddleware.SentStatusAppend | httpmiddleware/middleware.go:25-31 | once a status is on the wire, later events do not change it |
| HttpMiddleware.Envelope | httpmiddleware/middleware.go:27-30 | the envelope holds the timestamp, the message `err.Error()` and no fields |
| HttpMiddleware.SendJSON | httpmiddleware/middleware.go:36-43 | sets `Content-Type: application/json`, then writes the body, or on encode failure writes 500 and returns "Error to decode" |
| HttpMiddleware.HandlerError | httpmiddleware/middleware.go:17-34 | a nil handler result leaves the trace untouched; otherwise the trace gets the dispatched status, the content type, then the envelope or a 500; the SendJSON error is discarded |
| HttpMiddleware.HandlerErrorSendsDispatchedStatus | httpmiddleware/middleware.go:22-25 | when the handler itself put no status on the wire, the client receives the dispatched status, even when encoding fails (the later 500 is superfluous) |
| HttpMiddleware.EnvelopeIgnoresKindMessageAndFields | httpmiddleware/middleware.go:23-30 | the envelope of an Unauthorized or BadRequest carries the cause's text, never the kind's message, and no fields |
| RestParameter.QueryGet | rest/parameter.go:204 | the first value stored for the key when the key has at least one value, and "" otherwise (a non-empty result always comes from the query) |
| RestParameter.MissingParameterErr | rest/parameter.go:194-196 | a BadRequest with text "missing <param> parameter", no fields, status 400 |
| RestParameter.BadRequestErr | rest/parameter.go:198-201 | a BadRequest with text "Err: <err> message <m>", no fields, status 400 |
| RestParameter.GetParam | rest/parameter.go:203-214 | succeeds exactly when the query value is non-empty or the path variable exists; the query wins, then the path variable (even empty); otherwise the missing-parameter error |
| RestParameter.QueryShadowsPath | rest/parameter.go:204-210 | a query value shadows the path variable only when it is non-empty |
| RestParameter.GetString | rest/parameter.go:73-75 | GetString equals getParam |
| RestParameter.GetStringList | rest/parameter.go:78-87 | a missing parameter gives [] and the error; otherwise at least one piece, none containing ",", whose join with "," is the raw value |
| RestParameter.Atoi | rest/parameter.go:176-183 | a parsed value with nil, or 0 and a 400 BadRequest "Err: <err> message <param> must be an int" |
| RestParameter.Atoi64 | rest/parameter.go:185-192 | a parsed value with nil, or 0 and a 400 BadRequest "... must be an int64" |
| RestParameter.GetInt | rest/parameter.go:18-30 | the getParam error with 0; the parsed value; or 0 and a BadRequest around atoi's BadRequest with "<param> must be integer" |
| RestParameter.GetIntFailureText | rest/parameter.go:24-27 | GetInt's parse failure nests atoi's text inside its own and dispatches to 400 |
| RestParameter.GetIntOrDefault | rest/parameter.go:33-45 | the default with a non-nil error exactly when the parameter is missing or not an integer; otherwise the parsed value and nil |
| RestParameter.GetInt64 | rest/parameter.go:48-55 | the getParam error with 0, or atoi64's result unchanged |
| RestParameter.GetUUID | rest/parameter.go:58-70 | uuid.Nil with the getParam error, the parsed id, or uuid.Nil with a BadRequest "... must be an UUIDv4" |
| RestParameter.GetBool | rest/parameter.go:90-102 | false with the getParam error, the parsed bool, or false with a BadRequest "... must be a bool" |
| RestParameter.ParseIds | rest/parameter.go:134-138 | parsing the pieces in order; a success has one id per piece |
| RestParameter.ParseIdsMeaning | rest/parameter.go:134-138 | parsing the pieces succeeds with one id per piece, in order; or it fails with the error of the first piece that does not parse |
| RestParameter.ParseIdsStep | rest/parameter.go:134-138 | one more piece either keeps the earlier failure or adds its own parse |
| RestParameter.LaterFailureAborts | rest/parameter.go:136-138 | once a piece fails, the whole parse fails with its error |
| RestParameter.ElemsBound | rest/parameter.go:148 | a list has at most as many distinct ids as entries, and exactly as many when no id repeats |
| RestParameter.KeepFirst | rest/parameter.go:140-145 | the filled array has one slot per parsed id |
| RestParameter.KeepFirstAppend | rest/parameter.go:140-145 | one more id fills its slot when it is new, and leaves the zero UUID when it was seen |
| RestParameter.UUIDListAsWritten | rest/parameter.go:148 | the result has one entry per distinct id and is a prefix of the filled array |
| RestParameter.PlaceId | rest/parameter.go:140-145 | one loop iteration keeps the loop's layout one id further: the set holds exactly the ids seen, each slot seen holds its id at the first occurrence and the zero UUID at a repeat, and later slots stay zero |
| RestParameter.PlaceFirstOccurrences | rest/parameter.go:130-148 | the loop returns the first parse error, or the filled array cut to the number of distinct ids |
| RestParameter.GetUUIDList | rest/parameter.go:122-149 | [] with the getParam error; [] with a BadRequest "... must be be an UUIDv4 list" when a piece fails; otherwise the as-written list |
| RestParameter.UUIDListWithoutDuplicates | rest/parameter.go:140-148 | without repeats the result is the parsed ids in input order |
| RestParameter.UUIDListWithDuplicate | rest/parameter.go:140-148 | "a,a,b" gives [a, uuid.Nil] |
| RestParameter.Dedup | rest/parameter.go:140-148 | the intended result: no repeats, and the same set of ids |
| RestParameter.DedupExtends | rest/parameter.go:140-148 | the intended result for a list without its last id is a prefix of the result for the list, and a new last id is appended |
| RestParameter.DedupFirstOccurrenceOrder | rest/parameter.go:140-148 | the intended order: an id first seen at index k sits at the position counting the distinct ids before k (where the written code puts it at k) |
| RestParameter.DedupProperties | rest/parameter.go:148 | the intended result has one entry per distinct id, and a list without repeats is returned unchanged |
| RestParameter.UUIDListDiffersFromDedup | rest/parameter.go:140-148 | the written and the intended results differ on "a,a,b" |
| RestParameter.CollectDistinct | rest/parameter.go:134-146 | the corrected loop returns the first parse error or the distinct ids in first-occurrence order |
| RestParameter.GetUUIDListDistinct | rest/parameter.go:122-149 | GetUUIDList with the corrected loop |
| Rest.ReadJSON | rest/rest.go:14-21 | the payload as decoded; nil exactly when decoding succeeds; otherwise a 400 BadRequest "Err: <err> message: bad json format" with no fields |
| Rest.DeserializeJSON | rest/rest.go:25-27 | ReadJSON with the background context |
| Rest.ReadJSONIgnoresContext | rest/rest.go:14-21 | the context has no effect on the result |
| Rest.RequestBody | rest/rest.go:29-43 | a decode error is returned unchanged; a Validate error becomes `NewBadRequest(err)`, 400, with the validator's field map; nil exactly when both succeed |
| Rest.DecodeFailureSkipsValidation | rest/rest.go:32-36 | when decoding fails the validator does not influence the result |
| SqlTx.Tx.constructor | transactions/transaction.go:22-25 | a begun transaction is active, with the requested isolation and no calls |
| SqlTx.Tx.RollbackResult | persistence/persistence.go:96 | an active transaction returns the driver's rollback result; a finished one refuses the rollback with sql.ErrTxDone |
| SqlTx.Tx.CommitResult | transactions/transaction.go:39 | an active transaction returns the driver's commit result; a finished one refuses the commit with sql.ErrTxDone |
| SqlTx.Tx.Rollback | transactions/transaction.go:32 | records the call; an active transaction becomes rolled back |
| SqlTx.Tx.Commit | transactions/transaction.go:39 | records the call; an active transaction becomes committed |
| SqlTx.Tx.RunHandler | transactions/transaction.go:30 | the handler receives the live transaction, may roll it back or commit it itself (through Rollback/Commit, so a second end is refused), and its outcome is returned |
| SqlTx.BeginTx | transactions/transaction.go:22-28 | the database's error and no transaction, or a fresh active one with the requested isolation |
| Persistence.HandleError | persistence/persistence.go:73-83 | nil stays nil; an error identical to sql.ErrNoRows becomes NotFound; any other error becomes InternalServer; both wrap the error with msg |
| Persistence.HandleErrorStatus | persistence/persistence.go:78-82 | 404 for sql.ErrNoRows, 500 otherwise, a wrapped ErrNoRows included; the text is "<msg>: <err>" |
| Persistence.HandleNoRowsAsNonError | persistence/persistence.go:86-92 | nil exactly for nil and sql.ErrNoRows; otherwise an InternalServer, 500 |
| Persistence.HandleErrorWithTx | persistence/persistence.go:95-101 | rolls back exactly once and always returns an InternalServer; a failed rollback replaces the error with "Error rolling back tx of <msg>: ..."; a nil err gives a nil cause |
| Transactions.ExecTx | transactions/transaction.go:20-41 | a begin error is returned without running the handler; otherwise a serializable transaction; a failing handler gets a rollback and its own error back whatever the rollback reports; a succeeding one gets a commit whose result is returned, which is sql.ErrTxDone when the handler already rolled back or committed |
| HttpServer.OrDefault | httpserver/httpserver.go:30-32 | a timeout below one second is replaced by the default; any other is kept |
| HttpServer.Normalized | httpserver/httpserver.go:30-44 | each of the four timeouts is defaulted independently (15s, 15s, 60s, 10s); the address is kept |
| HttpServer.NormalizedProperties | httpserver/httpserver.go:30-44 | after normalising every timeout is at least one second; normalising is idempotent; a config already at or above one second is unchanged |
| HttpServer.New | httpserver/httpserver.go:29-60 | the server gets the address, the handler and the normalised write, read and idle timeouts; the shutdown timeout is kept only in the stored config |
| DbMigrate.Dsn | dbmigrate/dbmigrate.go:46-54 | the DSN starts with "postgres://" and ends with the query |
| DbMigrate.SourceUrl | dbmigrate/dbmigrate.go:57 | the source is "file://" followed by the directory |
| DbMigrate.JoinOptions | dbmigrate/dbmigrate.go:36-44 | the options joined with "&", and "" for none |
| DbMigrate.DecisionSequence | dbmigrate/dbmigrate.go:86-126 | Force is called exactly when ForceVersion > 0 and its error is returned; a Version error other than ErrNilVersion is returned; a dirty state returns ErrDirtyMigration without attempting Up; ErrNoChange from Up is success; otherwise the error of the second Version |
| DbMigrate.CloseMerge | dbmigrate/dbmigrate.go:63-79 | the deferred merge as written: a source error is appended or adopted; a database error is adopted when there is no error yet, but otherwise `se` is formatted in its place: with a nil `se` the text ends in `%!s(<nil>)`, and with both close errors it is "<se>; <se>" or "<err>; <se>; <se>", so `de` is lost either way |
| DbMigrate.Migrate | dbmigrate/dbmigrate.go:86-126 | the body's error and the migrator calls are those of the decision sequence |
| DbMigrate.Up | dbmigrate/dbmigrate.go:34-127 | a `migrate.New` failure is returned with no Close; otherwise New on "file://<dir>" and "postgres://<user>:<pass>@<host>:<port>/<db>?<query>", then the decision sequence, then Close, with the merged close errors |
| DbMigrate.CloseMergeDiffersFromIntended | dbmigrate/dbmigrate.go:72-78 | with a pending error, a nil source error and a database error, the written merge loses the database error that the intended one keeps |
| DbMigrate.CloseMergeIntended | dbmigrate/dbmigrate.go:63-79 | the intended merge: nil exactly when all three are nil; the texts of the pending, source and database errors appear in that order, separated by "; " |
| DbMigrate.UpIntended | dbmigrate/dbmigrate.go:34-127 | Up with the intended merge; a database close error is never lost |
| Utils.Has | utils/list.go:3-10 | true exactly when some entry equals o; false on an empty list |
| Utils.Map | utils/list.go:12-18 | same length, and entry i is f(list[i]) |

## Left out

- Logging (`fmt.Println` in the middleware and dispatch, the zap logger in `dbmigrate.Up`). It has no effect on results.
- `ErrUnauthorized.Format` and `StackTrace`. They change how fmt prints the value, unless its cause formats itself: `%s` and `%v` come out quoted, `%q` unquoted and `%+v` as the stack trace. `FormatS` therefore does not model `%s` of an `ErrUnauthorized`; no modelled path formats one.
- `GetDateOrDefault`, `GetTime` and `getTime`. They are thin wrappers over `time.Unix`/`time.Parse`, whose calendar arithmetic is not modelled.
- The JSON bytes written by the encoder. The body event carries the envelope value.
- The clock. `time.Now()` is a timestamp parameter.
- The `validation.Errors` text. How the validation library renders its map is a stored string.
- HandlerError's request context plumbing (`req.WithContext`). It passes the same context through.
- Go's distinction between a nil and an empty map or slice. This covers the nil field map versus an empty one, and the non-nil empty result of `Map`.
- Pointer identity of `errors.New` values. Two plain errors with equal text are equal in the model. Sentinels are separate constructors, so `==` against a sentinel is modelled exactly.
- Header freezing after `WriteHeader` in net/http. The trace records every `Set` call; `SentStatus` states which status reaches the wire.
- HttpMiddleware.HandlerError: requires the handler's error to render, so the Go panic of `err.Error()` on a kind whose cause is nil (what `HandleErrorWithTx(tx, nil, msg)` builds after a successful rollback) is not modelled.
- HttpMiddleware.SendJSON: modelled only for the `ErrorResponse` payload that `HandlerError` passes. An encode failure writes no partial body.
- `HttpServer.Start`, `Run`, `Shutdown`, `httpclient`, `config`, `log`, the Mongo persistence, and `persistence.New`, `Closer`, `GenerateUUID` and `GetJsonObjectFromString`. These are I/O, signals and goroutines, outside the modelled packages.
- The integer width of `strconv.Atoi` and `ParseInt`. Range errors are whatever the parser parameter reports.
- DbMigrate.Up: the migrator's own behaviour (reading files, talking to Postgres) is an input. Only the calls made and the error returned are stated. Its `requires Reports(m)`, like the `requires Printable` of `FormatS` and `CloseMerge`, leaves out errors whose `Error()` panics. fmt would print such an error as a `%!s(PANIC=Error method: ...)` notice; golang-migrate never returns one.

## Findings

| source | as written | input that shows it | evidently intended | confidence | as-written member | corrected member |
|---|---|---|---|---|---|---|
| dbmigrate/dbmigrate.go:72-78 | when closing the database fails and an error is already pending, the merge formats `se` (the source close error) instead of `de`; when both close errors occur `se` is printed twice | pending error "up failed", `se` nil, `de` "connection reset": the result text is "up failed; %!s(<nil>)" | format `de`, giving "up failed; connection reset" (and "<err>; <se>; <de>" when both close errors occur) | not executed | DbMigrate.CloseMergeDiffersFromIntended | DbMigrate.CloseMergeIntended |
| rest/parameter.go:140-148 | ids are stored at the index of their first occurrence and the slice is cut to the number of distinct ids, so after a repeat a later new id falls beyond the cut and a zero UUID stays inside it | "a,a,b" gives [a, uuid.Nil] | the distinct ids in first-occurrence order, [a, b] | not executed | RestParameter.UUIDListWithDuplicate | RestParameter.GetUUIDListDistinct |

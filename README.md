# Stock tracker backend telemetry, modelled in Dafny

The stock tracker's Go backend is a small HTTP service. It serves market
data from two upstream APIs, keeps a per-user watchlist and accepts log
events from the browser. Most of its code is OpenTelemetry, slog, GORM and
net/http glue around a few handlers. This project models that glue and
proves what it promises. It covers the following parts:

- **Database hooks** (`Database`, database.go): the environment-driven
  connection string, the before-hooks that attach a start time, the
  after-hook that labels, counts and times each query and marks the span,
  the `initDB` step chain and `CloseDB`.
- **Trace-correlated log handler** (`LoggingMiddleware`,
  loggingMiddleware.go).
- **HTTP metrics middleware** (`PromMiddleware`, promMiddleware.go): the
  status- and size-capturing response writer, the recording rule, and
  `InitHTTPMetrics`.
- **Telemetry bootstrap** (`OpenTel`, opentel.go): the `initTelemetry`
  chain and the shutdown function it returns.
- **Login and registration** (`UserFuncs`, `UserFuncsProps`,
  user-funcs.go). Each handler is a specification function over the
  outcomes of its steps, giving the reply, the spans, the metrics and the
  log. A method performs the calls in the handler's order and is proved to
  produce exactly those effects.
- **Market-data and watchlist handlers** (`StockFuncs`, `StockFuncsProps`,
  stock-funcs.go). These cover:
  - the CSV "Active" filter;
  - the coin `{Symbol, Id}` projection;
  - the watchlist type dispatch;
  - the request metric, with the status each path records.
- **Frontend log ingestion** (`FrontendLogger`, frontendlogger.go).

The OpenTelemetry, slog and metric libraries are stand-ins in `Telemetry`.
Each stand-in is an object that logs the calls made on it:
- a `Span` keeps its calls (`SetStatus`, `RecordError`, `AddEvent` and
  `End`);
- a `Recorder` keeps its observations;
- a `Logger` keeps its entries;
- a `Console` keeps its printed lines.

A `Tracer` issues span identities from a counter. Contexts are the chain of
`WithValue` links that the Go context package builds. Header extraction
follows the W3C Trace Context recommendation (section 3.2, the
`traceparent` header) and W3C Baggage. The outcomes of foreign calls are
parameters:
- JSON decoding and encoding;
- `http.Get`;
- database answers;
- exporter and instrument creation;
- provider shutdown.

The clock is a natural-number tick count.

Where the code departs from what one might expect (idempotent hooks and
shutdown, a recording check), the model follows the code:
- the before-hook overwrites an earlier start time, so it is not
  idempotent;
- the shutdown function has no repeat guard;
- the span check in the log handler tests that the span context is valid,
  not that the span is recording;
- a login lookup that finds no row still marks its database span Error
  (LoginNotFoundMarksDbSpan);
- the process logger that `initTelemetry` installs is a plain JSON handler.
  The trace-correlating handler is defined but never installed, so the
  handlers' log records carry only their explicit attributes;
- `addToWatchlist` returns after an encoding failure without recording the
  request, unlike the other handlers.

## Model

| member | source | states |
|---|---|---|
| Wrappers.FirstFailure | backend/opentel.go:44-154 | the index of the first failing step of a chain: every step before it succeeded, and the step at it failed unless it is the length |
| Wrappers.FirstFailureIs | backend/database.go:59-109 | an index with all earlier steps passing and a failure at it (or the end) is the first-failure index |
| Telemetry.Hex | backend/loggingMiddleware.go:23-24 | TraceID().String() and SpanID().String() print a fixed number of lower-case hexadecimal digits |
| Telemetry.HexRoundTrip | backend/loggingMiddleware.go:23-24 | a number below 16^width printed in hex with that width reads back to itself |
| Telemetry.TraceIdString | backend/loggingMiddleware.go:23 | a printed trace id has 32 digits |
| Telemetry.SpanIdString | backend/loggingMiddleware.go:24 | a printed span id has 16 digits |
| Telemetry.IdStringsReadBack | backend/frontendlogger.go:34-35 | the printed trace and span ids of an in-range span context read back to its ids |
| Telemetry.EndOnce | backend/user-funcs.go:76 | ending a span that was never ended closes it (last call End, ended once) and keeps its status and errors |
| Telemetry.SpanOfContextWithSpan | backend/user-funcs.go:66 | the context a span was started into yields that span and its context |
| Telemetry.ChildContext | backend/user-funcs.go:66 | a started span's identity is valid, and continues its parent's trace when the parent's is valid |
| Telemetry.Tracer.Start | backend/user-funcs.go:66 | tracer.Start returns a fresh span that is a child of the context's span, with no calls yet, and a context holding it; the issue count grows by one |
| Telemetry.WhenPresent | backend/database.go:167-174 | a nil instrument records nothing; a non-nil one records exactly one observation |
| Telemetry.RecordIfPresent | backend/database.go:167-174 | the `if x != nil { x.Add(...) }` shape appends WhenPresent |
| Telemetry.TraceContextExtraction | backend/frontendlogger.go:27-28 | Trace Context extraction yields the header's span context, marked remote, when it is valid, and otherwise the context's own |
| Telemetry.GlobalPropagatorSpanContext | backend/opentel.go:86 | the composite TraceContext+Baggage propagator yields the same span context as Trace Context alone, and reads traceparent, tracestate and baggage |
| Database.GetEnv | backend/database.go:218-223 | the variable's value when it is set and non-empty, the default otherwise |
| Database.GetEnvNeverEmpty | backend/database.go:218-223 | with a non-empty default the result is never empty |
| Database.DsnPairs | backend/database.go:214-215 | the connection string is six key=value pairs |
| Database.SplitSpaces | backend/database.go:214-215 | splitting at spaces yields at least one part |
| Database.SplitWord | backend/database.go:214-215 | splitting a space-free word followed by a space and more yields the word and then the rest's parts |
| Database.SplitJoin | backend/database.go:214-215 | splitting space-free parts joined by spaces recovers the parts |
| Database.ConnectionStringFields | backend/database.go:206-216 | when no setting contains a space, the connection string splits into exactly host, user, password, dbname, port and sslmode pairs, in that order |
| Database.DefaultConnectionParams | backend/database.go:207-212 | with no variable set, every field takes its default (localhost, abdullah, edhi, mydb1, 5432, disable) |
| Database.Statement.constructor | backend/database.go:143-147 | a statement holds the context, SQL, table and error GORM gives the callbacks |
| Database.RegisterStartTime | backend/database.go:111-141 | the before-hook replaces a nil context with Background and attaches the current time under "gorm_start_time", which is then the context's start time |
| Database.BeforeHookShadows | backend/database.go:116 | a second before-hook shadows the first start time, and keys other than the start-time key are unaffected |
| Database.OperationLabel | backend/database.go:149-154 | the operation label is the first six characters of the SQL text when it has at least six, and "unknown" otherwise (Go counts bytes here; see Left out) |
| Database.ErrorClassification | backend/database.go:157 | an outcome is an error exactly when it is an error other than ErrRecordNotFound |
| Database.RecordMetricsAndSpanStatus | backend/database.go:143-186 | the after-hook appends the duration (when a start time is present and the histogram is non-nil) and the count (when non-nil); it marks a recording span Error with the error text and records the error, or marks it Ok "OK"; a non-recording span is untouched |
| Database.MarkSpan | backend/database.go:176-185 | only a recording span is touched, with exactly the hook's status calls |
| Database.HookRecordsOneCount | backend/database.go:159-174 | with both instruments present, one call records exactly one count, and a duration only when a start time is present, all with the same db.operation/db.table/db.error attributes |
| Database.NoStartTimeNoDuration | backend/database.go:165-170 | without a start time no duration is recorded; only the count remains |
| Database.NotFoundIsNotAnError | backend/database.go:157-184 | record-not-found is tagged db.error=false and marks the span Ok "OK" |
| Database.FailureMarksSpan | backend/database.go:176-180 | any other error sets the span status to Error with its text and appends it to the recorded errors |
| Database.BeforeThenAfter | backend/database.go:116-168 | the duration the after-hook records is the time elapsed since the before-hook ran |
| Database.HookRegistrations | backend/database.go:111-192 | initDB registers ten callbacks, in order |
| Database.EveryOperationIsTimed | backend/database.go:111-192 | query, create, update, delete and raw each get the start-time hook before and the metrics hook after; a hook is the start-time hook exactly when it is registered before |
| Database.InitSteps | backend/database.go:60-196 | initDB has seven fatal steps |
| Database.StepsPassed | backend/database.go:60-196 | the number of fatal steps that succeed before the first failure, at most seven |
| Database.StepsPassedIsFirstFailure | backend/database.go:60-196 | that count is the first-failure index: every earlier step passed and the step at it failed |
| Database.InitDbErrorIsFirstFailure | backend/database.go:40-204 | initDB fails exactly when some fatal step fails, and then with that step's error under that step's prefix |
| Database.MigrateLines | backend/database.go:198-202 | a successful migration prints the index warning when the index fails, and then the success line |
| Database.IndexFailureIsNotFatal | backend/database.go:198-200 | a failing composite index never changes initDB's result |
| Database.Database.constructor | backend/database.go:21-26 | no DB, no instruments, no callbacks, nothing closed |
| Database.Database.Connect | backend/database.go:42-76 | DB is assigned whatever the open returns; the pool is configured only once the sql.DB is obtained; the error is the connection phase's |
| Database.Database.CreateInstruments | backend/database.go:78-97 | each instrument is assigned before its error is checked; the count instrument only when the histogram succeeded |
| Database.Database.EnableTracing | backend/database.go:99-192 | the plugin, then the ten callbacks exactly when the plugin succeeded |
| Database.Database.Migrate | backend/database.go:194-202 | migrate; on success try the index and print accordingly |
| Database.Database.InitDB | backend/database.go:40-204 | initDB's error is the first failing phase's; each phase's globals are set only when every earlier phase succeeded; the lines printed; CloseDB is not touched |
| Database.Database.CloseDB | backend/database.go:225-234 | with DB nil it returns nil and closes nothing; otherwise the sql.DB error is wrapped, or the Close result is returned after one close |
| LoggingMiddleware.NewOtelHandler | backend/loggingMiddleware.go:14-16 | the handler wraps the base handler it is given |
| LoggingMiddleware.Correlate | backend/loggingMiddleware.go:20-26 | the record keeps its level, message and attributes, and gains two attributes exactly when the span context is valid |
| LoggingMiddleware.ValidContextAppendsIds | backend/loggingMiddleware.go:20-26 | with a valid span context exactly trace_id then span_id are appended, taken from that span context, and they read back to its ids |
| LoggingMiddleware.InvalidContextPassesThrough | backend/loggingMiddleware.go:21-27 | with an invalid or absent span context the base handler receives the record unchanged and its error is returned |
| LoggingMiddleware.WrappedHandlerDelegates | backend/loggingMiddleware.go:18-28 | the base handler is called once, with the same context, and its result is returned; correlation under a started span uses that span's ids |
| PromMiddleware.DigitChar | backend/promMiddleware.go:97 | a digit is printed as a decimal digit character |
| PromMiddleware.NatToDecimal | backend/promMiddleware.go:97 | a non-empty string of decimal digits without a leading zero |
| PromMiddleware.Itoa | backend/promMiddleware.go:97 | strconv.Itoa is never empty |
| PromMiddleware.ParseNatToDecimal | backend/promMiddleware.go:97 | the decimal form of a natural reads back to it |
| PromMiddleware.AtoiItoa | backend/promMiddleware.go:97 | Atoi(Itoa(i)) == i for every integer, negatives included |
| PromMiddleware.ItoaStatus | backend/promMiddleware.go:97-104 | status 200 is labelled "200", 404 "404" |
| PromMiddleware.ResponseWriter.constructor | backend/promMiddleware.go:90 | the wrapper starts with status 200 and size 0 |
| PromMiddleware.ResponseWriter.WriteHeader | backend/promMiddleware.go:65-68 | WriteHeader stores the code, forwards it, and keeps the size |
| PromMiddleware.ResponseWriter.Write | backend/promMiddleware.go:70-74 | Write returns the wrapped writer's count and error, adds that count to the size (also on an error) and keeps the status |
| PromMiddleware.Forwarded | backend/promMiddleware.go:65-74 | every writer call is forwarded, one for one |
| PromMiddleware.NoHeaderKeepsStatus | backend/promMiddleware.go:90 | without WriteHeader the status stays as it was |
| PromMiddleware.LatestHeaderWins | backend/promMiddleware.go:65-68 | the status is the code of the most recent WriteHeader |
| PromMiddleware.TotalWrittenAppend | backend/promMiddleware.go:72 | the size adds up over consecutive handler phases |
| PromMiddleware.RunHandler | backend/promMiddleware.go:93 | after the wrapped handler the status is the last header code, the size grew by the bytes written, and every call was forwarded |
| PromMiddleware.FirstRegistrationError | backend/promMiddleware.go:22-56 | InitHTTPMetrics fails exactly when some registration fails |
| PromMiddleware.HttpMetrics.constructor | backend/promMiddleware.go:14-19 | no instrument is assigned |
| PromMiddleware.HttpMetrics.InitHTTPMetrics | backend/promMiddleware.go:22-56 | the first registration error is returned; each variable is assigned only when every earlier registration succeeded; later instruments are not registered; on success all four are set |
| PromMiddleware.HttpMetrics.ServeRequest | backend/promMiddleware.go:76-119 | one request: the writer starts at 200; the handler's calls pass through; then one count and one duration are recorded, the request size only when ContentLength > 0 and the response size only when it is positive |
| PromMiddleware.RouteLabel | backend/promMiddleware.go:82-87 | the route label is the mux path template when there is one, "unknown" otherwise |
| PromMiddleware.RequestRecordingRule | backend/promMiddleware.go:101-116 | the counter and the duration come first and exactly once; the sizes follow under their conditions; all carry method, route and status attributes |
| PromMiddleware.StatusLabel | backend/promMiddleware.go:97-104 | the http.status_code label is the decimal form of the captured status and reads back to it; it is "200" when the handler never wrote a header |
| OpenTel.InitSteps | backend/opentel.go:44-154 | initTelemetry has eleven fallible steps |
| OpenTel.AppInstruments | backend/opentel.go:101-154 | the six application instruments, in creation order |
| OpenTel.AfterAssigning | backend/opentel.go:101-154 | after n creations, instrument i is assigned when it is among the first n, and keeps its previous value otherwise |
| OpenTel.InstrumentsAssigned | backend/opentel.go:101-154 | between one and six instruments are assigned: each is assigned before its own error is checked |
| OpenTel.StepsPassed | backend/opentel.go:44-154 | the number of steps before the first failure, at most eleven |
| OpenTel.StepsPassedIsFirstFailure | backend/opentel.go:44-154 | that number is the first-failure index of the step chain |
| OpenTel.InitErrorIsFirstFailure | backend/opentel.go:41-154 | initTelemetry fails exactly when some step fails, and then with that step's error under that step's prefix |
| OpenTel.Calls | backend/opentel.go:179-198 | the Shutdown calls among the events |
| OpenTel.CallsAppend | backend/opentel.go:179-198 | the Shutdown calls of consecutive events add up |
| OpenTel.StepCalls | backend/opentel.go:179-198 | one shutdown block makes exactly one Shutdown call with the deadline when its component is present, none otherwise |
| OpenTel.ShutdownOrder | backend/opentel.go:174-201 | trace provider, then meter provider, then metrics server, each once and against the same five-second deadline, whatever earlier errors; nil ones are skipped |
| OpenTel.ErrorDoesNotStopShutdown | backend/opentel.go:179-200 | a failing trace-provider shutdown is logged, the other two still shut down, and the completion line is printed last |
| OpenTel.OtelGlobals.constructor | backend/opentel.go:25-39 | no global is set |
| OpenTel.OtelGlobals.Instruments | backend/opentel.go:25-32 | the six instrument variables, in creation order |
| OpenTel.OtelGlobals.StartLogging | backend/opentel.go:44-53 | on success a new logger whose only entry is "Logger initialized"; on failure the logger is unchanged |
| OpenTel.OtelGlobals.StartTracing | backend/opentel.go:55-86 | the tracer provider and the composite propagator are installed exactly when resource and exporter succeed |
| OpenTel.OtelGlobals.CreateInstruments | backend/opentel.go:88-154 | the meter provider, then the instruments as AfterAssigning states, with the first error |
| OpenTel.OtelGlobals.InitTelemetry | backend/opentel.go:41-172 | a shutdown function exactly when there is no error; the error is InitError; each phase's globals are set only when every earlier phase succeeded; the metrics server address and the printed lines on success |
| OpenTel.OtelGlobals.ShutdownStep | backend/opentel.go:179-198 | one `if x != nil` block appends its events |
| OpenTel.OtelGlobals.Shutdown | backend/opentel.go:174-201 | the shutdown function appends the three blocks against one deadline, then the completion line |
| OpenTel.ShutdownTwice | backend/opentel.go:174-201 | a second call repeats every step, against its own deadline |
| OpenTel.SuccessfulInitShutsDownAll | backend/opentel.go:41-201 | after a successful start-up, all six instruments are assigned and one shutdown makes all three calls |
| UserFuncs.BaseAttrs | backend/user-funcs.go:78-356 | five base metric attributes, keyed endpoint, method, trace_id, span_id and component in that order |
| UserFuncs.RecordQuery | backend/user-funcs.go:174-186 | one database call records its count and its duration, each when non-nil |
| UserFuncs.FailSpan | backend/user-funcs.go:117-191 | a failed step's span records its error (when it has one), gets the error status and ends |
| UserFuncs.PassSpan | backend/user-funcs.go:130-131 | a passed step's span gets the Ok status and ends |
| UserFuncs.Emit | backend/user-funcs.go:99-102 | one log entry is appended |
| UserFuncs.LoginUser | backend/user-funcs.go:48-316 | loginUser produces exactly LoginEffects: reply, the fresh spans it starts, metrics, log and console lines, one identity per span |
| UserFuncs.LoginTracedStep | backend/user-funcs.go:62-103 | the root span continues the extracted context; the start counters and log; the root ends after the steps |
| UserFuncs.LoginParseStep | backend/user-funcs.go:104-131 | the parse step's effects as LoginParse states |
| UserFuncs.LoginValidateStep | backend/user-funcs.go:133-159 | the validation step's effects as LoginValidate states |
| UserFuncs.LoginLookupStep | backend/user-funcs.go:161-227 | the lookup step's effects as LoginLookup states, the query metrics included |
| UserFuncs.LoginVerifyStep | backend/user-funcs.go:229-254 | the password step's effects as LoginVerify states |
| UserFuncs.LoginTokenStep | backend/user-funcs.go:256-315 | the token step and the success path, as LoginToken states |
| UserFuncs.RegisterUser | backend/user-funcs.go:318-686 | registerUser produces exactly RegisterEffects |
| UserFuncs.RegisterTracedStep | backend/user-funcs.go:331-371 | the root span, start counters and log, then the steps |
| UserFuncs.RegisterParseStep | backend/user-funcs.go:373-398 | the parse step as RegisterParse states |
| UserFuncs.RegisterValidateStep | backend/user-funcs.go:401-429 | the validation step as RegisterValidate states |
| UserFuncs.RegisterCheckEmailStep | backend/user-funcs.go:431-497 | the email check as RegisterCheckEmail states |
| UserFuncs.RegisterCheckUsernameStep | backend/user-funcs.go:498-562 | the username check as RegisterCheckUsername states |
| UserFuncs.RegisterHashStep | backend/user-funcs.go:565-599 | the hashing step as RegisterHash states |
| UserFuncs.RegisterCreateStep | backend/user-funcs.go:600-686 | the insert and the success path as RegisterCreate states |
| UserFuncsProps.FailedStepFacts | backend/user-funcs.go:188-191 | a failed step's span is closed, has the error status and holds the step's error |
| UserFuncsProps.PassedStepFacts | backend/user-funcs.go:222-227 | a passed step's span is closed with the Ok status and no error |
| UserFuncsProps.SpansUnderThen | backend/user-funcs.go:104-285 | a step's span followed by the later steps' spans stays under the same trace with the next identities |
| UserFuncsProps.FailedLeaf | backend/user-funcs.go:104-285 | a failed step's single span is a valid child |
| UserFuncsProps.PassedThen | backend/user-funcs.go:104-285 | a passed step, then the spans that follow under it |
| UserFuncsProps.RootedTree | backend/user-funcs.go:66-76 | a root that continues the upstream context, with its closed children, forms one trace tree |
| UserFuncsProps.SamplesAppend | backend/user-funcs.go:91-97 | samples add up over consecutive recordings |
| UserFuncsProps.SamplesWhenPresent | backend/user-funcs.go:91-97 | a nil instrument records no sample, a present one exactly one |
| UserFuncsProps.SamplesOfQuery | backend/user-funcs.go:174-186 | one database call records one count and one duration |
| UserFuncsProps.SamplesOfStart | backend/user-funcs.go:91-97 | the start records one request count and one attempt |
| UserFuncsProps.LoginTokenSpans | backend/user-funcs.go:256-285 | the token step's spans are a valid subtree |
| UserFuncsProps.LoginVerifySpans | backend/user-funcs.go:229-254 | the password step's spans and those after it are a valid subtree |
| UserFuncsProps.LoginLookupSpans | backend/user-funcs.go:161-227 | the lookup step's spans and those after it are a valid subtree |
| UserFuncsProps.LoginValidateSpans | backend/user-funcs.go:133-159 | the validation step's spans and those after it are a valid subtree |
| UserFuncsProps.LoginParseSpans | backend/user-funcs.go:104-131 | the parse step's spans and those after it are a valid subtree |
| UserFuncsProps.LoginTokenOutcome | backend/user-funcs.go:263-315 | from the token step on, the reply is the reference decision and the root span is Ok exactly on success |
| UserFuncsProps.LoginVerifyOutcome | backend/user-funcs.go:236-252 | the same from the password step on |
| UserFuncsProps.LoginLookupOutcome | backend/user-funcs.go:188-220 | the same from the lookup step on; a lookup that finds no row records "record not found" on the root span, any other lookup error records that error, and in both cases the root span gets no status |
| UserFuncsProps.LoginValidateOutcome | backend/user-funcs.go:140-156 | the same from the validation step on; missing fields give the root span the Error status "Missing required fields" and record no error |
| UserFuncsProps.LoginParseOutcome | backend/user-funcs.go:111-128 | the same from the parse step on |
| UserFuncsProps.LoginTokenSamples | backend/user-funcs.go:287-294 | authDuration is sampled exactly on success |
| UserFuncsProps.LoginVerifySamples | backend/user-funcs.go:229-294 | the samples from the password step on |
| UserFuncsProps.LoginLookupSamples | backend/user-funcs.go:174-186 | the lookup records one count and one duration whatever its outcome |
| UserFuncsProps.LoginValidateSamples | backend/user-funcs.go:133-294 | the samples from the validation step on |
| UserFuncsProps.LoginParseSamples | backend/user-funcs.go:104-294 | the samples from the parse step on |
| UserFuncsProps.LoginTrace | backend/user-funcs.go:48-316 | the login's spans form one trace continuing the upstream context, each ended exactly once; with no database, no span, metric or log |
| UserFuncsProps.LoginOutcome | backend/user-funcs.go:48-316 | the reply is the reference decision; the root span ends Ok exactly when the login succeeds, and marked failed otherwise |
| UserFuncsProps.LoginMetrics | backend/user-funcs.go:91-294 | one request count and attempt, one query count and duration when the database is reached, one authDuration on success |
| UserFuncsProps.LoginReplyCases | backend/user-funcs.go:50-315 | 200 exactly when the login goes through, with the token and user; 400 exactly for a bad body or missing fields; 401 for an unknown user or wrong password; otherwise 500 |
| UserFuncsProps.LoginHidesUnknownUsers | backend/user-funcs.go:194-251 | an unknown email and a wrong password get the same reply |
| UserFuncsProps.StubbedLoginAcceptsStoredUsers | backend/user-funcs.go:44-46 | with the file's own helpers a stored user with both fields always logs in, with the dummy token |
| UserFuncsProps.LoginThroughLookup | backend/user-funcs.go:104-163 | a login with a body that decodes and both fields has the root, a passed parse span and a passed validation span, then the lookup step's spans, reply and logs |
| UserFuncsProps.LoginNotFoundMarksDbSpan | backend/user-funcs.go:163-205 | a lookup that finds no row ends its db span with Error "Database lookup failed" holding "record not found", answers 401, logs at Info level, and records the error on the root span without a status |
| UserFuncsProps.LoginLookupErrorMarksDbSpan | backend/user-funcs.go:163-220 | any other lookup error ends the db span with the same Error status holding that error, answers 500 with it, logs at Error level, and records it on the root span without a status |
| UserFuncsProps.LoginMissingFieldsMarksValidateSpan | backend/user-funcs.go:133-156 | missing fields end the validation span with Error "Missing required fields" and no error, give the root the same status, answer 400 and log at Error level; no lookup span starts |
| UserFuncsProps.RegisterCreateSpans | backend/user-funcs.go:600-650 | the insert step's spans are a valid subtree |
| UserFuncsProps.RegisterHashSpans | backend/user-funcs.go:565-599 | the hashing step's spans and those after it are a valid subtree |
| UserFuncsProps.RegisterCheckUsernameSpans | backend/user-funcs.go:498-562 | the username check's spans and those after it are a valid subtree |
| UserFuncsProps.RegisterCheckEmailSpans | backend/user-funcs.go:431-497 | the email check's spans and those after it are a valid subtree |
| UserFuncsProps.RegisterValidateSpans | backend/user-funcs.go:401-429 | the validation step's spans and those after it are a valid subtree |
| UserFuncsProps.RegisterParseSpans | backend/user-funcs.go:373-398 | the parse step's spans and those after it are a valid subtree |
| UserFuncsProps.RegisterCreateOutcome | backend/user-funcs.go:611-686 | a create error answers 500; success answers 201 with the root span Ok |
| UserFuncsProps.RegisterHashOutcome | backend/user-funcs.go:571-590 | the reference decision from the hashing step on |
| UserFuncsProps.RegisterCheckUsernameOutcome | backend/user-funcs.go:508-562 | username found: 409 with the root span untouched; not found: continue; any other error: 500 |
| UserFuncsProps.RegisterCheckEmailOutcome | backend/user-funcs.go:442-497 | email found: 409 with the root span untouched; not found: continue; any other error: 500 |
| UserFuncsProps.RegisterValidateOutcome | backend/user-funcs.go:409-427 | any empty field answers 400 |
| UserFuncsProps.RegisterParseOutcome | backend/user-funcs.go:380-396 | a bad body answers 400 |
| UserFuncsProps.RegisterCreateSamples | backend/user-funcs.go:614-664 | the insert records its count and duration; authDuration exactly on success |
| UserFuncsProps.RegisterHashSamples | backend/user-funcs.go:565-664 | the samples from the hashing step on |
| UserFuncsProps.RegisterCheckUsernameSamples | backend/user-funcs.go:508-527 | the username check records one count and one duration |
| UserFuncsProps.RegisterCheckEmailSamples | backend/user-funcs.go:442-459 | the email check records one count and one duration |
| UserFuncsProps.RegisterValidateSamples | backend/user-funcs.go:401-664 | the samples from the validation step on |
| UserFuncsProps.RegisterParseSamples | backend/user-funcs.go:373-664 | the samples from the parse step on |
| UserFuncsProps.RegisterTrace | backend/user-funcs.go:318-686 | the registration's spans form one trace rooted at its root span, each ended exactly once; with no database nothing but the console lines |
| UserFuncsProps.RegisterOutcome | backend/user-funcs.go:318-686 | the reply is the reference decision; the root span is Ok exactly on success, untouched exactly on a conflict, marked failed otherwise |
| UserFuncsProps.RegisterMetrics | backend/user-funcs.go:360-664 | one request count and attempt, one query count and duration per database call made, one authDuration on success |
| UserFuncsProps.RegisterReplyCases | backend/user-funcs.go:319-686 | 201 exactly when the registration goes through; 400 for a bad body or a missing field; 409 exactly on a conflict; otherwise 500 |
| UserFuncsProps.StubbedRegistrationFailsOnlyInTheDatabase | backend/user-funcs.go:45 | with the file's own hashPassword, a registration answers 500 exactly when there is no database or a database call fails |
| UserFuncsProps.RegisterThroughEmailCheck | backend/user-funcs.go:373-434 | a registration with a body that decodes and all three fields has the root, a passed parse span and a passed validation span, then the email check's spans, reply and logs |
| UserFuncsProps.RegisterEmailTakenMarksCheckSpan | backend/user-funcs.go:434-475 | a taken email ends the check span with Error "Email already exists" and no error, answers 409, logs at Info level, and leaves the root span with no call but End |
| UserFuncsProps.RegisterUsernameTakenMarksCheckSpan | backend/user-funcs.go:434-541 | after a passed email check, a taken username ends its check span with Error "Username already exists" and no error, answers 409, logs at Info level, and leaves the root span with no call but End |
| StockFuncs.LeadingSpaces | backend/stock-funcs.go:71 | the white-space prefix, which is all white space and followed by a non-space |
| StockFuncs.TrailingSpaces | backend/stock-funcs.go:71 | the white-space suffix, likewise |
| StockFuncs.TrimSpace | backend/stock-funcs.go:71 | strings.TrimSpace removes exactly a white-space prefix and suffix, and the result neither starts nor ends with white space |
| StockFuncs.LeadingSpacesIs | backend/stock-funcs.go:71 | a white-space prefix followed by a non-space is the leading white space |
| StockFuncs.TrimSpaceOfPadded | backend/stock-funcs.go:71 | trimming a word padded with white space on both sides recovers the word |
| StockFuncs.TrimSpaceIdempotent | backend/stock-funcs.go:71 | trimming twice trims nothing more |
| StockFuncs.PrependAppend | backend/stock-funcs.go:72 | prepending two symbol lists is prepending their concatenation |
| StockFuncs.ActiveColumnCons | backend/stock-funcs.go:71-72 | the reference column of a record followed by others |
| StockFuncs.ActiveSymbolsOfRegular | backend/stock-funcs.go:56-74 | when every record has a status column, the loop lists exactly column 0 of the active records, in order |
| StockFuncs.ActiveSymbolsStopsAt | backend/stock-funcs.go:59-70 | otherwise the first read error fails the listing with that error, and a short record panics |
| StockFuncs.CollectActiveSymbols | backend/stock-funcs.go:57-74 | the read loop computes exactly the recursive listing |
| StockFuncs.DataRecords | backend/stock-funcs.go:56 | the header record is skipped, whatever it holds |
| StockFuncs.Project | backend/stock-funcs.go:196-199 | the projection succeeds exactly when every coin has a string symbol and id, and then holds one {Symbol, Id} per coin, in order |
| StockFuncs.ProjectCoins | backend/stock-funcs.go:196-199 | the range loop computes exactly the projection |
| StockFuncs.RecordedStatuses | backend/stock-funcs.go:46-87 | the statuses passed to recordApiRequest, in order, at most one per call |
| StockFuncs.RecordedErrors | backend/stock-funcs.go:44-81 | the operations passed to recordError, at most one per call |
| StockFuncs.ApiSpanList | backend/stock-funcs.go:22-53 | once the root, API and (for getAllStockSymbols) CSV spans have ended with their calls, the handler's spans are root, API span, CSV span, whose records are ApiSpans |
| StockFuncs.StartApiSpans | backend/stock-funcs.go:22-33 | the root span under the request context and the API span under the root, both fresh and without calls |
| StockFuncs.ServeStage | backend/stock-funcs.go:36-92 | from the API request on: the API span's event and failure marks, the CSV span's errors, the helper calls, the response, and each span ended once |
| StockFuncs.ReadListing | backend/stock-funcs.go:40-74 | a failed fetch starts no CSV span; otherwise the CSV span starts and the loop yields the listing |
| StockFuncs.ServeListing | backend/stock-funcs.go:26-93 | once the root and API spans of getAllStockSymbols have started, reading the listing and serving it yields ApiResponse for its fetch, the root and API spans followed by the fresh CSV span, with records ApiSpans, and the helper calls ApiHelperCalls |
| StockFuncs.GetAllStockSymbols | backend/stock-funcs.go:21-93 | the handler yields ApiResponse, the fresh spans ApiSpans (two or three) and the helper calls ApiHelperCalls for its fetch, records and encoding outcome |
| StockFuncs.FetchDocument | backend/stock-funcs.go:95-273 | fetch, decode into a generic value, encode: ApiResponse, ApiSpans and ApiHelperCalls of the document stage |
| StockFuncs.GetStockData | backend/stock-funcs.go:95-150 | getStockData is the document handler with its own span and endpoint names |
| StockFuncs.GetCryptoData | backend/stock-funcs.go:218-273 | getCryptoData likewise |
| StockFuncs.GetAllCryptoSymbols | backend/stock-funcs.go:157-216 | fetch, decode, project, encode: ApiResponse, ApiSpans and ApiHelperCalls of the listing stage |
| StockFuncs.WatchlistTable.constructor | backend/database.go:28-38 | the table starts empty |
| StockFuncs.WatchlistTable.Create | backend/stock-funcs.go:316-319 | DB.Create adds the row exactly when the database accepts it, and returns its error |
| StockFuncs.StoreItem | backend/stock-funcs.go:312-348 | after a decode: the type dispatch, the insert, the database span's error, the helper calls and the response |
| StockFuncs.ServeWatchlist | backend/stock-funcs.go:294-348 | after the parse span started: the decode outcome, then StoreItem, with the database span started only after a decode |
| StockFuncs.AddToWatchlist | backend/stock-funcs.go:278-349 | addToWatchlist yields WatchlistResponse, the fresh spans WatchlistSpans, the helper calls WatchlistCalls, and the table gains WatchlistInserted |
| StockFuncsProps.TreeOf | backend/stock-funcs.go:23-33 | a closed root with one or two closed children started under it is a handler tree |
| StockFuncsProps.HandlerTreeTrace | backend/stock-funcs.go:23-33 | all spans of a handler tree belong to one trace (the caller's when valid) and have valid, distinct ids |
| StockFuncsProps.ClosedAfter | backend/stock-funcs.go:24-33 | a call log without End, then End, is closed |
| StockFuncsProps.StatusesAppend | backend/stock-funcs.go:46-87 | the recorded statuses of consecutive calls add up |
| StockFuncsProps.StatusesOfOne | backend/stock-funcs.go:46-87 | one call records at most its own status |
| StockFuncsProps.StatusesOfTwo | backend/stock-funcs.go:44-46 | two calls record their statuses in order |
| StockFuncsProps.ApiRequestRecordedOnce | backend/stock-funcs.go:44-267 | every answered request records its endpoint and elapsed time exactly once, with 200 exactly when the body was written and 500 otherwise; a panic records nothing; recordError is called once exactly on the failing paths |
| StockFuncsProps.CallsSnoc | backend/stock-funcs.go:42-43 | one more call on a span: a status replaces the status, an error is appended |
| StockFuncsProps.ApiSpanMarksFailures | backend/stock-funcs.go:41-133 | the API span has the fetch-failure status exactly when the fetch failed; the fetch or decode error is its one recorded error; a failed fetch answers 500 with the error's text |
| StockFuncsProps.ApiCallsClosed | backend/stock-funcs.go:24-53 | each span of an upstream-API handler is ended exactly once |
| StockFuncsProps.ApiSpansTree | backend/stock-funcs.go:21-93 | the spans form a closed tree under the request's span: three when the CSV span started, two otherwise, with the root named after the operation |
| StockFuncsProps.ActiveColumnAppend | backend/stock-funcs.go:59-74 | the reference column is a filter: that of appended records is the concatenation |
| StockFuncsProps.ActiveColumnOfOne | backend/stock-funcs.go:71-72 | one record contributes column 0 exactly when its trimmed column 6 is "Active" |
| StockFuncsProps.PaddedStatusIsActive | backend/stock-funcs.go:71 | a status "Active" padded with white space counts as active |
| StockFuncsProps.StockListingWritesActiveColumn | backend/stock-funcs.go:56-87 | with regular records and a successful encoding, the written list is column 0 of the active data records, and 200 is recorded |
| StockFuncsProps.StockListingReadError | backend/stock-funcs.go:64-70 | a read error mid-stream answers 500 with its text, records 500, marks the CSV span with the error and writes no list |
| StockFuncsProps.CryptoListingProjection | backend/stock-funcs.go:196-210 | the written list is the {Symbol, Id} projection of the coins, in order; a coin without string fields panics and records nothing |
| StockFuncsProps.DecodeFailureAnswers500 | backend/stock-funcs.go:127-256 | an undecodable upstream body answers 500 "Failed to decode JSON" and records 500 |
| StockFuncsProps.WatchlistDispatch | backend/stock-funcs.go:314-331 | "STOCK" stores a row with an empty crypto id, "CRYPTO" the supplied one, any other type stores nothing and still succeeds; a refused insert answers 500 |
| StockFuncsProps.WatchlistDecodeFailure | backend/stock-funcs.go:294-300 | an undecodable body answers 400, records 400, stores nothing, starts no database span and marks the parse span with the error |
| StockFuncsProps.WatchlistRequestRecorded | backend/stock-funcs.go:294-342 | the endpoint is recorded once, with 200 when written, 400 on a decode error and 500 on an insert error, and not at all after an encoding failure |
| StockFuncsProps.WatchlistSpansTree | backend/stock-funcs.go:278-310 | the spans form a closed tree under the request's span: three after a decode, two otherwise |
| FrontendLogger.LevelFor | backend/frontendlogger.go:30-44 | Error level exactly for the type "Error", Info otherwise |
| FrontendLogger.EventAttrs | backend/frontendlogger.go:31-43 | four attributes |
| FrontendLogger.LogFrontendEvent | backend/frontendlogger.go:13-47 | the handler appends exactly the FrontendLog entry and replies FrontendReplyOf |
| FrontendLogger.DecodeFailureRejects | backend/frontendlogger.go:21-25 | a bad body is logged at error level with only the error, independently of headers and context, and rejected with 400 "Invalid payload" |
| FrontendLogger.LevelRouting | backend/frontendlogger.go:30-46 | Error level exactly for "Error", Info for any other type; the same four fields event, metadata, traceId, spanId in both branches; the success reply is the JSON string "Log written to file" |
| FrontendLogger.LoggedContextFromHeader | backend/frontendlogger.go:11-28 | with a valid traceparent the logged ids are the header's whatever the request context carries; otherwise the request context's own; the baggage header plays no part |
| FrontendLogger.LoggedIdsFromHeader | backend/frontendlogger.go:27-43 | with a valid traceparent the logged traceId and spanId are the header's ids in hexadecimal |

## Left out

- Library internals are replaced by call-recording stand-ins. This covers the OpenTelemetry SDK, the exporters, the batch processor, the Prometheus handler, GORM, otelgorm and slog's JSON encoding.
- Span attributes (`SetAttributes`, start options) and event attributes are not modelled. Spans keep their status, errors, events and End calls.
- Network, file and process I/O are left out: `http.Get`, the OTLP endpoint, `ListenAndServe`, the log directory and file, and the database connection. Their outcomes are parameters.
- The metrics-server goroutine is left out: concurrency.
- The clock is natural-number ticks. The float `.Seconds()` values and the histogram bucket boundaries are not modelled.
- JSON decoding and encoding are parameters (a success value or an error). The `null` that Go writes for an empty slice is not distinguished.
- Password and email values are not modelled beyond the empty-field checks. The password and token helpers are inputs; their stub values are stated separately.
- The helpers `startSpan`, `startChildSpan`, `recordError`, `recordApiRequest`, `instrumentDBCall`, `recordDBOperation`, `watchlistAddCounter`, `loginAttempts`, `registerAttempts`, `authDuration` and `User` are not part of this model. Their defining file is absent.
  - The market handlers' helpers are modelled as recorded calls.
  - `startSpan` and `startChildSpan` are modelled as tracer starts.
  - The `instrumentDBCall` span is modelled as "create_watchlist_item", a child of the root span.
- The effects of database.go's hooks inside the handlers' own spans are not composed with the handler models.
- `getWatchlist`, `removeFromWatchlist` and `randomCheck` are left out: they have no telemetry, decision or state worth stating.
- `addToWatchlist` with a nil `DB` would panic. The model assumes an initialised database.
- The field-count checks of `encoding/csv` are not modelled. Each `Read` is an outcome: a record or an error.
- Frontend metadata values are modelled as strings.
- backend/server.go and the frontend are not part of this model.
- `dbQueryCount` and `dbQueryDuration` are declared in both database.go and opentel.go. Each module models its own file's variables.
- PromMiddleware.HttpMetrics.ServeRequest: requires `Ready()`, so it assumes `InitHTTPMetrics` succeeded. If an instrument were still nil, the Go middleware would panic at its first `Add` or `Record` (backend/promMiddleware.go:106-115); that panic is not modelled.
- Database.OperationLabel: strings are sequences of characters, while Go's `len` and `[:6]` count bytes. The two agree whenever the first six bytes of the SQL text are ASCII, as GORM's SQL keywords are. On other text they differ: "ééé" is six bytes, so Go labels it "ééé" where the model says "unknown", and Go may cut a multi-byte character in two.
- Telemetry.Console: `fmt.Println` writes to standard output and the `log` package to standard error, behind a date-time prefix. The model (Console.Print, and the `Printed` events of OpenTel) keeps both as prefix-free lines on one stream, in call order; which stream a line goes to, and the prefix, are not modelled.
- Telemetry.Span: `SetStatus` keeps the last status set. The SDK's rule that an Ok status cannot be overridden by a later Error is not modelled; no handler sets Error after Ok.

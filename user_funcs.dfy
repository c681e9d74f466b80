/** backend/user-funcs.go: the login and registration handlers.  Each is a
    decision tree over the outcomes of the steps it performs (decoding the
    body, the database lookups, the password and token helpers, the
    insert); every path fixes the reply, which spans are started and what
    is done to them, which metrics are recorded and what is logged.

    Each handler has a specification function giving all of its effects
    for given outcomes, and a method that performs the calls in the
    handler's order and is proved to produce exactly those effects. */
module UserFuncs {
  import opened Wrappers
  import opened Telemetry

  // ------------------------------------------------------------------
  // Inputs and outputs

  datatype User = User(id: int, username: string, email: string)

  datatype LoginRequest = LoginRequest(email: string, password: string)

  datatype RegisterRequest = RegisterRequest(username: string, email: string, password: string)

  /** What a `First` query returns: the row, gorm.ErrRecordNotFound, or
      another error. */
  datatype LookupOutcome = Found(user: User) | Missing | LookupFailed(err: string)

  /** The text of gorm.ErrRecordNotFound. */
  const RecordNotFoundText := "record not found"

  /** The reply body: an ErrorResponse (an empty error is omitted) or a
      successful AuthResponse (an empty token is omitted). */
  datatype Body = ErrorBody(message: string, error: string) | AuthBody(message: string, token: string, user: User)

  /** The status code and the JSON body; the content type is always
      application/json. */
  datatype Reply = Reply(status: nat, body: Body)

  /** What the handlers read from the request. */
  datatype HttpRequest = HttpRequest(verb: string, remoteAddr: string, userAgent: string,
                                     ctx: Context, headers: Headers)

  /** The package instruments the handlers use (None while nil):
      httpRequestCount, the login or register attempt counter,
      dbQueryCount, dbQueryDuration and authDuration. */
  datatype AuthInstruments = AuthInstruments(requests: Option<Instrument>, attempts: Option<Instrument>,
                                             queryCount: Option<Instrument>, queryDuration: Option<Instrument>,
                                             authDuration: Option<Instrument>)

  /** Everything a handler does that can be observed from outside. */
  datatype Effects = Effects(reply: Reply, spans: seq<SpanRecord>, observations: seq<Observation>,
                             logs: seq<LogEntry>, console: seq<string>)

  /** Writes fixed by the handlers' code.  Messages are named once and
      used both by the specifications and by the methods. */
  const DbNotInitialized := "DB is not initialized"
  const DbUnavailable := Reply(500, ErrorBody("Database not available", "DB_NOT_INITIALIZED"))
  const InvalidJson := "Invalid JSON"
  const MissingFields := "Missing required fields"
  const ParsedOk := "JSON parsed successfully"
  const ValidatedOk := "Request validated successfully"

  function InvalidPayload(e: string): Reply
  {
    Reply(400, ErrorBody("Invalid JSON payload", e))
  }

  function DatabaseError(e: string): Reply
  {
    Reply(500, ErrorBody("Database error", e))
  }

  function ErrorStatus(description: string): SpanCall
  {
    SpanCall.SetStatus(Code.Error, description)
  }

  function OkStatus(description: string): SpanCall
  {
    SpanCall.SetStatus(Code.Ok, description)
  }

  function BaseAttrs(endpoint: string, verb: string, root: SpanContext): (attrs: seq<Attr>)
    ensures |attrs| == 5
    ensures [attrs[0].key, attrs[1].key, attrs[2].key, attrs[3].key, attrs[4].key]
         == ["endpoint", "method", "trace_id", "span_id", "component"]
  {
    [Attr("endpoint", Str(endpoint)), Attr("method", Str(verb)),
     Attr("trace_id", Str(TraceIdString(root))), Attr("span_id", Str(SpanIdString(root))),
     Attr("component", Str("auth_service"))]
  }

  /** The attributes of the authDuration sample of a successful request. */
  function SuccessAttrs(base: seq<Attr>, id: int): seq<Attr>
  {
    base + [Attr("status", Str("success")), Attr("user_id", Num(id))]
  }

  /** The request counter and the attempt counter, each when non-nil. */
  function StartObservations(inst: AuthInstruments, base: seq<Attr>): seq<Observation>
  {
    WhenPresent(inst.requests, 1, base) + WhenPresent(inst.attempts, 1, base)
  }

  /** The count and the duration of one database call, each when non-nil. */
  function QueryObservations(inst: AuthInstruments, attrs: seq<Attr>, duration: int): seq<Observation>
  {
    WhenPresent(inst.queryCount, 1, attrs) + WhenPresent(inst.queryDuration, duration, attrs)
  }

  method RecordQuery(rec: Recorder, inst: AuthInstruments, attrs: seq<Attr>, duration: int)
    modifies rec
    ensures rec.log == old(rec.log) + QueryObservations(inst, attrs, duration)
  {
    RecordIfPresent(rec, inst.queryCount, 1, attrs);
    RecordIfPresent(rec, inst.queryDuration, duration, attrs);
  }

  function StartLog(message: string, req: HttpRequest): LogEntry
  {
    LogEntry(InfoLevel, message, [Attr("remote_addr", Str(req.remoteAddr)), Attr("user_agent", Str(req.userAgent))])
  }

  function ParseFailedLog(message: string, e: string): LogEntry
  {
    LogEntry(ErrorLevel, message, [Attr("error", Str(e))])
  }

  /** The span context the handlers continue: the one the global propagator
      extracts from the request headers. */
  function Upstream(req: HttpRequest): SpanContext
  {
    SpanContextFromContext(Extract(GlobalPropagator, req.ctx, req.headers))
  }

  /** The effects of the steps after the root span started: the reply,
      the calls on the root span before its deferred End, the child spans in
      the order they start, the metrics and the log entries. */
  datatype Tail = Tail(reply: Reply, rootCalls: seq<SpanCall>, children: seq<SpanRecord>,
                       observations: seq<Observation>, logs: seq<LogEntry>)

  /** A step that succeeded, leaving its span and metrics, and what follows. */
  function Then(first: SpanRecord, obs: seq<Observation>, t: Tail): Tail
  {
    Tail(t.reply, t.rootCalls, [first] + t.children, obs + t.observations, t.logs)
  }

  /** The span of a step that ended with an error status, recording `err`
      first when the step had one. */
  function FailedStep(name: string, context: SpanContext, parent: SpanContext, err: Option<string>,
                      description: string): (r: SpanRecord)
  {
    var errs := if err.Some? then [SpanCall.RecordError(err.value)] else [];
    SpanRecord(name, context, parent, errs + [ErrorStatus(description), SpanCall.End])
  }

  /** The span of a step that succeeded. */
  function PassedStep(name: string, context: SpanContext, parent: SpanContext, description: string): SpanRecord
  {
    SpanRecord(name, context, parent, [OkStatus(description), SpanCall.End])
  }

  /** Ends a step's span with an error status, after recording the step's
      error when it has one. */
  method FailSpan(s: Span, err: Option<string>, description: string)
    requires s.calls == []
    modifies s
    ensures RecordOf(s) == FailedStep(s.name, s.context, s.parent, err, description)
  {
    if err.Some? {
      s.RecordError(err.value);
    }
    s.SetStatus(Code.Error, description);
    s.End();
  }

  /** Ends a step's span with an Ok status. */
  method PassSpan(s: Span, description: string)
    requires s.calls == []
    modifies s
    ensures RecordOf(s) == PassedStep(s.name, s.context, s.parent, description)
  {
    s.SetStatus(Code.Ok, description);
    s.End();
  }

  method Emit(logger: Logger, entry: LogEntry)
    modifies logger
    ensures logger.entries == old(logger.entries) + [entry]
  {
    logger.Log(entry.level, entry.message, entry.attrs);
  }

  /** The password and token helpers as the handlers' file defines them:
      every token is "dummy-jwt", every hash "hashed-password", and every
      password matches.  The handlers are modelled for any outcome of these
      helpers; these constants are the outcomes the file gives them. */
  const StubToken: Result<string, string> := Result.Ok("dummy-jwt")
  const StubHash: Result<string, string> := Result.Ok("hashed-password")
  const StubPasswordCheck := true

  // ------------------------------------------------------------------
  // Login

  /** The outcomes loginUser depends on, and the clock readings it uses:
      whether DB is non-nil, the decoded body, the lookup, verifyPassword,
      generateJWT, and the elapsed times of the lookup, of the whole
      request for the metric, and of the whole request for the log. */
  datatype LoginInput = LoginInput(dbReady: bool, decoded: Result<LoginRequest, string>, lookup: LookupOutcome,
                                   passwordOk: bool, token: Result<string, string>,
                                   dbDuration: int, authElapsed: int, logElapsed: int)

  const LoginReceived := "Login request received"
  const LoginStarted := "Login attempt started"
  const LoginSpan := "auth.login"
  const LoginParseSpan := "auth.login.parse_request"
  const LoginValidateSpan := "auth.login.validate_request"
  const LoginLookupSpan := "auth.login.db_lookup"
  const LoginVerifySpan := "auth.login.verify_password"
  const LoginTokenSpan := "auth.login.generate_token"
  const LookupFailedStatus := "Database lookup failed"
  const InvalidPassword := "Invalid password"
  const TokenFailed := "Token generation failed"
  const LoginSuccessful := "Login successful"
  const FoundOk := "User found successfully"
  const VerifiedOk := "Password verified successfully"
  const TokenOk := "Token generated successfully"
  const LoginFieldsRequired := Reply(400, ErrorBody("Email and password are required", ""))
  const InvalidCredentials := Reply(401, ErrorBody("Invalid credentials", ""))

  function TokenError(e: string): Reply
  {
    Reply(500, ErrorBody(TokenFailed, e))
  }

  function LoggedIn(token: string, u: User): Reply
  {
    Reply(200, AuthBody(LoginSuccessful, token, u))
  }

  function LoginQueryAttrs(base: seq<Attr>): seq<Attr>
  {
    base + [Attr("query_type", Str("select")), Attr("table", Str("users"))]
  }

  function LoginParseFailedLog(e: string): LogEntry
  {
    ParseFailedLog("Failed to parse login request", e)
  }

  function LoginMissingFieldsLog(r: LoginRequest): LogEntry
  {
    LogEntry(ErrorLevel, "Login validation failed - missing fields",
             [Attr("email", Str(r.email)), Attr("email_empty", Flag(r.email == "")),
              Attr("password_empty", Flag(r.password == ""))])
  }

  function UserNotFoundLog(r: LoginRequest, d: int): LogEntry
  {
    LogEntry(InfoLevel, "Login failed - user not found", [Attr("email", Str(r.email)), Attr("db_duration", Num(d))])
  }

  function LoginDbErrorLog(r: LoginRequest, e: string, d: int): LogEntry
  {
    LogEntry(ErrorLevel, "Database error during login",
             [Attr("email", Str(r.email)), Attr("error", Str(e)), Attr("db_duration", Num(d))])
  }

  function InvalidPasswordLog(r: LoginRequest, u: User): LogEntry
  {
    LogEntry(InfoLevel, "Login failed - invalid password", [Attr("email", Str(r.email)), Attr("user_id", Num(u.id))])
  }

  function JwtFailedLog(r: LoginRequest, u: User, e: string): LogEntry
  {
    LogEntry(ErrorLevel, "JWT generation failed",
             [Attr("email", Str(r.email)), Attr("user_id", Num(u.id)), Attr("error", Str(e))])
  }

  function LoginSuccessLog(r: LoginRequest, u: User, elapsed: int): LogEntry
  {
    LogEntry(InfoLevel, LoginSuccessful,
             [Attr("email", Str(r.email)), Attr("user_id", Num(u.id)), Attr("username", Str(u.username)),
              Attr("total_duration", Num(elapsed))])
  }

  /** Where loginUser is: the step about to start, with what the earlier
      steps produced. */
  datatype LoginPhase =
    | ParseLogin
    | ValidateLogin(r: LoginRequest)
    | LookupUser(r: LoginRequest)
    | CheckPassword(r: LoginRequest, u: User)
    | GenerateToken(r: LoginRequest, u: User)
  {
    function Rank(): nat
    {
      match this
      case ParseLogin => 4
      case ValidateLogin(_) => 3
      case LookupUser(_) => 2
      case CheckPassword(_, _) => 1
      case GenerateToken(_, _) => 0
    }
  }

  /** What loginUser does, for given outcomes, request and instruments,
      when the tracer has issued `issued` spans before. */
  function LoginEffects(input: LoginInput, inst: AuthInstruments, req: HttpRequest, issued: nat): Effects
  {
    if !input.dbReady then Effects(DbUnavailable, [], [], [], [LoginReceived, DbNotInitialized])
    else LoginTraced(input, inst, req, issued).(console := [LoginReceived])
  }

  /** What loginUser does once DB is there: the root span continues the
      extracted trace, the attempt is counted and logged, and the steps
      follow. */
  function LoginTraced(input: LoginInput, inst: AuthInstruments, req: HttpRequest, issued: nat): Effects
  {
    var upstream := Upstream(req);
    var root := ChildContext(upstream, issued);
    var base := BaseAttrs("login", req.verb, root);
    var t := LoginParse(input, inst, root, issued + 1, base);
    Effects(t.reply, [SpanRecord(LoginSpan, root, upstream, t.rootCalls + [SpanCall.End])] + t.children,
            StartObservations(inst, base) + t.observations,
            [StartLog(LoginStarted, req)] + t.logs, [])
  }

  /** The login steps from `phase` on: the step's span starts under
      `parent` when the tracer has issued `n` spans.  Each step is one
      function below; a step that succeeds continues here with the next
      phase. */
  function LoginFrom(phase: LoginPhase, input: LoginInput, inst: AuthInstruments, parent: SpanContext,
                     n: nat, base: seq<Attr>): Tail
    decreases phase.Rank(), 1
  {
    match phase
    case ParseLogin => LoginParse(input, inst, parent, n, base)
    case ValidateLogin(r) => LoginValidate(input, r, inst, parent, n, base)
    case LookupUser(r) => LoginLookup(input, r, inst, parent, n, base)
    case CheckPassword(r, u) => LoginVerify(input, r, u, inst, parent, n, base)
    case GenerateToken(r, u) => LoginToken(input, r, u, inst, parent, n, base)
  }

  /** Decoding the body. */
  function LoginParse(input: LoginInput, inst: AuthInstruments, parent: SpanContext, n: nat, base: seq<Attr>): Tail
    decreases ParseLogin.Rank(), 0
  {
    var sc := ChildContext(parent, n);
    if input.decoded.Err? then
      var e := input.decoded.error;
      Tail(InvalidPayload(e), [SpanCall.RecordError(e), ErrorStatus(InvalidJson)],
           [FailedStep(LoginParseSpan, sc, parent, Some(e), InvalidJson)], [], [LoginParseFailedLog(e)])
    else
      Then(PassedStep(LoginParseSpan, sc, parent, ParsedOk), [],
           LoginFrom(ValidateLogin(input.decoded.value), input, inst, sc, n + 1, base))
  }

  /** Checking that email and password are there. */
  function LoginValidate(input: LoginInput, r: LoginRequest, inst: AuthInstruments, parent: SpanContext,
                         n: nat, base: seq<Attr>): Tail
    decreases ValidateLogin(r).Rank(), 0
  {
    var sc := ChildContext(parent, n);
    if r.email == "" || r.password == "" then
      Tail(LoginFieldsRequired, [ErrorStatus(MissingFields)],
           [FailedStep(LoginValidateSpan, sc, parent, None, MissingFields)], [], [LoginMissingFieldsLog(r)])
    else
      Then(PassedStep(LoginValidateSpan, sc, parent, ValidatedOk), [],
           LoginFrom(LookupUser(r), input, inst, sc, n + 1, base))
  }

  /** Looking the user up by email.  The lookup's context is not kept, so
      the password check is a child of the same `parent`. */
  function LoginLookup(input: LoginInput, r: LoginRequest, inst: AuthInstruments, parent: SpanContext,
                       n: nat, base: seq<Attr>): Tail
    decreases LookupUser(r).Rank(), 0
  {
    var sc := ChildContext(parent, n);
    var obs := QueryObservations(inst, LoginQueryAttrs(base), input.dbDuration);
    match input.lookup
    case Missing =>
      Tail(InvalidCredentials, [SpanCall.RecordError(RecordNotFoundText)],
           [FailedStep(LoginLookupSpan, sc, parent, Some(RecordNotFoundText), LookupFailedStatus)],
           obs, [UserNotFoundLog(r, input.dbDuration)])
    case LookupFailed(e) =>
      Tail(DatabaseError(e), [SpanCall.RecordError(e)],
           [FailedStep(LoginLookupSpan, sc, parent, Some(e), LookupFailedStatus)],
           obs, [LoginDbErrorLog(r, e, input.dbDuration)])
    case Found(u) =>
      Then(PassedStep(LoginLookupSpan, sc, parent, FoundOk), obs,
           LoginFrom(CheckPassword(r, u), input, inst, parent, n + 1, base))
  }

  /** Checking the password against the stored hash. */
  function LoginVerify(input: LoginInput, r: LoginRequest, u: User, inst: AuthInstruments, parent: SpanContext,
                       n: nat, base: seq<Attr>): Tail
    decreases CheckPassword(r, u).Rank(), 0
  {
    var sc := ChildContext(parent, n);
    if !input.passwordOk then
      Tail(InvalidCredentials, [ErrorStatus(InvalidPassword)],
           [FailedStep(LoginVerifySpan, sc, parent, None, InvalidPassword)], [], [InvalidPasswordLog(r, u)])
    else
      Then(PassedStep(LoginVerifySpan, sc, parent, VerifiedOk), [],
           LoginFrom(GenerateToken(r, u), input, inst, sc, n + 1, base))
  }

  /** Issuing the token; on success the request is timed and succeeds. */
  function LoginToken(input: LoginInput, r: LoginRequest, u: User, inst: AuthInstruments, parent: SpanContext,
                      n: nat, base: seq<Attr>): Tail
    decreases GenerateToken(r, u).Rank(), 0
  {
    var sc := ChildContext(parent, n);
    if input.token.Err? then
      var e := input.token.error;
      Tail(TokenError(e), [SpanCall.RecordError(e)],
           [FailedStep(LoginTokenSpan, sc, parent, Some(e), TokenFailed)], [], [JwtFailedLog(r, u, e)])
    else
      Tail(LoggedIn(input.token.value, u), [OkStatus(LoginSuccessful)],
           [PassedStep(LoginTokenSpan, sc, parent, TokenOk)],
           WhenPresent(inst.authDuration, input.authElapsed, SuccessAttrs(base, u.id)),
           [LoginSuccessLog(r, u, input.logElapsed)])
  }

  /** loginUser.  The spans it starts are returned, root first, in the
      order they start. */
  method LoginUser(tracer: Tracer, rec: Recorder, logger: Logger, console: Console,
                   inst: AuthInstruments, req: HttpRequest, input: LoginInput) returns (reply: Reply, spans: seq<Span>)
    modifies tracer, rec, logger, console
    ensures var eff := LoginEffects(input, inst, req, old(tracer.issued));
      && reply == eff.reply && RecordsOf(spans) == eff.spans
      && rec.log == old(rec.log) + eff.observations
      && logger.entries == old(logger.entries) + eff.logs
      && console.lines == old(console.lines) + eff.console
    ensures forall i :: 0 <= i < |spans| ==> fresh(spans[i])
    ensures tracer.issued == old(tracer.issued) + |spans|
  {
    console.Print(LoginReceived);
    if !input.dbReady {
      console.Print(DbNotInitialized);
      return DbUnavailable, [];
    }
    reply, spans := LoginTracedStep(tracer, rec, logger, inst, req, input);
  }

  method LoginTracedStep(tracer: Tracer, rec: Recorder, logger: Logger,
                         inst: AuthInstruments, req: HttpRequest, input: LoginInput)
    returns (reply: Reply, spans: seq<Span>)
    modifies tracer, rec, logger
    ensures var eff := LoginTraced(input, inst, req, old(tracer.issued));
      && reply == eff.reply && RecordsOf(spans) == eff.spans
      && rec.log == old(rec.log) + eff.observations
      && logger.entries == old(logger.entries) + eff.logs
    ensures forall i :: 0 <= i < |spans| ==> fresh(spans[i])
    ensures tracer.issued == old(tracer.issued) + |spans|
  {
    var ctx := Extract(GlobalPropagator, req.ctx, req.headers);
    var span;
    ctx, span := tracer.Start(ctx, LoginSpan);
    SpanOfContextWithSpan(Extract(GlobalPropagator, req.ctx, req.headers), span);
    var base := BaseAttrs("login", req.verb, span.context);
    ghost var log0 := rec.log;
    RecordIfPresent(rec, inst.requests, 1, base);
    RecordIfPresent(rec, inst.attempts, 1, base);
    assert rec.log == log0 + StartObservations(inst, base);
    Emit(logger, StartLog(LoginStarted, req));
    ghost var t := LoginParse(input, inst, span.context, tracer.issued, base);
    assert LoginTraced(input, inst, req, old(tracer.issued))
        == Effects(t.reply, [SpanRecord(LoginSpan, span.context, span.parent, t.rootCalls + [SpanCall.End])] + t.children,
                   StartObservations(inst, base) + t.observations, [StartLog(LoginStarted, req)] + t.logs, []);
    var children;
    reply, children := LoginParseStep(tracer, rec, logger, span, ctx, inst, input, base);
    AppendAssoc(old(rec.log), StartObservations(inst, base), t.observations);
    AppendAssoc(old(logger.entries), [StartLog(LoginStarted, req)], t.logs);
    assert span.calls == t.rootCalls;
    assert span !in children;
    span.End();
    spans := [span] + children;
    RecordsOfCons(span, children);
  }

  method LoginParseStep(tracer: Tracer, rec: Recorder, logger: Logger, root: Span, ctx: Context,
                        inst: AuthInstruments, input: LoginInput, base: seq<Attr>)
    returns (reply: Reply, children: seq<Span>)
    modifies tracer, rec, logger, root
    ensures var t := LoginParse(input, inst, SpanContextFromContext(ctx), old(tracer.issued), base);
      && reply == t.reply && root.calls == old(root.calls) + t.rootCalls && RecordsOf(children) == t.children
      && rec.log == old(rec.log) + t.observations && logger.entries == old(logger.entries) + t.logs
    ensures forall i :: 0 <= i < |children| ==> fresh(children[i])
    ensures tracer.issued == old(tracer.issued) + |children|
  {
    var ctx', parseSpan := tracer.Start(ctx, LoginParseSpan);
    SpanOfContextWithSpan(ctx, parseSpan);
    if input.decoded.Err? {
      var e := input.decoded.error;
      FailSpan(parseSpan, Some(e), InvalidJson);
      ghost var before := root.calls;
      root.RecordError(e);
      root.SetStatus(Code.Error, InvalidJson);
      assert root.calls == before + [SpanCall.RecordError(e), ErrorStatus(InvalidJson)];
      Emit(logger, LoginParseFailedLog(e));
      return InvalidPayload(e), [parseSpan];
    }
    PassSpan(parseSpan, ParsedOk);
    assert LoginParse(input, inst, SpanContextFromContext(ctx), old(tracer.issued), base)
        == Then(PassedStep(LoginParseSpan, parseSpan.context, parseSpan.parent, ParsedOk), [],
                LoginValidate(input, input.decoded.value, inst, parseSpan.context, tracer.issued, base));
    var rest;
    reply, rest := LoginValidateStep(tracer, rec, logger, root, ctx', inst, input, input.decoded.value, base);
    children := [parseSpan] + rest;
    RecordsOfCons(parseSpan, rest);
  }

  method LoginValidateStep(tracer: Tracer, rec: Recorder, logger: Logger, root: Span, ctx: Context,
                           inst: AuthInstruments, input: LoginInput, r: LoginRequest, base: seq<Attr>)
    returns (reply: Reply, children: seq<Span>)
    modifies tracer, rec, logger, root
    ensures var t := LoginValidate(input, r, inst, SpanContextFromContext(ctx), old(tracer.issued), base);
      && reply == t.reply && root.calls == old(root.calls) + t.rootCalls && RecordsOf(children) == t.children
      && rec.log == old(rec.log) + t.observations && logger.entries == old(logger.entries) + t.logs
    ensures forall i :: 0 <= i < |children| ==> fresh(children[i])
    ensures tracer.issued == old(tracer.issued) + |children|
  {
    var ctx', validateSpan := tracer.Start(ctx, LoginValidateSpan);
    SpanOfContextWithSpan(ctx, validateSpan);
    if r.email == "" || r.password == "" {
      FailSpan(validateSpan, None, MissingFields);
      root.SetStatus(Code.Error, MissingFields);
      Emit(logger, LoginMissingFieldsLog(r));
      return LoginFieldsRequired, [validateSpan];
    }
    PassSpan(validateSpan, ValidatedOk);
    assert LoginValidate(input, r, inst, SpanContextFromContext(ctx), old(tracer.issued), base)
        == Then(PassedStep(LoginValidateSpan, validateSpan.context, validateSpan.parent, ValidatedOk), [],
                LoginLookup(input, r, inst, validateSpan.context, tracer.issued, base));
    var rest;
    reply, rest := LoginLookupStep(tracer, rec, logger, root, ctx', inst, input, r, base);
    children := [validateSpan] + rest;
    RecordsOfCons(validateSpan, rest);
  }

  method LoginLookupStep(tracer: Tracer, rec: Recorder, logger: Logger, root: Span, ctx: Context,
                         inst: AuthInstruments, input: LoginInput, r: LoginRequest, base: seq<Attr>)
    returns (reply: Reply, children: seq<Span>)
    modifies tracer, rec, logger, root
    ensures var t := LoginLookup(input, r, inst, SpanContextFromContext(ctx), old(tracer.issued), base);
      && reply == t.reply && root.calls == old(root.calls) + t.rootCalls && RecordsOf(children) == t.children
      && rec.log == old(rec.log) + t.observations && logger.entries == old(logger.entries) + t.logs
    ensures forall i :: 0 <= i < |children| ==> fresh(children[i])
    ensures tracer.issued == old(tracer.issued) + |children|
  {
    var _, dbSpan := tracer.Start(ctx, LoginLookupSpan);
    RecordQuery(rec, inst, LoginQueryAttrs(base), input.dbDuration);
    if input.lookup.Missing? {
      FailSpan(dbSpan, Some(RecordNotFoundText), LookupFailedStatus);
      root.RecordError(RecordNotFoundText);
      Emit(logger, UserNotFoundLog(r, input.dbDuration));
      return InvalidCredentials, [dbSpan];
    } else if input.lookup.LookupFailed? {
      var e := input.lookup.err;
      FailSpan(dbSpan, Some(e), LookupFailedStatus);
      root.RecordError(e);
      Emit(logger, LoginDbErrorLog(r, e, input.dbDuration));
      return DatabaseError(e), [dbSpan];
    }
    PassSpan(dbSpan, FoundOk);
    assert LoginLookup(input, r, inst, SpanContextFromContext(ctx), old(tracer.issued), base)
        == Then(PassedStep(LoginLookupSpan, dbSpan.context, dbSpan.parent, FoundOk), QueryObservations(inst, LoginQueryAttrs(base), input.dbDuration),
                LoginVerify(input, r, input.lookup.user, inst, dbSpan.parent, tracer.issued, base));
    ghost var log1 := rec.log;
    var rest;
    reply, rest := LoginVerifyStep(tracer, rec, logger, root, ctx, inst, input, r, input.lookup.user, base);
    AppendAssoc(old(rec.log), QueryObservations(inst, LoginQueryAttrs(base), input.dbDuration),
                rec.log[|log1|..]);
    children := [dbSpan] + rest;
    RecordsOfCons(dbSpan, rest);
  }

  method LoginVerifyStep(tracer: Tracer, rec: Recorder, logger: Logger, root: Span, ctx: Context,
                         inst: AuthInstruments, input: LoginInput, r: LoginRequest, u: User, base: seq<Attr>)
    returns (reply: Reply, children: seq<Span>)
    modifies tracer, rec, logger, root
    ensures var t := LoginVerify(input, r, u, inst, SpanContextFromContext(ctx), old(tracer.issued), base);
      && reply == t.reply && root.calls == old(root.calls) + t.rootCalls && RecordsOf(children) == t.children
      && rec.log == old(rec.log) + t.observations && logger.entries == old(logger.entries) + t.logs
    ensures forall i :: 0 <= i < |children| ==> fresh(children[i])
    ensures tracer.issued == old(tracer.issued) + |children|
  {
    var ctx', verifySpan := tracer.Start(ctx, LoginVerifySpan);
    SpanOfContextWithSpan(ctx, verifySpan);
    if !input.passwordOk {
      FailSpan(verifySpan, None, InvalidPassword);
      root.SetStatus(Code.Error, InvalidPassword);
      Emit(logger, InvalidPasswordLog(r, u));
      return InvalidCredentials, [verifySpan];
    }
    PassSpan(verifySpan, VerifiedOk);
    assert LoginVerify(input, r, u, inst, SpanContextFromContext(ctx), old(tracer.issued), base)
        == Then(PassedStep(LoginVerifySpan, verifySpan.context, verifySpan.parent, VerifiedOk), [],
                LoginToken(input, r, u, inst, verifySpan.context, tracer.issued, base));
    var rest;
    reply, rest := LoginTokenStep(tracer, rec, logger, root, ctx', inst, input, r, u, base);
    children := [verifySpan] + rest;
    RecordsOfCons(verifySpan, rest);
  }

  method LoginTokenStep(tracer: Tracer, rec: Recorder, logger: Logger, root: Span, ctx: Context,
                        inst: AuthInstruments, input: LoginInput, r: LoginRequest, u: User, base: seq<Attr>)
    returns (reply: Reply, children: seq<Span>)
    modifies tracer, rec, logger, root
    ensures var t := LoginToken(input, r, u, inst, SpanContextFromContext(ctx), old(tracer.issued), base);
      && reply == t.reply && root.calls == old(root.calls) + t.rootCalls && RecordsOf(children) == t.children
      && rec.log == old(rec.log) + t.observations && logger.entries == old(logger.entries) + t.logs
    ensures forall i :: 0 <= i < |children| ==> fresh(children[i])
    ensures tracer.issued == old(tracer.issued) + |children|
  {
    var _, tokenSpan := tracer.Start(ctx, LoginTokenSpan);
    if input.token.Err? {
      var e := input.token.error;
      FailSpan(tokenSpan, Some(e), TokenFailed);
      root.RecordError(e);
      Emit(logger, JwtFailedLog(r, u, e));
      return TokenError(e), [tokenSpan];
    }
    PassSpan(tokenSpan, TokenOk);
    RecordIfPresent(rec, inst.authDuration, input.authElapsed, SuccessAttrs(base, u.id));
    root.SetStatus(Code.Ok, LoginSuccessful);
    Emit(logger, LoginSuccessLog(r, u, input.logElapsed));
    return LoggedIn(input.token.value, u), [tokenSpan];
  }

  // ------------------------------------------------------------------
  // Registration

  /** The outcomes registerUser depends on, and the clock readings it uses:
      whether DB is non-nil, the decoded body, the two existence checks,
      hashPassword, the insert (the new row's ID or an error), the elapsed
      times of the three database calls, and of the whole request for the
      metric and for the log. */
  datatype RegisterInput = RegisterInput(dbReady: bool, decoded: Result<RegisterRequest, string>,
                                         emailCheck: LookupOutcome, usernameCheck: LookupOutcome,
                                         hashed: Result<string, string>, created: Result<int, string>,
                                         emailDuration: int, usernameDuration: int, createDuration: int,
                                         authElapsed: int, logElapsed: int)

  const RegisterStarted := "Registration attempt started"
  const RegisterSpan := "auth.register"
  const RegisterParseSpan := "auth.register.parse_request"
  const RegisterValidateSpan := "auth.register.validate_request"
  const EmailCheckSpan := "auth.register.check_email"
  const UsernameCheckSpan := "auth.register.check_username"
  const HashSpan := "auth.register.hash_password"
  const CreateSpan := "auth.register.create_user"
  const EmailExists := "Email already exists"
  const EmailAvailable := "Email available"
  const UsernameExists := "Username already exists"
  const UsernameAvailable := "Username available"
  const DatabaseErrorStatus := "Database error"
  const HashFailed := "Password hashing failed"
  const HashedOk := "Password hashed successfully"
  const CreateFailed := "User creation failed"
  const CreatedOk := "User created successfully"
  const RegistrationSuccessful := "Registration successful"
  const RegisterFieldsRequired := Reply(400, ErrorBody("Username, email, and password are required", ""))
  const EmailInUse := Reply(409, ErrorBody("Email already in use", ""))
  const UsernameTaken := Reply(409, ErrorBody("Username already taken", ""))

  function HashError(e: string): Reply
  {
    Reply(500, ErrorBody(HashFailed, e))
  }

  function CreateError(e: string): Reply
  {
    Reply(500, ErrorBody(CreateFailed, e))
  }

  /** The reply of a registration: the new user, and no token. */
  function Registered(u: User): Reply
  {
    Reply(201, AuthBody(RegistrationSuccessful, "", u))
  }

  /** The attributes of an existence check's metrics. */
  function CheckAttrs(base: seq<Attr>, checkType: string): seq<Attr>
  {
    base + [Attr("query_type", Str("select")), Attr("table", Str("users")), Attr("check_type", Str(checkType))]
  }

  function InsertAttrs(base: seq<Attr>): seq<Attr>
  {
    base + [Attr("query_type", Str("insert")), Attr("table", Str("users"))]
  }

  /** The registration check: every field must be non-empty. */
  predicate MissingField(r: RegisterRequest)
  {
    r.email == "" || r.password == "" || r.username == ""
  }

  function RegisterParseFailedLog(e: string): LogEntry
  {
    ParseFailedLog("Failed to parse registration request", e)
  }

  function RegisterMissingFieldsLog(r: RegisterRequest): LogEntry
  {
    LogEntry(ErrorLevel, "Registration validation failed - missing fields",
             [Attr("email", Str(r.email)), Attr("username", Str(r.username)),
              Attr("email_empty", Flag(r.email == "")), Attr("username_empty", Flag(r.username == "")),
              Attr("password_empty", Flag(r.password == ""))])
  }

  function EmailExistsLog(r: RegisterRequest, d: int): LogEntry
  {
    LogEntry(InfoLevel, "Registration failed - email already exists",
             [Attr("email", Str(r.email)), Attr("db_duration", Num(d))])
  }

  function EmailCheckErrorLog(r: RegisterRequest, e: string, d: int): LogEntry
  {
    LogEntry(ErrorLevel, "Database error during email check",
             [Attr("email", Str(r.email)), Attr("error", Str(e)), Attr("db_duration", Num(d))])
  }

  function UsernameTakenLog(r: RegisterRequest, d: int): LogEntry
  {
    LogEntry(InfoLevel, "Registration failed - username already taken",
             [Attr("username", Str(r.username)), Attr("db_duration", Num(d))])
  }

  function UsernameCheckErrorLog(r: RegisterRequest, e: string, d: int): LogEntry
  {
    LogEntry(ErrorLevel, "Database error during username check",
             [Attr("username", Str(r.username)), Attr("error", Str(e)), Attr("db_duration", Num(d))])
  }

  function HashFailedLog(r: RegisterRequest, e: string): LogEntry
  {
    LogEntry(ErrorLevel, HashFailed,
             [Attr("email", Str(r.email)), Attr("username", Str(r.username)), Attr("error", Str(e))])
  }

  function CreateFailedLog(r: RegisterRequest, e: string, d: int): LogEntry
  {
    LogEntry(ErrorLevel, CreateFailed,
             [Attr("email", Str(r.email)), Attr("username", Str(r.username)), Attr("error", Str(e)),
              Attr("db_duration", Num(d))])
  }

  function RegisterSuccessLog(r: RegisterRequest, id: int, elapsed: int): LogEntry
  {
    LogEntry(InfoLevel, RegistrationSuccessful,
             [Attr("email", Str(r.email)), Attr("username", Str(r.username)), Attr("user_id", Num(id)),
              Attr("total_duration", Num(elapsed))])
  }

  /** Where registerUser is: the step about to start, with the decoded
      request once there is one. */
  datatype RegisterPhase =
    | ParseRegistration
    | ValidateRegistration(r: RegisterRequest)
    | CheckEmail(r: RegisterRequest)
    | CheckUsername(r: RegisterRequest)
    | HashPassword(r: RegisterRequest)
    | CreateUser(r: RegisterRequest)
  {
    function Rank(): nat
    {
      match this
      case ParseRegistration => 5
      case ValidateRegistration(_) => 4
      case CheckEmail(_) => 3
      case CheckUsername(_) => 2
      case HashPassword(_) => 1
      case CreateUser(_) => 0
    }
  }

  /** What registerUser does, for given outcomes, request and instruments,
      when the tracer has issued `issued` spans before.  Unlike loginUser it
      prints nothing when DB is there. */
  function RegisterEffects(input: RegisterInput, inst: AuthInstruments, req: HttpRequest, issued: nat): Effects
  {
    if !input.dbReady then Effects(DbUnavailable, [], [], [], [DbNotInitialized])
    else RegisterTraced(input, inst, req, issued)
  }

  function RegisterTraced(input: RegisterInput, inst: AuthInstruments, req: HttpRequest, issued: nat): Effects
  {
    var upstream := Upstream(req);
    var root := ChildContext(upstream, issued);
    var base := BaseAttrs("register", req.verb, root);
    var t := RegisterParse(input, inst, root, issued + 1, base);
    Effects(t.reply, [SpanRecord(RegisterSpan, root, upstream, t.rootCalls + [SpanCall.End])] + t.children,
            StartObservations(inst, base) + t.observations,
            [StartLog(RegisterStarted, req)] + t.logs, [])
  }

  /** The registration steps from `phase` on, as for login. */
  function RegisterFrom(phase: RegisterPhase, input: RegisterInput, inst: AuthInstruments, parent: SpanContext,
                        n: nat, base: seq<Attr>): Tail
    decreases phase.Rank(), 1
  {
    match phase
    case ParseRegistration => RegisterParse(input, inst, parent, n, base)
    case ValidateRegistration(r) => RegisterValidate(input, r, inst, parent, n, base)
    case CheckEmail(r) => RegisterCheckEmail(input, r, inst, parent, n, base)
    case CheckUsername(r) => RegisterCheckUsername(input, r, inst, parent, n, base)
    case HashPassword(r) => RegisterHash(input, r, inst, parent, n, base)
    case CreateUser(r) => RegisterCreate(input, r, inst, parent, n, base)
  }

  /** Decoding the body.  Unlike login, the root span only records the error
      and keeps its status. */
  function RegisterParse(input: RegisterInput, inst: AuthInstruments, parent: SpanContext, n: nat,
                         base: seq<Attr>): Tail
    decreases ParseRegistration.Rank(), 0
  {
    var sc := ChildContext(parent, n);
    if input.decoded.Err? then
      var e := input.decoded.error;
      Tail(InvalidPayload(e), [SpanCall.RecordError(e)],
           [FailedStep(RegisterParseSpan, sc, parent, Some(e), InvalidJson)], [], [RegisterParseFailedLog(e)])
    else
      Then(PassedStep(RegisterParseSpan, sc, parent, ParsedOk), [],
           RegisterFrom(ValidateRegistration(input.decoded.value), input, inst, sc, n + 1, base))
  }

  function RegisterValidate(input: RegisterInput, r: RegisterRequest, inst: AuthInstruments, parent: SpanContext,
                            n: nat, base: seq<Attr>): Tail
    decreases ValidateRegistration(r).Rank(), 0
  {
    var sc := ChildContext(parent, n);
    if MissingField(r) then
      Tail(RegisterFieldsRequired, [ErrorStatus(MissingFields)],
           [FailedStep(RegisterValidateSpan, sc, parent, None, MissingFields)], [], [RegisterMissingFieldsLog(r)])
    else
      Then(PassedStep(RegisterValidateSpan, sc, parent, ValidatedOk), [],
           RegisterFrom(CheckEmail(r), input, inst, sc, n + 1, base))
  }

  /** Whether the email is taken.  A found row is a conflict and leaves the
      root span alone; the check's context is not kept, so the next steps are
      children of the same `parent`. */
  function RegisterCheckEmail(input: RegisterInput, r: RegisterRequest, inst: AuthInstruments, parent: SpanContext,
                              n: nat, base: seq<Attr>): Tail
    decreases CheckEmail(r).Rank(), 0
  {
    var sc := ChildContext(parent, n);
    var obs := QueryObservations(inst, CheckAttrs(base, "email"), input.emailDuration);
    match input.emailCheck
    case Found(_) =>
      Tail(EmailInUse, [], [FailedStep(EmailCheckSpan, sc, parent, None, EmailExists)],
           obs, [EmailExistsLog(r, input.emailDuration)])
    case LookupFailed(e) =>
      Tail(DatabaseError(e), [SpanCall.RecordError(e)],
           [FailedStep(EmailCheckSpan, sc, parent, Some(e), DatabaseErrorStatus)],
           obs, [EmailCheckErrorLog(r, e, input.emailDuration)])
    case Missing =>
      Then(PassedStep(EmailCheckSpan, sc, parent, EmailAvailable), obs,
           RegisterFrom(CheckUsername(r), input, inst, parent, n + 1, base))
  }

  function RegisterCheckUsername(input: RegisterInput, r: RegisterRequest, inst: AuthInstruments,
                                 parent: SpanContext, n: nat, base: seq<Attr>): Tail
    decreases CheckUsername(r).Rank(), 0
  {
    var sc := ChildContext(parent, n);
    var obs := QueryObservations(inst, CheckAttrs(base, "username"), input.usernameDuration);
    match input.usernameCheck
    case Found(_) =>
      Tail(UsernameTaken, [], [FailedStep(UsernameCheckSpan, sc, parent, None, UsernameExists)],
           obs, [UsernameTakenLog(r, input.usernameDuration)])
    case LookupFailed(e) =>
      Tail(DatabaseError(e), [SpanCall.RecordError(e)],
           [FailedStep(UsernameCheckSpan, sc, parent, Some(e), DatabaseErrorStatus)],
           obs, [UsernameCheckErrorLog(r, e, input.usernameDuration)])
    case Missing =>
      Then(PassedStep(UsernameCheckSpan, sc, parent, UsernameAvailable), obs,
           RegisterFrom(HashPassword(r), input, inst, parent, n + 1, base))
  }

  function RegisterHash(input: RegisterInput, r: RegisterRequest, inst: AuthInstruments, parent: SpanContext,
                        n: nat, base: seq<Attr>): Tail
    decreases HashPassword(r).Rank(), 0
  {
    var sc := ChildContext(parent, n);
    if input.hashed.Err? then
      var e := input.hashed.error;
      Tail(HashError(e), [SpanCall.RecordError(e)],
           [FailedStep(HashSpan, sc, parent, Some(e), HashFailed)], [], [HashFailedLog(r, e)])
    else
      Then(PassedStep(HashSpan, sc, parent, HashedOk), [],
           RegisterFrom(CreateUser(r), input, inst, sc, n + 1, base))
  }

  /** Inserting the row; on success the request is timed and succeeds. */
  function RegisterCreate(input: RegisterInput, r: RegisterRequest, inst: AuthInstruments, parent: SpanContext,
                          n: nat, base: seq<Attr>): Tail
    decreases CreateUser(r).Rank(), 0
  {
    var sc := ChildContext(parent, n);
    var obs := QueryObservations(inst, InsertAttrs(base), input.createDuration);
    if input.created.Err? then
      var e := input.created.error;
      Tail(CreateError(e), [SpanCall.RecordError(e)],
           [FailedStep(CreateSpan, sc, parent, Some(e), CreateFailed)],
           obs, [CreateFailedLog(r, e, input.createDuration)])
    else
      var id := input.created.value;
      Tail(Registered(User(id, r.username, r.email)), [OkStatus(RegistrationSuccessful)],
           [PassedStep(CreateSpan, sc, parent, CreatedOk)],
           obs + WhenPresent(inst.authDuration, input.authElapsed, SuccessAttrs(base, id)),
           [RegisterSuccessLog(r, id, input.logElapsed)])
  }

  /** registerUser.  The spans it starts are returned, root first, in the
      order they start. */
  method RegisterUser(tracer: Tracer, rec: Recorder, logger: Logger, console: Console,
                      inst: AuthInstruments, req: HttpRequest, input: RegisterInput)
    returns (reply: Reply, spans: seq<Span>)
    modifies tracer, rec, logger, console
    ensures var eff := RegisterEffects(input, inst, req, old(tracer.issued));
      && reply == eff.reply && RecordsOf(spans) == eff.spans
      && rec.log == old(rec.log) + eff.observations
      && logger.entries == old(logger.entries) + eff.logs
      && console.lines == old(console.lines) + eff.console
    ensures forall i :: 0 <= i < |spans| ==> fresh(spans[i])
    ensures tracer.issued == old(tracer.issued) + |spans|
  {
    if !input.dbReady {
      console.Print(DbNotInitialized);
      return DbUnavailable, [];
    }
    reply, spans := RegisterTracedStep(tracer, rec, logger, inst, req, input);
  }

  method RegisterTracedStep(tracer: Tracer, rec: Recorder, logger: Logger,
                            inst: AuthInstruments, req: HttpRequest, input: RegisterInput)
    returns (reply: Reply, spans: seq<Span>)
    modifies tracer, rec, logger
    ensures var eff := RegisterTraced(input, inst, req, old(tracer.issued));
      && reply == eff.reply && RecordsOf(spans) == eff.spans
      && rec.log == old(rec.log) + eff.observations
      && logger.entries == old(logger.entries) + eff.logs
    ensures forall i :: 0 <= i < |spans| ==> fresh(spans[i])
    ensures tracer.issued == old(tracer.issued) + |spans|
  {
    var ctx := Extract(GlobalPropagator, req.ctx, req.headers);
    var span;
    ctx, span := tracer.Start(ctx, RegisterSpan);
    SpanOfContextWithSpan(Extract(GlobalPropagator, req.ctx, req.headers), span);
    var base := BaseAttrs("register", req.verb, span.context);
    ghost var log0 := rec.log;
    RecordIfPresent(rec, inst.requests, 1, base);
    RecordIfPresent(rec, inst.attempts, 1, base);
    assert rec.log == log0 + StartObservations(inst, base);
    Emit(logger, StartLog(RegisterStarted, req));
    ghost var t := RegisterParse(input, inst, span.context, tracer.issued, base);
    assert RegisterTraced(input, inst, req, old(tracer.issued))
        == Effects(t.reply, [SpanRecord(RegisterSpan, span.context, span.parent, t.rootCalls + [SpanCall.End])] + t.children,
                   StartObservations(inst, base) + t.observations, [StartLog(RegisterStarted, req)] + t.logs, []);
    var children;
    reply, children := RegisterParseStep(tracer, rec, logger, span, ctx, inst, input, base);
    AppendAssoc(old(rec.log), StartObservations(inst, base), t.observations);
    AppendAssoc(old(logger.entries), [StartLog(RegisterStarted, req)], t.logs);
    assert span.calls == t.rootCalls;
    assert span !in children;
    span.End();
    spans := [span] + children;
    RecordsOfCons(span, children);
  }

  method RegisterParseStep(tracer: Tracer, rec: Recorder, logger: Logger, root: Span, ctx: Context,
                           inst: AuthInstruments, input: RegisterInput, base: seq<Attr>)
    returns (reply: Reply, children: seq<Span>)
    modifies tracer, rec, logger, root
    ensures var t := RegisterParse(input, inst, SpanContextFromContext(ctx), old(tracer.issued), base);
      && reply == t.reply && root.calls == old(root.calls) + t.rootCalls && RecordsOf(children) == t.children
      && rec.log == old(rec.log) + t.observations && logger.entries == old(logger.entries) + t.logs
    ensures forall i :: 0 <= i < |children| ==> fresh(children[i])
    ensures tracer.issued == old(tracer.issued) + |children|
  {
    var ctx', parseSpan := tracer.Start(ctx, RegisterParseSpan);
    SpanOfContextWithSpan(ctx, parseSpan);
    if input.decoded.Err? {
      var e := input.decoded.error;
      FailSpan(parseSpan, Some(e), InvalidJson);
      root.RecordError(e);
      Emit(logger, RegisterParseFailedLog(e));
      return InvalidPayload(e), [parseSpan];
    }
    PassSpan(parseSpan, ParsedOk);
    assert RegisterParse(input, inst, SpanContextFromContext(ctx), old(tracer.issued), base)
        == Then(PassedStep(RegisterParseSpan, parseSpan.context, parseSpan.parent, ParsedOk), [],
                RegisterValidate(input, input.decoded.value, inst, parseSpan.context, tracer.issued, base));
    var rest;
    reply, rest := RegisterValidateStep(tracer, rec, logger, root, ctx', inst, input, input.decoded.value, base);
    children := [parseSpan] + rest;
    RecordsOfCons(parseSpan, rest);
  }

  method RegisterValidateStep(tracer: Tracer, rec: Recorder, logger: Logger, root: Span, ctx: Context,
                              inst: AuthInstruments, input: RegisterInput, r: RegisterRequest, base: seq<Attr>)
    returns (reply: Reply, children: seq<Span>)
    modifies tracer, rec, logger, root
    ensures var t := RegisterValidate(input, r, inst, SpanContextFromContext(ctx), old(tracer.issued), base);
      && reply == t.reply && root.calls == old(root.calls) + t.rootCalls && RecordsOf(children) == t.children
      && rec.log == old(rec.log) + t.observations && logger.entries == old(logger.entries) + t.logs
    ensures forall i :: 0 <= i < |children| ==> fresh(children[i])
    ensures tracer.issued == old(tracer.issued) + |children|
  {
    var ctx', validateSpan := tracer.Start(ctx, RegisterValidateSpan);
    SpanOfContextWithSpan(ctx, validateSpan);
    if MissingField(r) {
      FailSpan(validateSpan, None, MissingFields);
      root.SetStatus(Code.Error, MissingFields);
      Emit(logger, RegisterMissingFieldsLog(r));
      return RegisterFieldsRequired, [validateSpan];
    }
    PassSpan(validateSpan, ValidatedOk);
    assert RegisterValidate(input, r, inst, SpanContextFromContext(ctx), old(tracer.issued), base)
        == Then(PassedStep(RegisterValidateSpan, validateSpan.context, validateSpan.parent, ValidatedOk), [],
                RegisterCheckEmail(input, r, inst, validateSpan.context, tracer.issued, base));
    var rest;
    reply, rest := RegisterCheckEmailStep(tracer, rec, logger, root, ctx', inst, input, r, base);
    children := [validateSpan] + rest;
    RecordsOfCons(validateSpan, rest);
  }

  method RegisterCheckEmailStep(tracer: Tracer, rec: Recorder, logger: Logger, root: Span, ctx: Context,
                                inst: AuthInstruments, input: RegisterInput, r: RegisterRequest, base: seq<Attr>)
    returns (reply: Reply, children: seq<Span>)
    modifies tracer, rec, logger, root
    ensures var t := RegisterCheckEmail(input, r, inst, SpanContextFromContext(ctx), old(tracer.issued), base);
      && reply == t.reply && root.calls == old(root.calls) + t.rootCalls && RecordsOf(children) == t.children
      && rec.log == old(rec.log) + t.observations && logger.entries == old(logger.entries) + t.logs
    ensures forall i :: 0 <= i < |children| ==> fresh(children[i])
    ensures tracer.issued == old(tracer.issued) + |children|
  {
    var _, checkSpan := tracer.Start(ctx, EmailCheckSpan);
    RecordQuery(rec, inst, CheckAttrs(base, "email"), input.emailDuration);
    if input.emailCheck.Found? {
      FailSpan(checkSpan, None, EmailExists);
      Emit(logger, EmailExistsLog(r, input.emailDuration));
      return EmailInUse, [checkSpan];
    } else if input.emailCheck.LookupFailed? {
      var e := input.emailCheck.err;
      FailSpan(checkSpan, Some(e), DatabaseErrorStatus);
      root.RecordError(e);
      Emit(logger, EmailCheckErrorLog(r, e, input.emailDuration));
      return DatabaseError(e), [checkSpan];
    }
    PassSpan(checkSpan, EmailAvailable);
    assert RegisterCheckEmail(input, r, inst, SpanContextFromContext(ctx), old(tracer.issued), base)
        == Then(PassedStep(EmailCheckSpan, checkSpan.context, checkSpan.parent, EmailAvailable), QueryObservations(inst, CheckAttrs(base, "email"), input.emailDuration),
                RegisterCheckUsername(input, r, inst, checkSpan.parent, tracer.issued, base));
    ghost var log1 := rec.log;
    var rest;
    reply, rest := RegisterCheckUsernameStep(tracer, rec, logger, root, ctx, inst, input, r, base);
    AppendAssoc(old(rec.log), QueryObservations(inst, CheckAttrs(base, "email"), input.emailDuration),
                rec.log[|log1|..]);
    children := [checkSpan] + rest;
    RecordsOfCons(checkSpan, rest);
  }

  method RegisterCheckUsernameStep(tracer: Tracer, rec: Recorder, logger: Logger, root: Span, ctx: Context,
                                   inst: AuthInstruments, input: RegisterInput, r: RegisterRequest, base: seq<Attr>)
    returns (reply: Reply, children: seq<Span>)
    modifies tracer, rec, logger, root
    ensures var t := RegisterCheckUsername(input, r, inst, SpanContextFromContext(ctx), old(tracer.issued), base);
      && reply == t.reply && root.calls == old(root.calls) + t.rootCalls && RecordsOf(children) == t.children
      && rec.log == old(rec.log) + t.observations && logger.entries == old(logger.entries) + t.logs
    ensures forall i :: 0 <= i < |children| ==> fresh(children[i])
    ensures tracer.issued == old(tracer.issued) + |children|
  {
    var _, checkSpan := tracer.Start(ctx, UsernameCheckSpan);
    RecordQuery(rec, inst, CheckAttrs(base, "username"), input.usernameDuration);
    if input.usernameCheck.Found? {
      FailSpan(checkSpan, None, UsernameExists);
      Emit(logger, UsernameTakenLog(r, input.usernameDuration));
      return UsernameTaken, [checkSpan];
    } else if input.usernameCheck.LookupFailed? {
      var e := input.usernameCheck.err;
      FailSpan(checkSpan, Some(e), DatabaseErrorStatus);
      root.RecordError(e);
      Emit(logger, UsernameCheckErrorLog(r, e, input.usernameDuration));
      return DatabaseError(e), [checkSpan];
    }
    PassSpan(checkSpan, UsernameAvailable);
    assert RegisterCheckUsername(input, r, inst, SpanContextFromContext(ctx), old(tracer.issued), base)
        == Then(PassedStep(UsernameCheckSpan, checkSpan.context, checkSpan.parent, UsernameAvailable), QueryObservations(inst, CheckAttrs(base, "username"), input.usernameDuration),
                RegisterHash(input, r, inst, checkSpan.parent, tracer.issued, base));
    ghost var log1 := rec.log;
    var rest;
    reply, rest := RegisterHashStep(tracer, rec, logger, root, ctx, inst, input, r, base);
    AppendAssoc(old(rec.log), QueryObservations(inst, CheckAttrs(base, "username"), input.usernameDuration),
                rec.log[|log1|..]);
    children := [checkSpan] + rest;
    RecordsOfCons(checkSpan, rest);
  }

  method RegisterHashStep(tracer: Tracer, rec: Recorder, logger: Logger, root: Span, ctx: Context,
                          inst: AuthInstruments, input: RegisterInput, r: RegisterRequest, base: seq<Attr>)
    returns (reply: Reply, children: seq<Span>)
    modifies tracer, rec, logger, root
    ensures var t := RegisterHash(input, r, inst, SpanContextFromContext(ctx), old(tracer.issued), base);
      && reply == t.reply && root.calls == old(root.calls) + t.rootCalls && RecordsOf(children) == t.children
      && rec.log == old(rec.log) + t.observations && logger.entries == old(logger.entries) + t.logs
    ensures forall i :: 0 <= i < |children| ==> fresh(children[i])
    ensures tracer.issued == old(tracer.issued) + |children|
  {
    var ctx', hashSpan := tracer.Start(ctx, HashSpan);
    SpanOfContextWithSpan(ctx, hashSpan);
    if input.hashed.Err? {
      var e := input.hashed.error;
      FailSpan(hashSpan, Some(e), HashFailed);
      root.RecordError(e);
      Emit(logger, HashFailedLog(r, e));
      return HashError(e), [hashSpan];
    }
    PassSpan(hashSpan, HashedOk);
    assert RegisterHash(input, r, inst, SpanContextFromContext(ctx), old(tracer.issued), base)
        == Then(PassedStep(HashSpan, hashSpan.context, hashSpan.parent, HashedOk), [],
                RegisterCreate(input, r, inst, hashSpan.context, tracer.issued, base));
    var rest;
    reply, rest := RegisterCreateStep(tracer, rec, logger, root, ctx', inst, input, r, base);
    children := [hashSpan] + rest;
    RecordsOfCons(hashSpan, rest);
  }

  method RegisterCreateStep(tracer: Tracer, rec: Recorder, logger: Logger, root: Span, ctx: Context,
                            inst: AuthInstruments, input: RegisterInput, r: RegisterRequest, base: seq<Attr>)
    returns (reply: Reply, children: seq<Span>)
    modifies tracer, rec, logger, root
    ensures var t := RegisterCreate(input, r, inst, SpanContextFromContext(ctx), old(tracer.issued), base);
      && reply == t.reply && root.calls == old(root.calls) + t.rootCalls && RecordsOf(children) == t.children
      && rec.log == old(rec.log) + t.observations && logger.entries == old(logger.entries) + t.logs
    ensures forall i :: 0 <= i < |children| ==> fresh(children[i])
    ensures tracer.issued == old(tracer.issued) + |children|
  {
    var _, createSpan := tracer.Start(ctx, CreateSpan);
    ghost var log0 := rec.log;
    RecordQuery(rec, inst, InsertAttrs(base), input.createDuration);
    if input.created.Err? {
      var e := input.created.error;
      FailSpan(createSpan, Some(e), CreateFailed);
      root.RecordError(e);
      Emit(logger, CreateFailedLog(r, e, input.createDuration));
      return CreateError(e), [createSpan];
    }
    var id := input.created.value;
    PassSpan(createSpan, CreatedOk);
    ghost var log1 := rec.log;
    RecordIfPresent(rec, inst.authDuration, input.authElapsed, SuccessAttrs(base, id));
    AppendAssoc(log0, QueryObservations(inst, InsertAttrs(base), input.createDuration),
                WhenPresent(inst.authDuration, input.authElapsed, SuccessAttrs(base, id)));
    root.SetStatus(Code.Ok, RegistrationSuccessful);
    Emit(logger, RegisterSuccessLog(r, id, input.logElapsed));
    return Registered(User(id, r.username, r.email)), [createSpan];
  }
}

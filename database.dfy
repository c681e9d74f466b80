/** backend/database.go: the environment-driven connection settings, the
    database start-up sequence, and the GORM callbacks that time every
    database operation, count it, and stamp the status of the span in the
    statement's context. */
module Database {
  import opened Wrappers
  import opened Telemetry

  // ------------------------------------------------------------------
  // Environment and connection string

  /** os.Getenv reads an unset variable as "". */
  function GetEnv(env: map<string, string>, key: string, default: string): (v: string)
    ensures key in env && env[key] != "" ==> v == env[key]
    ensures !(key in env && env[key] != "") ==> v == default
  {
    if key in env && env[key] != "" then env[key] else default
  }

  lemma GetEnvNeverEmpty(env: map<string, string>, key: string, default: string)
    requires default != ""
    ensures GetEnv(env, key, default) != ""
  {
  }

  datatype ConnParams = ConnParams(host: string, user: string, password: string,
                                   dbname: string, port: string, sslmode: string)

  function ConnParamsFrom(env: map<string, string>): (p: ConnParams)
  {
    ConnParams(GetEnv(env, "DB_HOST", "localhost"), GetEnv(env, "DB_USER", "abdullah"),
               GetEnv(env, "DB_PASSWORD", "edhi"), GetEnv(env, "DB_NAME", "mydb1"),
               GetEnv(env, "DB_PORT", "5432"), GetEnv(env, "DB_SSLMODE", "disable"))
  }

  /** The key=value pairs of the connection string, in order. */
  function DsnPairs(p: ConnParams): (pairs: seq<string>)
    ensures |pairs| == 6
  {
    ["host=" + p.host, "user=" + p.user, "password=" + p.password,
     "dbname=" + p.dbname, "port=" + p.port, "sslmode=" + p.sslmode]
  }

  function JoinSpaces(parts: seq<string>): (s: string)
    requires |parts| >= 1
  {
    if |parts| == 1 then parts[0] else parts[0] + " " + JoinSpaces(parts[1..])
  }

  /** getDBConnectionString. */
  function ConnectionString(env: map<string, string>): (dsn: string)
  {
    JoinSpaces(DsnPairs(ConnParamsFrom(env)))
  }

  /** strings.Split(s, " "). */
  function SplitSpaces(s: string): (parts: seq<string>)
    ensures |parts| >= 1
  {
    if s == [] then [""]
    else if s[0] == ' ' then [""] + SplitSpaces(s[1..])
    else
      var rest := SplitSpaces(s[1..]);
      [[s[0]] + rest[0]] + rest[1..]
  }

  predicate NoSpace(s: string)
  {
    forall i :: 0 <= i < |s| ==> s[i] != ' '
  }

  lemma {:induction false} SplitWord(a: string, b: string)
    requires NoSpace(a)
    ensures SplitSpaces(a + " " + b) == [a] + SplitSpaces(b)
    ensures SplitSpaces(a) == [a]
  {
    if a != [] {
      assert (a + " " + b)[1..] == a[1..] + " " + b;
      SplitWord(a[1..], b);
      assert [a[0]] + a[1..] == a;
    }
  }

  lemma {:induction false} SplitJoin(parts: seq<string>)
    requires |parts| >= 1
    requires forall i :: 0 <= i < |parts| ==> NoSpace(parts[i])
    ensures SplitSpaces(JoinSpaces(parts)) == parts
  {
    if |parts| == 1 {
      SplitWord(parts[0], "");
    } else {
      SplitJoin(parts[1..]);
      SplitWord(parts[0], JoinSpaces(parts[1..]));
    }
  }

  /** When no setting contains a space, splitting the connection string at
      its spaces gives back exactly the six key=value pairs, each holding the
      environment's value or its default. */
  lemma ConnectionStringFields(env: map<string, string>)
    requires var p := ConnParamsFrom(env);
      NoSpace(p.host) && NoSpace(p.user) && NoSpace(p.password) &&
      NoSpace(p.dbname) && NoSpace(p.port) && NoSpace(p.sslmode)
    ensures SplitSpaces(ConnectionString(env)) == DsnPairs(ConnParamsFrom(env))
  {
    var pairs := DsnPairs(ConnParamsFrom(env));
    forall i | 0 <= i < 6 ensures NoSpace(pairs[i]) {
    }
    SplitJoin(pairs);
  }

  /** With none of the variables set, every field takes its default. */
  lemma DefaultConnectionParams()
    ensures ConnParamsFrom(map[]) == ConnParams("localhost", "abdullah", "edhi", "mydb1", "5432", "disable")
  {
  }

  // ------------------------------------------------------------------
  // Operation timing

  /** The context key under which the before-hooks store the start time. */
  const StartTimeKey := "gorm_start_time"

  /** db.Error after an operation.  ErrRecordNotFound is one particular
      error value; any other error, even with the same text, is a Failure. */
  datatype DbError = NoError | RecordNotFound | Failure(message: string)

  function ErrorText(e: DbError): string
  {
    match e
    case NoError => ""
    case RecordNotFound => "record not found"
    case Failure(m) => m
  }

  /** The statement GORM hands to its callbacks: its context (None for a nil
      context), its SQL text, its table and the operation's error. */
  class Statement {
    var context: Option<Context>
    const sql: string
    const table: string
    const error: DbError

    constructor (context: Option<Context>, sql: string, table: string, error: DbError)
      ensures this.context == context && this.sql == sql && this.table == table && this.error == error
    {
      this.context := context;
      this.sql := sql;
      this.table := table;
      this.error := error;
    }
  }

  function OrBackground(c: Option<Context>): Context
  {
    if c.Some? then c.value else Background
  }

  /** ctx.Value("gorm_start_time").(time.Time): a start time only when the
      innermost value under that key is a time. */
  function StartTime(ctx: Context): (t: Option<nat>)
  {
    match Lookup(ctx, Named(StartTimeKey))
    case Some(Time(t)) => Some(t)
    case _ => None
  }

  /** The before-hook registered for query, create, update, delete and raw
      operations: a nil context becomes Background, then the current time is
      attached under the start-time key, over whatever was there. */
  method RegisterStartTime(stmt: Statement, now: nat)
    modifies stmt
    ensures stmt.context == Some(WithValue(OrBackground(old(stmt.context)), Named(StartTimeKey), Time(now)))
    ensures StartTime(stmt.context.value) == Some(now)
  {
    if stmt.context.None? {
      stmt.context := Some(Background);
    }
    stmt.context := Some(WithValue(stmt.context.value, Named(StartTimeKey), Time(now)));
  }

  /** A second before-hook on the same statement replaces the first start
      time, and no other value of the context changes. */
  lemma BeforeHookShadows(ctx: Context, t0: nat, t1: nat, key: Key)
    ensures StartTime(WithValue(WithValue(ctx, Named(StartTimeKey), Time(t0)), Named(StartTimeKey), Time(t1))) == Some(t1)
    ensures key != Named(StartTimeKey) ==>
      Lookup(WithValue(ctx, Named(StartTimeKey), Time(t0)), key) == Lookup(ctx, key)
  {
  }

  // ------------------------------------------------------------------
  // The shared after-hook

  /** The first six characters of the SQL text, or "unknown" when it is
      shorter. */
  function OperationLabel(sql: string): (op: string)
    ensures |sql| >= 6 ==> op == sql[..6]
    ensures |sql| < 6 ==> op == "unknown"
  {
    if sql != "" && |sql| >= 6 then sql[..6] else "unknown"
  }

  /** An outcome counts as an error unless there is none or it is
      ErrRecordNotFound. */
  predicate IsError(e: DbError)
  {
    e != NoError && e != RecordNotFound
  }

  lemma ErrorClassification(e: DbError)
    ensures IsError(e) <==> e.Failure?
    ensures !IsError(RecordNotFound) && !IsError(NoError)
  {
  }

  function HookAttrs(sql: string, table: string, e: DbError): (attrs: seq<Attr>)
  {
    [Attr("db.operation", Str(OperationLabel(sql))), Attr("db.table", Str(table)),
     Attr("db.error", Flag(IsError(e)))]
  }

  /** The instruments the hook records to; nil ones are skipped. */
  datatype DbInstruments = DbInstruments(queryDuration: Option<Instrument>, queryCount: Option<Instrument>)

  /** What the after-hook records, in order: the elapsed time when a start
      time is in the context, then one count. */
  function HookObservations(ctx: Context, stmtSql: string, table: string, e: DbError,
                            inst: DbInstruments, now: nat): (obs: seq<Observation>)
  {
    var attrs := HookAttrs(stmtSql, table, e);
    (match StartTime(ctx)
     case Some(t) => WhenPresent(inst.queryDuration, now - t, attrs)
     case None => [])
    + WhenPresent(inst.queryCount, 1, attrs)
  }

  /** The calls the after-hook makes on a recording span. */
  function HookSpanCalls(e: DbError): (calls: seq<SpanCall>)
  {
    if IsError(e) then [SpanCall.SetStatus(Code.Error, ErrorText(e)), SpanCall.RecordError(ErrorText(e))]
    else [SpanCall.SetStatus(Code.Ok, "OK")]
  }

  /** The span the after-hook may touch: the context's span when it is
      recording. */
  function HookTargets(c: Option<Context>): (targets: set<object>)
  {
    var a := SpanFromContext(OrBackground(c));
    if IsRecording(a) then {a.span} else {}
  }

  /** recordGormMetricsAndSpanStatus, registered after query, create,
      update, delete and raw operations. */
  method RecordMetricsAndSpanStatus(stmt: Statement, inst: DbInstruments, rec: Recorder, now: nat)
    modifies rec, HookTargets(stmt.context)
    ensures rec.log == old(rec.log) +
      HookObservations(OrBackground(stmt.context), stmt.sql, stmt.table, stmt.error, inst, now)
    ensures var a := SpanFromContext(OrBackground(stmt.context));
      IsRecording(a) ==> a.span.calls == old(a.span.calls) + HookSpanCalls(stmt.error)
    ensures var a := SpanFromContext(OrBackground(stmt.context));
      a.LiveSpan? && !IsRecording(a) ==> a.span.calls == old(a.span.calls)
  {
    var ctx := stmt.context;
    if ctx.None? {
      ctx := Some(Background);
    }
    var op := "unknown";
    var sqlStr := stmt.sql;
    if sqlStr != "" && |sqlStr| >= 6 {
      op := sqlStr[..6];
    }
    var attrs := [Attr("db.operation", Str(op)), Attr("db.table", Str(stmt.table)),
                  Attr("db.error", Flag(stmt.error != NoError && stmt.error != RecordNotFound))];
    match StartTime(ctx.value) {
      case Some(startTime) =>
        if inst.queryDuration.Some? {
          rec.Record(inst.queryDuration.value, now - startTime, attrs);
        }
      case None =>
    }
    if inst.queryCount.Some? {
      rec.Record(inst.queryCount.value, 1, attrs);
    }
    var a := SpanFromContext(ctx.value);
    assert a == SpanFromContext(OrBackground(stmt.context));
    assert a.LiveSpan? ==> a.span.calls == old(a.span.calls);
    MarkSpan(a, stmt.error);
  }

  /** The span half of the after-hook: only a recording span is touched. */
  method MarkSpan(a: ActiveSpan, e: DbError)
    modifies if IsRecording(a) then {a.span} else {}
    ensures IsRecording(a) ==> a.span.calls == old(a.span.calls) + HookSpanCalls(e)
  {
    var isError := e != NoError && e != RecordNotFound;
    if isError {
      if IsRecording(a) {
        a.span.SetStatus(Code.Error, ErrorText(e));
        a.span.RecordError(ErrorText(e));
      }
    } else {
      if IsRecording(a) {
        a.span.SetStatus(Code.Ok, "OK");
      }
    }
  }

  /** The count is recorded exactly once per call whatever the outcome, and
      the elapsed time only when the context carries a start time; both carry
      the same three attributes. */
  lemma {:induction false} HookRecordsOneCount(ctx: Context, sql: string, table: string, e: DbError,
                                               inst: DbInstruments, now: nat)
    requires inst.queryCount.Some? && inst.queryDuration.Some?
    ensures var obs := HookObservations(ctx, sql, table, e, inst, now);
      && |obs| == (if StartTime(ctx).Some? then 2 else 1)
      && obs[|obs| - 1] == Observation(inst.queryCount.value, 1, HookAttrs(sql, table, e))
      && (StartTime(ctx).Some? ==>
            obs[0] == Observation(inst.queryDuration.value, now - StartTime(ctx).value, HookAttrs(sql, table, e)))
  {
  }

  /** Without a start time in the context no duration is recorded, whatever
      the instruments. */
  lemma NoStartTimeNoDuration(ctx: Context, sql: string, table: string, e: DbError,
                              inst: DbInstruments, now: nat)
    requires StartTime(ctx).None?
    ensures HookObservations(ctx, sql, table, e, inst, now) == WhenPresent(inst.queryCount, 1, HookAttrs(sql, table, e))
  {
  }

  /** A lookup that found no row is tagged db.error=false and marks a
      recording span Ok "OK". */
  lemma NotFoundIsNotAnError(sql: string, table: string)
    ensures HookAttrs(sql, table, RecordNotFound)[2] == Attr("db.error", Flag(false))
    ensures HookSpanCalls(RecordNotFound) == [SpanCall.SetStatus(Code.Ok, "OK")]
  {
  }

  /** Any other error marks the span Error with the error's text and records
      that error, so the span's final status is Error. */
  lemma FailureMarksSpan(calls: seq<SpanCall>, msg: string)
    ensures StatusOf(calls + HookSpanCalls(Failure(msg))) == Status(Code.Error, msg)
    ensures ErrorsOf(calls + HookSpanCalls(Failure(msg))) == ErrorsOf(calls) + [msg]
  {
    var c := calls + HookSpanCalls(Failure(msg));
    assert c[..|c| - 1] == calls + [SpanCall.SetStatus(Code.Error, msg)];
    assert (calls + [SpanCall.SetStatus(Code.Error, msg)])[..|calls|] == calls;
  }

  /** The timing a before-hook attached at t0 is what the after-hook at t1
      measures: the duration recorded is t1 - t0. */
  lemma BeforeThenAfter(ctx: Context, t0: nat, t1: nat, sql: string, table: string, e: DbError, h: Instrument)
    ensures HookObservations(WithValue(ctx, Named(StartTimeKey), Time(t0)), sql, table, e,
                             DbInstruments(Some(h), None), t1)
            == [Observation(h, t1 - t0, HookAttrs(sql, table, e))]
  {
  }

  // ------------------------------------------------------------------
  // Start-up and close

  datatype OpKind = QueryOp | CreateOp | UpdateOp | DeleteOp | RawOp

  datatype HookKind = StartTimeHook | MetricsHook

  /** One callback registration: DB.Callback().<op>().Before/After(anchor).Register(name, hook). */
  datatype Callback = Callback(op: OpKind, before: bool, anchor: string, name: string, hook: HookKind)

  /** The ten registrations of initDB, in order. */
  function HookRegistrations(): (regs: seq<Callback>)
    ensures |regs| == 10
  {
    [Callback(QueryOp, true, "gorm:query", "query_start_time", StartTimeHook),
     Callback(CreateOp, true, "gorm:create", "create_start_time", StartTimeHook),
     Callback(UpdateOp, true, "gorm:update", "update_start_time", StartTimeHook),
     Callback(DeleteOp, true, "gorm:delete", "delete_start_time", StartTimeHook),
     Callback(RawOp, true, "gorm:raw", "raw_start_time", StartTimeHook),
     Callback(QueryOp, false, "gorm:after_query", "query_metrics", MetricsHook),
     Callback(CreateOp, false, "gorm:after_create", "create_metrics", MetricsHook),
     Callback(UpdateOp, false, "gorm:after_update", "update_metrics", MetricsHook),
     Callback(DeleteOp, false, "gorm:after_delete", "delete_metrics", MetricsHook),
     Callback(RawOp, false, "gorm:after_raw", "raw_metrics", MetricsHook)]
  }

  /** Every operation kind gets the timing hook before it and the metrics
      hook after it, and no other hook. */
  lemma EveryOperationIsTimed(op: OpKind)
    ensures exists i :: 0 <= i < 10 && HookRegistrations()[i] == Callback(op, true, HookRegistrations()[i].anchor, HookRegistrations()[i].name, StartTimeHook)
    ensures exists i :: 0 <= i < 10 && HookRegistrations()[i] == Callback(op, false, HookRegistrations()[i].anchor, HookRegistrations()[i].name, MetricsHook)
    ensures forall i :: 0 <= i < 10 ==> (HookRegistrations()[i].hook == StartTimeHook <==> HookRegistrations()[i].before)
  {
    var regs := HookRegistrations();
    var k := match op case QueryOp => 0 case CreateOp => 1 case UpdateOp => 2 case DeleteOp => 3 case RawOp => 4;
    assert regs[k].op == op && regs[k + 5].op == op;
  }

  const QueryDurationInstrument := Histogram("db.query.duration")
  const QueryCountInstrument := Counter("db.query.count")

  datatype Pool = Pool(maxIdle: nat, maxOpen: nat, maxLifetime: nat)

  /** One hour in nanosecond ticks (time.Hour). */
  const Hour: nat := 3_600_000_000_000

  /** What each fallible step of initDB returns (None for a nil error), and
      whether gorm.Open handed back a non-nil *gorm.DB. */
  datatype InitDbOutcomes = InitDbOutcomes(
    gormDb: bool, openErr: Option<string>, sqlDbErr: Option<string>, pingErr: Option<string>,
    histogramErr: Option<string>, counterErr: Option<string>, pluginErr: Option<string>,
    migrateErr: Option<string>, indexErr: Option<string>)

  /** The fatal steps of initDB, in order. */
  function InitSteps(o: InitDbOutcomes): (steps: seq<Option<string>>)
    ensures |steps| == 7
  {
    [o.openErr, o.sqlDbErr, o.pingErr, o.histogramErr, o.counterErr, o.pluginErr, o.migrateErr]
  }

  /** The wrapping each fatal step puts around its error. */
  function InitPrefix(k: nat): string
  {
    match k
    case 0 => "error connecting to database: "
    case 1 => "error getting underlying sql.DB: "
    case 2 => "error pinging database: "
    case 3 => "failed to create db.query.duration instrument: "
    case 4 => "failed to create db.query.count instrument: "
    case 5 => "error enabling OpenTelemetry for GORM: "
    case _ => "error migrating database: "
  }

  /** How many fatal steps of initDB succeed before the first failure (7
      when none fails). */
  function StepsPassed(o: InitDbOutcomes): (k: nat)
    ensures k <= 7
  {
    if o.openErr.Some? then 0
    else if o.sqlDbErr.Some? then 1
    else if o.pingErr.Some? then 2
    else if o.histogramErr.Some? then 3
    else if o.counterErr.Some? then 4
    else if o.pluginErr.Some? then 5
    else if o.migrateErr.Some? then 6
    else 7
  }

  /** The count of passed steps is the first-failure index of the chain:
      every step before it succeeded and the step at it failed. */
  lemma StepsPassedIsFirstFailure(o: InitDbOutcomes)
    ensures StepsPassed(o) == FirstFailure(InitSteps(o))
    ensures forall i :: 0 <= i < StepsPassed(o) ==> InitSteps(o)[i].None?
    ensures StepsPassed(o) < 7 ==> InitSteps(o)[StepsPassed(o)].Some?
  {
    FirstFailureIs(InitSteps(o), StepsPassed(o));
  }

  function Wrap(k: nat, e: Option<string>): Option<string>
  {
    if e.Some? then Some(InitPrefix(k) + e.value) else None
  }

  /** The error of the connection phase: open, obtain the sql.DB, ping. */
  function ConnectError(o: InitDbOutcomes): Option<string>
  {
    if o.openErr.Some? then Wrap(0, o.openErr)
    else if o.sqlDbErr.Some? then Wrap(1, o.sqlDbErr)
    else Wrap(2, o.pingErr)
  }

  /** The error of the instrument phase. */
  function InstrumentError(o: InitDbOutcomes): Option<string>
  {
    if o.histogramErr.Some? then Wrap(3, o.histogramErr) else Wrap(4, o.counterErr)
  }

  /** initDB's result: the first failing phase's error. */
  function InitDbError(o: InitDbOutcomes): (err: Option<string>)
  {
    if ConnectError(o).Some? then ConnectError(o)
    else if InstrumentError(o).Some? then InstrumentError(o)
    else if o.pluginErr.Some? then Wrap(5, o.pluginErr)
    else Wrap(6, o.migrateErr)
  }

  /** initDB fails exactly when some fatal step fails, and then with the
      first failing step's error under that step's prefix. */
  lemma InitDbErrorIsFirstFailure(o: InitDbOutcomes)
    ensures InitDbError(o).None? <==> forall i :: 0 <= i < 7 ==> InitSteps(o)[i].None?
    ensures InitDbError(o).Some? ==>
      var k := FirstFailure(InitSteps(o));
      k < 7 && InitDbError(o).value == InitPrefix(k) + InitSteps(o)[k].value
  {
    StepsPassedIsFirstFailure(o);
  }

  function IndexWarning(e: string): string
  {
    "Warning: Could not create composite index: " + e
  }

  const ConnectedMessage := "Database connected and instrumented successfully"

  /** What a successful initDB prints: the index warning, if any, then the
      success line. */
  function MigrateLines(o: InitDbOutcomes): (lines: seq<string>)
    ensures |lines| == (if o.indexErr.Some? then 2 else 1)
    ensures lines[|lines| - 1] == ConnectedMessage
  {
    (if o.indexErr.Some? then [IndexWarning(o.indexErr.value)] else []) + [ConnectedMessage]
  }

  /** A failing composite-index creation never makes initDB fail. */
  lemma IndexFailureIsNotFatal(o: InitDbOutcomes, e: string)
    ensures InitDbError(o.(indexErr := Some(e))) == InitDbError(o.(indexErr := None))
  {
  }

  /** The package state initDB and CloseDB work on: the global DB (whether it
      is non-nil), the two instruments, and what has been configured on the
      connection. */
  class Database {
    var db: bool
    var dsn: string
    var pool: Option<Pool>
    var queryDuration: Option<Instrument>
    var queryCount: Option<Instrument>
    var plugin: bool
    var callbacks: seq<Callback>
    var migrated: bool
    var closeCalls: nat

    constructor ()
      ensures !db && dsn == "" && pool.None? && queryDuration.None? && queryCount.None?
      ensures !plugin && callbacks == [] && !migrated && closeCalls == 0
    {
      db, dsn, pool := false, "", None;
      queryDuration, queryCount := None, None;
      plugin, callbacks, migrated, closeCalls := false, [], false, 0;
    }

    /** The connection phase of initDB: open (DB is assigned whatever the
        error), obtain the sql.DB, configure the pool, ping. */
    method Connect(env: map<string, string>, o: InitDbOutcomes) returns (err: Option<string>)
      modifies this`db, this`dsn, this`pool
      ensures db == o.gormDb && dsn == ConnectionString(env)
      ensures err == ConnectError(o)
      ensures pool == (if o.openErr.None? && o.sqlDbErr.None? then Some(Pool(10, 100, Hour)) else old(pool))
    {
      dsn := ConnectionString(env);
      db := o.gormDb;
      if o.openErr.Some? {
        return Wrap(0, o.openErr);
      }
      if o.sqlDbErr.Some? {
        return Wrap(1, o.sqlDbErr);
      }
      pool := Some(Pool(10, 100, Hour));
      if o.pingErr.Some? {
        return Wrap(2, o.pingErr);
      }
      return None;
    }

    /** The instrument phase: each instrument is assigned before its error
        is looked at. */
    method CreateInstruments(o: InitDbOutcomes) returns (err: Option<string>)
      modifies this`queryDuration, this`queryCount
      ensures queryDuration == Some(QueryDurationInstrument)
      ensures queryCount == (if o.histogramErr.None? then Some(QueryCountInstrument) else old(queryCount))
      ensures err == InstrumentError(o)
    {
      queryDuration := Some(QueryDurationInstrument);
      if o.histogramErr.Some? {
        return Wrap(3, o.histogramErr);
      }
      queryCount := Some(QueryCountInstrument);
      if o.counterErr.Some? {
        return Wrap(4, o.counterErr);
      }
      return None;
    }

    /** The tracing phase: the GORM plugin, then the ten callbacks (whose
        registration errors are ignored). */
    method EnableTracing(o: InitDbOutcomes) returns (err: Option<string>)
      modifies this`plugin, this`callbacks
      ensures err == Wrap(5, o.pluginErr)
      ensures plugin == (o.pluginErr.None? || old(plugin))
      ensures callbacks == (if o.pluginErr.None? then old(callbacks) + HookRegistrations() else old(callbacks))
    {
      if o.pluginErr.Some? {
        return Wrap(5, o.pluginErr);
      }
      plugin := true;
      callbacks := callbacks + HookRegistrations();
      return None;
    }

    /** The schema phase: migrate, then try the composite index, whose
        failure only prints a warning. */
    method Migrate(o: InitDbOutcomes, console: Console) returns (err: Option<string>)
      modifies this`migrated, console
      ensures err == Wrap(6, o.migrateErr)
      ensures migrated == (o.migrateErr.None? || old(migrated))
      ensures console.lines == old(console.lines) + (if o.migrateErr.Some? then [] else MigrateLines(o))
    {
      if o.migrateErr.Some? {
        return Wrap(6, o.migrateErr);
      }
      migrated := true;
      if o.indexErr.Some? {
        console.Print(IndexWarning(o.indexErr.value));
      }
      console.Print(ConnectedMessage);
      return None;
    }

    /** initDB: each step runs only when all before it succeeded; instruments
        are assigned even when their creation reports an error. */
    method InitDB(env: map<string, string>, o: InitDbOutcomes, console: Console) returns (err: Option<string>)
      modifies this, console
      ensures err == InitDbError(o)
      ensures db == o.gormDb && dsn == ConnectionString(env)
      ensures pool == (if o.openErr.None? && o.sqlDbErr.None? then Some(Pool(10, 100, Hour)) else old(pool))
      ensures var connected := ConnectError(o).None?;
        && queryDuration == (if connected then Some(QueryDurationInstrument) else old(queryDuration))
        && queryCount == (if connected && o.histogramErr.None? then Some(QueryCountInstrument) else old(queryCount))
      ensures var instrumented := ConnectError(o).None? && InstrumentError(o).None?;
        && plugin == ((instrumented && o.pluginErr.None?) || old(plugin))
        && callbacks == (if instrumented && o.pluginErr.None? then old(callbacks) + HookRegistrations() else old(callbacks))
      ensures migrated == (InitDbError(o).None? || old(migrated))
      ensures console.lines == old(console.lines) + (if InitDbError(o).None? then MigrateLines(o) else [])
      ensures closeCalls == old(closeCalls)
    {
      err := Connect(env, o);
      if err.Some? {
        return;
      }
      err := CreateInstruments(o);
      if err.Some? {
        return;
      }
      err := EnableTracing(o);
      if err.Some? {
        return;
      }
      err := Migrate(o, console);
    }

    /** CloseDB: nothing to do when DB is nil; otherwise close the underlying
        sql.DB, unless it cannot be obtained. */
    method CloseDB(sqlDbErr: Option<string>, closeErr: Option<string>) returns (err: Option<string>)
      modifies this`closeCalls
      ensures !db ==> err.None? && closeCalls == old(closeCalls)
      ensures db && sqlDbErr.Some? ==>
        err == Some("error getting underlying sql.DB: " + sqlDbErr.value) && closeCalls == old(closeCalls)
      ensures db && sqlDbErr.None? ==> err == closeErr && closeCalls == old(closeCalls) + 1
    {
      if db {
        if sqlDbErr.Some? {
          return Some("error getting underlying sql.DB: " + sqlDbErr.value);
        }
        closeCalls := closeCalls + 1;
        return closeErr;
      }
      return None;
    }
  }
}

/** backend/opentel.go: the start-up chain that sets up logging, tracing
    and metrics, stopping at the first failure, and the shutdown function it
    returns. */
module OpenTel {
  import opened Wrappers
  import opened Telemetry

  /** The components the shutdown function tears down. */
  datatype Component = TraceProvider | MeterProvider | MetricsServer

  /** An observable effect, in the order it happens: a line printed by the
      standard logger, or a Shutdown call with its deadline. */
  datatype Event = Printed(line: string) | ShutdownCall(component: Component, deadline: nat)

  /** The error each fallible start-up step reports (None for nil). */
  datatype InitOutcomes = InitOutcomes(
    mkdirErr: Option<string>, openLogErr: Option<string>, resourceErr: Option<string>,
    traceExporterErr: Option<string>, promExporterErr: Option<string>,
    httpCountErr: Option<string>, dbCountErr: Option<string>, dbDurationErr: Option<string>,
    addAttemptsErr: Option<string>, failedAddErr: Option<string>, apiDurationErr: Option<string>)

  /** The fallible steps of initTelemetry, in order. */
  function InitSteps(o: InitOutcomes): (steps: seq<Option<string>>)
    ensures |steps| == 11
  {
    [o.mkdirErr, o.openLogErr, o.resourceErr, o.traceExporterErr, o.promExporterErr,
     o.httpCountErr, o.dbCountErr, o.dbDurationErr, o.addAttemptsErr, o.failedAddErr, o.apiDurationErr]
  }

  /** The wrapping each step puts around its error. */
  function InitPrefix(k: nat): string
  {
    match k
    case 0 => "failed to create log dir: "
    case 1 => "failed to open log file: "
    case 2 => "failed to create resource: "
    case 3 => "failed to create OTLP trace exporter: "
    case 4 => "failed to create Prometheus exporter: "
    case 5 => "failed to create app.http.request_count instrument: "
    case 6 => "failed to create app.db.query_count instrument: "
    case 7 => "failed to create app.db.query_duration instrument: "
    case 8 => "failed to create app.watchlist.add_attempts instrument: "
    case 9 => "failed to create app.watchlist.failed_add_count instrument: "
    case _ => "failed to create app.external.api_call_duration instrument: "
  }

  function Wrap(k: nat, e: Option<string>): Option<string>
  {
    if e.Some? then Some(InitPrefix(k) + e.value) else None
  }

  /** The application instruments, in the order they are created. */
  const HttpRequestCount := Counter("app_http_request_count")
  const DbQueryCount := Counter("app_db_query_count")
  const DbQueryDuration := Histogram("app_db_query_duration")
  const WatchlistAddAttempts := Counter("app_watchlist_add_attempts")
  const WatchlistFailedAddCount := Counter("app_watchlist_failed_add_count")
  const ExternalApiCallDuration := Histogram("app_external_api_call_duration")

  function AppInstruments(): (insts: seq<Instrument>)
    ensures |insts| == 6
  {
    [HttpRequestCount, DbQueryCount, DbQueryDuration, WatchlistAddAttempts, WatchlistFailedAddCount,
     ExternalApiCallDuration]
  }

  /** An instrument variable after the first n creations: assigned when
      it is among them, as it was otherwise. */
  function Slot(n: nat, i: nat, inst: Instrument, before: Option<Instrument>): Option<Instrument>
  {
    if i < n then Some(inst) else before
  }

  /** The six instrument variables after the first n creations. */
  function AfterAssigning(n: nat, before: seq<Option<Instrument>>): (after: seq<Option<Instrument>>)
    requires |before| == 6
    ensures |after| == 6
    ensures forall i :: 0 <= i < 6 ==> after[i] == Slot(n, i, AppInstruments()[i], before[i])
  {
    seq(6, i requires 0 <= i < 6 => Slot(n, i, AppInstruments()[i], before[i]))
  }

  function LoggingError(o: InitOutcomes): Option<string>
  {
    if o.mkdirErr.Some? then Wrap(0, o.mkdirErr) else Wrap(1, o.openLogErr)
  }

  function TracingError(o: InitOutcomes): Option<string>
  {
    if o.resourceErr.Some? then Wrap(2, o.resourceErr) else Wrap(3, o.traceExporterErr)
  }

  /** How many application instruments get assigned: each is assigned
      before its error is looked at. */
  function InstrumentsAssigned(o: InitOutcomes): (n: nat)
    ensures 1 <= n <= 6
  {
    if o.httpCountErr.Some? then 1
    else if o.dbCountErr.Some? then 2
    else if o.dbDurationErr.Some? then 3
    else if o.addAttemptsErr.Some? then 4
    else if o.failedAddErr.Some? then 5
    else 6
  }

  function InstrumentsError(o: InitOutcomes): Option<string>
  {
    if o.httpCountErr.Some? then Wrap(5, o.httpCountErr)
    else if o.dbCountErr.Some? then Wrap(6, o.dbCountErr)
    else if o.dbDurationErr.Some? then Wrap(7, o.dbDurationErr)
    else if o.addAttemptsErr.Some? then Wrap(8, o.addAttemptsErr)
    else if o.failedAddErr.Some? then Wrap(9, o.failedAddErr)
    else Wrap(10, o.apiDurationErr)
  }

  /** initTelemetry's error: the first failing phase's. */
  function InitError(o: InitOutcomes): Option<string>
  {
    if LoggingError(o).Some? then LoggingError(o)
    else if TracingError(o).Some? then TracingError(o)
    else if o.promExporterErr.Some? then Wrap(4, o.promExporterErr)
    else InstrumentsError(o)
  }

  /** The first failing step, counted the direct way. */
  function StepsPassed(o: InitOutcomes): (k: nat)
    ensures k <= 11
  {
    if o.mkdirErr.Some? then 0
    else if o.openLogErr.Some? then 1
    else if o.resourceErr.Some? then 2
    else if o.traceExporterErr.Some? then 3
    else if o.promExporterErr.Some? then 4
    else if InstrumentsAssigned(o) < 6 || o.apiDurationErr.Some? then 4 + InstrumentsAssigned(o)
    else 11
  }

  lemma StepsPassedIsFirstFailure(o: InitOutcomes)
    ensures StepsPassed(o) == FirstFailure(InitSteps(o))
  {
    FirstFailureIs(InitSteps(o), StepsPassed(o));
  }

  /** Start-up stops at the first failing step and reports that step's
      error under its prefix; it fails exactly when some step fails. */
  lemma InitErrorIsFirstFailure(o: InitOutcomes)
    ensures InitError(o).None? <==> forall i :: 0 <= i < 11 ==> InitSteps(o)[i].None?
    ensures InitError(o).Some? ==>
      var k := FirstFailure(InitSteps(o));
      k < 11 && InitError(o).value == InitPrefix(k) + InitSteps(o)[k].value
  {
    StepsPassedIsFirstFailure(o);
    var k := StepsPassed(o);
    var steps := InitSteps(o);
    if k < 11 {
      assert InitError(o) == Wrap(k, steps[k]);
    } else {
      assert InitError(o).None?;
    }
  }

  const LoggerInitialized := LogEntry(InfoLevel, "Logger initialized", [Attr("service", Str("otel-backend"))])
  const InstrumentsReady := "Application metrics instruments initialized."
  const InitComplete := "OpenTelemetry initialization complete. Traces go to OTLP, Metrics go to Prometheus endpoint."
  const MetricsAddr := ":2222"

  /** The shutdown function's one deadline: five seconds, in nanosecond
      ticks, after it starts. */
  const ShutdownTimeout: nat := 5_000_000_000

  /** What each component's Shutdown returns (None for nil). */
  datatype ShutdownOutcomes = ShutdownOutcomes(traceErr: Option<string>, meterErr: Option<string>, serverErr: Option<string>)

  /** The lines and calls for one component: announce, shut down, report an
      error if there is one; nothing for a nil component. */
  function StepEvents(present: bool, c: Component, announce: string, errPrefix: string,
                      err: Option<string>, deadline: nat): (events: seq<Event>)
  {
    if !present then []
    else [Printed(announce), ShutdownCall(c, deadline)]
         + (if err.Some? then [Printed(errPrefix + err.value)] else [])
  }

  /** Everything one run of the shutdown function does, in order. */
  function ShutdownEvents(trace: bool, meter: bool, server: bool, errs: ShutdownOutcomes, now: nat): (events: seq<Event>)
  {
    var deadline := now + ShutdownTimeout;
    StepEvents(trace, TraceProvider, "Shutting down OpenTelemetry Trace Provider...",
               "Error shutting down trace provider: ", errs.traceErr, deadline)
    + StepEvents(meter, MeterProvider, "Shutting down OpenTelemetry Meter Provider...",
                 "Error shutting down meter provider: ", errs.meterErr, deadline)
    + StepEvents(server, MetricsServer, "Shutting down Prometheus metrics server...",
                 "Error shutting down metrics server: ", errs.serverErr, deadline)
    + [Printed("OpenTelemetry shutdown completed.")]
  }

  /** The Shutdown calls among some events, in order. */
  function Calls(events: seq<Event>): (calls: seq<Event>)
    ensures forall i :: 0 <= i < |calls| ==> calls[i].ShutdownCall?
  {
    if events == [] then []
    else (if events[0].ShutdownCall? then [events[0]] else []) + Calls(events[1..])
  }

  lemma {:induction false} CallsAppend(a: seq<Event>, b: seq<Event>)
    ensures Calls(a + b) == Calls(a) + Calls(b)
  {
    if a == [] {
      assert a + b == b;
    } else {
      assert (a + b)[1..] == a[1..] + b;
      CallsAppend(a[1..], b);
    }
  }

  lemma StepCalls(present: bool, c: Component, announce: string, errPrefix: string, err: Option<string>, deadline: nat)
    ensures Calls(StepEvents(present, c, announce, errPrefix, err, deadline)) ==
            (if present then [ShutdownCall(c, deadline)] else [])
  {
    if present {
      var head := [Printed(announce), ShutdownCall(c, deadline)];
      var rest := if err.Some? then [Printed(errPrefix + err.value)] else [];
      CallsAppend(head, rest);
      assert Calls(rest) == [] by {
        if err.Some? {
          assert rest[1..] == [];
        }
      }
      assert Calls(head) == [ShutdownCall(c, deadline)] by {
        assert head[1..] == [ShutdownCall(c, deadline)];
        assert head[1..][1..] == [];
      }
    }
  }

  /** The components are shut down trace provider, then meter provider,
      then metrics server, each once, all against the same deadline five
      seconds after the start, whatever errors the earlier ones report; a
      nil component is skipped. */
  lemma ShutdownOrder(trace: bool, meter: bool, server: bool, errs: ShutdownOutcomes, now: nat)
    ensures Calls(ShutdownEvents(trace, meter, server, errs, now)) ==
      (if trace then [ShutdownCall(TraceProvider, now + ShutdownTimeout)] else [])
      + (if meter then [ShutdownCall(MeterProvider, now + ShutdownTimeout)] else [])
      + (if server then [ShutdownCall(MetricsServer, now + ShutdownTimeout)] else [])
  {
    var d := now + ShutdownTimeout;
    var t := StepEvents(trace, TraceProvider, "Shutting down OpenTelemetry Trace Provider...",
                        "Error shutting down trace provider: ", errs.traceErr, d);
    var m := StepEvents(meter, MeterProvider, "Shutting down OpenTelemetry Meter Provider...",
                        "Error shutting down meter provider: ", errs.meterErr, d);
    var s := StepEvents(server, MetricsServer, "Shutting down Prometheus metrics server...",
                        "Error shutting down metrics server: ", errs.serverErr, d);
    var done: seq<Event> := [Printed("OpenTelemetry shutdown completed.")];
    CallsAppend(t + m + s, done);
    CallsAppend(t + m, s);
    CallsAppend(t, m);
    StepCalls(trace, TraceProvider, "Shutting down OpenTelemetry Trace Provider...",
              "Error shutting down trace provider: ", errs.traceErr, d);
    StepCalls(meter, MeterProvider, "Shutting down OpenTelemetry Meter Provider...",
              "Error shutting down meter provider: ", errs.meterErr, d);
    StepCalls(server, MetricsServer, "Shutting down Prometheus metrics server...",
              "Error shutting down metrics server: ", errs.serverErr, d);
    assert Calls(done) == [];
  }

  /** A failing trace-provider shutdown is reported, and still the meter
      provider and metrics server are shut down; the run always ends with
      the completion line. */
  lemma ErrorDoesNotStopShutdown(errs: ShutdownOutcomes, now: nat)
    requires errs.traceErr.Some?
    ensures var e := ShutdownEvents(true, true, true, errs, now);
      && e[2] == Printed("Error shutting down trace provider: " + errs.traceErr.value)
      && e[|e| - 1] == Printed("OpenTelemetry shutdown completed.")
      && Calls(e) == [ShutdownCall(TraceProvider, now + ShutdownTimeout),
                      ShutdownCall(MeterProvider, now + ShutdownTimeout),
                      ShutdownCall(MetricsServer, now + ShutdownTimeout)]
  {
    ShutdownOrder(true, true, true, errs, now);
  }

  /** The package globals initTelemetry assigns, and the ordered log of
      what it and the shutdown function print and call. */
  class OtelGlobals {
    var logger: Option<Logger>
    var tracerProvider: bool
    var meterProvider: bool
    var propagator: Option<Propagator>
    var httpRequestCount: Option<Instrument>
    var dbQueryCount: Option<Instrument>
    var dbQueryDuration: Option<Instrument>
    var watchlistAddAttempts: Option<Instrument>
    var watchlistFailedAddCount: Option<Instrument>
    var externalApiCallDuration: Option<Instrument>
    var metricsServer: Option<string>
    var events: seq<Event>

    constructor ()
      ensures logger.None? && !tracerProvider && !meterProvider && propagator.None?
      ensures Instruments() == [None, None, None, None, None, None]
      ensures metricsServer.None? && events == []
    {
      logger := None;
      tracerProvider, meterProvider := false, false;
      propagator := None;
      httpRequestCount, dbQueryCount, dbQueryDuration := None, None, None;
      watchlistAddAttempts, watchlistFailedAddCount, externalApiCallDuration := None, None, None;
      metricsServer := None;
      events := [];
    }

    /** The six application instrument variables, in creation order. */
    function Instruments(): (insts: seq<Option<Instrument>>)
      reads this
      ensures |insts| == 6
    {
      [httpRequestCount, dbQueryCount, dbQueryDuration, watchlistAddAttempts, watchlistFailedAddCount,
       externalApiCallDuration]
    }

    /** Log directory, log file, then the JSON logger and its first record. */
    method StartLogging(o: InitOutcomes) returns (err: Option<string>)
      modifies this`logger
      ensures err == LoggingError(o)
      ensures err.Some? ==> logger == old(logger)
      ensures err.None? ==> logger.Some? && fresh(logger.value) && logger.value.entries == [LoggerInitialized]
    {
      if o.mkdirErr.Some? {
        return Wrap(0, o.mkdirErr);
      }
      if o.openLogErr.Some? {
        return Wrap(1, o.openLogErr);
      }
      var l := new Logger();
      l.Log(LoggerInitialized.level, LoggerInitialized.message, LoggerInitialized.attrs);
      logger := Some(l);
      return None;
    }

    /** Resource, trace exporter, then the tracer provider and the global
        propagator. */
    method StartTracing(o: InitOutcomes) returns (err: Option<string>)
      modifies this`tracerProvider, this`propagator
      ensures err == TracingError(o)
      ensures tracerProvider == (err.None? || old(tracerProvider))
      ensures propagator == (if err.None? then Some(GlobalPropagator) else old(propagator))
    {
      if o.resourceErr.Some? {
        return Wrap(2, o.resourceErr);
      }
      if o.traceExporterErr.Some? {
        return Wrap(3, o.traceExporterErr);
      }
      tracerProvider := true;
      propagator := Some(GlobalPropagator);
      return None;
    }

    /** The six application instruments, each assigned before its error is
        looked at. */
    method CreateInstruments(o: InitOutcomes) returns (err: Option<string>)
      modifies this`httpRequestCount, this`dbQueryCount, this`dbQueryDuration,
               this`watchlistAddAttempts, this`watchlistFailedAddCount, this`externalApiCallDuration
      ensures err == InstrumentsError(o)
      ensures var n := InstrumentsAssigned(o);
        && httpRequestCount == Some(HttpRequestCount)
        && dbQueryCount == Slot(n, 1, DbQueryCount, old(dbQueryCount))
        && dbQueryDuration == Slot(n, 2, DbQueryDuration, old(dbQueryDuration))
        && watchlistAddAttempts == Slot(n, 3, WatchlistAddAttempts, old(watchlistAddAttempts))
        && watchlistFailedAddCount == Slot(n, 4, WatchlistFailedAddCount, old(watchlistFailedAddCount))
        && externalApiCallDuration == Slot(n, 5, ExternalApiCallDuration, old(externalApiCallDuration))
    {
      httpRequestCount := Some(HttpRequestCount);
      if o.httpCountErr.Some? {
        return Wrap(5, o.httpCountErr);
      }
      dbQueryCount := Some(DbQueryCount);
      if o.dbCountErr.Some? {
        return Wrap(6, o.dbCountErr);
      }
      dbQueryDuration := Some(DbQueryDuration);
      if o.dbDurationErr.Some? {
        return Wrap(7, o.dbDurationErr);
      }
      watchlistAddAttempts := Some(WatchlistAddAttempts);
      if o.addAttemptsErr.Some? {
        return Wrap(8, o.addAttemptsErr);
      }
      watchlistFailedAddCount := Some(WatchlistFailedAddCount);
      if o.failedAddErr.Some? {
        return Wrap(9, o.failedAddErr);
      }
      externalApiCallDuration := Some(ExternalApiCallDuration);
      return Wrap(10, o.apiDurationErr);
    }

    /** initTelemetry: a shutdown function is handed back exactly when no
        step failed. */
    method InitTelemetry(o: InitOutcomes) returns (shutdown: bool, err: Option<string>)
      modifies this
      ensures err == InitError(o)
      ensures shutdown <==> err.None?
      ensures LoggingError(o).None? ==> logger.Some? && fresh(logger.value) && logger.value.entries == [LoggerInitialized]
      ensures LoggingError(o).Some? ==> logger == old(logger)
      ensures var traced := LoggingError(o).None? && TracingError(o).None?;
        && tracerProvider == (traced || old(tracerProvider))
        && propagator == (if traced then Some(GlobalPropagator) else old(propagator))
        && meterProvider == ((traced && o.promExporterErr.None?) || old(meterProvider))
        && Instruments() == (if traced && o.promExporterErr.None?
                             then AfterAssigning(InstrumentsAssigned(o), old(Instruments()))
                             else old(Instruments()))
      ensures metricsServer == (if err.None? then Some(MetricsAddr) else old(metricsServer))
      ensures events == old(events) + (if err.None? then [Printed(InstrumentsReady), Printed(InitComplete)] else [])
    {
      shutdown := false;
      err := StartLogging(o);
      if err.Some? {
        return;
      }
      err := StartTracing(o);
      if err.Some? {
        return;
      }
      if o.promExporterErr.Some? {
        err := Wrap(4, o.promExporterErr);
        return;
      }
      meterProvider := true;
      err := CreateInstruments(o);
      if err.Some? {
        return;
      }
      events := events + [Printed(InstrumentsReady)];
      metricsServer := Some(MetricsAddr);
      events := events + [Printed(InitComplete)];
      shutdown := true;
    }

    /** One `if x != nil { ... }` block of the shutdown function. */
    method ShutdownStep(present: bool, c: Component, announce: string, errPrefix: string,
                        err: Option<string>, deadline: nat)
      modifies this`events
      ensures events == old(events) + StepEvents(present, c, announce, errPrefix, err, deadline)
    {
      if present {
        events := events + [Printed(announce)];
        events := events + [ShutdownCall(c, deadline)];
        if err.Some? {
          events := events + [Printed(errPrefix + err.value)];
        }
      }
    }

    /** The returned shutdown function: one deadline for all three steps,
        nil components skipped, errors printed and passed over. */
    method Shutdown(now: nat, errs: ShutdownOutcomes)
      modifies this`events
      ensures events == old(events) + ShutdownEvents(tracerProvider, meterProvider, metricsServer.Some?, errs, now)
    {
      var deadline := now + ShutdownTimeout;
      ShutdownStep(tracerProvider, TraceProvider, "Shutting down OpenTelemetry Trace Provider...",
                   "Error shutting down trace provider: ", errs.traceErr, deadline);
      ShutdownStep(meterProvider, MeterProvider, "Shutting down OpenTelemetry Meter Provider...",
                   "Error shutting down meter provider: ", errs.meterErr, deadline);
      ShutdownStep(metricsServer.Some?, MetricsServer, "Shutting down Prometheus metrics server...",
                   "Error shutting down metrics server: ", errs.serverErr, deadline);
      events := events + [Printed("OpenTelemetry shutdown completed.")];
    }
  }

  /** Nothing guards the shutdown function: calling it twice repeats every
      step, the second time against its own deadline. */
  method ShutdownTwice(g: OtelGlobals, now1: nat, errs1: ShutdownOutcomes, now2: nat, errs2: ShutdownOutcomes)
    modifies g
    ensures g.events == old(g.events)
      + ShutdownEvents(g.tracerProvider, g.meterProvider, g.metricsServer.Some?, errs1, now1)
      + ShutdownEvents(g.tracerProvider, g.meterProvider, g.metricsServer.Some?, errs2, now2)
  {
    g.Shutdown(now1, errs1);
    g.Shutdown(now2, errs2);
  }

  /** After a successful start-up every component is present, so one run
      of the shutdown function makes all three calls. */
  lemma SuccessfulInitShutsDownAll(o: InitOutcomes, errs: ShutdownOutcomes, now: nat)
    requires InitError(o).None?
    ensures var d := now + ShutdownTimeout;
      Calls(ShutdownEvents(true, true, true, errs, now)) ==
        [ShutdownCall(TraceProvider, d), ShutdownCall(MeterProvider, d), ShutdownCall(MetricsServer, d)]
    ensures LoggingError(o).None? && TracingError(o).None? && o.promExporterErr.None?
    ensures InstrumentsAssigned(o) == 6
  {
    ShutdownOrder(true, true, true, errs, now);
  }
}

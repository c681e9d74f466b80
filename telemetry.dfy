/** Stand-ins for the libraries the service calls: OpenTelemetry spans,
    tracers, contexts and metric instruments, slog loggers, and the
    process's plain text output.  Each is an object that records the calls
    made on it, so that the handlers' effects can be stated exactly. */
module Telemetry {
  import opened Wrappers

  // ------------------------------------------------------------------
  // Span identifiers and their printed form

  /** The identity a span carries in a context or in a traceparent header.
      A span context is valid when both identifiers are non-zero. */
  datatype SpanContext = SpanContext(traceId: nat, spanId: nat, sampled: bool, remote: bool) {
    predicate IsValid() { traceId != 0 && spanId != 0 }
  }

  /** The span context of a context that holds no span. */
  const NoSpanContext := SpanContext(0, 0, false, false)

  function Pow16(width: nat): (p: nat)
    ensures p >= 1
  {
    if width == 0 then 1 else 16 * Pow16(width - 1)
  }

  function HexDigit(d: nat): (c: char)
    requires d < 16
  {
    if d < 10 then ('0' as int + d) as char else ('a' as int + d - 10) as char
  }

  /** Value of a lower-case hexadecimal digit, or -1 for any other character. */
  function HexValue(c: char): (v: int)
    ensures -1 <= v < 16
  {
    if '0' <= c <= '9' then c as int - '0' as int
    else if 'a' <= c <= 'f' then c as int - 'a' as int + 10
    else -1
  }

  /** The last `width` lower-case hexadecimal digits of n, zero-padded, most
      significant first: how TraceID.String (width 32) and SpanID.String
      (width 16) print an identifier. */
  function Hex(n: nat, width: nat): (s: string)
    ensures |s| == width
    ensures forall i :: 0 <= i < |s| ==> HexValue(s[i]) >= 0
  {
    if width == 0 then "" else Hex(n / 16, width - 1) + [HexDigit(n % 16)]
  }

  /** Reads a string of lower-case hexadecimal digits back into a number. */
  function ParseHex(s: string): (r: Option<nat>)
  {
    if s == [] then Some(0)
    else
      var d := HexValue(s[|s| - 1]);
      match ParseHex(s[..|s| - 1])
      case Some(high) => if d < 0 then None else Some(16 * high + d)
      case None => None
  }

  lemma {:induction false} HexDigitValue(d: nat)
    requires d < 16
    ensures HexValue(HexDigit(d)) == d
  {
  }

  /** Printing an identifier in `width` digits and reading it back gives the
      identifier, whenever it fits in that many digits. */
  lemma {:induction false} HexRoundTrip(n: nat, width: nat)
    requires n < Pow16(width)
    ensures ParseHex(Hex(n, width)) == Some(n)
  {
    if width > 0 {
      var s := Hex(n, width);
      assert s[..|s| - 1] == Hex(n / 16, width - 1);
      HexRoundTrip(n / 16, width - 1);
      HexDigitValue(n % 16);
    }
  }

  function TraceIdString(sc: SpanContext): (s: string)
    ensures |s| == 32
  {
    Hex(sc.traceId, 32)
  }

  function SpanIdString(sc: SpanContext): (s: string)
    ensures |s| == 16
  {
    Hex(sc.spanId, 16)
  }

  /** Both printed identifiers of a span context read back to it. */
  lemma IdStringsReadBack(sc: SpanContext)
    requires sc.traceId < Pow16(32) && sc.spanId < Pow16(16)
    ensures ParseHex(TraceIdString(sc)) == Some(sc.traceId)
    ensures ParseHex(SpanIdString(sc)) == Some(sc.spanId)
  {
    HexRoundTrip(sc.traceId, 32);
    HexRoundTrip(sc.spanId, 16);
  }

  // ------------------------------------------------------------------
  // Spans

  /** The status codes of the OpenTelemetry codes package. */
  datatype Code = Unset | Ok | Error

  datatype Status = Status(code: Code, description: string)

  /** One call made on a span by the code that owns it. */
  datatype SpanCall =
    | SetStatus(code: Code, description: string)
    | RecordError(err: string)
    | AddEvent(name: string)
    | End

  /** The status last set by the calls, Unset when none set one. */
  function StatusOf(calls: seq<SpanCall>): (s: Status)
  {
    if calls == [] then Status(Unset, "")
    else match calls[|calls| - 1]
      case SetStatus(c, d) => Status(c, d)
      case _ => StatusOf(calls[..|calls| - 1])
  }

  /** How many times End was called. */
  function EndCount(calls: seq<SpanCall>): (n: nat)
    ensures n <= |calls|
  {
    if calls == [] then 0
    else EndCount(calls[..|calls| - 1]) + (if calls[|calls| - 1].End? then 1 else 0)
  }

  /** The errors recorded on the span, in order. */
  function ErrorsOf(calls: seq<SpanCall>): (errs: seq<string>)
    ensures |errs| <= |calls|
  {
    if calls == [] then []
    else
      var last := calls[|calls| - 1];
      ErrorsOf(calls[..|calls| - 1]) + (if last.RecordError? then [last.err] else [])
  }

  /** The calls on a span that was ended once, as its last call. */
  predicate Closed(calls: seq<SpanCall>)
  {
    |calls| > 0 && calls[|calls| - 1] == SpanCall.End && EndCount(calls) == 1
  }

  predicate NoEnd(calls: seq<SpanCall>)
  {
    forall i :: 0 <= i < |calls| ==> !calls[i].End?
  }

  lemma {:induction false} NoEndCount(calls: seq<SpanCall>)
    requires NoEnd(calls)
    ensures EndCount(calls) == 0
  {
    if calls != [] {
      var init := calls[..|calls| - 1];
      assert forall i :: 0 <= i < |init| ==> init[i] == calls[i];
      NoEndCount(init);
    }
  }

  /** Ending a span that was not ended yet closes it, and keeps its status
      and its errors. */
  lemma EndOnce(calls: seq<SpanCall>)
    requires NoEnd(calls)
    ensures Closed(calls + [SpanCall.End])
    ensures StatusOf(calls + [SpanCall.End]) == StatusOf(calls)
    ensures ErrorsOf(calls + [SpanCall.End]) == ErrorsOf(calls)
  {
    assert (calls + [SpanCall.End])[..|calls|] == calls;
    NoEndCount(calls);
  }

  /** A span as the tracing SDK hands it out.  Its identity and its parent's
      identity are fixed when it starts; what the owner does to it is the
      list of calls. */
  class Span {
    const name: string
    const context: SpanContext
    const parent: SpanContext
    const recording: bool
    var calls: seq<SpanCall>

    constructor (name: string, context: SpanContext, parent: SpanContext, recording: bool)
      ensures this.name == name && this.context == context && this.parent == parent
      ensures this.recording == recording && calls == []
    {
      this.name := name;
      this.context := context;
      this.parent := parent;
      this.recording := recording;
      calls := [];
    }

    method SetStatus(code: Code, description: string)
      modifies this
      ensures calls == old(calls) + [SpanCall.SetStatus(code, description)]
    {
      calls := calls + [SpanCall.SetStatus(code, description)];
    }

    method RecordError(err: string)
      modifies this
      ensures calls == old(calls) + [SpanCall.RecordError(err)]
    {
      calls := calls + [SpanCall.RecordError(err)];
    }

    method AddEvent(name: string)
      modifies this
      ensures calls == old(calls) + [SpanCall.AddEvent(name)]
    {
      calls := calls + [SpanCall.AddEvent(name)];
    }

    method End()
      modifies this
      ensures calls == old(calls) + [SpanCall.End]
    {
      calls := calls + [SpanCall.End];
    }
  }

  // ------------------------------------------------------------------
  // Contexts

  /** Context keys: a plain string, as the database hooks use, or the
      tracing library's private key for the current span. */
  datatype Key = Named(name: string) | CurrentSpan

  datatype Value =
    | Time(ticks: nat)
    | Text(text: string)
    | Live(span: Span)
    | Remote(sc: SpanContext)

  /** A Go context.Context as the chain of WithValue layers over Background. */
  datatype Context = Background | WithValue(parent: Context, key: Key, val: Value)

  /** ctx.Value(key): the value of the innermost layer with that key. */
  function Lookup(ctx: Context, key: Key): (v: Option<Value>)
  {
    match ctx
    case Background => None
    case WithValue(p, k, v) => if k == key then Some(v) else Lookup(p, key)
  }

  /** What trace.SpanFromContext finds: a span of this process, the remote
      parent put there by a propagator, or nothing (the no-op span). */
  datatype ActiveSpan = NoopSpan | LiveSpan(span: Span) | RemoteSpan(sc: SpanContext)

  function SpanFromContext(ctx: Context): (a: ActiveSpan)
  {
    match Lookup(ctx, CurrentSpan)
    case Some(Live(s)) => LiveSpan(s)
    case Some(Remote(sc)) => RemoteSpan(sc)
    case _ => NoopSpan
  }

  function SpanContextFromContext(ctx: Context): (sc: SpanContext)
  {
    match SpanFromContext(ctx)
    case LiveSpan(s) => s.context
    case RemoteSpan(sc) => sc
    case NoopSpan => NoSpanContext
  }

  /** span.IsRecording() for the span found in a context. */
  predicate IsRecording(a: ActiveSpan)
  {
    a.LiveSpan? && a.span.recording
  }

  function ContextWithSpan(ctx: Context, s: Span): (c: Context)
  {
    WithValue(ctx, CurrentSpan, Live(s))
  }

  lemma SpanOfContextWithSpan(ctx: Context, s: Span)
    ensures SpanFromContext(ContextWithSpan(ctx, s)) == LiveSpan(s)
    ensures SpanContextFromContext(ContextWithSpan(ctx, s)) == s.context
  {
  }

  /** The identity a new span started under `parent` gets when the tracer
      has issued `issued` spans before it: the parent's trace when the parent
      is valid, a new trace otherwise. */
  function ChildContext(parent: SpanContext, issued: nat): (sc: SpanContext)
    ensures sc.IsValid()
    ensures parent.IsValid() ==> sc.traceId == parent.traceId
  {
    SpanContext(if parent.IsValid() then parent.traceId else issued + 1, issued + 1, true, false)
  }

  /** A tracer with an always-sample policy.  The SDK draws identifiers at
      random; here they come from a counter, so that they are non-zero and
      distinct. */
  class Tracer {
    var issued: nat

    constructor ()
      ensures issued == 0
    {
      issued := 0;
    }

    /** tracer.Start(ctx, name): a new recording span whose parent is the
        span in ctx, and ctx extended with it. */
    method Start(ctx: Context, name: string) returns (ctx': Context, span: Span)
      modifies this
      ensures issued == old(issued) + 1
      ensures fresh(span) && span.name == name && span.calls == [] && span.recording
      ensures span.parent == SpanContextFromContext(ctx)
      ensures span.context == ChildContext(span.parent, old(issued))
      ensures ctx' == ContextWithSpan(ctx, span)
    {
      var parent := SpanContextFromContext(ctx);
      span := new Span(name, ChildContext(parent, issued), parent, true);
      issued := issued + 1;
      ctx' := ContextWithSpan(ctx, span);
    }
  }

  /** A span's identity and calls as a value. */
  datatype SpanRecord = SpanRecord(name: string, context: SpanContext, parent: SpanContext, calls: seq<SpanCall>)

  function RecordOf(s: Span): (r: SpanRecord)
    reads s
  {
    SpanRecord(s.name, s.context, s.parent, s.calls)
  }

  function RecordsOf(spans: seq<Span>): (rs: seq<SpanRecord>)
    reads set s | s in spans
    ensures |rs| == |spans|
  {
    if spans == [] then [] else [RecordOf(spans[0])] + RecordsOf(spans[1..])
  }

  lemma RecordsOfCons(s: Span, rest: seq<Span>)
    ensures RecordsOf([s] + rest) == [RecordOf(s)] + RecordsOf(rest)
  {
    assert ([s] + rest)[1..] == rest;
  }

  // ------------------------------------------------------------------
  // Metrics

  /** A metric instrument: an Int64Counter or a Float64Histogram. */
  datatype Instrument = Counter(name: string) | Histogram(name: string)

  datatype AttrValue = Str(s: string) | Flag(b: bool) | Num(n: int) | Dict(fields: map<string, string>)

  /** A key/value attribute (attribute.KeyValue, slog.Attr). */
  datatype Attr = Attr(key: string, value: AttrValue)

  /** One counter increment or one histogram observation. */
  datatype Observation = Observation(instrument: Instrument, value: int, attrs: seq<Attr>)

  /** The metric pipeline, as the sequence of all recordings made on it. */
  class Recorder {
    var log: seq<Observation>

    constructor ()
      ensures log == []
    {
      log := [];
    }

    /** counter.Add(ctx, value, attrs) or histogram.Record(ctx, value, attrs). */
    method Record(instrument: Instrument, value: int, attrs: seq<Attr>)
      modifies this
      ensures log == old(log) + [Observation(instrument, value, attrs)]
    {
      log := log + [Observation(instrument, value, attrs)];
    }
  }

  /** What `if inst != nil { inst.Add/Record(...) }` records. */
  function WhenPresent(inst: Option<Instrument>, value: int, attrs: seq<Attr>): (obs: seq<Observation>)
    ensures |obs| == (if inst.Some? then 1 else 0)
    ensures inst.Some? ==> obs[0] == Observation(inst.value, value, attrs)
  {
    if inst.Some? then [Observation(inst.value, value, attrs)] else []
  }

  /** `if inst != nil { inst.Add(ctx, value, attrs) }`, and likewise for
      Record. */
  method RecordIfPresent(rec: Recorder, inst: Option<Instrument>, value: int, attrs: seq<Attr>)
    modifies rec
    ensures rec.log == old(rec.log) + WhenPresent(inst, value, attrs)
  {
    if inst.Some? {
      rec.Record(inst.value, value, attrs);
    }
  }

  // ------------------------------------------------------------------
  // Logs

  datatype Level = DebugLevel | InfoLevel | WarnLevel | ErrorLevel

  /** A structured log record (slog.Record without its time). */
  datatype LogEntry = LogEntry(level: Level, message: string, attrs: seq<Attr>)

  /** A structured logger (slog.Logger), as the records written to it. */
  class Logger {
    var entries: seq<LogEntry>

    constructor ()
      ensures entries == []
    {
      entries := [];
    }

    method Log(level: Level, message: string, attrs: seq<Attr>)
      modifies this
      ensures entries == old(entries) + [LogEntry(level, message, attrs)]
    {
      entries := entries + [LogEntry(level, message, attrs)];
    }
  }

  /** The process's plain text output: the lines written by fmt.Println
      (to standard output) and by the standard log package (to standard
      error, behind a date-time prefix), kept as prefix-free lines in the
      order of the calls. */
  class Console {
    var lines: seq<string>

    constructor ()
      ensures lines == []
    {
      lines := [];
    }

    method Print(line: string)
      modifies this
      ensures lines == old(lines) + [line]
    {
      lines := lines + [line];
    }
  }

  // ------------------------------------------------------------------
  // Propagation

  /** What the request headers hold once parsed: the span context of a
      well-formed `traceparent` header (section 3.2 of the W3C Trace
      Context recommendation) and the `baggage` header, if any. */
  datatype Headers = Headers(traceparent: Option<SpanContext>, baggage: Option<string>)

  /** A text-map propagator: W3C Trace Context, W3C Baggage, or several
      applied in order. */
  datatype Propagator = TraceContextPropagator | BaggagePropagator | CompositePropagator(parts: seq<Propagator>)

  /** The headers a propagator reads. */
  function Fields(p: Propagator): (fields: seq<string>)
  {
    match p
    case TraceContextPropagator => ["traceparent", "tracestate"]
    case BaggagePropagator => ["baggage"]
    case CompositePropagator(parts) => FieldsOf(parts)
  }

  function FieldsOf(parts: seq<Propagator>): (fields: seq<string>)
  {
    if parts == [] then [] else Fields(parts[0]) + FieldsOf(parts[1..])
  }

  const BaggageKey := Named("baggage")

  /** propagator.Extract(ctx, headers): a valid incoming span context
      becomes the context's remote span; anything else leaves the context
      as it is. */
  function Extract(p: Propagator, ctx: Context, h: Headers): (ctx': Context)
  {
    match p
    case TraceContextPropagator =>
      if h.traceparent.Some? && h.traceparent.value.IsValid() then
        WithValue(ctx, CurrentSpan, Remote(h.traceparent.value.(remote := true)))
      else ctx
    case BaggagePropagator =>
      if h.baggage.Some? then WithValue(ctx, BaggageKey, Text(h.baggage.value)) else ctx
    case CompositePropagator(parts) => ExtractAll(parts, ctx, h)
  }

  function ExtractAll(parts: seq<Propagator>, ctx: Context, h: Headers): (ctx': Context)
  {
    if parts == [] then ctx else ExtractAll(parts[1..], Extract(parts[0], ctx, h), h)
  }

  /** The propagator initTelemetry installs globally. */
  const GlobalPropagator := CompositePropagator([TraceContextPropagator, BaggagePropagator])

  /** Trace Context extraction: the span context of the result is the
      incoming one, marked remote, when it is valid, and otherwise the one
      the context already had. */
  lemma TraceContextExtraction(ctx: Context, h: Headers)
    ensures var sc := SpanContextFromContext(Extract(TraceContextPropagator, ctx, h));
      if h.traceparent.Some? && h.traceparent.value.IsValid()
      then sc == h.traceparent.value.(remote := true) && sc.IsValid()
      else sc == SpanContextFromContext(ctx)
  {
  }

  /** The global composite yields the same span context as Trace Context
      alone: Baggage never touches the current span.  It additionally
      reads the baggage header. */
  lemma GlobalPropagatorSpanContext(ctx: Context, h: Headers)
    ensures SpanContextFromContext(Extract(GlobalPropagator, ctx, h)) ==
            SpanContextFromContext(Extract(TraceContextPropagator, ctx, h))
    ensures Fields(GlobalPropagator) == ["traceparent", "tracestate", "baggage"]
  {
    var parts := [TraceContextPropagator, BaggagePropagator];
    var afterTc := Extract(TraceContextPropagator, ctx, h);
    assert parts[1..] == [BaggagePropagator];
    assert [BaggagePropagator][1..] == [];
    assert Extract(GlobalPropagator, ctx, h) == ExtractAll(parts, ctx, h);
    assert ExtractAll(parts, ctx, h) == ExtractAll([BaggagePropagator], afterTc, h);
    assert ExtractAll([BaggagePropagator], afterTc, h) == ExtractAll([], Extract(BaggagePropagator, afterTc, h), h);
    assert FieldsOf([BaggagePropagator]) == ["baggage"];
    assert FieldsOf(parts) == ["traceparent", "tracestate"] + ["baggage"];
  }
}

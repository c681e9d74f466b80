/** The trace-correlated slog handler of backend/loggingMiddleware.go: it
    adds the trace and span identifiers of the context's span to a record
    and hands the record to the handler it wraps. */
module LoggingMiddleware {
  import opened Wrappers
  import opened Telemetry

  /** A base slog handler, seen through its Handle method: the error it
      returns (None for nil) for a context and a record. */
  type BaseHandler = (Context, LogEntry) -> Option<string>

  /** OtelHandler embeds the handler it wraps. */
  datatype OtelHandler = OtelHandler(base: BaseHandler)

  function NewOtelHandler(base: BaseHandler): (h: OtelHandler)
    ensures h.base == base
  {
    OtelHandler(base)
  }

  /** The two attributes Handle appends for a span context. */
  function IdAttrs(sc: SpanContext): (attrs: seq<Attr>)
  {
    [Attr("trace_id", Str(TraceIdString(sc))), Attr("span_id", Str(SpanIdString(sc)))]
  }

  /** The record as it reaches the base handler: extended with the trace and
      span identifiers when the context's span context is valid, otherwise
      the record as given. */
  function Correlate(ctx: Context, r: LogEntry): (r': LogEntry)
    ensures r'.level == r.level && r'.message == r.message
    ensures |r'.attrs| == |r.attrs| + (if SpanContextFromContext(ctx).IsValid() then 2 else 0)
    ensures r'.attrs[..|r.attrs|] == r.attrs
  {
    var sc := SpanContextFromContext(ctx);
    if sc.IsValid() then r.(attrs := r.attrs + IdAttrs(sc)) else r
  }

  /** OtelHandler.Handle: delegates once, with the same context, and returns
      what the base handler returns. */
  function Handle(h: OtelHandler, ctx: Context, r: LogEntry): (err: Option<string>)
  {
    h.base(ctx, Correlate(ctx, r))
  }

  /** With a valid span context exactly two attributes are appended, trace_id
      then span_id, and their values are the 32- and 16-digit hexadecimal
      forms of that span context's identifiers (they read back to them). */
  lemma {:induction false} ValidContextAppendsIds(ctx: Context, r: LogEntry)
    requires SpanContextFromContext(ctx).IsValid()
    requires SpanContextFromContext(ctx).traceId < Pow16(32)
    requires SpanContextFromContext(ctx).spanId < Pow16(16)
    ensures var sc := SpanContextFromContext(ctx);
            var a := Correlate(ctx, r).attrs;
            && |a| == |r.attrs| + 2
            && a[|r.attrs|].key == "trace_id" && a[|r.attrs|].value.Str?
            && ParseHex(a[|r.attrs|].value.s) == Some(sc.traceId)
            && a[|r.attrs| + 1].key == "span_id" && a[|r.attrs| + 1].value.Str?
            && ParseHex(a[|r.attrs| + 1].value.s) == Some(sc.spanId)
  {
    var sc := SpanContextFromContext(ctx);
    HexRoundTrip(sc.traceId, 32);
    HexRoundTrip(sc.spanId, 16);
  }

  /** With an invalid or absent span context the base handler receives the
      record unchanged. */
  lemma InvalidContextPassesThrough(h: OtelHandler, ctx: Context, r: LogEntry)
    requires !SpanContextFromContext(ctx).IsValid()
    ensures Handle(h, ctx, r) == h.base(ctx, r)
  {
  }

  /** A handler built by NewOtelHandler hands the very context it was given to
      its base and returns the base's error unchanged; a span of this process
      and a remote parent are treated alike. */
  lemma WrappedHandlerDelegates(base: BaseHandler, ctx: Context, s: Span, r: LogEntry)
    ensures Handle(NewOtelHandler(base), ctx, r) == base(ctx, Correlate(ctx, r))
    ensures Correlate(ContextWithSpan(ctx, s), r) ==
            if s.context.IsValid() then r.(attrs := r.attrs + IdAttrs(s.context)) else r
  {
  }
}

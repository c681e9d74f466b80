/** The frontend log ingestion endpoint, logFrontendEvent: a browser posts
    a log event, and the backend writes it to its own structured log with
    the trace and span identifiers of the browser's `traceparent` header.
    The process logger is a plain JSON handler, so the context passed with
    each record does not change what is written; the identifiers appear
    only as the explicit attributes. */
module FrontendLogger {
  import opened Wrappers
  import opened Telemetry

  /** The package-level propagator: W3C Trace Context only, not the global
      composite with Baggage. */
  const FrontendPropagator := TraceContextPropagator

  /** The decoded request body. */
  datatype Payload = Payload(kind: string, event: string, timestamp: int, metadata: map<string, string>)

  /** An http.Error reply, or a JSON-encoded string with its content type. */
  datatype FrontendReply = Rejected(status: nat, message: string) | JsonReply(contentType: string, value: string)

  const ErrorKind := "Error"
  const InvalidPayloadLog := "Invalid frontend log payload"
  const InvalidPayloadReply := Rejected(400, "Invalid payload")
  const LoggedReply := JsonReply("application/json", "Log written to file")

  /** The level of a frontend event: Error for the type "Error" exactly,
      Info for every other type, the empty one included. */
  function LevelFor(kind: string): (level: Level)
    ensures level == ErrorLevel <==> kind == ErrorKind
    ensures level == ErrorLevel || level == InfoLevel
  {
    if kind == ErrorKind then ErrorLevel else InfoLevel
  }

  function MessageFor(kind: string): (message: string)
  {
    if kind == ErrorKind then "Frontend log error" else "Frontend log info"
  }

  /** The four attributes both branches log. */
  function EventAttrs(p: Payload, sc: SpanContext): (attrs: seq<Attr>)
    ensures |attrs| == 4
  {
    [Attr("event", Str(p.event)), Attr("metadata", Dict(p.metadata)),
     Attr("traceId", Str(TraceIdString(sc))), Attr("spanId", Str(SpanIdString(sc)))]
  }

  /** The span context the handler logs: the one extracted from the request
      headers into the request's context. */
  function LoggedContext(ctx: Context, h: Headers): (sc: SpanContext)
  {
    SpanContextFromContext(Extract(FrontendPropagator, ctx, h))
  }

  /** The record logFrontendEvent writes, for a body that did or did not
      decode. */
  function FrontendLog(decoded: Result<Payload, string>, ctx: Context, h: Headers): (entry: LogEntry)
  {
    if decoded.Err? then LogEntry(ErrorLevel, InvalidPayloadLog, [Attr("error", Str(decoded.error))])
    else LogEntry(LevelFor(decoded.value.kind), MessageFor(decoded.value.kind), EventAttrs(decoded.value, LoggedContext(ctx, h)))
  }

  function FrontendReplyOf(decoded: Result<Payload, string>): (reply: FrontendReply)
  {
    if decoded.Err? then InvalidPayloadReply else LoggedReply
  }

  /** logFrontendEvent: `ctx` is r.Context(), `h` the parsed request
      headers, `decoded` the outcome of decoding the body. */
  method LogFrontendEvent(logger: Logger, ctx: Context, h: Headers, decoded: Result<Payload, string>)
    returns (reply: FrontendReply)
    modifies logger
    ensures logger.entries == old(logger.entries) + [FrontendLog(decoded, ctx, h)]
    ensures reply == FrontendReplyOf(decoded)
  {
    if decoded.Err? {
      logger.Log(ErrorLevel, InvalidPayloadLog, [Attr("error", Str(decoded.error))]);
      return InvalidPayloadReply;
    }
    var payload := decoded.value;
    var extracted := Extract(FrontendPropagator, ctx, h);
    var spanCtx := SpanContextFromContext(extracted);
    if payload.kind == ErrorKind {
      logger.Log(ErrorLevel, "Frontend log error", EventAttrs(payload, spanCtx));
    } else {
      logger.Log(InfoLevel, "Frontend log info", EventAttrs(payload, spanCtx));
    }
    reply := LoggedReply;
  }

  /** A body that does not decode is logged at error level with the decode
      error alone and rejected with 400; neither the headers nor the
      request's context are consulted. */
  lemma DecodeFailureRejects(err: string, ctx: Context, h: Headers, ctx': Context, h': Headers)
    ensures FrontendLog(Err(err), ctx, h) == FrontendLog(Err(err), ctx', h')
    ensures FrontendLog(Err(err), ctx, h).level == ErrorLevel
    ensures FrontendLog(Err(err), ctx, h).attrs == [Attr("error", Str(err))]
    ensures FrontendReplyOf(Err(err)) == Rejected(400, "Invalid payload")
  {
  }

  /** Both branches log the same four fields, in the same order; only the
      level and the message depend on the type, and on success the reply is
      the JSON string "Log written to file". */
  lemma LevelRouting(p: Payload, ctx: Context, h: Headers, otherKind: string)
    ensures var e := FrontendLog(Result.Ok(p), ctx, h);
      && (e.level == ErrorLevel <==> p.kind == "Error")
      && (p.kind != "Error" ==> e.level == InfoLevel)
      && [e.attrs[0].key, e.attrs[1].key, e.attrs[2].key, e.attrs[3].key] == ["event", "metadata", "traceId", "spanId"]
      && e.attrs == FrontendLog(Result.Ok(p.(kind := otherKind)), ctx, h).attrs
    ensures FrontendReplyOf(Result.Ok(p)) == JsonReply("application/json", "Log written to file")
  {
  }

  /** The logged span context is that of a valid `traceparent` header,
      whatever span the request's context carries; without one it is the
      request context's own.  The `baggage` header plays no part. */
  lemma LoggedContextFromHeader(ctx: Context, h: Headers, ctx': Context, baggage: Option<string>)
    ensures h.traceparent.Some? && h.traceparent.value.IsValid() ==>
      && LoggedContext(ctx, h).traceId == h.traceparent.value.traceId
      && LoggedContext(ctx, h).spanId == h.traceparent.value.spanId
      && LoggedContext(ctx, h) == LoggedContext(ctx', h)
    ensures !(h.traceparent.Some? && h.traceparent.value.IsValid()) ==> LoggedContext(ctx, h) == SpanContextFromContext(ctx)
    ensures LoggedContext(ctx, h) == LoggedContext(ctx, h.(baggage := baggage))
  {
    TraceContextExtraction(ctx, h);
    TraceContextExtraction(ctx', h);
    TraceContextExtraction(ctx, h.(baggage := baggage));
  }

  /** With a valid `traceparent` header the last two logged attributes are
      the header's own trace and span identifiers, as 32 and 16 lower-case
      hexadecimal digits (which read back to them: IdStringsReadBack). */
  lemma LoggedIdsFromHeader(p: Payload, ctx: Context, h: Headers)
    requires h.traceparent.Some? && h.traceparent.value.IsValid()
    ensures FrontendLog(Result.Ok(p), ctx, h).attrs[2..] ==
      [Attr("traceId", Str(TraceIdString(h.traceparent.value))), Attr("spanId", Str(SpanIdString(h.traceparent.value)))]
  {
    LoggedContextFromHeader(ctx, h, ctx, h.baggage);
  }
}

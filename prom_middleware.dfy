/** backend/promMiddleware.go: the four HTTP instruments, the response
    writer wrapper that captures status code and body size, and the
    middleware that records one set of observations per request. */
module PromMiddleware {
  import opened Wrappers
  import opened Telemetry

  // ------------------------------------------------------------------
  // Decimal rendering (strconv.Itoa) and its inverse

  function DigitChar(d: nat): (c: char)
    requires d < 10
    ensures '0' <= c <= '9'
  {
    ('0' as int + d) as char
  }

  function DigitValue(c: char): int
  {
    if '0' <= c <= '9' then c as int - '0' as int else -1
  }

  /** The decimal digits of n, most significant first, without leading zeros. */
  function NatToDecimal(n: nat): (s: string)
    ensures |s| >= 1
    ensures forall i :: 0 <= i < |s| ==> '0' <= s[i] <= '9'
    ensures |s| > 1 ==> s[0] != '0'
  {
    if n < 10 then [DigitChar(n)] else NatToDecimal(n / 10) + [DigitChar(n % 10)]
  }

  /** strconv.Itoa: a leading '-' for negative numbers. */
  function Itoa(i: int): (s: string)
    ensures |s| >= 1
  {
    if i < 0 then "-" + NatToDecimal(-i) else NatToDecimal(i)
  }

  /** Reads a non-empty string of decimal digits. */
  function ParseNat(s: string): (r: Option<nat>)
  {
    if s == [] then None
    else
      var d := DigitValue(s[|s| - 1]);
      if d < 0 then None
      else if |s| == 1 then Some(d)
      else match ParseNat(s[..|s| - 1])
        case None => None
        case Some(high) => Some(high * 10 + d)
  }

  /** strconv.Atoi, restricted to an optional '-' and digits. */
  function Atoi(s: string): (r: Option<int>)
  {
    if |s| > 0 && s[0] == '-' then
      match ParseNat(s[1..])
      case None => None
      case Some(n) => Some(0 - n as int)
    else
      match ParseNat(s)
      case None => None
      case Some(n) => Some(n)
  }

  lemma {:induction false} ParseNatToDecimal(n: nat)
    ensures ParseNat(NatToDecimal(n)) == Some(n)
  {
    var s := NatToDecimal(n);
    if n >= 10 {
      ParseNatToDecimal(n / 10);
      assert s[..|s| - 1] == NatToDecimal(n / 10);
    }
  }

  /** The http.status_code label reads back as the status code it was made
      from, for every code, including the negative ones a handler could
      pass. */
  lemma AtoiItoa(i: int)
    ensures Atoi(Itoa(i)) == Some(i)
  {
    if i < 0 {
      ParseNatToDecimal(-i);
      assert Itoa(i)[1..] == NatToDecimal(-i);
    } else {
      ParseNatToDecimal(i);
    }
  }

  lemma ItoaStatus()
    ensures Itoa(200) == "200" && Itoa(404) == "404"
  {
  }

  // ------------------------------------------------------------------
  // The response writer wrapper

  /** A call passed through to the wrapped http.ResponseWriter. */
  datatype WriterCall = HeaderCall(code: int) | BodyCall(bytes: seq<bv8>)

  /** responseWriter: the status code (200 until WriteHeader) and the sum of
      the byte counts the wrapped writer reported, plus the calls passed
      through to it. */
  class ResponseWriter {
    var statusCode: int
    var responseSize: int
    var forwarded: seq<WriterCall>

    constructor ()
      ensures statusCode == 200 && responseSize == 0 && forwarded == []
    {
      statusCode := 200;
      responseSize := 0;
      forwarded := [];
    }

    method WriteHeader(code: int)
      modifies this
      ensures statusCode == code
      ensures responseSize == old(responseSize)
      ensures forwarded == old(forwarded) + [HeaderCall(code)]
    {
      statusCode := code;
      forwarded := forwarded + [HeaderCall(code)];
    }

    /** Write: `written` and `err` are what the wrapped writer returns; the
        count is added whether or not there is an error. */
    method Write(b: seq<bv8>, written: nat, err: Option<string>) returns (n: nat, e: Option<string>)
      modifies this
      ensures n == written && e == err
      ensures statusCode == old(statusCode)
      ensures responseSize == old(responseSize) + written
      ensures forwarded == old(forwarded) + [BodyCall(b)]
    {
      forwarded := forwarded + [BodyCall(b)];
      responseSize := responseSize + written;
      return written, err;
    }
  }

  /** A writer call made by the wrapped handler, with what the underlying
      writer answers to a body write. */
  datatype Action = SetHeader(code: int) | WriteBody(bytes: seq<bv8>, written: nat, err: Option<string>)

  /** The status the wrapper holds after the actions: the last header code,
      or the one it started with. */
  function LastCode(actions: seq<Action>, initial: int): (code: int)
  {
    if actions == [] then initial
    else if actions[|actions| - 1].SetHeader? then actions[|actions| - 1].code
    else LastCode(actions[..|actions| - 1], initial)
  }

  function TotalWritten(actions: seq<Action>): (total: nat)
  {
    if actions == [] then 0
    else TotalWritten(actions[..|actions| - 1]) +
         (if actions[|actions| - 1].WriteBody? then actions[|actions| - 1].written else 0)
  }

  function Forwarded(actions: seq<Action>): (calls: seq<WriterCall>)
    ensures |calls| == |actions|
  {
    if actions == [] then []
    else
      var a := actions[|actions| - 1];
      Forwarded(actions[..|actions| - 1]) + [if a.SetHeader? then HeaderCall(a.code) else BodyCall(a.bytes)]
  }

  /** Without a WriteHeader the status stays at its initial value. */
  lemma {:induction false} NoHeaderKeepsStatus(actions: seq<Action>, initial: int)
    requires forall i :: 0 <= i < |actions| ==> actions[i].WriteBody?
    ensures LastCode(actions, initial) == initial
  {
    if actions != [] {
      NoHeaderKeepsStatus(actions[..|actions| - 1], initial);
    }
  }

  /** The status is the code of the most recent WriteHeader: the actions
      after it change nothing. */
  lemma {:induction false} LatestHeaderWins(before: seq<Action>, code: int, after: seq<Action>, initial: int)
    requires forall i :: 0 <= i < |after| ==> after[i].WriteBody?
    ensures LastCode(before + [SetHeader(code)] + after, initial) == code
  {
    if after == [] {
      assert before + [SetHeader(code)] + after == before + [SetHeader(code)];
    } else {
      var all := before + [SetHeader(code)] + after;
      assert all[..|all| - 1] == before + [SetHeader(code)] + after[..|after| - 1];
      LatestHeaderWins(before, code, after[..|after| - 1], initial);
    }
  }

  /** The size adds up over consecutive handler phases. */
  lemma {:induction false} TotalWrittenAppend(a: seq<Action>, b: seq<Action>)
    ensures TotalWritten(a + b) == TotalWritten(a) + TotalWritten(b)
  {
    if b != [] {
      assert (a + b)[..|a + b| - 1] == a + b[..|b| - 1];
      TotalWrittenAppend(a, b[..|b| - 1]);
    } else {
      assert a + b == a;
    }
  }

  /** next.ServeHTTP(rw, r): the wrapped handler's calls on the writer, in
      order. */
  method RunHandler(rw: ResponseWriter, actions: seq<Action>)
    modifies rw
    ensures rw.statusCode == LastCode(actions, old(rw.statusCode))
    ensures rw.responseSize == old(rw.responseSize) + TotalWritten(actions)
    ensures rw.forwarded == old(rw.forwarded) + Forwarded(actions)
  {
    var i := 0;
    while i < |actions|
      invariant 0 <= i <= |actions|
      invariant rw.statusCode == LastCode(actions[..i], old(rw.statusCode))
      invariant rw.responseSize == old(rw.responseSize) + TotalWritten(actions[..i])
      invariant rw.forwarded == old(rw.forwarded) + Forwarded(actions[..i])
    {
      assert actions[..i + 1][..i] == actions[..i];
      match actions[i] {
        case SetHeader(code) =>
          rw.WriteHeader(code);
        case WriteBody(b, written, err) =>
          var _, _ := rw.Write(b, written, err);
      }
      i := i + 1;
    }
    assert actions[..i] == actions;
  }

  // ------------------------------------------------------------------
  // Instruments

  const RequestsTotal := Counter("http_requests_total")
  const RequestDuration := Histogram("http_request_duration_seconds")
  const RequestSize := Histogram("http_request_size_bytes")
  const ResponseSize := Histogram("http_response_size_bytes")

  /** The error each registration reports (None for nil). */
  datatype HttpMetricOutcomes = HttpMetricOutcomes(
    counterErr: Option<string>, durationErr: Option<string>,
    requestSizeErr: Option<string>, responseSizeErr: Option<string>)

  /** InitHTTPMetrics' result: the first registration error, unwrapped. */
  function FirstRegistrationError(o: HttpMetricOutcomes): (err: Option<string>)
    ensures err.None? <==> o.counterErr.None? && o.durationErr.None? && o.requestSizeErr.None? && o.responseSizeErr.None?
  {
    if o.counterErr.Some? then o.counterErr
    else if o.durationErr.Some? then o.durationErr
    else if o.requestSizeErr.Some? then o.requestSizeErr
    else o.responseSizeErr
  }

  /** The package-level instrument variables of the HTTP middleware (None
      while nil) and the instruments asked of the meter, in order. */
  class HttpMetrics {
    var requestCounter: Option<Instrument>
    var requestDuration: Option<Instrument>
    var requestSize: Option<Instrument>
    var responseSize: Option<Instrument>
    var registered: seq<Instrument>

    constructor ()
      ensures requestCounter.None? && requestDuration.None? && requestSize.None? && responseSize.None?
      ensures registered == []
    {
      requestCounter, requestDuration, requestSize, responseSize := None, None, None, None;
      registered := [];
    }

    /** All four instruments are set, as the middleware needs. */
    predicate Ready()
      reads this
    {
      requestCounter.Some? && requestDuration.Some? && requestSize.Some? && responseSize.Some?
    }

    /** InitHTTPMetrics: each variable is assigned from its registration,
        and the first error stops the sequence. */
    method InitHTTPMetrics(o: HttpMetricOutcomes) returns (err: Option<string>)
      modifies this
      ensures err == FirstRegistrationError(o)
      ensures err.None? ==> Ready()
      ensures requestCounter == Some(RequestsTotal)
      ensures requestDuration == (if o.counterErr.None? then Some(RequestDuration) else old(requestDuration))
      ensures requestSize == (if o.counterErr.None? && o.durationErr.None? then Some(RequestSize) else old(requestSize))
      ensures responseSize ==
        (if o.counterErr.None? && o.durationErr.None? && o.requestSizeErr.None? then Some(ResponseSize) else old(responseSize))
      ensures registered == old(registered) +
        (if o.counterErr.Some? then [RequestsTotal]
         else if o.durationErr.Some? then [RequestsTotal, RequestDuration]
         else if o.requestSizeErr.Some? then [RequestsTotal, RequestDuration, RequestSize]
         else [RequestsTotal, RequestDuration, RequestSize, ResponseSize])
    {
      requestCounter := Some(RequestsTotal);
      registered := registered + [RequestsTotal];
      if o.counterErr.Some? {
        return o.counterErr;
      }
      requestDuration := Some(RequestDuration);
      registered := registered + [RequestDuration];
      if o.durationErr.Some? {
        return o.durationErr;
      }
      requestSize := Some(RequestSize);
      registered := registered + [RequestSize];
      if o.requestSizeErr.Some? {
        return o.requestSizeErr;
      }
      responseSize := Some(ResponseSize);
      registered := registered + [ResponseSize];
      return o.responseSizeErr;
    }

    /** OpenTelemetryMetricsMiddleware, for one request: wrap the writer,
        run the handler (whose own recordings come first), then record.
        `start` and `finish` are the clock before and after the handler. */
    method ServeRequest(req: Request, actions: seq<Action>, handlerObs: seq<Observation>,
                        rec: Recorder, start: nat, finish: nat) returns (rw: ResponseWriter)
      requires Ready()
      modifies rec
      ensures fresh(rw)
      ensures rw.statusCode == LastCode(actions, 200)
      ensures rw.responseSize == TotalWritten(actions)
      ensures rw.forwarded == Forwarded(actions)
      ensures rec.log == old(rec.log) + handlerObs +
        RequestObservations(Instruments(), req, rw.statusCode, rw.responseSize, finish - start)
    {
      var handler := RouteLabel(req.template);
      rw := new ResponseWriter();
      RunHandler(rw, actions);
      rec.log := rec.log + handlerObs;
      var duration := finish - start;
      var statusCode := Itoa(rw.statusCode);
      var attrs := [Attr("http.method", Str(req.verb)), Attr("http.route", Str(handler)),
                    Attr("http.status_code", Str(statusCode))];
      rec.Record(requestCounter.value, 1, attrs);
      rec.Record(requestDuration.value, duration, attrs);
      if req.contentLength > 0 {
        rec.Record(requestSize.value, req.contentLength, attrs);
      }
      if rw.responseSize > 0 {
        rec.Record(responseSize.value, rw.responseSize, attrs);
      }
    }

    function Instruments(): (inst: HttpInstruments)
      requires Ready()
      reads this
    {
      HttpInstruments(requestCounter.value, requestDuration.value, requestSize.value, responseSize.value)
    }
  }

  /** An incoming request: its method (verb), the matched route's path template
      (None when there is no route or no template), and ContentLength
      (-1 when unknown). */
  datatype Request = Request(verb: string, template: Option<string>, contentLength: int)

  datatype HttpInstruments = HttpInstruments(requests: Instrument, duration: Instrument,
                                             requestSize: Instrument, responseSize: Instrument)

  function RouteLabel(template: Option<string>): (route: string)
    ensures template.Some? ==> route == template.value
    ensures template.None? ==> route == "unknown"
  {
    if template.Some? then template.value else "unknown"
  }

  function RequestAttrs(req: Request, status: int): (attrs: seq<Attr>)
  {
    [Attr("http.method", Str(req.verb)), Attr("http.route", Str(RouteLabel(req.template))),
     Attr("http.status_code", Str(Itoa(status)))]
  }

  /** What the middleware records once the handler has returned. */
  function RequestObservations(inst: HttpInstruments, req: Request, status: int,
                               responseSize: int, duration: int): (obs: seq<Observation>)
  {
    var attrs := RequestAttrs(req, status);
    [Observation(inst.requests, 1, attrs), Observation(inst.duration, duration, attrs)]
    + (if req.contentLength > 0 then [Observation(inst.requestSize, req.contentLength, attrs)] else [])
    + (if responseSize > 0 then [Observation(inst.responseSize, responseSize, attrs)] else [])
  }

  /** Every request is counted once and timed once, first; the sizes follow
      only when positive; all four carry the same labels. */
  lemma RequestRecordingRule(inst: HttpInstruments, req: Request, status: int, responseSize: int, duration: int)
    ensures var obs := RequestObservations(inst, req, status, responseSize, duration);
      && |obs| == 2 + (if req.contentLength > 0 then 1 else 0) + (if responseSize > 0 then 1 else 0)
      && obs[0] == Observation(inst.requests, 1, RequestAttrs(req, status))
      && obs[1] == Observation(inst.duration, duration, RequestAttrs(req, status))
      && (req.contentLength > 0 ==> obs[2] == Observation(inst.requestSize, req.contentLength, RequestAttrs(req, status)))
      && (responseSize > 0 ==> obs[|obs| - 1] == Observation(inst.responseSize, responseSize, RequestAttrs(req, status)))
      && forall i :: 0 <= i < |obs| ==> obs[i].attrs == RequestAttrs(req, status)
  {
  }

  /** The status label is the decimal form of the captured status: one that
      parses back to it, and "200" when the handler never set a header. */
  lemma StatusLabel(req: Request, actions: seq<Action>)
    ensures Atoi(RequestAttrs(req, LastCode(actions, 200))[2].value.s) == Some(LastCode(actions, 200))
    ensures (forall i :: 0 <= i < |actions| ==> actions[i].WriteBody?) ==>
      RequestAttrs(req, LastCode(actions, 200))[2] == Attr("http.status_code", Str("200"))
  {
    AtoiItoa(LastCode(actions, 200));
    if forall i :: 0 <= i < |actions| ==> actions[i].WriteBody? {
      NoHeaderKeepsStatus(actions, 200);
      ItoaStatus();
    }
  }
}

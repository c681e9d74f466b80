/** Properties of the login and registration handlers: the spans form one
    trace rooted at the request's span and each is ended exactly once, the
    reply agrees with a flat reference decision, the root span's status
    reflects the outcome, and each metric is recorded as often as the
    handler reaches it. */
module UserFuncsProps {
  import opened Wrappers
  import opened Telemetry
  import opened UserFuncs

  // ------------------------------------------------------------------
  // Span lifecycles

  /** A failed step's span is closed, ends with the error status, and holds
      the step's error when it had one. */
  lemma FailedStepFacts(name: string, context: SpanContext, parent: SpanContext, err: Option<string>,
                        description: string)
    ensures var r := FailedStep(name, context, parent, err, description);
      && Closed(r.calls)
      && StatusOf(r.calls) == Status(Code.Error, description)
      && ErrorsOf(r.calls) == (if err.Some? then [err.value] else [])
  {
    var errs := if err.Some? then [SpanCall.RecordError(err.value)] else [];
    var pre := errs + [ErrorStatus(description)];
    assert pre[..|errs|] == errs;
    assert NoEnd(pre);
    EndOnce(pre);
    assert errs + [ErrorStatus(description), SpanCall.End] == pre + [SpanCall.End];
  }

  lemma PassedStepFacts(name: string, context: SpanContext, parent: SpanContext, description: string)
    ensures var r := PassedStep(name, context, parent, description);
      && Closed(r.calls) && StatusOf(r.calls) == Status(Code.Ok, description) && ErrorsOf(r.calls) == []
  {
    var pre := [OkStatus(description)];
    assert pre[..0] == [];
    assert NoEnd(pre);
    EndOnce(pre);
    assert [OkStatus(description), SpanCall.End] == pre + [SpanCall.End];
  }

  // ------------------------------------------------------------------
  // Trace structure

  /** Closed spans started one after another under `p` once the tracer had
      issued `n` spans: the i-th has the (n+i+1)-th identity, in p's trace,
      and its parent is `p` or a span started before it. */
  predicate SpansUnder(p: SpanContext, n: nat, kids: seq<SpanRecord>)
  {
    forall i :: 0 <= i < |kids| ==>
      && kids[i].context.IsValid()
      && kids[i].context.traceId == p.traceId
      && kids[i].context.spanId == n + i + 1
      && Closed(kids[i].calls)
      && (kids[i].parent == p || exists j :: 0 <= j < i && kids[i].parent == kids[j].context)
  }

  /** A step's span followed by the spans of the later steps, which start
      under the same parent or under the step's own span. */
  lemma SpansUnderThen(p: SpanContext, n: nat, first: SpanRecord, q: SpanContext, kids: seq<SpanRecord>)
    requires p.IsValid()
    requires first.context == ChildContext(p, n) && first.parent == p && Closed(first.calls)
    requires q == p || q == first.context
    requires SpansUnder(q, n + 1, kids)
    ensures SpansUnder(p, n, [first] + kids)
  {
    var all := [first] + kids;
    forall i | 0 <= i < |all|
      ensures && all[i].context.IsValid()
              && all[i].context.traceId == p.traceId
              && all[i].context.spanId == n + i + 1
              && Closed(all[i].calls)
              && (all[i].parent == p || exists j :: 0 <= j < i && all[i].parent == all[j].context)
    {
      if i > 0 {
        assert all[i] == kids[i - 1];
        if kids[i - 1].parent != q {
          var j :| 0 <= j < i - 1 && kids[i - 1].parent == kids[j].context;
          assert all[j + 1] == kids[j];
        } else if q != p {
          assert all[0] == first;
        }
      }
    }
  }

  /** A step that failed: its one closed span, under `p`. */
  lemma FailedLeaf(p: SpanContext, n: nat, name: string, err: Option<string>, description: string)
    requires p.IsValid()
    ensures SpansUnder(p, n, [FailedStep(name, ChildContext(p, n), p, err, description)])
  {
    var first := FailedStep(name, ChildContext(p, n), p, err, description);
    FailedStepFacts(name, ChildContext(p, n), p, err, description);
    SpansUnderThen(p, n, first, p, []);
    assert [first] + [] == [first];
  }

  /** A step that succeeded, followed by the spans of the later steps. */
  lemma PassedThen(p: SpanContext, n: nat, name: string, description: string, q: SpanContext,
                   kids: seq<SpanRecord>)
    requires p.IsValid()
    requires q == p || q == ChildContext(p, n)
    requires SpansUnder(q, n + 1, kids)
    ensures SpansUnder(p, n, [PassedStep(name, ChildContext(p, n), p, description)] + kids)
    ensures kids == [] ==> SpansUnder(p, n, [PassedStep(name, ChildContext(p, n), p, description)])
  {
    assert [PassedStep(name, ChildContext(p, n), p, description)] + [] == [PassedStep(name, ChildContext(p, n), p, description)];
    PassedStepFacts(name, ChildContext(p, n), p, description);
    SpansUnderThen(p, n, PassedStep(name, ChildContext(p, n), p, description), q, kids);
  }

  /** The spans of one request: the root continues `upstream` and has the
      tracer's next identity; every span is closed, is in the root's trace,
      has a distinct identity (the tracer's next ones, in order), and every
      span after the root is a child of a span started before it. */
  predicate TraceTree(upstream: SpanContext, issued: nat, rootName: string, spans: seq<SpanRecord>)
  {
    && |spans| > 0
    && spans[0].name == rootName && spans[0].parent == upstream
    && (upstream.IsValid() ==> spans[0].context.traceId == upstream.traceId)
    && forall i :: 0 <= i < |spans| ==>
      && spans[i].context.IsValid()
      && spans[i].context.traceId == spans[0].context.traceId
      && spans[i].context.spanId == issued + i + 1
      && Closed(spans[i].calls)
      && (i > 0 ==> exists j :: 0 <= j < i && spans[i].parent == spans[j].context)
  }

  lemma RootedTree(upstream: SpanContext, issued: nat, name: string, calls: seq<SpanCall>, kids: seq<SpanRecord>)
    requires NoEnd(calls)
    requires SpansUnder(ChildContext(upstream, issued), issued + 1, kids)
    ensures TraceTree(upstream, issued, name,
                      [SpanRecord(name, ChildContext(upstream, issued), upstream, calls + [SpanCall.End])] + kids)
  {
    var root := SpanRecord(name, ChildContext(upstream, issued), upstream, calls + [SpanCall.End]);
    var all := [root] + kids;
    EndOnce(calls);
    forall i | 0 <= i < |all|
      ensures && all[i].context.IsValid()
              && all[i].context.traceId == all[0].context.traceId
              && all[i].context.spanId == issued + i + 1
              && Closed(all[i].calls)
              && (i > 0 ==> exists j :: 0 <= j < i && all[i].parent == all[j].context)
    {
      if i > 0 {
        assert all[i] == kids[i - 1];
        if kids[i - 1].parent == root.context {
          assert all[0] == root;
        } else {
          var j :| 0 <= j < i - 1 && kids[i - 1].parent == kids[j].context;
          assert all[j + 1] == kids[j];
        }
      }
    }
  }

  // ------------------------------------------------------------------
  // Metric counts

  /** How many recordings were made on instrument `x`. */
  function Samples(obs: seq<Observation>, x: Instrument): nat
  {
    if obs == [] then 0 else (if obs[0].instrument == x then 1 else 0) + Samples(obs[1..], x)
  }

  /** Whether a (possibly nil) package instrument is `x`. */
  function Is(o: Option<Instrument>, x: Instrument): nat
  {
    if o == Some(x) then 1 else 0
  }

  lemma {:induction false} SamplesAppend(a: seq<Observation>, b: seq<Observation>, x: Instrument)
    ensures Samples(a + b, x) == Samples(a, x) + Samples(b, x)
  {
    if a != [] {
      assert (a + b)[1..] == a[1..] + b;
      SamplesAppend(a[1..], b, x);
    } else {
      assert a + b == b;
    }
  }

  lemma SamplesWhenPresent(o: Option<Instrument>, value: int, attrs: seq<Attr>, x: Instrument)
    ensures Samples(WhenPresent(o, value, attrs), x) == Is(o, x)
  {
    if o.Some? {
      assert WhenPresent(o, value, attrs)[1..] == [];
    }
  }

  /** One database call records one count and one duration. */
  lemma SamplesOfQuery(inst: AuthInstruments, attrs: seq<Attr>, d: int, x: Instrument)
    ensures Samples(QueryObservations(inst, attrs, d), x) == Is(inst.queryCount, x) + Is(inst.queryDuration, x)
  {
    SamplesAppend(WhenPresent(inst.queryCount, 1, attrs), WhenPresent(inst.queryDuration, d, attrs), x);
    SamplesWhenPresent(inst.queryCount, 1, attrs, x);
    SamplesWhenPresent(inst.queryDuration, d, attrs, x);
  }

  lemma SamplesOfStart(inst: AuthInstruments, attrs: seq<Attr>, x: Instrument)
    ensures Samples(StartObservations(inst, attrs), x) == Is(inst.requests, x) + Is(inst.attempts, x)
  {
    SamplesAppend(WhenPresent(inst.requests, 1, attrs), WhenPresent(inst.attempts, 1, attrs), x);
    SamplesWhenPresent(inst.requests, 1, attrs, x);
    SamplesWhenPresent(inst.attempts, 1, attrs, x);
  }

  /** The root span was marked as failed: an error status or a recorded
      error. */
  predicate Marked(calls: seq<SpanCall>)
  {
    StatusOf(calls).code == Code.Error || ErrorsOf(calls) != []
  }

  // ------------------------------------------------------------------
  // Login

  predicate HasCredentials(r: LoginRequest)
  {
    r.email != "" && r.password != ""
  }

  /** The reply of loginUser, decided directly from the outcomes. */
  function LoginReply(input: LoginInput): Reply
  {
    if !input.dbReady then DbUnavailable
    else if input.decoded.Err? then InvalidPayload(input.decoded.error)
    else if !HasCredentials(input.decoded.value) then LoginFieldsRequired
    else match input.lookup
      case Missing => InvalidCredentials
      case LookupFailed(e) => DatabaseError(e)
      case Found(u) =>
        if !input.passwordOk then InvalidCredentials
        else if input.token.Err? then TokenError(input.token.error)
        else LoggedIn(input.token.value, u)
  }

  /** Whether the login goes through every step. */
  predicate LoginAccepted(input: LoginInput)
  {
    && input.dbReady && input.decoded.Ok? && HasCredentials(input.decoded.value)
    && input.lookup.Found? && input.passwordOk && input.token.Ok?
  }

  /** How many database calls the login makes. */
  function LoginQueries(input: LoginInput): nat
  {
    if input.dbReady && input.decoded.Ok? && HasCredentials(input.decoded.value) then 1 else 0
  }

  /** The outcomes under which loginUser reaches `phase`. */
  predicate LoginReached(phase: LoginPhase, input: LoginInput)
  {
    input.dbReady &&
    match phase
    case ParseLogin => true
    case ValidateLogin(r) => input.decoded == Result.Ok(r)
    case LookupUser(r) => input.decoded == Result.Ok(r) && HasCredentials(r)
    case CheckPassword(r, u) => input.decoded == Result.Ok(r) && HasCredentials(r) && input.lookup == Found(u)
    case GenerateToken(r, u) =>
      input.decoded == Result.Ok(r) && HasCredentials(r) && input.lookup == Found(u) && input.passwordOk
  }

  // The login steps, last to first: the spans they start, the reply and
  // the root span's calls they produce, and the metrics they record.

  lemma LoginTokenSpans(input: LoginInput, r: LoginRequest, u: User, inst: AuthInstruments, p: SpanContext,
                        n: nat, base: seq<Attr>)
    requires p.IsValid()
    ensures var t := LoginToken(input, r, u, inst, p, n, base); SpansUnder(p, n, t.children) && NoEnd(t.rootCalls)
  {
    var sc := ChildContext(p, n);
    if input.token.Err? {
      FailedLeaf(p, n, LoginTokenSpan, Some(input.token.error), TokenFailed);
    } else {
      PassedThen(p, n, LoginTokenSpan, TokenOk, p, []);
    }
  }

  lemma LoginVerifySpans(input: LoginInput, r: LoginRequest, u: User, inst: AuthInstruments, p: SpanContext,
                         n: nat, base: seq<Attr>)
    requires p.IsValid()
    ensures var t := LoginVerify(input, r, u, inst, p, n, base); SpansUnder(p, n, t.children) && NoEnd(t.rootCalls)
  {
    var sc := ChildContext(p, n);
    if !input.passwordOk {
      FailedLeaf(p, n, LoginVerifySpan, None, InvalidPassword);
    } else {
      LoginTokenSpans(input, r, u, inst, sc, n + 1, base);
      PassedThen(p, n, LoginVerifySpan, VerifiedOk, sc,
               LoginToken(input, r, u, inst, sc, n + 1, base).children);
    }
  }

  lemma LoginLookupSpans(input: LoginInput, r: LoginRequest, inst: AuthInstruments, p: SpanContext,
                         n: nat, base: seq<Attr>)
    requires p.IsValid()
    ensures var t := LoginLookup(input, r, inst, p, n, base); SpansUnder(p, n, t.children) && NoEnd(t.rootCalls)
  {
    var sc := ChildContext(p, n);
    match input.lookup
    case Missing =>
      FailedLeaf(p, n, LoginLookupSpan, Some(RecordNotFoundText), LookupFailedStatus);
    case LookupFailed(e) =>
      FailedLeaf(p, n, LoginLookupSpan, Some(e), LookupFailedStatus);
    case Found(u) =>
      LoginVerifySpans(input, r, u, inst, p, n + 1, base);
      PassedThen(p, n, LoginLookupSpan, FoundOk, p,
               LoginVerify(input, r, u, inst, p, n + 1, base).children);
  }

  lemma LoginValidateSpans(input: LoginInput, r: LoginRequest, inst: AuthInstruments, p: SpanContext,
                           n: nat, base: seq<Attr>)
    requires p.IsValid()
    ensures var t := LoginValidate(input, r, inst, p, n, base); SpansUnder(p, n, t.children) && NoEnd(t.rootCalls)
  {
    var sc := ChildContext(p, n);
    if !HasCredentials(r) {
      FailedLeaf(p, n, LoginValidateSpan, None, MissingFields);
    } else {
      LoginLookupSpans(input, r, inst, sc, n + 1, base);
      PassedThen(p, n, LoginValidateSpan, ValidatedOk, sc,
               LoginLookup(input, r, inst, sc, n + 1, base).children);
    }
  }

  lemma LoginParseSpans(input: LoginInput, inst: AuthInstruments, p: SpanContext, n: nat, base: seq<Attr>)
    requires p.IsValid()
    ensures var t := LoginParse(input, inst, p, n, base); SpansUnder(p, n, t.children) && NoEnd(t.rootCalls)
  {
    var sc := ChildContext(p, n);
    if input.decoded.Err? {
      FailedLeaf(p, n, LoginParseSpan, Some(input.decoded.error), InvalidJson);
    } else {
      LoginValidateSpans(input, input.decoded.value, inst, sc, n + 1, base);
      PassedThen(p, n, LoginParseSpan, ParsedOk, sc,
               LoginValidate(input, input.decoded.value, inst, sc, n + 1, base).children);
    }
  }

  /** The reply and the root span's calls of the login steps from a phase
      on: the reference reply; an Ok status exactly on success; an error
      status or a recorded error on every failure. */
  predicate LoginOutcomeOf(input: LoginInput, t: Tail)
  {
    && t.reply == LoginReply(input)
    && (StatusOf(t.rootCalls).code == Code.Ok <==> LoginAccepted(input))
    && (!LoginAccepted(input) ==> Marked(t.rootCalls))
  }

  lemma LoginTokenOutcome(input: LoginInput, r: LoginRequest, u: User, inst: AuthInstruments, p: SpanContext,
                          n: nat, base: seq<Attr>)
    requires LoginReached(GenerateToken(r, u), input)
    ensures LoginOutcomeOf(input, LoginToken(input, r, u, inst, p, n, base))
  {
    if input.token.Err? {
      // unfolds StatusOf and ErrorsOf of the one-call root log
      assert [SpanCall.RecordError(input.token.error)][..0] == [];
    }
  }

  lemma LoginVerifyOutcome(input: LoginInput, r: LoginRequest, u: User, inst: AuthInstruments, p: SpanContext,
                           n: nat, base: seq<Attr>)
    requires LoginReached(CheckPassword(r, u), input)
    ensures LoginOutcomeOf(input, LoginVerify(input, r, u, inst, p, n, base))
  {
    if input.passwordOk {
      LoginTokenOutcome(input, r, u, inst, ChildContext(p, n), n + 1, base);
    }
  }

  lemma LoginLookupOutcome(input: LoginInput, r: LoginRequest, inst: AuthInstruments, p: SpanContext,
                           n: nat, base: seq<Attr>)
    requires LoginReached(LookupUser(r), input)
    ensures LoginOutcomeOf(input, LoginLookup(input, r, inst, p, n, base))
    ensures var t := LoginLookup(input, r, inst, p, n, base);
      input.lookup.Missing? ==>
        ErrorsOf(t.rootCalls) == [RecordNotFoundText] && StatusOf(t.rootCalls).code == Code.Unset
    ensures var t := LoginLookup(input, r, inst, p, n, base);
      input.lookup.LookupFailed? ==>
        ErrorsOf(t.rootCalls) == [input.lookup.err] && StatusOf(t.rootCalls).code == Code.Unset
  {
    match input.lookup
    case Missing =>
      // unfolds StatusOf and ErrorsOf of the one-call root log
      assert [SpanCall.RecordError(RecordNotFoundText)][..0] == [];
    case LookupFailed(e) =>
      // unfolds StatusOf and ErrorsOf of the one-call root log
      assert [SpanCall.RecordError(e)][..0] == [];
    case Found(u) =>
      LoginVerifyOutcome(input, r, u, inst, p, n + 1, base);
  }

  lemma LoginValidateOutcome(input: LoginInput, r: LoginRequest, inst: AuthInstruments, p: SpanContext,
                             n: nat, base: seq<Attr>)
    requires LoginReached(ValidateLogin(r), input)
    ensures LoginOutcomeOf(input, LoginValidate(input, r, inst, p, n, base))
    ensures var t := LoginValidate(input, r, inst, p, n, base);
      !HasCredentials(r) ==> StatusOf(t.rootCalls) == Status(Code.Error, MissingFields) && ErrorsOf(t.rootCalls) == []
  {
    if HasCredentials(r) {
      LoginLookupOutcome(input, r, inst, ChildContext(p, n), n + 1, base);
    }
  }

  lemma LoginParseOutcome(input: LoginInput, inst: AuthInstruments, p: SpanContext, n: nat, base: seq<Attr>)
    requires input.dbReady
    ensures LoginOutcomeOf(input, LoginParse(input, inst, p, n, base))
  {
    if input.decoded.Ok? {
      LoginValidateOutcome(input, input.decoded.value, inst, ChildContext(p, n), n + 1, base);
    }
  }

  /** The recordings on `x` of the login steps from a phase on that make
      `queries` (0 or 1) database calls. */
  predicate LoginSamplesOf(input: LoginInput, inst: AuthInstruments, t: Tail, queries: nat, x: Instrument)
  {
    Samples(t.observations, x)
    == (if queries == 1 then Is(inst.queryCount, x) + Is(inst.queryDuration, x) else 0)
       + (if LoginAccepted(input) then Is(inst.authDuration, x) else 0)
  }

  lemma LoginTokenSamples(input: LoginInput, r: LoginRequest, u: User, inst: AuthInstruments, p: SpanContext,
                          n: nat, base: seq<Attr>, x: Instrument)
    requires LoginReached(GenerateToken(r, u), input)
    ensures LoginSamplesOf(input, inst, LoginToken(input, r, u, inst, p, n, base), 0, x)
  {
    if input.token.Ok? {
      SamplesWhenPresent(inst.authDuration, input.authElapsed, SuccessAttrs(base, u.id), x);
    }
  }

  lemma LoginVerifySamples(input: LoginInput, r: LoginRequest, u: User, inst: AuthInstruments, p: SpanContext,
                           n: nat, base: seq<Attr>, x: Instrument)
    requires LoginReached(CheckPassword(r, u), input)
    ensures LoginSamplesOf(input, inst, LoginVerify(input, r, u, inst, p, n, base), 0, x)
  {
    if input.passwordOk {
      var t := LoginToken(input, r, u, inst, ChildContext(p, n), n + 1, base);
      LoginTokenSamples(input, r, u, inst, ChildContext(p, n), n + 1, base, x);
      assert [] + t.observations == t.observations;
    }
  }

  lemma LoginLookupSamples(input: LoginInput, r: LoginRequest, inst: AuthInstruments, p: SpanContext,
                           n: nat, base: seq<Attr>, x: Instrument)
    requires LoginReached(LookupUser(r), input)
    ensures LoginSamplesOf(input, inst, LoginLookup(input, r, inst, p, n, base), 1, x)
  {
    var obs := QueryObservations(inst, LoginQueryAttrs(base), input.dbDuration);
    SamplesOfQuery(inst, LoginQueryAttrs(base), input.dbDuration, x);
    if input.lookup.Found? {
      var u := input.lookup.user;
      var t := LoginVerify(input, r, u, inst, p, n + 1, base);
      LoginVerifySamples(input, r, u, inst, p, n + 1, base, x);
      SamplesAppend(obs, t.observations, x);
    }
  }

  lemma LoginValidateSamples(input: LoginInput, r: LoginRequest, inst: AuthInstruments, p: SpanContext,
                             n: nat, base: seq<Attr>, x: Instrument)
    requires LoginReached(ValidateLogin(r), input)
    ensures LoginSamplesOf(input, inst, LoginValidate(input, r, inst, p, n, base), LoginQueries(input), x)
  {
    if HasCredentials(r) {
      var t := LoginLookup(input, r, inst, ChildContext(p, n), n + 1, base);
      LoginLookupSamples(input, r, inst, ChildContext(p, n), n + 1, base, x);
      assert [] + t.observations == t.observations;
    }
  }

  lemma LoginParseSamples(input: LoginInput, inst: AuthInstruments, p: SpanContext, n: nat, base: seq<Attr>,
                          x: Instrument)
    requires input.dbReady
    ensures LoginSamplesOf(input, inst, LoginParse(input, inst, p, n, base), LoginQueries(input), x)
  {
    if input.decoded.Ok? {
      var t := LoginValidate(input, input.decoded.value, inst, ChildContext(p, n), n + 1, base);
      LoginValidateSamples(input, input.decoded.value, inst, ChildContext(p, n), n + 1, base, x);
      assert [] + t.observations == t.observations;
    }
  }

  /** loginUser's spans form one trace: the root continues the upstream
      trace context and every other span descends from it; every span is
      ended exactly once.  With no database it starts no span, records no
      metric and logs nothing. */
  lemma LoginTrace(input: LoginInput, inst: AuthInstruments, req: HttpRequest, issued: nat)
    ensures var eff := LoginEffects(input, inst, req, issued);
      if input.dbReady then TraceTree(Upstream(req), issued, LoginSpan, eff.spans)
      else eff.spans == [] && eff.observations == [] && eff.logs == []
  {
    if input.dbReady {
      var root := ChildContext(Upstream(req), issued);
      var base := BaseAttrs("login", req.verb, root);
      var t := LoginParse(input, inst, root, issued + 1, base);
      LoginParseSpans(input, inst, root, issued + 1, base);
      RootedTree(Upstream(req), issued, LoginSpan, t.rootCalls, t.children);
    }
  }

  /** The reply of loginUser is the reference decision; its root span ends
      Ok exactly when the login succeeds, and marked as failed otherwise. */
  lemma LoginOutcome(input: LoginInput, inst: AuthInstruments, req: HttpRequest, issued: nat)
    ensures var eff := LoginEffects(input, inst, req, issued);
      && eff.reply == LoginReply(input)
      && (input.dbReady ==>
            && (StatusOf(eff.spans[0].calls).code == Code.Ok <==> LoginAccepted(input))
            && (!LoginAccepted(input) ==> Marked(eff.spans[0].calls)))
  {
    if input.dbReady {
      var root := ChildContext(Upstream(req), issued);
      var base := BaseAttrs("login", req.verb, root);
      var t := LoginParse(input, inst, root, issued + 1, base);
      LoginParseOutcome(input, inst, root, issued + 1, base);
      LoginParseSpans(input, inst, root, issued + 1, base);
      EndOnce(t.rootCalls);
    }
  }

  /** loginUser records one request count and one attempt, one query count
      and one query duration when it reaches the database, and one
      authDuration sample when it succeeds (each on a non-nil instrument;
      instruments that are the same collect the sum). */
  lemma LoginMetrics(input: LoginInput, inst: AuthInstruments, req: HttpRequest, issued: nat, x: Instrument)
    ensures var eff := LoginEffects(input, inst, req, issued);
      Samples(eff.observations, x)
      == (if input.dbReady then Is(inst.requests, x) + Is(inst.attempts, x) else 0)
         + (if LoginQueries(input) == 1 then Is(inst.queryCount, x) + Is(inst.queryDuration, x) else 0)
         + (if LoginAccepted(input) then Is(inst.authDuration, x) else 0)
  {
    if input.dbReady {
      var root := ChildContext(Upstream(req), issued);
      var base := BaseAttrs("login", req.verb, root);
      var t := LoginParse(input, inst, root, issued + 1, base);
      LoginParseSamples(input, inst, root, issued + 1, base, x);
      SamplesOfStart(inst, base, x);
      SamplesAppend(StartObservations(inst, base), t.observations, x);
    }
  }

  /** The reply for the outcomes, as the handler decides it. */
  lemma LoginReplyCases(input: LoginInput)
    ensures LoginReply(input).status == 200 <==> LoginAccepted(input)
    ensures LoginAccepted(input) ==>
      LoginReply(input).body == AuthBody(LoginSuccessful, input.token.value, input.lookup.user)
    ensures LoginReply(input).status == 400 <==>
      input.dbReady && (input.decoded.Err? || !HasCredentials(input.decoded.value))
    ensures LoginReply(input).status == 401 <==>
      LoginQueries(input) == 1 && (input.lookup.Missing? || (input.lookup.Found? && !input.passwordOk))
    ensures LoginReply(input).status in {200, 400, 401, 500}
  {
  }

  /** An unknown email and a wrong password get the same reply, so the
      reply does not tell which accounts exist. */
  lemma LoginHidesUnknownUsers(input: LoginInput, u: User)
    requires input.lookup.Missing?
    ensures LoginReply(input) == LoginReply(input.(lookup := Found(u), passwordOk := false))
  {
  }

  /** With the file's own helpers every login of a stored user with both
      fields succeeds, with the dummy token. */
  lemma StubbedLoginAcceptsStoredUsers(input: LoginInput, r: LoginRequest, u: User)
    requires input.dbReady && input.decoded == Result.Ok(r) && HasCredentials(r) && input.lookup == Found(u)
    ensures var stubbed := input.(passwordOk := StubPasswordCheck, token := StubToken);
      LoginReply(stubbed) == LoggedIn("dummy-jwt", u)
  {
  }


  // The child spans of loginUser's failure paths.

  /** A login that passes parsing and validation: its spans are the root,
      the two passed steps and then the lookup step's spans, and its reply
      and its log entries after the start line are the lookup step's. */
  lemma LoginThroughLookup(input: LoginInput, inst: AuthInstruments, req: HttpRequest, issued: nat)
    requires input.dbReady && input.decoded.Ok? && HasCredentials(input.decoded.value)
    ensures var root := ChildContext(Upstream(req), issued);
      var parse := ChildContext(root, issued + 1);
      var validate := ChildContext(parse, issued + 2);
      var t := LoginLookup(input, input.decoded.value, inst, validate, issued + 3, BaseAttrs("login", req.verb, root));
      var eff := LoginEffects(input, inst, req, issued);
      && eff.reply == t.reply
      && eff.spans == [SpanRecord(LoginSpan, root, Upstream(req), t.rootCalls + [SpanCall.End]),
                       PassedStep(LoginParseSpan, parse, root, ParsedOk),
                       PassedStep(LoginValidateSpan, validate, parse, ValidatedOk)] + t.children
      && eff.logs == [StartLog(LoginStarted, req)] + t.logs
  {
    var r := input.decoded.value;
    var root := ChildContext(Upstream(req), issued);
    var base := BaseAttrs("login", req.verb, root);
    var parse := ChildContext(root, issued + 1);
    var validate := ChildContext(parse, issued + 2);
    var t := LoginLookup(input, r, inst, validate, issued + 3, base);
    assert LoginFrom(LookupUser(r), input, inst, validate, issued + 3, base) == t;
    assert LoginValidate(input, r, inst, parse, issued + 2, base)
        == Then(PassedStep(LoginValidateSpan, validate, parse, ValidatedOk), [], t);
    assert LoginParse(input, inst, root, issued + 1, base)
        == Then(PassedStep(LoginParseSpan, parse, root, ParsedOk), [],
                LoginValidate(input, r, inst, parse, issued + 2, base));
  }

  /** A root span whose only call before End records `e` ends with that
      error and no status. */
  lemma RecordedOnly(e: string)
    ensures StatusOf([SpanCall.RecordError(e), SpanCall.End]) == Status(Code.Unset, "")
    ensures ErrorsOf([SpanCall.RecordError(e), SpanCall.End]) == [e]
  {
    // unfolds StatusOf and ErrorsOf of the one-call root log
    assert [SpanCall.RecordError(e)][..0] == [];
    EndOnce([SpanCall.RecordError(e)]);
    assert [SpanCall.RecordError(e)] + [SpanCall.End] == [SpanCall.RecordError(e), SpanCall.End];
  }

  /** A span whose only call before End sets an Error status ends with
      that status and no error. */
  lemma ErrorStatusOnly(description: string)
    ensures StatusOf([ErrorStatus(description), SpanCall.End]) == Status(Code.Error, description)
    ensures ErrorsOf([ErrorStatus(description), SpanCall.End]) == []
  {
    // unfolds StatusOf and ErrorsOf of the one-call log
    assert [ErrorStatus(description)][..0] == [];
    EndOnce([ErrorStatus(description)]);
    assert [ErrorStatus(description)] + [SpanCall.End] == [ErrorStatus(description), SpanCall.End];
  }

  /** A lookup that finds no row still fails its span, as any other lookup
      error does: the lookup span records "record not found" and ends with
      the Error status "Database lookup failed".  The reply is 401, the last
      log entry is at Info level, and the root span records the error but
      gets no status. */
  lemma LoginNotFoundMarksDbSpan(input: LoginInput, inst: AuthInstruments, req: HttpRequest, issued: nat)
    requires input.dbReady && input.decoded.Ok? && HasCredentials(input.decoded.value) && input.lookup.Missing?
    ensures var eff := LoginEffects(input, inst, req, issued);
      && |eff.spans| == 4
      && eff.spans[3].name == LoginLookupSpan
      && StatusOf(eff.spans[3].calls) == Status(Code.Error, LookupFailedStatus)
      && ErrorsOf(eff.spans[3].calls) == [RecordNotFoundText]
      && eff.reply == InvalidCredentials && eff.reply.status == 401
      && eff.logs[|eff.logs| - 1].level == InfoLevel
      && StatusOf(eff.spans[0].calls).code == Code.Unset
      && ErrorsOf(eff.spans[0].calls) == [RecordNotFoundText]
  {
    var r := input.decoded.value;
    var root := ChildContext(Upstream(req), issued);
    var base := BaseAttrs("login", req.verb, root);
    var validate := ChildContext(ChildContext(root, issued + 1), issued + 2);
    var failed := FailedStep(LoginLookupSpan, ChildContext(validate, issued + 3), validate, Some(RecordNotFoundText),
                             LookupFailedStatus);
    LoginThroughLookup(input, inst, req, issued);
    assert LoginLookup(input, r, inst, validate, issued + 3, base)
        == Tail(InvalidCredentials, [SpanCall.RecordError(RecordNotFoundText)], [failed],
                QueryObservations(inst, LoginQueryAttrs(base), input.dbDuration), [UserNotFoundLog(r, input.dbDuration)]);
    FailedStepFacts(LoginLookupSpan, ChildContext(validate, issued + 3), validate, Some(RecordNotFoundText),
                    LookupFailedStatus);
    RecordedOnly(RecordNotFoundText);
  }

  /** Any other lookup error fails the lookup span with the same status and
      that error, answers 500 with its text, is logged at Error level, and is
      recorded on the root span, which gets no status. */
  lemma LoginLookupErrorMarksDbSpan(input: LoginInput, inst: AuthInstruments, req: HttpRequest, issued: nat)
    requires input.dbReady && input.decoded.Ok? && HasCredentials(input.decoded.value)
    requires input.lookup.LookupFailed?
    ensures var eff := LoginEffects(input, inst, req, issued);
      && |eff.spans| == 4
      && eff.spans[3].name == LoginLookupSpan
      && StatusOf(eff.spans[3].calls) == Status(Code.Error, LookupFailedStatus)
      && ErrorsOf(eff.spans[3].calls) == [input.lookup.err]
      && eff.reply == DatabaseError(input.lookup.err) && eff.reply.status == 500
      && eff.logs[|eff.logs| - 1].level == ErrorLevel
      && StatusOf(eff.spans[0].calls).code == Code.Unset
      && ErrorsOf(eff.spans[0].calls) == [input.lookup.err]
  {
    var r, e := input.decoded.value, input.lookup.err;
    var root := ChildContext(Upstream(req), issued);
    var base := BaseAttrs("login", req.verb, root);
    var validate := ChildContext(ChildContext(root, issued + 1), issued + 2);
    var failed := FailedStep(LoginLookupSpan, ChildContext(validate, issued + 3), validate, Some(e), LookupFailedStatus);
    LoginThroughLookup(input, inst, req, issued);
    assert LoginLookup(input, r, inst, validate, issued + 3, base)
        == Tail(DatabaseError(e), [SpanCall.RecordError(e)], [failed],
                QueryObservations(inst, LoginQueryAttrs(base), input.dbDuration), [LoginDbErrorLog(r, e, input.dbDuration)]);
    FailedStepFacts(LoginLookupSpan, ChildContext(validate, issued + 3), validate, Some(e), LookupFailedStatus);
    RecordedOnly(e);
  }

  /** A login whose body decodes: its spans are the root, the passed parse
      span and then the validation step's spans, and its reply and its log
      entries after the start line are the validation step's. */
  lemma LoginThroughValidate(input: LoginInput, inst: AuthInstruments, req: HttpRequest, issued: nat)
    requires input.dbReady && input.decoded.Ok?
    ensures var root := ChildContext(Upstream(req), issued);
      var parse := ChildContext(root, issued + 1);
      var t := LoginValidate(input, input.decoded.value, inst, parse, issued + 2, BaseAttrs("login", req.verb, root));
      var eff := LoginEffects(input, inst, req, issued);
      && eff.reply == t.reply
      && eff.spans == [SpanRecord(LoginSpan, root, Upstream(req), t.rootCalls + [SpanCall.End]),
                       PassedStep(LoginParseSpan, parse, root, ParsedOk)] + t.children
      && eff.logs == [StartLog(LoginStarted, req)] + t.logs
  {
    var r := input.decoded.value;
    var root := ChildContext(Upstream(req), issued);
    var base := BaseAttrs("login", req.verb, root);
    var parse := ChildContext(root, issued + 1);
    var t := LoginValidate(input, r, inst, parse, issued + 2, base);
    assert LoginFrom(ValidateLogin(r), input, inst, parse, issued + 2, base) == t;
    assert LoginParse(input, inst, root, issued + 1, base)
        == Then(PassedStep(LoginParseSpan, parse, root, ParsedOk), [], t);
  }

  /** Missing fields fail the validation span with "Missing required
      fields" and no recorded error, give the root span the same Error
      status, answer 400 and are logged at Error level; no lookup starts. */
  lemma LoginMissingFieldsMarksValidateSpan(input: LoginInput, inst: AuthInstruments, req: HttpRequest, issued: nat)
    requires input.dbReady && input.decoded.Ok? && !HasCredentials(input.decoded.value)
    ensures var eff := LoginEffects(input, inst, req, issued);
      && |eff.spans| == 3
      && eff.spans[2].name == LoginValidateSpan
      && StatusOf(eff.spans[2].calls) == Status(Code.Error, MissingFields)
      && ErrorsOf(eff.spans[2].calls) == []
      && eff.reply == LoginFieldsRequired && eff.reply.status == 400
      && eff.logs[|eff.logs| - 1].level == ErrorLevel
      && StatusOf(eff.spans[0].calls) == Status(Code.Error, MissingFields)
      && ErrorsOf(eff.spans[0].calls) == []
  {
    var r := input.decoded.value;
    var root := ChildContext(Upstream(req), issued);
    var parse := ChildContext(root, issued + 1);
    var validate := ChildContext(parse, issued + 2);
    LoginThroughValidate(input, inst, req, issued);
    var failed := FailedStep(LoginValidateSpan, validate, parse, None, MissingFields);
    assert LoginValidate(input, r, inst, parse, issued + 2, BaseAttrs("login", req.verb, root))
        == Tail(LoginFieldsRequired, [ErrorStatus(MissingFields)], [failed], [], [LoginMissingFieldsLog(r)]);
    var eff := LoginEffects(input, inst, req, issued);
    assert eff.spans[2] == failed && eff.spans[0].calls == [ErrorStatus(MissingFields), SpanCall.End];
    assert eff.logs[|eff.logs| - 1] == LoginMissingFieldsLog(r);
    FailedStepFacts(LoginValidateSpan, validate, parse, None, MissingFields);
    ErrorStatusOnly(MissingFields);
  }

  // ------------------------------------------------------------------
  // Registration

  /** The reply of registerUser, decided directly from the outcomes. */
  function RegisterReply(input: RegisterInput): Reply
  {
    if !input.dbReady then DbUnavailable
    else if input.decoded.Err? then InvalidPayload(input.decoded.error)
    else
      var r := input.decoded.value;
      if MissingField(r) then RegisterFieldsRequired
      else match input.emailCheck
        case Found(_) => EmailInUse
        case LookupFailed(e) => DatabaseError(e)
        case Missing =>
          (match input.usernameCheck
           case Found(_) => UsernameTaken
           case LookupFailed(e) => DatabaseError(e)
           case Missing =>
             if input.hashed.Err? then HashError(input.hashed.error)
             else if input.created.Err? then CreateError(input.created.error)
             else Registered(User(input.created.value, r.username, r.email)))
  }

  /** Whether the request is well-formed and reaches the existence checks. */
  predicate RegisterChecked(input: RegisterInput)
  {
    input.dbReady && input.decoded.Ok? && !MissingField(input.decoded.value)
  }

  /** Whether the email or the username is already taken. */
  predicate RegisterConflict(input: RegisterInput)
  {
    && RegisterChecked(input)
    && (input.emailCheck.Found? || (input.emailCheck.Missing? && input.usernameCheck.Found?))
  }

  /** Whether the registration goes through every step. */
  predicate RegisterAccepted(input: RegisterInput)
  {
    && RegisterChecked(input) && input.emailCheck.Missing? && input.usernameCheck.Missing?
    && input.hashed.Ok? && input.created.Ok?
  }

  /** How many database calls the registration makes. */
  function RegisterQueries(input: RegisterInput): nat
  {
    if !RegisterChecked(input) then 0
    else if !input.emailCheck.Missing? then 1
    else if !input.usernameCheck.Missing? || input.hashed.Err? then 2
    else 3
  }

  /** The outcomes under which registerUser reaches `phase`. */
  predicate RegisterReached(phase: RegisterPhase, input: RegisterInput)
  {
    input.dbReady &&
    match phase
    case ParseRegistration => true
    case ValidateRegistration(r) => input.decoded == Result.Ok(r)
    case CheckEmail(r) => input.decoded == Result.Ok(r) && !MissingField(r)
    case CheckUsername(r) => input.decoded == Result.Ok(r) && !MissingField(r) && input.emailCheck.Missing?
    case HashPassword(r) =>
      input.decoded == Result.Ok(r) && !MissingField(r) && input.emailCheck.Missing? && input.usernameCheck.Missing?
    case CreateUser(r) =>
      && input.decoded == Result.Ok(r) && !MissingField(r) && input.emailCheck.Missing?
      && input.usernameCheck.Missing? && input.hashed.Ok?
  }

  lemma RegisterCreateSpans(input: RegisterInput, r: RegisterRequest, inst: AuthInstruments, p: SpanContext,
                            n: nat, base: seq<Attr>)
    requires p.IsValid()
    ensures var t := RegisterCreate(input, r, inst, p, n, base); SpansUnder(p, n, t.children) && NoEnd(t.rootCalls)
  {
    if input.created.Err? {
      FailedLeaf(p, n, CreateSpan, Some(input.created.error), CreateFailed);
    } else {
      PassedThen(p, n, CreateSpan, CreatedOk, p, []);
    }
  }

  lemma RegisterHashSpans(input: RegisterInput, r: RegisterRequest, inst: AuthInstruments, p: SpanContext,
                          n: nat, base: seq<Attr>)
    requires p.IsValid()
    ensures var t := RegisterHash(input, r, inst, p, n, base); SpansUnder(p, n, t.children) && NoEnd(t.rootCalls)
  {
    var sc := ChildContext(p, n);
    if input.hashed.Err? {
      FailedLeaf(p, n, HashSpan, Some(input.hashed.error), HashFailed);
    } else {
      RegisterCreateSpans(input, r, inst, sc, n + 1, base);
      PassedThen(p, n, HashSpan, HashedOk, sc, RegisterCreate(input, r, inst, sc, n + 1, base).children);
    }
  }

  lemma RegisterCheckUsernameSpans(input: RegisterInput, r: RegisterRequest, inst: AuthInstruments,
                                   p: SpanContext, n: nat, base: seq<Attr>)
    requires p.IsValid()
    ensures var t := RegisterCheckUsername(input, r, inst, p, n, base);
      SpansUnder(p, n, t.children) && NoEnd(t.rootCalls)
  {
    match input.usernameCheck
    case Found(_) =>
      FailedLeaf(p, n, UsernameCheckSpan, None, UsernameExists);
    case LookupFailed(e) =>
      FailedLeaf(p, n, UsernameCheckSpan, Some(e), DatabaseErrorStatus);
    case Missing =>
      RegisterHashSpans(input, r, inst, p, n + 1, base);
      PassedThen(p, n, UsernameCheckSpan, UsernameAvailable, p, RegisterHash(input, r, inst, p, n + 1, base).children);
  }

  lemma RegisterCheckEmailSpans(input: RegisterInput, r: RegisterRequest, inst: AuthInstruments,
                                p: SpanContext, n: nat, base: seq<Attr>)
    requires p.IsValid()
    ensures var t := RegisterCheckEmail(input, r, inst, p, n, base);
      SpansUnder(p, n, t.children) && NoEnd(t.rootCalls)
  {
    match input.emailCheck
    case Found(_) =>
      FailedLeaf(p, n, EmailCheckSpan, None, EmailExists);
    case LookupFailed(e) =>
      FailedLeaf(p, n, EmailCheckSpan, Some(e), DatabaseErrorStatus);
    case Missing =>
      RegisterCheckUsernameSpans(input, r, inst, p, n + 1, base);
      PassedThen(p, n, EmailCheckSpan, EmailAvailable, p,
                 RegisterCheckUsername(input, r, inst, p, n + 1, base).children);
  }

  lemma RegisterValidateSpans(input: RegisterInput, r: RegisterRequest, inst: AuthInstruments, p: SpanContext,
                              n: nat, base: seq<Attr>)
    requires p.IsValid()
    ensures var t := RegisterValidate(input, r, inst, p, n, base); SpansUnder(p, n, t.children) && NoEnd(t.rootCalls)
  {
    var sc := ChildContext(p, n);
    if MissingField(r) {
      FailedLeaf(p, n, RegisterValidateSpan, None, MissingFields);
    } else {
      RegisterCheckEmailSpans(input, r, inst, sc, n + 1, base);
      PassedThen(p, n, RegisterValidateSpan, ValidatedOk, sc,
                 RegisterCheckEmail(input, r, inst, sc, n + 1, base).children);
    }
  }

  lemma RegisterParseSpans(input: RegisterInput, inst: AuthInstruments, p: SpanContext, n: nat, base: seq<Attr>)
    requires p.IsValid()
    ensures var t := RegisterParse(input, inst, p, n, base); SpansUnder(p, n, t.children) && NoEnd(t.rootCalls)
  {
    var sc := ChildContext(p, n);
    if input.decoded.Err? {
      FailedLeaf(p, n, RegisterParseSpan, Some(input.decoded.error), InvalidJson);
    } else {
      RegisterValidateSpans(input, input.decoded.value, inst, sc, n + 1, base);
      PassedThen(p, n, RegisterParseSpan, ParsedOk, sc,
                 RegisterValidate(input, input.decoded.value, inst, sc, n + 1, base).children);
    }
  }

  /** The reply and the root span's calls of the registration steps from a
      phase on: the reference reply; an Ok status exactly on success; no
      call at all exactly on a conflict; an error status or a recorded error
      on every other failure. */
  predicate RegisterOutcomeOf(input: RegisterInput, t: Tail)
  {
    && t.reply == RegisterReply(input)
    && (StatusOf(t.rootCalls).code == Code.Ok <==> RegisterAccepted(input))
    && (t.rootCalls == [] <==> RegisterConflict(input))
    && (!RegisterAccepted(input) && !RegisterConflict(input) ==> Marked(t.rootCalls))
  }

  lemma RegisterCreateOutcome(input: RegisterInput, r: RegisterRequest, inst: AuthInstruments, p: SpanContext,
                              n: nat, base: seq<Attr>)
    requires RegisterReached(CreateUser(r), input)
    ensures RegisterOutcomeOf(input, RegisterCreate(input, r, inst, p, n, base))
  {
    if input.created.Err? {
      // unfolds StatusOf and ErrorsOf of the one-call root log
      assert [SpanCall.RecordError(input.created.error)][..0] == [];
    }
  }

  lemma RegisterHashOutcome(input: RegisterInput, r: RegisterRequest, inst: AuthInstruments, p: SpanContext,
                            n: nat, base: seq<Attr>)
    requires RegisterReached(HashPassword(r), input)
    ensures RegisterOutcomeOf(input, RegisterHash(input, r, inst, p, n, base))
  {
    if input.hashed.Err? {
      // unfolds StatusOf and ErrorsOf of the one-call root log
      assert [SpanCall.RecordError(input.hashed.error)][..0] == [];
    } else {
      RegisterCreateOutcome(input, r, inst, ChildContext(p, n), n + 1, base);
    }
  }

  lemma RegisterCheckUsernameOutcome(input: RegisterInput, r: RegisterRequest, inst: AuthInstruments,
                                     p: SpanContext, n: nat, base: seq<Attr>)
    requires RegisterReached(CheckUsername(r), input)
    ensures RegisterOutcomeOf(input, RegisterCheckUsername(input, r, inst, p, n, base))
  {
    match input.usernameCheck
    case Found(_) =>
    case LookupFailed(e) =>
      // unfolds StatusOf and ErrorsOf of the one-call root log
      assert [SpanCall.RecordError(e)][..0] == [];
    case Missing =>
      RegisterHashOutcome(input, r, inst, p, n + 1, base);
  }

  lemma RegisterCheckEmailOutcome(input: RegisterInput, r: RegisterRequest, inst: AuthInstruments,
                                  p: SpanContext, n: nat, base: seq<Attr>)
    requires RegisterReached(CheckEmail(r), input)
    ensures RegisterOutcomeOf(input, RegisterCheckEmail(input, r, inst, p, n, base))
  {
    match input.emailCheck
    case Found(_) =>
    case LookupFailed(e) =>
      // unfolds StatusOf and ErrorsOf of the one-call root log
      assert [SpanCall.RecordError(e)][..0] == [];
    case Missing =>
      RegisterCheckUsernameOutcome(input, r, inst, p, n + 1, base);
  }

  lemma RegisterValidateOutcome(input: RegisterInput, r: RegisterRequest, inst: AuthInstruments, p: SpanContext,
                                n: nat, base: seq<Attr>)
    requires RegisterReached(ValidateRegistration(r), input)
    ensures RegisterOutcomeOf(input, RegisterValidate(input, r, inst, p, n, base))
  {
    if !MissingField(r) {
      RegisterCheckEmailOutcome(input, r, inst, ChildContext(p, n), n + 1, base);
    }
  }

  lemma RegisterParseOutcome(input: RegisterInput, inst: AuthInstruments, p: SpanContext, n: nat, base: seq<Attr>)
    requires input.dbReady
    ensures RegisterOutcomeOf(input, RegisterParse(input, inst, p, n, base))
  {
    if input.decoded.Err? {
      // unfolds StatusOf and ErrorsOf of the one-call root log
      assert [SpanCall.RecordError(input.decoded.error)][..0] == [];
    } else {
      RegisterValidateOutcome(input, input.decoded.value, inst, ChildContext(p, n), n + 1, base);
    }
  }

  /** The recordings on `x` of the registration steps from a phase on, of
      which `done` database calls were made before the phase. */
  predicate RegisterSamplesOf(input: RegisterInput, inst: AuthInstruments, t: Tail, done: nat, x: Instrument)
    requires done <= RegisterQueries(input)
  {
    Samples(t.observations, x)
    == (RegisterQueries(input) - done) * (Is(inst.queryCount, x) + Is(inst.queryDuration, x))
       + (if RegisterAccepted(input) then Is(inst.authDuration, x) else 0)
  }

  lemma RegisterCreateSamples(input: RegisterInput, r: RegisterRequest, inst: AuthInstruments, p: SpanContext,
                              n: nat, base: seq<Attr>, x: Instrument)
    requires RegisterReached(CreateUser(r), input)
    ensures RegisterQueries(input) == 3
    ensures RegisterSamplesOf(input, inst, RegisterCreate(input, r, inst, p, n, base), 2, x)
  {
    var obs := QueryObservations(inst, InsertAttrs(base), input.createDuration);
    SamplesOfQuery(inst, InsertAttrs(base), input.createDuration, x);
    if input.created.Ok? {
      var attrs := SuccessAttrs(base, input.created.value);
      SamplesWhenPresent(inst.authDuration, input.authElapsed, attrs, x);
      SamplesAppend(obs, WhenPresent(inst.authDuration, input.authElapsed, attrs), x);
    }
  }

  lemma RegisterHashSamples(input: RegisterInput, r: RegisterRequest, inst: AuthInstruments, p: SpanContext,
                            n: nat, base: seq<Attr>, x: Instrument)
    requires RegisterReached(HashPassword(r), input)
    ensures RegisterQueries(input) >= 2
    ensures RegisterSamplesOf(input, inst, RegisterHash(input, r, inst, p, n, base), 2, x)
  {
    if input.hashed.Ok? {
      var t := RegisterCreate(input, r, inst, ChildContext(p, n), n + 1, base);
      RegisterCreateSamples(input, r, inst, ChildContext(p, n), n + 1, base, x);
      assert [] + t.observations == t.observations;
    }
  }

  lemma RegisterCheckUsernameSamples(input: RegisterInput, r: RegisterRequest, inst: AuthInstruments,
                                     p: SpanContext, n: nat, base: seq<Attr>, x: Instrument)
    requires RegisterReached(CheckUsername(r), input)
    ensures RegisterQueries(input) >= 2
    ensures RegisterSamplesOf(input, inst, RegisterCheckUsername(input, r, inst, p, n, base), 1, x)
  {
    var obs := QueryObservations(inst, CheckAttrs(base, "username"), input.usernameDuration);
    SamplesOfQuery(inst, CheckAttrs(base, "username"), input.usernameDuration, x);
    if input.usernameCheck.Missing? {
      var t := RegisterHash(input, r, inst, p, n + 1, base);
      RegisterHashSamples(input, r, inst, p, n + 1, base, x);
      SamplesAppend(obs, t.observations, x);
    }
  }

  lemma RegisterCheckEmailSamples(input: RegisterInput, r: RegisterRequest, inst: AuthInstruments,
                                  p: SpanContext, n: nat, base: seq<Attr>, x: Instrument)
    requires RegisterReached(CheckEmail(r), input)
    ensures RegisterQueries(input) >= 1
    ensures RegisterSamplesOf(input, inst, RegisterCheckEmail(input, r, inst, p, n, base), 0, x)
  {
    var obs := QueryObservations(inst, CheckAttrs(base, "email"), input.emailDuration);
    SamplesOfQuery(inst, CheckAttrs(base, "email"), input.emailDuration, x);
    if input.emailCheck.Missing? {
      var t := RegisterCheckUsername(input, r, inst, p, n + 1, base);
      RegisterCheckUsernameSamples(input, r, inst, p, n + 1, base, x);
      SamplesAppend(obs, t.observations, x);
    }
  }

  lemma RegisterValidateSamples(input: RegisterInput, r: RegisterRequest, inst: AuthInstruments, p: SpanContext,
                                n: nat, base: seq<Attr>, x: Instrument)
    requires RegisterReached(ValidateRegistration(r), input)
    ensures RegisterSamplesOf(input, inst, RegisterValidate(input, r, inst, p, n, base), 0, x)
  {
    if !MissingField(r) {
      var t := RegisterCheckEmail(input, r, inst, ChildContext(p, n), n + 1, base);
      RegisterCheckEmailSamples(input, r, inst, ChildContext(p, n), n + 1, base, x);
      assert [] + t.observations == t.observations;
    }
  }

  lemma RegisterParseSamples(input: RegisterInput, inst: AuthInstruments, p: SpanContext, n: nat,
                             base: seq<Attr>, x: Instrument)
    requires input.dbReady
    ensures RegisterSamplesOf(input, inst, RegisterParse(input, inst, p, n, base), 0, x)
  {
    if input.decoded.Ok? {
      var t := RegisterValidate(input, input.decoded.value, inst, ChildContext(p, n), n + 1, base);
      RegisterValidateSamples(input, input.decoded.value, inst, ChildContext(p, n), n + 1, base, x);
      assert [] + t.observations == t.observations;
    }
  }

  /** registerUser's spans form one trace rooted at its root span, each
      ended exactly once.  With no database it starts no span, records no
      metric, logs nothing and prints only that the database is missing. */
  lemma RegisterTrace(input: RegisterInput, inst: AuthInstruments, req: HttpRequest, issued: nat)
    ensures var eff := RegisterEffects(input, inst, req, issued);
      if input.dbReady then TraceTree(Upstream(req), issued, RegisterSpan, eff.spans) && eff.console == []
      else eff.spans == [] && eff.observations == [] && eff.logs == [] && eff.console == [DbNotInitialized]
  {
    if input.dbReady {
      var root := ChildContext(Upstream(req), issued);
      var base := BaseAttrs("register", req.verb, root);
      var t := RegisterParse(input, inst, root, issued + 1, base);
      RegisterParseSpans(input, inst, root, issued + 1, base);
      RootedTree(Upstream(req), issued, RegisterSpan, t.rootCalls, t.children);
    }
  }

  /** The reply of registerUser is the reference decision; its root span
      ends Ok exactly on success, is left without status or error exactly
      on a conflict, and is marked as failed on every other failure. */
  lemma RegisterOutcome(input: RegisterInput, inst: AuthInstruments, req: HttpRequest, issued: nat)
    ensures var eff := RegisterEffects(input, inst, req, issued);
      && eff.reply == RegisterReply(input)
      && (input.dbReady ==>
            var root := eff.spans[0].calls;
            && (StatusOf(root).code == Code.Ok <==> RegisterAccepted(input))
            && (root == [SpanCall.End] <==> RegisterConflict(input))
            && (!RegisterAccepted(input) && !RegisterConflict(input) ==> Marked(root)))
  {
    if input.dbReady {
      var root := ChildContext(Upstream(req), issued);
      var base := BaseAttrs("register", req.verb, root);
      var t := RegisterParse(input, inst, root, issued + 1, base);
      RegisterParseOutcome(input, inst, root, issued + 1, base);
      RegisterParseSpans(input, inst, root, issued + 1, base);
      EndOnce(t.rootCalls);
      assert t.rootCalls + [SpanCall.End] == [SpanCall.End] ==> t.rootCalls == [];
    }
  }

  /** registerUser records one request count and one attempt, one query
      count and one query duration per database call it makes, and one
      authDuration sample when it succeeds. */
  lemma RegisterMetrics(input: RegisterInput, inst: AuthInstruments, req: HttpRequest, issued: nat, x: Instrument)
    ensures var eff := RegisterEffects(input, inst, req, issued);
      Samples(eff.observations, x)
      == (if input.dbReady then Is(inst.requests, x) + Is(inst.attempts, x) else 0)
         + RegisterQueries(input) * (Is(inst.queryCount, x) + Is(inst.queryDuration, x))
         + (if RegisterAccepted(input) then Is(inst.authDuration, x) else 0)
  {
    if input.dbReady {
      var root := ChildContext(Upstream(req), issued);
      var base := BaseAttrs("register", req.verb, root);
      var t := RegisterParse(input, inst, root, issued + 1, base);
      RegisterParseSamples(input, inst, root, issued + 1, base, x);
      SamplesOfStart(inst, base, x);
      SamplesAppend(StartObservations(inst, base), t.observations, x);
    }
  }

  /** The reply for the outcomes, as the handler decides it. */
  lemma RegisterReplyCases(input: RegisterInput)
    ensures RegisterReply(input).status == 201 <==> RegisterAccepted(input)
    ensures RegisterAccepted(input) ==>
      RegisterReply(input).body
      == AuthBody(RegistrationSuccessful, "",
                  User(input.created.value, input.decoded.value.username, input.decoded.value.email))
    ensures RegisterReply(input).status == 409 <==> RegisterConflict(input)
    ensures RegisterReply(input).status == 400 <==>
      input.dbReady && (input.decoded.Err? || MissingField(input.decoded.value))
    ensures RegisterReply(input).status in {201, 400, 409, 500}
  {
  }

  /** With the file's own hashPassword, hashing never fails: the request
      fails with 500 exactly when there is no database or a database call
      fails. */
  lemma StubbedRegistrationFailsOnlyInTheDatabase(input: RegisterInput)
    requires input.hashed == StubHash
    ensures RegisterReply(input).status == 500 <==>
      || !input.dbReady
      || (&& RegisterChecked(input)
          && (|| input.emailCheck.LookupFailed?
              || (input.emailCheck.Missing? && input.usernameCheck.LookupFailed?)
              || (input.emailCheck.Missing? && input.usernameCheck.Missing? && input.created.Err?)))
  {
  }

  // The child spans of registerUser's conflicts.

  /** A registration that passes parsing and validation: its spans are the
      root, the two passed steps and then the email check's spans, and its
      reply and its log entries after the start line are the check's. */
  lemma RegisterThroughEmailCheck(input: RegisterInput, inst: AuthInstruments, req: HttpRequest, issued: nat)
    requires input.dbReady && input.decoded.Ok? && !MissingField(input.decoded.value)
    ensures var root := ChildContext(Upstream(req), issued);
      var parse := ChildContext(root, issued + 1);
      var validate := ChildContext(parse, issued + 2);
      var t := RegisterCheckEmail(input, input.decoded.value, inst, validate, issued + 3,
                                  BaseAttrs("register", req.verb, root));
      var eff := RegisterEffects(input, inst, req, issued);
      && eff.reply == t.reply
      && eff.spans == [SpanRecord(RegisterSpan, root, Upstream(req), t.rootCalls + [SpanCall.End]),
                       PassedStep(RegisterParseSpan, parse, root, ParsedOk),
                       PassedStep(RegisterValidateSpan, validate, parse, ValidatedOk)] + t.children
      && eff.logs == [StartLog(RegisterStarted, req)] + t.logs
  {
    var r := input.decoded.value;
    var root := ChildContext(Upstream(req), issued);
    var base := BaseAttrs("register", req.verb, root);
    var parse := ChildContext(root, issued + 1);
    var validate := ChildContext(parse, issued + 2);
    var t := RegisterCheckEmail(input, r, inst, validate, issued + 3, base);
    assert RegisterFrom(CheckEmail(r), input, inst, validate, issued + 3, base) == t;
    assert RegisterValidate(input, r, inst, parse, issued + 2, base)
        == Then(PassedStep(RegisterValidateSpan, validate, parse, ValidatedOk), [], t);
    assert RegisterParse(input, inst, root, issued + 1, base)
        == Then(PassedStep(RegisterParseSpan, parse, root, ParsedOk), [],
                RegisterValidate(input, r, inst, parse, issued + 2, base));
  }

  /** A taken email fails the email check span with "Email already exists"
      and no recorded error, answers 409 and is logged at Info level, while
      the root span gets no call but its End. */
  lemma RegisterEmailTakenMarksCheckSpan(input: RegisterInput, inst: AuthInstruments, req: HttpRequest, issued: nat)
    requires input.dbReady && input.decoded.Ok? && !MissingField(input.decoded.value) && input.emailCheck.Found?
    ensures var eff := RegisterEffects(input, inst, req, issued);
      && |eff.spans| == 4
      && eff.spans[3].name == EmailCheckSpan
      && StatusOf(eff.spans[3].calls) == Status(Code.Error, EmailExists)
      && ErrorsOf(eff.spans[3].calls) == []
      && eff.reply == EmailInUse && eff.reply.status == 409
      && eff.logs[|eff.logs| - 1].level == InfoLevel
      && eff.spans[0].calls == [SpanCall.End]
  {
    var r := input.decoded.value;
    var root := ChildContext(Upstream(req), issued);
    var base := BaseAttrs("register", req.verb, root);
    var validate := ChildContext(ChildContext(root, issued + 1), issued + 2);
    RegisterThroughEmailCheck(input, inst, req, issued);
    var failed := FailedStep(EmailCheckSpan, ChildContext(validate, issued + 3), validate, None, EmailExists);
    assert RegisterCheckEmail(input, r, inst, validate, issued + 3, base)
        == Tail(EmailInUse, [], [failed], QueryObservations(inst, CheckAttrs(base, "email"), input.emailDuration),
                [EmailExistsLog(r, input.emailDuration)]);
    var eff := RegisterEffects(input, inst, req, issued);
    assert eff.spans[3] == failed && eff.spans[0].calls == [SpanCall.End];
    assert eff.logs[|eff.logs| - 1] == EmailExistsLog(r, input.emailDuration);
    FailedStepFacts(EmailCheckSpan, ChildContext(validate, issued + 3), validate, None, EmailExists);
  }

  /** A registration whose email is available: its spans are the root, the
      passed parse, validation and email check spans and then the username
      check's spans, and its reply and its log entries after the start line
      are the username check's. */
  lemma RegisterThroughUsernameCheck(input: RegisterInput, inst: AuthInstruments, req: HttpRequest, issued: nat)
    requires input.dbReady && input.decoded.Ok? && !MissingField(input.decoded.value) && input.emailCheck.Missing?
    ensures var root := ChildContext(Upstream(req), issued);
      var parse := ChildContext(root, issued + 1);
      var validate := ChildContext(parse, issued + 2);
      var t := RegisterCheckUsername(input, input.decoded.value, inst, validate, issued + 4,
                                     BaseAttrs("register", req.verb, root));
      var eff := RegisterEffects(input, inst, req, issued);
      && eff.reply == t.reply
      && eff.spans == [SpanRecord(RegisterSpan, root, Upstream(req), t.rootCalls + [SpanCall.End]),
                       PassedStep(RegisterParseSpan, parse, root, ParsedOk),
                       PassedStep(RegisterValidateSpan, validate, parse, ValidatedOk),
                       PassedStep(EmailCheckSpan, ChildContext(validate, issued + 3), validate, EmailAvailable)]
                      + t.children
      && eff.logs == [StartLog(RegisterStarted, req)] + t.logs
  {
    var r := input.decoded.value;
    var root := ChildContext(Upstream(req), issued);
    var base := BaseAttrs("register", req.verb, root);
    var validate := ChildContext(ChildContext(root, issued + 1), issued + 2);
    RegisterThroughEmailCheck(input, inst, req, issued);
    var t := RegisterCheckUsername(input, r, inst, validate, issued + 4, base);
    assert RegisterFrom(CheckUsername(r), input, inst, validate, issued + 4, base) == t;
    var obs := QueryObservations(inst, CheckAttrs(base, "email"), input.emailDuration);
    assert RegisterCheckEmail(input, r, inst, validate, issued + 3, base)
        == Then(PassedStep(EmailCheckSpan, ChildContext(validate, issued + 3), validate, EmailAvailable), obs, t);
  }

  /** A taken username, after an available email, fails the username check
      span with "Username already exists" and no recorded error, answers 409
      and is logged at Info level, while the root span gets no call but its
      End; the email check before it passed. */
  lemma RegisterUsernameTakenMarksCheckSpan(input: RegisterInput, inst: AuthInstruments, req: HttpRequest,
                                            issued: nat)
    requires input.dbReady && input.decoded.Ok? && !MissingField(input.decoded.value)
    requires input.emailCheck.Missing? && input.usernameCheck.Found?
    ensures var eff := RegisterEffects(input, inst, req, issued);
      && |eff.spans| == 5
      && eff.spans[3].name == EmailCheckSpan && StatusOf(eff.spans[3].calls) == Status(Code.Ok, EmailAvailable)
      && eff.spans[4].name == UsernameCheckSpan
      && StatusOf(eff.spans[4].calls) == Status(Code.Error, UsernameExists)
      && ErrorsOf(eff.spans[4].calls) == []
      && eff.reply == UsernameTaken && eff.reply.status == 409
      && eff.logs[|eff.logs| - 1].level == InfoLevel
      && eff.spans[0].calls == [SpanCall.End]
  {
    var r := input.decoded.value;
    var root := ChildContext(Upstream(req), issued);
    var base := BaseAttrs("register", req.verb, root);
    var validate := ChildContext(ChildContext(root, issued + 1), issued + 2);
    RegisterThroughUsernameCheck(input, inst, req, issued);
    var failed := FailedStep(UsernameCheckSpan, ChildContext(validate, issued + 4), validate, None, UsernameExists);
    assert RegisterCheckUsername(input, r, inst, validate, issued + 4, base)
        == Tail(UsernameTaken, [], [failed], QueryObservations(inst, CheckAttrs(base, "username"), input.usernameDuration),
                [UsernameTakenLog(r, input.usernameDuration)]);
    var eff := RegisterEffects(input, inst, req, issued);
    assert eff.spans[3] == PassedStep(EmailCheckSpan, ChildContext(validate, issued + 3), validate, EmailAvailable);
    assert eff.spans[4] == failed && eff.spans[0].calls == [SpanCall.End];
    assert eff.logs[|eff.logs| - 1] == UsernameTakenLog(r, input.usernameDuration);
    PassedStepFacts(EmailCheckSpan, ChildContext(validate, issued + 3), validate, EmailAvailable);
    FailedStepFacts(UsernameCheckSpan, ChildContext(validate, issued + 4), validate, None, UsernameExists);
  }
}

/** What the market-data and watchlist handlers promise: the request
    metric recorded once per answered request, errors marked on the right
    span, the active-symbol filter and the coin projection, and the
    watchlist type dispatch. */
module StockFuncsProps {
  import opened Wrappers
  import opened Telemetry
  import opened StockFuncs

  // ------------------------------------------------------------------
  // Span trees

  /** Spans started one after another under `p` once the tracer had
      issued `n` spans, each ended exactly once. */
  predicate ChildrenUnder(kids: seq<SpanRecord>, p: SpanContext, n: nat)
  {
    forall i :: 0 <= i < |kids| ==>
      kids[i].parent == p && kids[i].context == ChildContext(p, n + i) && Closed(kids[i].calls)
  }

  /** The spans of one request: a root under `parent` and the other spans
      under the root, started in this order once the tracer had issued
      `issued` spans, each ended exactly once. */
  predicate HandlerTree(spans: seq<SpanRecord>, parent: SpanContext, issued: nat)
  {
    && |spans| >= 1
    && spans[0].parent == parent
    && spans[0].context == ChildContext(parent, issued)
    && Closed(spans[0].calls)
    && ChildrenUnder(spans[1..], spans[0].context, issued + 1)
  }

  /** Builds a handler tree from its root and one or two children. */
  lemma TreeOf(root: SpanRecord, first: SpanRecord, more: seq<SpanRecord>, parent: SpanContext, issued: nat)
    requires root.parent == parent && root.context == ChildContext(parent, issued) && Closed(root.calls)
    requires first.parent == root.context && first.context == ChildContext(root.context, issued + 1) && Closed(first.calls)
    requires |more| <= 1
    requires |more| == 1 ==> more[0].parent == root.context && more[0].context == ChildContext(root.context, issued + 2) && Closed(more[0].calls)
    ensures HandlerTree([root, first] + more, parent, issued)
  {
    var spans := [root, first] + more;
    assert spans[1..] == [first] + more;
  }

  /** All spans of a handler tree belong to one trace: the caller's when
      it is valid, and every span identity is valid and distinct. */
  lemma HandlerTreeTrace(spans: seq<SpanRecord>, parent: SpanContext, issued: nat)
    requires HandlerTree(spans, parent, issued)
    ensures forall i :: 0 <= i < |spans| ==> spans[i].context.IsValid()
    ensures forall i :: 0 <= i < |spans| ==> spans[i].context.traceId == spans[0].context.traceId
    ensures parent.IsValid() ==> spans[0].context.traceId == parent.traceId
    ensures forall i, j :: 0 <= i < j < |spans| ==> spans[i].context.spanId != spans[j].context.spanId
  {
  }

  lemma ClosedAfter(events: seq<SpanCall>)
    requires NoEnd(events)
    ensures Closed(events + [SpanCall.End])
  {
    EndOnce(events);
  }

  // ------------------------------------------------------------------
  // Recorded helper calls

  lemma {:induction false} StatusesAppend(a: seq<HelperCall>, b: seq<HelperCall>)
    ensures RecordedStatuses(a + b) == RecordedStatuses(a) + RecordedStatuses(b)
    ensures RecordedErrors(a + b) == RecordedErrors(a) + RecordedErrors(b)
  {
    if a == [] {
      assert a + b == b;
    } else {
      assert (a + b)[0] == a[0];
      assert (a + b)[1..] == a[1..] + b;
      StatusesAppend(a[1..], b);
    }
  }

  lemma StatusesOfOne(c: HelperCall)
    ensures RecordedStatuses([c]) == if c.RequestRecorded? then [c.status] else []
    ensures RecordedErrors([c]) == if c.ErrorRecorded? then [c.operation] else []
  {
    assert [c][1..] == [];
  }

  lemma StatusesOfTwo(c: HelperCall, d: HelperCall)
    ensures RecordedStatuses([c, d]) == RecordedStatuses([c]) + RecordedStatuses([d])
    ensures RecordedErrors([c, d]) == RecordedErrors([c]) + RecordedErrors([d])
  {
    assert [c, d] == [c] + [d];
    StatusesAppend([c], [d]);
  }

  // ------------------------------------------------------------------
  // The upstream-API handlers

  /** Every request that is answered or fails records its endpoint exactly
      once: with 200 exactly when the body was written, with 500
      otherwise; only a panic records nothing.  recordError is called once
      exactly on the failing paths. */
  lemma ApiRequestRecordedOnce(api: Api, stage: Stage, encodeErr: Option<string>, elapsed: nat)
    ensures var calls := ApiHelperCalls(api, stage, encodeErr, elapsed);
      var response := ApiResponse(stage, encodeErr);
      && RecordedStatuses(calls) == (if stage.Crashed? then [] else [if response.Written? then 200 else 500])
      && |RecordedErrors(calls)| == (if stage.Crashed? || response.Written? then 0 else 1)
      && (forall i :: 0 <= i < |calls| && calls[i].RequestRecorded? ==>
            calls[i].endpoint == api.endpoint && calls[i].elapsed == elapsed)
  {
    var calls := ApiHelperCalls(api, stage, encodeErr, elapsed);
    if |calls| == 2 {
      StatusesOfTwo(calls[0], calls[1]);
      StatusesOfOne(calls[0]);
      StatusesOfOne(calls[1]);
    } else if |calls| == 1 {
      StatusesOfOne(calls[0]);
    }
  }

  /** One more call on a span: a status set replaces the status, a
      recorded error is appended to the errors. */
  lemma CallsSnoc(calls: seq<SpanCall>, c: SpanCall)
    ensures StatusOf(calls + [c]) == if c.SetStatus? then Status(c.code, c.description) else StatusOf(calls)
    ensures ErrorsOf(calls + [c]) == ErrorsOf(calls) + (if c.RecordError? then [c.err] else [])
  {
    assert (calls + [c])[..|calls|] == calls;
  }

  /** What the API span shows: the fetch-failure status exactly when the
      fetch failed, and the fetch or decode error as its one recorded
      error.  A failed fetch answers 500 with the error's text. */
  lemma ApiSpanMarksFailures(api: Api, stage: Stage, encodeErr: Option<string>, parent: SpanContext, issued: nat)
    ensures var s := ApiSpans(api, stage, encodeErr, parent, issued)[1];
      && s.name == api.apiSpan
      && StatusOf(s.calls) == (if stage.FetchFailed? then Status(Code.Error, api.fetchFailure) else Status(Unset, ""))
      && ErrorsOf(s.calls) == (if stage.FetchFailed? || stage.DecodeFailed? then [stage.err] else [])
    ensures stage.FetchFailed? ==> ApiResponse(stage, encodeErr) == HttpError(500, stage.err)
  {
    var s := ApiSpans(api, stage, encodeErr, parent, issued)[1];
    var first := [SpanCall.AddEvent(MakingRequest)];
    var events := first + ApiFailureCalls(api, stage);
    assert s.calls == events + [SpanCall.End];
    assert NoEnd(events);
    EndOnce(events);
    CallsSnoc([], SpanCall.AddEvent(MakingRequest));
    assert [] + first == first;
    if stage.FetchFailed? {
      var marked := SpanCall.SetStatus(Code.Error, api.fetchFailure);
      CallsSnoc(first, marked);
      CallsSnoc(first + [marked], SpanCall.RecordError(stage.err));
      assert events == first + [marked] + [SpanCall.RecordError(stage.err)];
    } else if stage.DecodeFailed? {
      CallsSnoc(first, SpanCall.RecordError(stage.err));
      assert events == first + [SpanCall.RecordError(stage.err)];
    } else {
      assert events == first;
    }
  }

  /** Each span of an upstream-API handler is ended exactly once. */
  lemma ApiCallsClosed(api: Api, stage: Stage, encodeErr: Option<string>)
    ensures Closed(RootEvents(stage, encodeErr) + [SpanCall.End])
    ensures Closed([SpanCall.AddEvent(MakingRequest)] + ApiFailureCalls(api, stage) + [SpanCall.End])
    ensures Closed(ProcessEvents(stage) + [SpanCall.End])
  {
    ClosedAfter(RootEvents(stage, encodeErr));
    ClosedAfter([SpanCall.AddEvent(MakingRequest)] + ApiFailureCalls(api, stage));
    ClosedAfter(ProcessEvents(stage));
  }

  /** The spans of an upstream-API handler form a closed tree under the
      request's span: two spans, or three when getAllStockSymbols reached
      its CSV processing. */
  lemma ApiSpansTree(api: Api, stage: Stage, encodeErr: Option<string>, parent: SpanContext, issued: nat)
    ensures var spans := ApiSpans(api, stage, encodeErr, parent, issued);
      && HandlerTree(spans, parent, issued)
      && |spans| == (if HasProcessSpan(api, stage) then 3 else 2)
      && spans[0].name == api.operation
  {
    var root := ChildContext(parent, issued);
    var apiEvents := [SpanCall.AddEvent(MakingRequest)] + ApiFailureCalls(api, stage);
    ApiCallsClosed(api, stage, encodeErr);
    var more := if HasProcessSpan(api, stage) then
        [SpanRecord(api.processSpan.value, ChildContext(root, issued + 2), root, ProcessEvents(stage) + [SpanCall.End])]
      else [];
    TreeOf(SpanRecord(api.operation, root, parent, RootEvents(stage, encodeErr) + [SpanCall.End]),
           SpanRecord(api.apiSpan, ChildContext(root, issued + 1), root, apiEvents + [SpanCall.End]),
           more, parent, issued);
  }

  // getAllStockSymbols

  /** Appending records appends their active symbols: the reference column
      is a filter over the records, in order. */
  lemma {:induction false} ActiveColumnAppend(a: seq<CsvRead>, b: seq<CsvRead>)
    requires AllRegular(a) && AllRegular(b)
    ensures AllRegular(a + b)
    ensures ActiveColumn(a + b) == ActiveColumn(a) + ActiveColumn(b)
  {
    assert forall i :: 0 <= i < |a + b| ==> (a + b)[i] == if i < |a| then a[i] else b[i - |a|];
    if b == [] {
      assert a + b == a;
    } else {
      var init := b[..|b| - 1];
      assert (a + b)[..|a + b| - 1] == a + init;
      assert (a + b)[|a + b| - 1] == b[|b| - 1];
      assert forall i :: 0 <= i < |init| ==> init[i] == b[i];
      ActiveColumnAppend(a, init);
    }
  }

  /** A single record contributes its column 0 exactly when its trimmed
      column 6 is "Active". */
  lemma ActiveColumnOfOne(fields: seq<string>)
    requires |fields| >= 7
    ensures AllRegular([Row(fields)])
    ensures ActiveColumn([Row(fields)]) == if TrimSpace(fields[6]) == "Active" then [fields[0]] else []
  {
    assert [Row(fields)][..0] == [];
  }

  /** A status column of "Active" padded with white space counts as
      active. */
  lemma PaddedStatusIsActive(fields: seq<string>, before: string, after: string)
    requires |fields| >= 7 && fields[6] == before + "Active" + after
    requires forall k :: 0 <= k < |before| ==> IsSpace(before[k])
    requires forall k :: 0 <= k < |after| ==> IsSpace(after[k])
    ensures IsActive(fields)
  {
    TrimSpaceOfPadded(before, "Active", after);
  }

  /** When every record after the header is regular and encoding succeeds,
      getAllStockSymbols writes the reference column of those records and
      records 200. */
  lemma StockListingWritesActiveColumn(records: seq<CsvRead>, encodeErr: Option<string>, elapsed: nat)
    requires |records| >= 1 && AllRegular(records[1..]) && encodeErr.None?
    ensures ApiResponse(StockListingStage(Result.Ok(records)), encodeErr) == Written(Symbols(ActiveColumn(records[1..])))
    ensures RecordedStatuses(ApiHelperCalls(StockListing, StockListingStage(Result.Ok(records)), encodeErr, elapsed)) == [200]
  {
    ActiveSymbolsOfRegular(records[1..]);
    ApiRequestRecordedOnce(StockListing, StockListingStage(Result.Ok(records)), encodeErr, elapsed);
  }

  /** A read error after the header, before any short record, answers 500
      with the error's text, records 500, marks the CSV span with the
      error and writes no symbol list. */
  lemma StockListingReadError(records: seq<CsvRead>, i: nat, encodeErr: Option<string>, elapsed: nat, parent: SpanContext, issued: nat)
    requires 1 <= i < |records| && AllRegular(records[1..i]) && records[i].ReadFailed?
    ensures ApiResponse(StockListingStage(Result.Ok(records)), encodeErr) == HttpError(500, records[i].err)
    ensures RecordedStatuses(ApiHelperCalls(StockListing, StockListingStage(Result.Ok(records)), encodeErr, elapsed)) == [500]
    ensures var spans := ApiSpans(StockListing, StockListingStage(Result.Ok(records)), encodeErr, parent, issued);
      |spans| == 3 && ErrorsOf(spans[2].calls) == [records[i].err]
  {
    var rest := records[1..];
    assert rest[..i - 1] == records[1..i];
    assert rest[i - 1] == records[i];
    ActiveSymbolsStopsAt(rest, i - 1);
    var stage := StockListingStage(Result.Ok(records));
    ApiRequestRecordedOnce(StockListing, stage, encodeErr, elapsed);
    var spans := ApiSpans(StockListing, stage, encodeErr, parent, issued);
    assert spans[2].calls == [SpanCall.RecordError(records[i].err)] + [SpanCall.End];
    assert [SpanCall.RecordError(records[i].err)][..0] == [];
  }

  // getAllCryptoSymbols

  /** When every coin has a string symbol and id, the written list holds
      one {Symbol, Id} per coin, in order; otherwise the handler panics
      and records nothing. */
  lemma CryptoListingProjection(coins: seq<Coin>, encodeErr: Option<string>, elapsed: nat)
    ensures var stage := CryptoListingStage(None, Result.Ok(coins));
      if forall i :: 0 <= i < |coins| ==> HasIdentity(coins[i]) then
        && stage.Produced? && stage.body.Coins?
        && |stage.body.coins| == |coins|
        && (forall i :: 0 <= i < |coins| ==> stage.body.coins[i] == CoinData(coins[i]["symbol"].s, coins[i]["id"].s))
        && (encodeErr.None? ==> ApiResponse(stage, encodeErr) == Written(stage.body))
      else
        && ApiResponse(stage, encodeErr) == Panicked
        && ApiHelperCalls(CryptoListing, stage, encodeErr, elapsed) == []
  {
  }

  /** A body that does not decode answers 500 with a fixed message and
      records 500, for every handler that decodes an upstream body. */
  lemma DecodeFailureAnswers500(api: Api, err: string, encodeErr: Option<string>, elapsed: nat)
    ensures ApiResponse(DecodeFailed(err), encodeErr) == HttpError(500, "Failed to decode JSON")
    ensures RecordedStatuses(ApiHelperCalls(api, DecodeFailed(err), encodeErr, elapsed)) == [500]
    ensures DocumentStage(None, Err(err)) == DecodeFailed(err)
    ensures CryptoListingStage(None, Err(err)) == DecodeFailed(err)
  {
    ApiRequestRecordedOnce(api, DecodeFailed(err), encodeErr, elapsed);
  }

  // ------------------------------------------------------------------
  // addToWatchlist

  /** The type dispatch: "STOCK" stores a row with an empty crypto id,
      "CRYPTO" stores the supplied crypto id, and any other type stores
      nothing yet still takes the success path, whatever the database
      would have answered. */
  lemma WatchlistDispatch(input: WatchlistInput)
    requires input.decoded.Ok?
    ensures var req := input.decoded.value;
      && (req.kind == "STOCK" && input.createErr.None? ==>
            WatchlistInserted(input) == [WatchlistRow(req.symbol, req.userId, "STOCK", "")])
      && (req.kind == "CRYPTO" && input.createErr.None? ==>
            WatchlistInserted(input) == [WatchlistRow(req.symbol, req.userId, "CRYPTO", req.cryptoId)])
      && (req.kind != "STOCK" && req.kind != "CRYPTO" ==>
            && WatchlistInserted(input) == []
            && WatchlistResponse(input) == (if input.encodeErr.Some? then EncodeFailed else Written(Item(req)))
            && WatchlistCalls(input)[..2] == [DbOperationRecorded("create_watchlist_item", input.dbElapsed), WatchlistItemCounted])
      && (input.createErr.Some? && (req.kind == "STOCK" || req.kind == "CRYPTO") ==>
            && WatchlistInserted(input) == []
            && WatchlistResponse(input) == HttpError(500, "Failed to create watchlist item"))
  {
  }

  /** A body that does not decode answers 400, records 400, stores nothing
      and never starts the database span. */
  lemma WatchlistDecodeFailure(input: WatchlistInput, parent: SpanContext, issued: nat)
    requires input.decoded.Err?
    ensures WatchlistResponse(input) == HttpError(400, "Failed to decode JSON")
    ensures RecordedStatuses(WatchlistCalls(input)) == [400]
    ensures WatchlistInserted(input) == []
    ensures |WatchlistSpans(input, parent, issued)| == 2
    ensures ErrorsOf(WatchlistSpans(input, parent, issued)[1].calls) == [input.decoded.error]
  {
    var calls := WatchlistCalls(input);
    StatusesOfTwo(calls[0], calls[1]);
    StatusesOfOne(calls[0]);
    StatusesOfOne(calls[1]);
    var s := WatchlistSpans(input, parent, issued)[1];
    assert s.calls == [SpanCall.RecordError(input.decoded.error)] + [SpanCall.End];
    assert [SpanCall.RecordError(input.decoded.error)][..0] == [];
  }

  /** addToWatchlist records its endpoint once, with 200 exactly when the
      item was written, except after an encoding failure, where it returns
      without recording the request. */
  lemma WatchlistRequestRecorded(input: WatchlistInput)
    ensures var encodeFailed := input.decoded.Ok? && !CreateFailed(input) && input.encodeErr.Some?;
      var response := WatchlistResponse(input);
      RecordedStatuses(WatchlistCalls(input)) ==
        if encodeFailed then []
        else [if response.Written? then 200 else if input.decoded.Err? then 400 else 500]
  {
    var calls := WatchlistCalls(input);
    if input.decoded.Err? || CreateFailed(input) {
      StatusesOfTwo(calls[0], calls[1]);
      StatusesOfOne(calls[0]);
      StatusesOfOne(calls[1]);
    } else {
      var stored := [DbOperationRecorded(CreateItemOperation, input.dbElapsed), WatchlistItemCounted];
      var tail := calls[2..];
      assert calls == stored + tail;
      StatusesAppend(stored, tail);
      StatusesOfTwo(stored[0], stored[1]);
      StatusesOfOne(stored[0]);
      StatusesOfOne(stored[1]);
      StatusesOfOne(tail[0]);
    }
  }

  /** The spans of addToWatchlist form a closed tree under the request's
      span. */
  lemma WatchlistSpansTree(input: WatchlistInput, parent: SpanContext, issued: nat)
    ensures var spans := WatchlistSpans(input, parent, issued);
      && HandlerTree(spans, parent, issued)
      && |spans| == (if input.decoded.Ok? then 3 else 2)
  {
    var root := ChildContext(parent, issued);
    ClosedAfter(WatchlistRootEvents(input));
    ClosedAfter(ParseEvents(input));
    ClosedAfter(DbEvents(input));
    var more := if input.decoded.Err? then []
      else [SpanRecord(CreateItemOperation, ChildContext(root, issued + 2), root, DbEvents(input) + [SpanCall.End])];
    TreeOf(SpanRecord(WatchlistOperation, root, parent, WatchlistRootEvents(input) + [SpanCall.End]),
           SpanRecord(ParseSpanName, ChildContext(root, issued + 1), root, ParseEvents(input) + [SpanCall.End]),
           more, parent, issued);
  }
}

/** The market-data and watchlist handlers: getAllStockSymbols,
    getStockData, getAllCryptoSymbols, getCryptoData and addToWatchlist.
    The upstream HTTP calls, JSON decoding and encoding, the CSV reader and
    the database insert are outcomes given to the handlers; the helpers that
    start spans and record errors, request metrics and database metrics are
    calls recorded on an `Instrumentation` object. */
module StockFuncs {
  import opened Wrappers
  import opened Telemetry

  // ------------------------------------------------------------------
  // strings.TrimSpace

  /** unicode.IsSpace: the Latin-1 spaces and the other characters with
      the Unicode White_Space property. */
  predicate IsSpace(c: char)
  {
    c == '\t' || c == '\n' || c == '\U{0B}' || c == '\U{0C}' || c == '\r' || c == ' '
    || c == '\U{85}' || c == '\U{A0}' || c == '\U{1680}' || ('\U{2000}' <= c <= '\U{200A}')
    || c == '\U{2028}' || c == '\U{2029}' || c == '\U{202F}' || c == '\U{205F}' || c == '\U{3000}'
  }

  /** The number of white-space characters `s` starts with. */
  function LeadingSpaces(s: string): (n: nat)
    ensures n <= |s|
    ensures forall k :: 0 <= k < n ==> IsSpace(s[k])
    ensures n < |s| ==> !IsSpace(s[n])
  {
    if s == [] || !IsSpace(s[0]) then 0 else 1 + LeadingSpaces(s[1..])
  }

  /** The number of white-space characters `s` ends with. */
  function TrailingSpaces(s: string): (n: nat)
    ensures n <= |s|
    ensures forall k :: |s| - n <= k < |s| ==> IsSpace(s[k])
    ensures n < |s| ==> !IsSpace(s[|s| - n - 1])
  {
    if s == [] || !IsSpace(s[|s| - 1]) then 0 else 1 + TrailingSpaces(s[..|s| - 1])
  }

  /** strings.TrimSpace: `s` without its leading and trailing white space.
      What is cut on either side is white space, and what is kept neither
      starts nor ends with white space. */
  function TrimSpace(s: string): (r: string)
    ensures LeadingSpaces(s) + |r| <= |s|
    ensures r == s[LeadingSpaces(s)..LeadingSpaces(s) + |r|]
    ensures forall k :: LeadingSpaces(s) + |r| <= k < |s| ==> IsSpace(s[k])
    ensures r != [] ==> !IsSpace(r[0]) && !IsSpace(r[|r| - 1])
  {
    var t := s[LeadingSpaces(s)..];
    t[..|t| - TrailingSpaces(t)]
  }

  lemma {:induction false} LeadingSpacesIs(s: string, n: nat)
    requires n <= |s|
    requires forall k :: 0 <= k < n ==> IsSpace(s[k])
    requires n < |s| ==> !IsSpace(s[n])
    ensures LeadingSpaces(s) == n
  {
    if n > 0 {
      assert IsSpace(s[0]);
      LeadingSpacesIs(s[1..], n - 1);
    }
  }

  /** Trimming recovers the middle of a string padded with white space on
      both sides, provided the middle neither starts nor ends with white
      space. */
  lemma TrimSpaceOfPadded(a: string, m: string, b: string)
    requires forall k :: 0 <= k < |a| ==> IsSpace(a[k])
    requires forall k :: 0 <= k < |b| ==> IsSpace(b[k])
    requires m != [] ==> !IsSpace(m[0]) && !IsSpace(m[|m| - 1])
    ensures TrimSpace(a + m + b) == m
  {
    var s := a + m + b;
    var r := TrimSpace(s);
    if m == [] {
      assert s == a + b;
      LeadingSpacesIs(s, |s|);
    } else {
      assert s[|a|] == m[0];
      LeadingSpacesIs(s, |a|);
      assert s[|a| + |m| - 1] == m[|m| - 1];
      assert |r| >= |m|;
      assert r[|r| - 1] == s[|a| + |r| - 1];
      assert |r| <= |m|;
      assert s[|a|..|a| + |m|] == m;
    }
  }

  /** Trimming twice trims nothing more. */
  lemma TrimSpaceIdempotent(s: string)
    ensures TrimSpace(TrimSpace(s)) == TrimSpace(s)
  {
    var r := TrimSpace(s);
    assert [] + r + [] == r;
    TrimSpaceOfPadded([], r, []);
  }

  // ------------------------------------------------------------------
  // The active-symbol filter of getAllStockSymbols

  /** What one reader.Read() call returned before io.EOF: a record, or an
      error such as a parse error or a wrong field count. */
  datatype CsvRead = Row(fields: seq<string>) | ReadFailed(err: string)

  /** The outcome of the read loop: the collected symbols; the first read
      error; or a record too short for `record[6]`, which panics. */
  datatype Listing = Listed(symbols: seq<string>) | ListingFailed(err: string) | ShortRow

  const ActiveStatus := "Active"

  /** A record the loop can inspect: one with a status column. */
  predicate Regular(read: CsvRead)
  {
    read.Row? && |read.fields| >= 7
  }

  predicate IsActive(fields: seq<string>)
    requires |fields| >= 7
  {
    TrimSpace(fields[6]) == ActiveStatus
  }

  /** The symbols `prefix` followed by those of the rest of the loop. */
  function Prepend(prefix: seq<string>, rest: Listing): (l: Listing)
  {
    if rest.Listed? then Listed(prefix + rest.symbols) else rest
  }

  /** The read loop as a recursion over the records after the header. */
  function ActiveSymbols(records: seq<CsvRead>): (l: Listing)
  {
    if records == [] then Listed([])
    else match records[0]
      case ReadFailed(e) => ListingFailed(e)
      case Row(f) =>
        if |f| < 7 then ShortRow
        else Prepend(if IsActive(f) then [f[0]] else [], ActiveSymbols(records[1..]))
  }

  predicate AllRegular(records: seq<CsvRead>)
  {
    forall i :: 0 <= i < |records| ==> Regular(records[i])
  }

  /** Reference definition: column 0 of every active record, in order,
      built from the last record backwards. */
  function ActiveColumn(records: seq<CsvRead>): (symbols: seq<string>)
    requires AllRegular(records)
  {
    if records == [] then []
    else
      var last := records[|records| - 1].fields;
      ActiveColumn(records[..|records| - 1]) + (if IsActive(last) then [last[0]] else [])
  }

  lemma PrependAppend(a: seq<string>, b: seq<string>, l: Listing)
    ensures Prepend(a, Prepend(b, l)) == Prepend(a + b, l)
  {
    if l.Listed? {
      assert a + (b + l.symbols) == a + b + l.symbols;
    }
  }

  lemma {:induction false} ActiveColumnCons(records: seq<CsvRead>)
    requires records != [] && AllRegular(records)
    ensures AllRegular(records[1..])
    ensures ActiveColumn(records) ==
      (if IsActive(records[0].fields) then [records[0].fields[0]] else []) + ActiveColumn(records[1..])
  {
    assert Regular(records[0]);
    var f := records[0].fields;
    var head := if IsActive(f) then [f[0]] else [];
    if |records| == 1 {
      assert records[1..] == [];
      assert records[..0] == [];
    } else {
      var init := records[..|records| - 1];
      var last := records[|records| - 1].fields;
      assert init[0] == records[0];
      assert init[1..] == records[1..][..|records[1..]| - 1];
      assert records[1..][|records[1..]| - 1] == records[|records| - 1];
      ActiveColumnCons(init);
      AppendAssoc(head, ActiveColumn(init[1..]), if IsActive(last) then [last[0]] else []);
    }
  }

  /** When every record is regular the loop lists exactly the reference
      column. */
  lemma {:induction false} ActiveSymbolsOfRegular(records: seq<CsvRead>)
    requires AllRegular(records)
    ensures ActiveSymbols(records) == Listed(ActiveColumn(records))
  {
    if records != [] {
      assert Regular(records[0]);
      ActiveColumnCons(records);
      ActiveSymbolsOfRegular(records[1..]);
    }
  }

  /** Otherwise the first irregular record decides: a read error fails the
      listing with that error, a short record panics. */
  lemma {:induction false} ActiveSymbolsStopsAt(records: seq<CsvRead>, i: nat)
    requires i < |records| && AllRegular(records[..i]) && !Regular(records[i])
    ensures ActiveSymbols(records) == if records[i].ReadFailed? then ListingFailed(records[i].err) else ShortRow
  {
    if i > 0 {
      assert records[..i][0] == records[0];
      assert Regular(records[0]);
      assert records[1..][..i - 1] == records[..i][1..];
      ActiveSymbolsStopsAt(records[1..], i - 1);
    }
  }

  /** The read loop of getAllStockSymbols: each record is inspected in
      turn, the loop stops at the first read error, and column 0 of each
      record whose trimmed column 6 is "Active" is appended. */
  method CollectActiveSymbols(records: seq<CsvRead>) returns (l: Listing)
    ensures l == ActiveSymbols(records)
  {
    var symbols: seq<string> := [];
    var i := 0;
    while i < |records|
      invariant 0 <= i <= |records|
      invariant ActiveSymbols(records) == Prepend(symbols, ActiveSymbols(records[i..]))
    {
      assert records[i..][0] == records[i];
      assert records[i..][1..] == records[i + 1..];
      match records[i]
      case ReadFailed(e) =>
        return ListingFailed(e);
      case Row(record) =>
        if |record| < 7 {
          return ShortRow;
        }
        var found := if TrimSpace(record[6]) == ActiveStatus then [record[0]] else [];
        PrependAppend(symbols, found, ActiveSymbols(records[i + 1..]));
        symbols := symbols + found;
      i := i + 1;
    }
    assert records[i..] == [];
    assert symbols + [] == symbols;
    return Listed(symbols);
  }

  /** The records the loop sees: everything after the header, whose own
      read result is ignored. */
  function DataRecords(records: seq<CsvRead>): (rest: seq<CsvRead>)
    ensures records != [] ==> rest == records[1..]
    ensures records == [] ==> rest == []
  {
    if records == [] then [] else records[1..]
  }

  // ------------------------------------------------------------------
  // The coin projection of getAllCryptoSymbols

  /** A decoded JSON value, as far as a type assertion to string sees it. */
  datatype Json = JString(s: string) | JOther

  /** One element of the decoded []map[string]interface{}. */
  type Coin = map<string, Json>

  datatype CoinData = CoinData(symbol: string, id: string)

  /** `coin["symbol"].(string)` and `coin["id"].(string)` both succeed. */
  predicate HasIdentity(coin: Coin)
  {
    "symbol" in coin && coin["symbol"].JString? && "id" in coin && coin["id"].JString?
  }

  function CoinOf(coin: Coin): (c: CoinData)
    requires HasIdentity(coin)
  {
    CoinData(coin["symbol"].s, coin["id"].s)
  }

  /** The projection, or None when a type assertion panics: it succeeds
      exactly when every coin has a string symbol and id, and then keeps
      one entry per coin, in order. */
  function Project(coins: seq<Coin>): (r: Option<seq<CoinData>>)
    ensures r.Some? <==> forall i :: 0 <= i < |coins| ==> HasIdentity(coins[i])
    ensures r.Some? ==> |r.value| == |coins| && forall i :: 0 <= i < |coins| ==> r.value[i] == CoinOf(coins[i])
  {
    if coins == [] then Some([])
    else if !HasIdentity(coins[0]) then None
    else match Project(coins[1..])
      case None => None
      case Some(rest) => Some([CoinOf(coins[0])] + rest)
  }

  /** The range loop of getAllCryptoSymbols. */
  method ProjectCoins(coins: seq<Coin>) returns (r: Option<seq<CoinData>>)
    ensures r == Project(coins)
  {
    var symbols: seq<CoinData> := [];
    for i := 0 to |coins|
      invariant |symbols| == i
      invariant forall k :: 0 <= k < i ==> HasIdentity(coins[k]) && symbols[k] == CoinOf(coins[k])
    {
      if !HasIdentity(coins[i]) {
        return None;
      }
      symbols := symbols + [CoinOf(coins[i])];
    }
    assert Project(coins).value == symbols;
    return Some(symbols);
  }

  // ------------------------------------------------------------------
  // Recorded helper calls

  /** A call to one of the recording helpers the handlers use:
      recordError, recordApiRequest, recordDBOperation, and the watchlist
      counter's Add.  Elapsed times are clock ticks. */
  datatype HelperCall =
    | ErrorRecorded(operation: string, err: string)
    | RequestRecorded(endpoint: string, elapsed: nat, status: nat)
    | DbOperationRecorded(operation: string, elapsed: nat)
    | WatchlistItemCounted

  /** The recording helpers, as the sequence of calls made on them. */
  class Instrumentation {
    var calls: seq<HelperCall>

    constructor ()
      ensures calls == []
    {
      calls := [];
    }

    method Call(c: HelperCall)
      modifies this
      ensures calls == old(calls) + [c]
    {
      calls := calls + [c];
    }
  }

  /** The statuses passed to recordApiRequest, in order. */
  function RecordedStatuses(calls: seq<HelperCall>): (statuses: seq<nat>)
    ensures |statuses| <= |calls|
  {
    if calls == [] then []
    else (if calls[0].RequestRecorded? then [calls[0].status] else []) + RecordedStatuses(calls[1..])
  }

  /** The operations passed to recordError, in order. */
  function RecordedErrors(calls: seq<HelperCall>): (operations: seq<string>)
    ensures |operations| <= |calls|
  {
    if calls == [] then []
    else (if calls[0].ErrorRecorded? then [calls[0].operation] else []) + RecordedErrors(calls[1..])
  }

  // ------------------------------------------------------------------
  // Responses

  datatype Body =
    | Symbols(symbols: seq<string>)
    | Coins(coins: seq<CoinData>)
    | Document(json: string)
    | Item(item: WatchlistRequest)

  /** What the client receives: an http.Error reply; a JSON body with the
      implicit 200; nothing written because encoding failed after the
      Content-Type header was set; or nothing because the handler panicked. */
  datatype Response =
    | HttpError(status: nat, message: string)
    | Written(body: Body)
    | EncodeFailed
    | Panicked

  const MakingRequest := "making API request"
  const RequestCompleted := "request completed"
  const DecodeFailureMessage := "Failed to decode JSON"

  // ------------------------------------------------------------------
  // The four upstream-API handlers

  /** What distinguishes the handlers that call an upstream API: the
      operation name (used for the root span and for recordError), the API
      span, the status description set when the fetch fails, the endpoint
      passed to recordApiRequest, and the processing span if any. */
  datatype Api = Api(operation: string, apiSpan: string, fetchFailure: string, endpoint: string, processSpan: Option<string>)

  const StockListing := Api("getAllStockSymbols", "alphavantage.listing_status", "failed to fetch stock symbols", "/stocks/symbols", Some("process_csv_response"))
  const StockSeries := Api("getStockData", "alphavantage.time_series", "failed to fetch stock data", "/stocks/data", None)
  const CryptoListing := Api("getAllCryptoSymbols", "coingecko.markets", "failed to fetch crypto symbols", "/crypto/symbols", None)
  const CryptoMarket := Api("getCryptoData", "coingecko.markets", "failed to fetch crypto data", "/crypto/data", None)

  /** How far a handler got before encoding: the fetch failed; the body did
      not decode; the CSV reader failed; a panic; or a body to encode. */
  datatype Stage =
    | FetchFailed(err: string)
    | DecodeFailed(err: string)
    | CsvFailed(err: string)
    | Crashed
    | Produced(body: Body)

  function StockListingStage(fetch: Result<seq<CsvRead>, string>): (st: Stage)
  {
    if fetch.Err? then FetchFailed(fetch.error)
    else match ActiveSymbols(DataRecords(fetch.value))
      case Listed(symbols) => Produced(Symbols(symbols))
      case ListingFailed(e) => CsvFailed(e)
      case ShortRow => Crashed
  }

  /** getStockData and getCryptoData pass the decoded document through. */
  function DocumentStage(fetchErr: Option<string>, decoded: Result<string, string>): (st: Stage)
  {
    if fetchErr.Some? then FetchFailed(fetchErr.value)
    else if decoded.Err? then DecodeFailed(decoded.error)
    else Produced(Document(decoded.value))
  }

  function CryptoListingStage(fetchErr: Option<string>, decoded: Result<seq<Coin>, string>): (st: Stage)
  {
    if fetchErr.Some? then FetchFailed(fetchErr.value)
    else if decoded.Err? then DecodeFailed(decoded.error)
    else match Project(decoded.value)
      case None => Crashed
      case Some(coins) => Produced(Coins(coins))
  }

  /** The API span's calls between its "making API request" event and its
      End. */
  function ApiFailureCalls(api: Api, stage: Stage): (calls: seq<SpanCall>)
  {
    match stage
    case FetchFailed(e) => [SpanCall.SetStatus(Code.Error, api.fetchFailure), SpanCall.RecordError(e)]
    case DecodeFailed(e) => [SpanCall.RecordError(e)]
    case _ => []
  }

  /** The processing span's calls before its End. */
  function ProcessEvents(stage: Stage): (calls: seq<SpanCall>)
  {
    if stage.CsvFailed? then [SpanCall.RecordError(stage.err)] else []
  }

  /** The root span's calls before its End. */
  function RootEvents(stage: Stage, encodeErr: Option<string>): (calls: seq<SpanCall>)
  {
    if !stage.Produced? then []
    else if encodeErr.Some? then [SpanCall.RecordError(encodeErr.value)]
    else [SpanCall.AddEvent(RequestCompleted)]
  }

  /** The helper calls of an upstream-API handler.  `elapsed` is the one
      time.Since(start) each path reads. */
  function ApiHelperCalls(api: Api, stage: Stage, encodeErr: Option<string>, elapsed: nat): (calls: seq<HelperCall>)
  {
    match stage
    case FetchFailed(e) => [ErrorRecorded(api.operation, e), RequestRecorded(api.endpoint, elapsed, 500)]
    case DecodeFailed(e) => [ErrorRecorded(api.operation + "_jsonDecode", e), RequestRecorded(api.endpoint, elapsed, 500)]
    case CsvFailed(e) => [ErrorRecorded(api.operation + "_csvRead", e), RequestRecorded(api.endpoint, elapsed, 500)]
    case Crashed => []
    case Produced(_) =>
      if encodeErr.Some? then [ErrorRecorded(api.operation + "_jsonEncode", encodeErr.value), RequestRecorded(api.endpoint, elapsed, 500)]
      else [RequestRecorded(api.endpoint, elapsed, 200)]
  }

  function ApiResponse(stage: Stage, encodeErr: Option<string>): (response: Response)
  {
    match stage
    case FetchFailed(e) => HttpError(500, e)
    case DecodeFailed(_) => HttpError(500, DecodeFailureMessage)
    case CsvFailed(e) => HttpError(500, e)
    case Crashed => Panicked
    case Produced(body) => if encodeErr.Some? then EncodeFailed else Written(body)
  }

  /** Whether the handler starts a processing span: only after a
      successful fetch, and only getAllStockSymbols has one. */
  predicate HasProcessSpan(api: Api, stage: Stage)
  {
    api.processSpan.Some? && !stage.FetchFailed?
  }

  /** The spans of an upstream-API handler, in the order they start: the
      root span under the request's span, then the API span and the
      processing span under the root. */
  function ApiSpans(api: Api, stage: Stage, encodeErr: Option<string>, parent: SpanContext, issued: nat): (spans: seq<SpanRecord>)
  {
    var root := ChildContext(parent, issued);
    [SpanRecord(api.operation, root, parent, RootEvents(stage, encodeErr) + [SpanCall.End]),
     SpanRecord(api.apiSpan, ChildContext(root, issued + 1), root,
                [SpanCall.AddEvent(MakingRequest)] + ApiFailureCalls(api, stage) + [SpanCall.End])]
    + (if HasProcessSpan(api, stage) then
         [SpanRecord(api.processSpan.value, ChildContext(root, issued + 2), root, ProcessEvents(stage) + [SpanCall.End])]
       else [])
  }

  /** The spans of an upstream-API handler once every one has ended, root
      first, and their records. */
  method ApiSpanList(api: Api, stage: Stage, encodeErr: Option<string>, parent: SpanContext, issued: nat,
                     root: Span, apiSpan: Span, process: Option<Span>)
    returns (spans: seq<Span>)
    requires root.name == api.operation && root.parent == parent && root.context == ChildContext(parent, issued)
    requires root.calls == RootEvents(stage, encodeErr) + [SpanCall.End]
    requires apiSpan.name == api.apiSpan && apiSpan.parent == root.context
    requires apiSpan.context == ChildContext(root.context, issued + 1)
    requires apiSpan.calls == [SpanCall.AddEvent(MakingRequest)] + ApiFailureCalls(api, stage) + [SpanCall.End]
    requires process.Some? <==> HasProcessSpan(api, stage)
    requires process.Some? ==>
      && process.value.name == api.processSpan.value && process.value.parent == root.context
      && process.value.context == ChildContext(root.context, issued + 2)
      && process.value.calls == ProcessEvents(stage) + [SpanCall.End]
    ensures spans == [root, apiSpan] + (if process.Some? then [process.value] else [])
    ensures RecordsOf(spans) == ApiSpans(api, stage, encodeErr, parent, issued)
  {
    RecordsOfCons(apiSpan, []);
    if process.Some? {
      spans := [root, apiSpan, process.value];
      RecordsOfCons(process.value, []);
      RecordsOfCons(apiSpan, [process.value]);
      assert spans == [root] + [apiSpan, process.value];
      RecordsOfCons(root, [apiSpan, process.value]);
    } else {
      spans := [root, apiSpan];
      assert spans == [root] + [apiSpan];
      RecordsOfCons(root, [apiSpan]);
    }
  }

  /** startSpan(r.Context(), operation), then startChildSpan for the API
      span and its "making API request" event. */
  method StartApiSpans(tracer: Tracer, ctx: Context, api: Api) returns (rootCtx: Context, root: Span, apiSpan: Span)
    modifies tracer
    ensures tracer.issued == old(tracer.issued) + 2
    ensures fresh(root) && fresh(apiSpan)
    ensures root.name == api.operation && root.parent == SpanContextFromContext(ctx)
    ensures root.context == ChildContext(root.parent, old(tracer.issued)) && root.calls == []
    ensures apiSpan.name == api.apiSpan && apiSpan.parent == root.context
    ensures apiSpan.context == ChildContext(root.context, old(tracer.issued) + 1)
    ensures apiSpan.calls == [SpanCall.AddEvent(MakingRequest)]
    ensures rootCtx == ContextWithSpan(ctx, root)
  {
    rootCtx, root := tracer.Start(ctx, api.operation);
    SpanOfContextWithSpan(ctx, root);
    var _, s := tracer.Start(rootCtx, api.apiSpan);
    apiSpan := s;
    apiSpan.AddEvent(MakingRequest);
  }

  /** Everything an upstream-API handler does once it knows its stage, up
      to and including the deferred End calls. */
  method ServeStage(rec: Instrumentation, api: Api, root: Span, apiSpan: Span, process: Option<Span>,
                    stage: Stage, encodeErr: Option<string>, elapsed: nat)
    returns (response: Response)
    requires root != apiSpan
    requires process.Some? ==> process.value != root && process.value != apiSpan
    modifies rec, root, apiSpan, if process.Some? then {process.value} else {}
    ensures response == ApiResponse(stage, encodeErr)
    ensures rec.calls == old(rec.calls) + ApiHelperCalls(api, stage, encodeErr, elapsed)
    ensures root.calls == old(root.calls) + RootEvents(stage, encodeErr) + [SpanCall.End]
    ensures apiSpan.calls == old(apiSpan.calls) + ApiFailureCalls(api, stage) + [SpanCall.End]
    ensures process.Some? ==> process.value.calls == old(process.value.calls) + ProcessEvents(stage) + [SpanCall.End]
  {
    match stage {
    case FetchFailed(e) =>
      apiSpan.SetStatus(Code.Error, api.fetchFailure);
      apiSpan.RecordError(e);
      rec.Call(ErrorRecorded(api.operation, e));
      response := HttpError(500, e);
      rec.Call(RequestRecorded(api.endpoint, elapsed, 500));
    case DecodeFailed(e) =>
      apiSpan.RecordError(e);
      rec.Call(ErrorRecorded(api.operation + "_jsonDecode", e));
      response := HttpError(500, DecodeFailureMessage);
      rec.Call(RequestRecorded(api.endpoint, elapsed, 500));
    case CsvFailed(e) =>
      if process.Some? {
        process.value.RecordError(e);
      }
      rec.Call(ErrorRecorded(api.operation + "_csvRead", e));
      response := HttpError(500, e);
      rec.Call(RequestRecorded(api.endpoint, elapsed, 500));
    case Crashed =>
      response := Panicked;
    case Produced(body) =>
      if encodeErr.Some? {
        root.RecordError(encodeErr.value);
        rec.Call(ErrorRecorded(api.operation + "_jsonEncode", encodeErr.value));
        rec.Call(RequestRecorded(api.endpoint, elapsed, 500));
        response := EncodeFailed;
      } else {
        rec.Call(RequestRecorded(api.endpoint, elapsed, 200));
        root.AddEvent(RequestCompleted);
        response := Written(body);
      }
    }
    if process.Some? {
      process.value.End();
    }
    apiSpan.End();
    root.End();
  }

  /** The part of getAllStockSymbols between the fetch and the encoding:
      after a successful fetch, the CSV span and the read loop over the
      records after the header. */
  method ReadListing(tracer: Tracer, rootCtx: Context, fetch: Result<seq<CsvRead>, string>)
    returns (stage: Stage, process: Option<Span>)
    modifies tracer
    ensures stage == StockListingStage(fetch)
    ensures process.Some? <==> fetch.Ok?
    ensures tracer.issued == old(tracer.issued) + (if fetch.Ok? then 1 else 0)
    ensures process.Some? ==>
      && fresh(process.value) && process.value.name == StockListing.processSpan.value
      && process.value.parent == SpanContextFromContext(rootCtx)
      && process.value.context == ChildContext(process.value.parent, old(tracer.issued))
      && process.value.calls == []
  {
    if fetch.Err? {
      return FetchFailed(fetch.error), None;
    }
    var _, csvSpan := tracer.Start(rootCtx, StockListing.processSpan.value);
    var listing := CollectActiveSymbols(DataRecords(fetch.value));
    stage := match listing
      case Listed(symbols) => Produced(Symbols(symbols))
      case ListingFailed(e) => CsvFailed(e)
      case ShortRow => Crashed;
    process := Some(csvSpan);
  }

  /** getAllStockSymbols.  `fetch` is the outcome of http.Get: an error, or
      the results of the reader's successive Read calls up to io.EOF, the
      first of them the header. */
  method GetAllStockSymbols(tracer: Tracer, rec: Instrumentation, ctx: Context,
                            fetch: Result<seq<CsvRead>, string>, encodeErr: Option<string>, elapsed: nat)
    returns (response: Response, spans: seq<Span>)
    modifies tracer, rec
    ensures tracer.issued == old(tracer.issued) + |spans|
    ensures forall i :: 0 <= i < |spans| ==> fresh(spans[i])
    ensures response == ApiResponse(StockListingStage(fetch), encodeErr)
    ensures RecordsOf(spans) == ApiSpans(StockListing, StockListingStage(fetch), encodeErr, SpanContextFromContext(ctx), old(tracer.issued))
    ensures rec.calls == old(rec.calls) + ApiHelperCalls(StockListing, StockListingStage(fetch), encodeErr, elapsed)
  {
    var parent, issued := SpanContextFromContext(ctx), tracer.issued;
    var rootCtx, root, apiSpan := StartApiSpans(tracer, ctx, StockListing);
    SpanOfContextWithSpan(ctx, root);
    response, spans := ServeListing(tracer, rec, rootCtx, root, apiSpan, parent, issued, fetch, encodeErr, elapsed);
  }

  /** getAllStockSymbols once its root and API spans have started. */
  method ServeListing(tracer: Tracer, rec: Instrumentation, rootCtx: Context, root: Span, apiSpan: Span,
                      parent: SpanContext, issued: nat,
                      fetch: Result<seq<CsvRead>, string>, encodeErr: Option<string>, elapsed: nat)
    returns (response: Response, spans: seq<Span>)
    requires root != apiSpan
    requires tracer.issued == issued + 2
    requires SpanContextFromContext(rootCtx) == root.context
    requires root.name == StockListing.operation && root.parent == parent && root.context == ChildContext(parent, issued)
    requires root.calls == []
    requires apiSpan.name == StockListing.apiSpan && apiSpan.parent == root.context
    requires apiSpan.context == ChildContext(root.context, issued + 1)
    requires apiSpan.calls == [SpanCall.AddEvent(MakingRequest)]
    modifies tracer, rec, root, apiSpan
    ensures tracer.issued == issued + |spans|
    ensures |spans| >= 2 && spans[0] == root && spans[1] == apiSpan
    ensures forall i :: 2 <= i < |spans| ==> fresh(spans[i])
    ensures response == ApiResponse(StockListingStage(fetch), encodeErr)
    ensures RecordsOf(spans) == ApiSpans(StockListing, StockListingStage(fetch), encodeErr, parent, issued)
    ensures rec.calls == old(rec.calls) + ApiHelperCalls(StockListing, StockListingStage(fetch), encodeErr, elapsed)
  {
    var stage, process := ReadListing(tracer, rootCtx, fetch);
    response := ServeStage(rec, StockListing, root, apiSpan, process, stage, encodeErr, elapsed);
    spans := ApiSpanList(StockListing, stage, encodeErr, parent, issued, root, apiSpan, process);
  }

  /** getStockData and getCryptoData: fetch, decode into a generic
      document, encode it back. */
  method FetchDocument(tracer: Tracer, rec: Instrumentation, ctx: Context, api: Api,
                       fetchErr: Option<string>, decoded: Result<string, string>, encodeErr: Option<string>, elapsed: nat)
    returns (response: Response, spans: seq<Span>)
    requires api.processSpan.None?
    modifies tracer, rec
    ensures tracer.issued == old(tracer.issued) + |spans|
    ensures forall i :: 0 <= i < |spans| ==> fresh(spans[i])
    ensures response == ApiResponse(DocumentStage(fetchErr, decoded), encodeErr)
    ensures RecordsOf(spans) == ApiSpans(api, DocumentStage(fetchErr, decoded), encodeErr, SpanContextFromContext(ctx), old(tracer.issued))
    ensures rec.calls == old(rec.calls) + ApiHelperCalls(api, DocumentStage(fetchErr, decoded), encodeErr, elapsed)
  {
    var parent, issued := SpanContextFromContext(ctx), tracer.issued;
    var _, root, apiSpan := StartApiSpans(tracer, ctx, api);
    var stage :=
      if fetchErr.Some? then FetchFailed(fetchErr.value)
      else if decoded.Err? then DecodeFailed(decoded.error)
      else Produced(Document(decoded.value));
    response := ServeStage(rec, api, root, apiSpan, None, stage, encodeErr, elapsed);
    spans := ApiSpanList(api, stage, encodeErr, parent, issued, root, apiSpan, None);
  }

  method GetStockData(tracer: Tracer, rec: Instrumentation, ctx: Context,
                      fetchErr: Option<string>, decoded: Result<string, string>, encodeErr: Option<string>, elapsed: nat)
    returns (response: Response, spans: seq<Span>)
    modifies tracer, rec
    ensures tracer.issued == old(tracer.issued) + |spans|
    ensures forall i :: 0 <= i < |spans| ==> fresh(spans[i])
    ensures response == ApiResponse(DocumentStage(fetchErr, decoded), encodeErr)
    ensures RecordsOf(spans) == ApiSpans(StockSeries, DocumentStage(fetchErr, decoded), encodeErr, SpanContextFromContext(ctx), old(tracer.issued))
    ensures rec.calls == old(rec.calls) + ApiHelperCalls(StockSeries, DocumentStage(fetchErr, decoded), encodeErr, elapsed)
  {
    response, spans := FetchDocument(tracer, rec, ctx, StockSeries, fetchErr, decoded, encodeErr, elapsed);
  }

  method GetCryptoData(tracer: Tracer, rec: Instrumentation, ctx: Context,
                       fetchErr: Option<string>, decoded: Result<string, string>, encodeErr: Option<string>, elapsed: nat)
    returns (response: Response, spans: seq<Span>)
    modifies tracer, rec
    ensures tracer.issued == old(tracer.issued) + |spans|
    ensures forall i :: 0 <= i < |spans| ==> fresh(spans[i])
    ensures response == ApiResponse(DocumentStage(fetchErr, decoded), encodeErr)
    ensures RecordsOf(spans) == ApiSpans(CryptoMarket, DocumentStage(fetchErr, decoded), encodeErr, SpanContextFromContext(ctx), old(tracer.issued))
    ensures rec.calls == old(rec.calls) + ApiHelperCalls(CryptoMarket, DocumentStage(fetchErr, decoded), encodeErr, elapsed)
  {
    response, spans := FetchDocument(tracer, rec, ctx, CryptoMarket, fetchErr, decoded, encodeErr, elapsed);
  }

  /** getAllCryptoSymbols. */
  method GetAllCryptoSymbols(tracer: Tracer, rec: Instrumentation, ctx: Context,
                             fetchErr: Option<string>, decoded: Result<seq<Coin>, string>, encodeErr: Option<string>, elapsed: nat)
    returns (response: Response, spans: seq<Span>)
    modifies tracer, rec
    ensures tracer.issued == old(tracer.issued) + |spans|
    ensures forall i :: 0 <= i < |spans| ==> fresh(spans[i])
    ensures response == ApiResponse(CryptoListingStage(fetchErr, decoded), encodeErr)
    ensures RecordsOf(spans) == ApiSpans(CryptoListing, CryptoListingStage(fetchErr, decoded), encodeErr, SpanContextFromContext(ctx), old(tracer.issued))
    ensures rec.calls == old(rec.calls) + ApiHelperCalls(CryptoListing, CryptoListingStage(fetchErr, decoded), encodeErr, elapsed)
  {
    var api := CryptoListing;
    var parent, issued := SpanContextFromContext(ctx), tracer.issued;
    var _, root, apiSpan := StartApiSpans(tracer, ctx, api);
    var stage: Stage;
    if fetchErr.Some? {
      stage := FetchFailed(fetchErr.value);
    } else if decoded.Err? {
      stage := DecodeFailed(decoded.error);
    } else {
      var projected := ProjectCoins(decoded.value);
      stage := if projected.None? then Crashed else Produced(Coins(projected.value));
    }
    response := ServeStage(rec, api, root, apiSpan, None, stage, encodeErr, elapsed);
    spans := ApiSpanList(api, stage, encodeErr, parent, issued, root, apiSpan, None);
  }

  // ------------------------------------------------------------------
  // addToWatchlist

  /** The decoded request body. */
  datatype WatchlistRequest = WatchlistRequest(symbol: string, userId: string, kind: string, cryptoId: string)

  /** The stored columns of a UserSymbols row (database.go) that the
      handler sets. */
  datatype WatchlistRow = WatchlistRow(symbol: string, userId: string, kind: string, cryptoId: string)

  const StockKind := "STOCK"
  const CryptoKind := "CRYPTO"
  const WatchlistOperation := "addToWatchlist"
  const WatchlistEndpoint := "/watchlist/add"
  const ParseSpanName := "parse_request"
  const CreateItemOperation := "create_watchlist_item"
  const CreateFailureMessage := "Failed to create watchlist item"

  /** The row the type dispatch builds, if any. */
  function RowFor(req: WatchlistRequest): (row: Option<WatchlistRow>)
  {
    if req.kind == StockKind then Some(WatchlistRow(req.symbol, req.userId, StockKind, ""))
    else if req.kind == CryptoKind then Some(WatchlistRow(req.symbol, req.userId, CryptoKind, req.cryptoId))
    else None
  }

  /** The outcomes addToWatchlist depends on: the request decode, the
      database insert (consulted only when a row is built), the encode, and
      the two clock readings. */
  datatype WatchlistInput = WatchlistInput(
    decoded: Result<WatchlistRequest, string>,
    createErr: Option<string>,
    encodeErr: Option<string>,
    dbElapsed: nat,
    elapsed: nat)

  /** The insert failed: a row was built and the database refused it. */
  predicate CreateFailed(input: WatchlistInput)
    requires input.decoded.Ok?
  {
    RowFor(input.decoded.value).Some? && input.createErr.Some?
  }

  /** The watchlist table, as its rows. */
  class WatchlistTable {
    var rows: seq<WatchlistRow>

    constructor ()
      ensures rows == []
    {
      rows := [];
    }

    /** DB.Create(&row): `failure` is the database's answer. */
    method Create(row: WatchlistRow, failure: Option<string>) returns (err: Option<string>)
      modifies this
      ensures err == failure
      ensures rows == old(rows) + (if failure.None? then [row] else [])
    {
      if failure.None? {
        rows := rows + [row];
      }
      err := failure;
    }
  }

  /** The rows addToWatchlist inserts. */
  function WatchlistInserted(input: WatchlistInput): (rows: seq<WatchlistRow>)
  {
    if input.decoded.Err? then []
    else match RowFor(input.decoded.value)
      case None => []
      case Some(row) => if input.createErr.Some? then [] else [row]
  }

  function WatchlistResponse(input: WatchlistInput): (response: Response)
  {
    if input.decoded.Err? then HttpError(400, DecodeFailureMessage)
    else if CreateFailed(input) then HttpError(500, CreateFailureMessage)
    else if input.encodeErr.Some? then EncodeFailed
    else Written(Item(input.decoded.value))
  }

  /** The helper calls of addToWatchlist. */
  function WatchlistCalls(input: WatchlistInput): (calls: seq<HelperCall>)
  {
    if input.decoded.Err? then
      [ErrorRecorded(WatchlistOperation + "_decode", input.decoded.error), RequestRecorded(WatchlistEndpoint, input.elapsed, 400)]
    else if CreateFailed(input) then
      [ErrorRecorded(WatchlistOperation + "_dbCreate", input.createErr.value), RequestRecorded(WatchlistEndpoint, input.elapsed, 500)]
    else
      [DbOperationRecorded(CreateItemOperation, input.dbElapsed), WatchlistItemCounted]
      + (if input.encodeErr.Some? then [ErrorRecorded(WatchlistOperation + "_jsonEncode", input.encodeErr.value)]
         else [RequestRecorded(WatchlistEndpoint, input.elapsed, 200)])
  }

  /** The root span's calls before its End. */
  function WatchlistRootEvents(input: WatchlistInput): (calls: seq<SpanCall>)
  {
    if input.decoded.Err? || CreateFailed(input) then []
    else if input.encodeErr.Some? then [SpanCall.RecordError(input.encodeErr.value)]
    else [SpanCall.AddEvent(RequestCompleted)]
  }

  /** The spans of addToWatchlist: the root span, the parse span and,
      once the body decoded, the database span, both under the root. */
  function WatchlistSpans(input: WatchlistInput, parent: SpanContext, issued: nat): (spans: seq<SpanRecord>)
  {
    var root := ChildContext(parent, issued);
    [SpanRecord(WatchlistOperation, root, parent, WatchlistRootEvents(input) + [SpanCall.End]),
     SpanRecord(ParseSpanName, ChildContext(root, issued + 1), root, ParseEvents(input) + [SpanCall.End])]
    + (if input.decoded.Err? then []
       else [SpanRecord(CreateItemOperation, ChildContext(root, issued + 2), root, DbEvents(input) + [SpanCall.End])])
  }

  /** The parse span's calls before its End. */
  function ParseEvents(input: WatchlistInput): (calls: seq<SpanCall>)
  {
    if input.decoded.Err? then [SpanCall.RecordError(input.decoded.error)] else []
  }

  /** The database span's calls before its End. */
  function DbEvents(input: WatchlistInput): (calls: seq<SpanCall>)
  {
    if input.decoded.Ok? && CreateFailed(input) then [SpanCall.RecordError(input.createErr.value)] else []
  }

  /** The part of addToWatchlist after a successful decode: the type
      dispatch, the insert, the database metrics and the encoding, without
      the deferred End calls. */
  method StoreItem(rec: Instrumentation, table: WatchlistTable, root: Span, dbSpan: Span, input: WatchlistInput)
    returns (response: Response)
    requires input.decoded.Ok? && root != dbSpan
    modifies rec, table, root, dbSpan
    ensures response == WatchlistResponse(input)
    ensures rec.calls == old(rec.calls) + WatchlistCalls(input)
    ensures table.rows == old(table.rows) + WatchlistInserted(input)
    ensures root.calls == old(root.calls) + WatchlistRootEvents(input)
    ensures dbSpan.calls == old(dbSpan.calls) + DbEvents(input)
  {
    var data := input.decoded.value;
    var err: Option<string> := None;
    if data.kind == StockKind {
      err := table.Create(WatchlistRow(data.symbol, data.userId, StockKind, ""), input.createErr);
    } else if data.kind == CryptoKind {
      err := table.Create(WatchlistRow(data.symbol, data.userId, CryptoKind, data.cryptoId), input.createErr);
    }
    if err.Some? {
      dbSpan.RecordError(err.value);
      rec.Call(ErrorRecorded(WatchlistOperation + "_dbCreate", err.value));
      response := HttpError(500, CreateFailureMessage);
      rec.Call(RequestRecorded(WatchlistEndpoint, input.elapsed, 500));
    } else {
      rec.Call(DbOperationRecorded(CreateItemOperation, input.dbElapsed));
      rec.Call(WatchlistItemCounted);
      if input.encodeErr.Some? {
        root.RecordError(input.encodeErr.value);
        rec.Call(ErrorRecorded(WatchlistOperation + "_jsonEncode", input.encodeErr.value));
        response := EncodeFailed;
      } else {
        rec.Call(RequestRecorded(WatchlistEndpoint, input.elapsed, 200));
        root.AddEvent(RequestCompleted);
        response := Written(Item(data));
      }
    }
  }

  /** addToWatchlist after its root and parse spans started, up to and
      including the deferred End calls. */
  method ServeWatchlist(tracer: Tracer, rec: Instrumentation, table: WatchlistTable, rootCtx: Context,
                        root: Span, parseSpan: Span, input: WatchlistInput)
    returns (response: Response, dbSpan: Option<Span>)
    requires root != parseSpan
    modifies tracer, rec, table, root, parseSpan
    ensures response == WatchlistResponse(input)
    ensures rec.calls == old(rec.calls) + WatchlistCalls(input)
    ensures table.rows == old(table.rows) + WatchlistInserted(input)
    ensures root.calls == old(root.calls) + WatchlistRootEvents(input) + [SpanCall.End]
    ensures parseSpan.calls == old(parseSpan.calls) + ParseEvents(input) + [SpanCall.End]
    ensures dbSpan.Some? <==> input.decoded.Ok?
    ensures tracer.issued == old(tracer.issued) + (if input.decoded.Ok? then 1 else 0)
    ensures dbSpan.Some? ==>
      && fresh(dbSpan.value) && dbSpan.value.name == CreateItemOperation
      && dbSpan.value.parent == SpanContextFromContext(rootCtx)
      && dbSpan.value.context == ChildContext(dbSpan.value.parent, old(tracer.issued))
      && dbSpan.value.calls == DbEvents(input) + [SpanCall.End]
  {
    if input.decoded.Err? {
      parseSpan.RecordError(input.decoded.error);
      rec.Call(ErrorRecorded(WatchlistOperation + "_decode", input.decoded.error));
      response := HttpError(400, DecodeFailureMessage);
      rec.Call(RequestRecorded(WatchlistEndpoint, input.elapsed, 400));
      dbSpan := None;
    } else {
      var _, s := tracer.Start(rootCtx, CreateItemOperation);
      response := StoreItem(rec, table, root, s, input);
      s.End();
      dbSpan := Some(s);
    }
    parseSpan.End();
    root.End();
  }

  /** addToWatchlist.  The database span is the one instrumentDBCall
      starts; it is taken to be a child of the root span named after the
      operation. */
  method AddToWatchlist(tracer: Tracer, rec: Instrumentation, table: WatchlistTable, ctx: Context, input: WatchlistInput)
    returns (response: Response, spans: seq<Span>)
    modifies tracer, rec, table
    ensures tracer.issued == old(tracer.issued) + |spans|
    ensures forall i :: 0 <= i < |spans| ==> fresh(spans[i])
    ensures response == WatchlistResponse(input)
    ensures RecordsOf(spans) == WatchlistSpans(input, SpanContextFromContext(ctx), old(tracer.issued))
    ensures rec.calls == old(rec.calls) + WatchlistCalls(input)
    ensures table.rows == old(table.rows) + WatchlistInserted(input)
  {
    ghost var expected := WatchlistSpans(input, SpanContextFromContext(ctx), tracer.issued);
    var rootCtx, root := tracer.Start(ctx, WatchlistOperation);
    SpanOfContextWithSpan(ctx, root);
    var _, parseSpan := tracer.Start(rootCtx, ParseSpanName);
    var dbSpan;
    response, dbSpan := ServeWatchlist(tracer, rec, table, rootCtx, root, parseSpan, input);
    assert RecordOf(root) == expected[0];
    assert RecordOf(parseSpan) == expected[1];
    assert RecordsOf([root, parseSpan]) == [RecordOf(root)] + RecordsOf([parseSpan]);
    if dbSpan.Some? {
      spans := [root, parseSpan, dbSpan.value];
      assert RecordOf(dbSpan.value) == expected[2];
      assert RecordsOf(spans) == [RecordOf(root)] + RecordsOf([parseSpan, dbSpan.value]);
      assert RecordsOf([parseSpan, dbSpan.value]) == [RecordOf(parseSpan)] + RecordsOf([dbSpan.value]);
    } else {
      spans := [root, parseSpan];
    }
  }
}

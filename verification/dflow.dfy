/** The Dflow adapter: one `GET /order` endpoint serves both the quote (without a user
    key) and the swap (with one, returning a prebuilt transaction). The quote stores the
    amount and slippage it sent so that the swap can replay the same order. */
module Dflow {
  import opened Wrappers
  import opened Numeric
  import opened Strings
  import Json
  import opened Solana
  import opened Types
  import opened Errors
  import opened Http
  import opened Foreign
  import opened DflowWire
  import opened Adapter

  const DEFAULT_DFLOW_API_URL: string := "https://quote-api.dflow.net"

  /** `orderApi` answers `GET {baseUrl}/order`. */
  datatype DflowProvider = DflowProvider(
    baseUrl: string,
    apiKey: Option<string>,
    maxRouteLength: Option<U32>,
    orderApi: Endpoint<OrderResponse>)

  /** `DflowProvider::new`: the given base URL, else the public default. */
  function New(baseUrl: Option<string>, apiKey: Option<string>, maxRouteLength: Option<U32>,
               orderApi: Endpoint<OrderResponse>): (p: DflowProvider)
    ensures baseUrl.Some? ==> p.baseUrl == baseUrl.value
    ensures baseUrl.None? ==> p.baseUrl == DEFAULT_DFLOW_API_URL
    ensures p.apiKey == apiKey && p.maxRouteLength == maxRouteLength
  {
    DflowProvider(baseUrl.UnwrapOr(DEFAULT_DFLOW_API_URL), apiKey, maxRouteLength, orderApi)
  }

  // ---------------------------------------------------------------------------
  // The order request

  /** The query of an order: mints, amount and slippage, then the user key when given,
      then the route-length cap (with direct routes switched off) when configured. */
  function OrderQuery(maxRouteLength: Option<U32>, show: Pubkey -> string, request: QuoteRequest,
                      defaultSlippageBps: U16, user: Option<Pubkey>): (q: Query)
    ensures |q| == 4 + (if user.Some? then 1 else 0) + (if maxRouteLength.Some? then 2 else 0)
    ensures q[0] == ("inputMint", show(request.inputMint))
    ensures q[1] == ("outputMint", show(request.outputMint))
    ensures q[2] == ("amount", DecimalString(request.amount))
    ensures q[3] == ("slippageBps", DecimalString(ResolveSlippage(request, defaultSlippageBps)))
    ensures user.Some? ==> q[4] == ("userPublicKey", show(user.value))
    ensures maxRouteLength.Some? ==>
              && q[|q| - 2] == ("maxRouteLength", DecimalString(maxRouteLength.value))
              && q[|q| - 1] == ("onlyDirectRoutes", "false")
    ensures "userPublicKey" in Keys(q) <==> user.Some?
    ensures "maxRouteLength" in Keys(q) <==> maxRouteLength.Some?
  {
    var base := [
      ("inputMint", show(request.inputMint)),
      ("outputMint", show(request.outputMint)),
      ("amount", DecimalString(request.amount)),
      ("slippageBps", DecimalString(ResolveSlippage(request, defaultSlippageBps)))];
    var withUser := base + match user
                           case Some(pk) => [("userPublicKey", show(pk))]
                           case None => [];
    withUser + match maxRouteLength
               case Some(maxLegs) => [("maxRouteLength", DecimalString(maxLegs)), ("onlyDirectRoutes", "false")]
               case None => []
  }

  /** What the order endpoint reads from the query: the shown mints, and the amount and
      the resolved slippage as numerals that parse back exactly. */
  lemma OrderQueryReadsBack(maxRouteLength: Option<U32>, show: Pubkey -> string, request: QuoteRequest,
                            defaultSlippageBps: U16, user: Option<Pubkey>)
    ensures var q := OrderQuery(maxRouteLength, show, request, defaultSlippageBps, user);
            && Lookup(q, "inputMint") == Some(show(request.inputMint))
            && Lookup(q, "outputMint") == Some(show(request.outputMint))
            && Lookup(q, "amount").Some? && ParseU64(Lookup(q, "amount").value) == Success(request.amount)
            && Lookup(q, "slippageBps").Some?
            && ParseU64(Lookup(q, "slippageBps").value) == Success(ResolveSlippage(request, defaultSlippageBps))
  {
    var q := OrderQuery(maxRouteLength, show, request, defaultSlippageBps, user);
    var keys := ["inputMint", "outputMint", "amount", "slippageBps"];
    LookupLeading(q, keys);
    assert Lookup(q, keys[2]) == Some(q[2].1) && Lookup(q, keys[3]) == Some(q[3].1);
    DecimalRoundTrip(request.amount);
    DecimalRoundTrip(ResolveSlippage(request, defaultSlippageBps));
  }

  /** The order endpoint finds the user key exactly when one is given. */
  lemma OrderQueryUserKey(maxRouteLength: Option<U32>, show: Pubkey -> string, request: QuoteRequest,
                          defaultSlippageBps: U16, user: Option<Pubkey>)
    ensures var q := OrderQuery(maxRouteLength, show, request, defaultSlippageBps, user);
            && (user.Some? ==> Lookup(q, "userPublicKey") == Some(show(user.value)))
            && (user.None? ==> Lookup(q, "userPublicKey") == None)
  {
  }

  /** A configured route-length cap is found in the query, with direct routes switched off. */
  lemma OrderQueryCapPresent(maxRouteLength: Option<U32>, show: Pubkey -> string, request: QuoteRequest,
                             defaultSlippageBps: U16, user: Option<Pubkey>)
    requires maxRouteLength.Some?
    ensures var q := OrderQuery(maxRouteLength, show, request, defaultSlippageBps, user);
            && Lookup(q, "maxRouteLength").Some?
            && ParseU64(Lookup(q, "maxRouteLength").value) == Success(maxRouteLength.value)
            && Lookup(q, "onlyDirectRoutes") == Some("false")
  {
    var q := OrderQuery(maxRouteLength, show, request, defaultSlippageBps, user);
    var n := |q|;
    assert forall j :: 0 <= j < n - 2 ==> q[j].0 != "maxRouteLength" && q[j].0 != "onlyDirectRoutes";
    LookupFirst(q, n - 2, "maxRouteLength");
    LookupFirst(q, n - 1, "onlyDirectRoutes");
    DecimalRoundTrip(maxRouteLength.value);
  }

  /** Without a cap, neither parameter is sent. */
  lemma OrderQueryCapAbsent(maxRouteLength: Option<U32>, show: Pubkey -> string, request: QuoteRequest,
                            defaultSlippageBps: U16, user: Option<Pubkey>)
    requires maxRouteLength.None?
    ensures var q := OrderQuery(maxRouteLength, show, request, defaultSlippageBps, user);
            Lookup(q, "maxRouteLength") == None && Lookup(q, "onlyDirectRoutes") == None
  {
  }

  /** The order endpoint finds the route-length cap, with direct routes switched off,
      exactly when one is configured. */
  lemma OrderQueryRouteCap(maxRouteLength: Option<U32>, show: Pubkey -> string, request: QuoteRequest,
                           defaultSlippageBps: U16, user: Option<Pubkey>)
    ensures var q := OrderQuery(maxRouteLength, show, request, defaultSlippageBps, user);
            && (maxRouteLength.Some? ==>
                  && Lookup(q, "maxRouteLength").Some?
                  && ParseU64(Lookup(q, "maxRouteLength").value) == Success(maxRouteLength.value)
                  && Lookup(q, "onlyDirectRoutes") == Some("false"))
            && (maxRouteLength.None? ==> Lookup(q, "maxRouteLength") == None && Lookup(q, "onlyDirectRoutes") == None)
  {
    if maxRouteLength.Some? {
      OrderQueryCapPresent(maxRouteLength, show, request, defaultSlippageBps, user);
    } else {
      OrderQueryCapAbsent(maxRouteLength, show, request, defaultSlippageBps, user);
    }
  }

  function OrderHttpRequest(p: DflowProvider, codecs: Codecs, request: QuoteRequest,
                            defaultSlippageBps: U16, user: Option<Pubkey>): Request
  {
    Get(p.baseUrl + "/order",
        OrderQuery(p.maxRouteLength, codecs.showPubkey, request, defaultSlippageBps, user),
        ApiKeyHeaders(p.apiKey))
  }

  /** A non-2xx order reply: a body that says no route exists is `NoRouteFound`,
      anything else an `Api` error carrying status and body. */
  function ClassifyOrderFailure(status: StatusCode, body: string): (e: SwapError)
    ensures e == NoRouteFound <==> Contains(body, "route_not_found") || Contains(body, "No route")
    ensures e != NoRouteFound ==> e == HttpFailure(Provider.Dflow, status, body)
  {
    if Contains(body, "route_not_found") || Contains(body, "No route") then NoRouteFound
    else HttpFailure(Provider.Dflow, status, body)
  }

  /** `fetch_order`: send, classify a non-2xx reply, decode a 2xx one. */
  function FetchOrder(p: DflowProvider, codecs: Codecs, request: QuoteRequest,
                      defaultSlippageBps: U16, user: Option<Pubkey>): (r: Result<OrderResponse, SwapError>)
    ensures var sent := p.orderApi(OrderHttpRequest(p, codecs, request, defaultSlippageBps, user));
            && (r.Success? <==> sent.Success? && sent.value.status.IsSuccess() && sent.value.json.Success?)
            && (r.Success? ==> r.value == sent.value.json.value)
            && (r == Failure(NoRouteFound) <==>
                  sent.Success? && !sent.value.status.IsSuccess()
                  && (Contains(sent.value.text, "route_not_found") || Contains(sent.value.text, "No route")))
    // Every failure: transport is `Network`, a non-2xx reply is classified, and a 2xx
    // body that does not decode is `Serialization`.
    ensures var sent := p.orderApi(OrderHttpRequest(p, codecs, request, defaultSlippageBps, user));
            && (sent.Failure? ==> r == Failure(Network(sent.error)))
            && (sent.Success? && !sent.value.status.IsSuccess() ==>
                  r == Failure(ClassifyOrderFailure(sent.value.status, sent.value.text)))
            && (sent.Success? && sent.value.status.IsSuccess() && sent.value.json.Failure? ==>
                  r == Failure(Serialization(sent.value.json.error)))
    ensures r.Failure? ==> r.error.Network? || r.error.NoRouteFound? || r.error.Api? || r.error.Serialization?
  {
    var reply :- p.orderApi(OrderHttpRequest(p, codecs, request, defaultSlippageBps, user))
                  .MapError((e: string) => Network(e));
    if !reply.status.IsSuccess() then
      Failure(ClassifyOrderFailure(reply.status, reply.text))
    else
      reply.json.MapError((e: string) => Serialization(e))
  }

  // ---------------------------------------------------------------------------
  // Quote

  /** What the quote stores for the swap: mints, amount and the slippage it sent. */
  function ProviderData(show: Pubkey -> string, request: QuoteRequest, defaultSlippageBps: U16): (v: Json.Value)
    ensures Json.AsU64(Json.Get(v, "amount")) == Some(request.amount)
    ensures Json.AsU64(Json.Get(v, "slippageBps")) == Some(ResolveSlippage(request, defaultSlippageBps))
    ensures Json.Get(v, "inputMint") == Json.Str(show(request.inputMint))
    ensures Json.Get(v, "outputMint") == Json.Str(show(request.outputMint))
  {
    Json.Object(map[
      "inputMint" := Json.Str(show(request.inputMint)),
      "outputMint" := Json.Str(show(request.outputMint)),
      "amount" := Json.Int(request.amount),
      "slippageBps" := Json.Int(ResolveSlippage(request, defaultSlippageBps))])
  }

  function Quote(p: DflowProvider, codecs: Codecs, request: QuoteRequest, defaultSlippageBps: U16)
    : (r: Result<QuoteResponse, SwapError>)
    ensures r.Success? ==>
              && r.value.provider == Provider.Dflow
              && r.value.inputMint == request.inputMint
              && r.value.outputMint == request.outputMint
              && r.value.providerData == ProviderData(codecs.showPubkey, request, defaultSlippageBps)
    // Amounts and slippage are the backend's, parsed exactly.
    ensures r.Success? ==>
              var order := FetchOrder(p, codecs, request, defaultSlippageBps, None);
              && order.Success?
              && ParseU64(order.value.inAmount) == Success(r.value.inputAmount)
              && ParseU64(order.value.outAmount) == Success(r.value.outputAmount)
              && r.value.slippageBps == order.value.slippageBps
              && r.value.priceImpactBps == PriceImpact(codecs, order.value.priceImpactPct)
    // An order with two `u64` numerals always yields a quote.
    ensures var order := FetchOrder(p, codecs, request, defaultSlippageBps, None);
            order.Success? && IsU64Literal(order.value.inAmount) && IsU64Literal(order.value.outAmount)
            ==> r.Success?
    ensures var order := FetchOrder(p, codecs, request, defaultSlippageBps, None);
            && (order.Failure? ==> r == Failure(order.error))
            && ((order.Success? && !(IsU64Literal(order.value.inAmount) && IsU64Literal(order.value.outAmount)))
                ==> r.Failure? && r.error.Serialization?)
    // The kinds of error a quote can report.
    ensures r.Failure? ==> r.error.Network? || r.error.NoRouteFound? || r.error.Api? || r.error.Serialization?
  {
    var order :- FetchOrder(p, codecs, request, defaultSlippageBps, None);
    var inAmount :- ParseAmount(order.inAmount);
    var outAmount :- ParseAmount(order.outAmount);
    Success(QuoteResponse(
      Provider.Dflow, request.inputMint, request.outputMint, inAmount, outAmount,
      PriceImpact(codecs, order.priceImpactPct), order.slippageBps,
      ProviderData(codecs.showPubkey, request, defaultSlippageBps)))
  }

  // ---------------------------------------------------------------------------
  // Swap

  /** The order request rebuilt from a quote: its mints, and the amount and slippage
      read back from the provider data (the slippage cast `as u16`). The direct-routes
      hint is absent. */
  function ReplayRequest(quote: QuoteResponse): (r: Result<QuoteRequest, SwapError>)
    ensures var amount := Json.AsU64(Json.Get(quote.providerData, "amount"));
            var slippage := Json.AsU64(Json.Get(quote.providerData, "slippageBps"));
            && (r.Success? <==> amount.Some? && slippage.Some?)
            && (r.Success? ==> r.value == QuoteRequest(quote.inputMint, quote.outputMint, amount.value,
                                                       Some(AsU16(slippage.value)), None))
    ensures r.Failure? ==> r.error.Serialization?
    ensures var amount := Json.AsU64(Json.Get(quote.providerData, "amount"));
            var slippage := Json.AsU64(Json.Get(quote.providerData, "slippageBps"));
            && (amount.None? ==> r == Failure(Serialization("missing amount in provider_data")))
            && (amount.Some? && slippage.None? ==>
                  r == Failure(Serialization("missing slippageBps in provider_data")))
  {
    var amount :- OkOr(Json.AsU64(Json.Get(quote.providerData, "amount")),
                       Serialization("missing amount in provider_data"));
    var slippage :- OkOr(Json.AsU64(Json.Get(quote.providerData, "slippageBps")),
                         Serialization("missing slippageBps in provider_data"));
    Success(QuoteRequest(quote.inputMint, quote.outputMint, amount, Some(AsU16(slippage)), None))
  }

  function Swap(p: DflowProvider, codecs: Codecs, quote: QuoteResponse, user: Pubkey)
    : (r: Result<SwapResult, SwapError>)
    // Unreadable provider data fails before any order is fetched.
    ensures ReplayRequest(quote).Failure? ==> r == Failure(ReplayRequest(quote).error)
    ensures ReplayRequest(quote).Success? ==>
              var request := ReplayRequest(quote).value;
              var order := FetchOrder(p, codecs, request, request.slippageBps.value, Some(user));
              && (order.Failure? ==> r == Failure(order.error))
              && (order.Success? && order.value.transaction.None? ==>
                    r == Failure(Api(Provider.Dflow, "no transaction in order response")))
              // A transaction that decodes always yields a swap; either decoding failure
              // is `Serialization`.
              && (order.Success? && order.value.transaction.Some? ==>
                    var bytes := codecs.base64Decode(order.value.transaction.value);
                    && (bytes.Failure? ==> r == Failure(Serialization(bytes.error)))
                    && (bytes.Success? && codecs.decodeTransaction(bytes.value).Failure? ==>
                          r == Failure(Serialization(codecs.decodeTransaction(bytes.value).error)))
                    && (bytes.Success? && codecs.decodeTransaction(bytes.value).Success? ==> r.Success?))
              && (r.Success? ==>
                    && order.Success? && order.value.transaction.Some?
                    && r.value.Transaction?
                    && var bytes := codecs.base64Decode(order.value.transaction.value);
                       && bytes.Success?
                       && codecs.decodeTransaction(bytes.value) == Success(r.value.transaction)
                       && r.value.lastValidBlockHeight == order.value.lastValidBlockHeight.UnwrapOr(0))
    // The kinds of error a swap can report.
    ensures r.Failure? ==> r.error.Network? || r.error.NoRouteFound? || r.error.Api? || r.error.Serialization?
  {
    var request :- ReplayRequest(quote);
    var slippageBps := request.slippageBps.value;
    var order :- FetchOrder(p, codecs, request, slippageBps, Some(user));
    var txBase64 :- OkOr(order.transaction, Api(Provider.Dflow, "no transaction in order response"));
    var txBytes :- codecs.base64Decode(txBase64).MapError((e: string) => Serialization(e));
    var transaction :- codecs.decodeTransaction(txBytes).MapError((e: string) => Serialization(e));
    Success(Transaction(transaction, order.lastValidBlockHeight.UnwrapOr(0)))
  }

  // ---------------------------------------------------------------------------
  // The quote/swap round trip

  /** The swap replays the quote: the request it rebuilds from a quote's provider data
      carries the original mints and amount and the slippage the quote resolved. */
  lemma ReplayRecoversRequest(p: DflowProvider, codecs: Codecs, request: QuoteRequest, defaultSlippageBps: U16)
    requires Quote(p, codecs, request, defaultSlippageBps).Success?
    ensures var quote := Quote(p, codecs, request, defaultSlippageBps).value;
            ReplayRequest(quote)
              == Success(QuoteRequest(request.inputMint, request.outputMint, request.amount,
                                      Some(ResolveSlippage(request, defaultSlippageBps)), None))
  {
  }

  /** Hence the swap's order query is exactly the quote's, with the user key added after
      the slippage. */
  lemma SwapReplaysQuoteQuery(p: DflowProvider, codecs: Codecs, request: QuoteRequest,
                              defaultSlippageBps: U16, user: Pubkey)
    requires Quote(p, codecs, request, defaultSlippageBps).Success?
    ensures var quote := Quote(p, codecs, request, defaultSlippageBps).value;
            var replay := ReplayRequest(quote).value;
            var sentByQuote := OrderQuery(p.maxRouteLength, codecs.showPubkey, request, defaultSlippageBps, None);
            var sentBySwap := OrderQuery(p.maxRouteLength, codecs.showPubkey, replay, replay.slippageBps.value, Some(user));
            && ReplayRequest(quote).Success?
            && sentBySwap == sentByQuote[..4] + [("userPublicKey", codecs.showPubkey(user))] + sentByQuote[4..]
  {
  }

  /** End to end: an order with numeric amounts gives a quote, and when the replayed
      order (with the user key) carries a transaction that decodes, that quote swaps. */
  lemma QuoteThenSwap(p: DflowProvider, codecs: Codecs, request: QuoteRequest, defaultSlippageBps: U16,
                      user: Pubkey)
    requires var order := FetchOrder(p, codecs, request, defaultSlippageBps, None);
             order.Success? && IsU64Literal(order.value.inAmount) && IsU64Literal(order.value.outAmount)
    requires var slippageBps := ResolveSlippage(request, defaultSlippageBps);
             var replay := QuoteRequest(request.inputMint, request.outputMint, request.amount, Some(slippageBps), None);
             var order := FetchOrder(p, codecs, replay, slippageBps, Some(user));
             && order.Success? && order.value.transaction.Some?
             && var bytes := codecs.base64Decode(order.value.transaction.value);
                bytes.Success? && codecs.decodeTransaction(bytes.value).Success?
    ensures Quote(p, codecs, request, defaultSlippageBps).Success?
    ensures Swap(p, codecs, Quote(p, codecs, request, defaultSlippageBps).value, user).Success?
  {
    ReplayRecoversRequest(p, codecs, request, defaultSlippageBps);
  }
}

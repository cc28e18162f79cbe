/** The Titan adapter: a price request for the quote, and a quote stream for the swap
    whose best route is turned into instructions by the Titan client. */
module Titan {
  import opened Wrappers
  import opened Numeric
  import Json
  import opened Solana
  import opened Types
  import opened Errors
  import opened Foreign
  import opened TitanRoutes
  import opened Adapter

  const DEFAULT_TITAN_WS_URL: string := "wss://api.titan.ag/api/v1/ws"

  datatype SwapPriceRequest = SwapPriceRequest(inputMint: Pubkey, outputMint: Pubkey, amount: U64)

  datatype SwapPrice = SwapPrice(amountIn: U64, amountOut: U64)

  datatype SwapMode = ExactIn | ExactOut

  datatype SwapParams = SwapParams(
    inputMint: Pubkey,
    outputMint: Pubkey,
    amount: U64,
    swapMode: Option<SwapMode>,
    slippageBps: Option<U16>,
    onlyDirectRoutes: Option<bool>)

  datatype SwapQuoteRequest = SwapQuoteRequest(swap: SwapParams, userPublicKey: Pubkey)

  /** What `prepare_instructions` yields for a route. */
  datatype PreparedInstructions = PreparedInstructions(
    instructions: seq<Instruction>,
    addressLookupTableAccounts: seq<AddressLookupTableAccount>,
    computeUnits: Option<U64>)

  /** A connected Titan client. `firstQuotes` opens a quote stream and yields its first
      message: `None` when the stream ends without one, otherwise the routes of the
      message's route map in the map's (unspecified) iteration order. */
  datatype TitanSession = TitanSession(
    getSwapPrice: SwapPriceRequest -> Result<SwapPrice, string>,
    firstQuotes: SwapQuoteRequest -> Result<Option<seq<SwapRoute>>, string>,
    prepareInstructions: (SwapRoute, RpcClient) -> Result<PreparedInstructions, string>)

  /** `connect(url, token)` is `TitanClient::new(TitanConfig::new(url, token))`. */
  datatype TitanProvider = TitanProvider(
    wsUrl: string,
    token: string,
    connect: (string, string) -> Result<TitanSession, string>)

  /** The URL comes from the argument, else the `TITAN_WS_URL` environment variable
      (passed in as `envWsUrl`), else the default; a missing token is empty. */
  function New(wsUrl: Option<string>, token: Option<string>, envWsUrl: Option<string>,
               connect: (string, string) -> Result<TitanSession, string>): (p: TitanProvider)
    ensures wsUrl.Some? ==> p.wsUrl == wsUrl.value
    ensures wsUrl.None? && envWsUrl.Some? ==> p.wsUrl == envWsUrl.value
    ensures wsUrl.None? && envWsUrl.None? ==> p.wsUrl == DEFAULT_TITAN_WS_URL
    ensures token.Some? ==> p.token == token.value
    ensures token.None? ==> p.token == ""
  {
    var url := match wsUrl
               case Some(u) => u
               case None => envWsUrl.UnwrapOr(DEFAULT_TITAN_WS_URL);
    TitanProvider(url, token.UnwrapOr(""), connect)
  }

  /** `get_client`: a session opened with the provider's own URL and token; a failure to
      connect is a `Titan` error. */
  function GetClient(p: TitanProvider): (r: Result<TitanSession, SwapError>)
    ensures var session := p.connect(p.wsUrl, p.token);
            && (r.Success? <==> session.Success?)
            && (r.Failure? ==> r.error == SwapError.Titan(session.error))
  {
    p.connect(p.wsUrl, p.token).MapError((e: string) => SwapError.Titan(e))
  }

  // ---------------------------------------------------------------------------
  // Quote

  /** What the quote stores for the swap: mints, amount, resolved slippage and the
      direct-routes hint. */
  function ProviderData(show: Pubkey -> string, request: QuoteRequest, slippageBps: U16): (v: Json.Value)
    ensures Json.AsU64(Json.Get(v, "amount")) == Some(request.amount)
    ensures Json.AsU64(Json.Get(v, "slippageBps")) == Some(slippageBps)
    ensures Json.AsBool(Json.Get(v, "onlyDirectRoutes")) == request.onlyDirectRoutes
  {
    Json.Object(map[
      "inputMint" := Json.Str(show(request.inputMint)),
      "outputMint" := Json.Str(show(request.outputMint)),
      "amount" := Json.Int(request.amount),
      "slippageBps" := Json.Int(slippageBps),
      "onlyDirectRoutes" := Json.OptionalBool(request.onlyDirectRoutes)])
  }

  function PriceRequest(request: QuoteRequest): SwapPriceRequest {
    SwapPriceRequest(request.inputMint, request.outputMint, request.amount)
  }

  function Quote(p: TitanProvider, codecs: Codecs, request: QuoteRequest, defaultSlippageBps: U16)
    : (r: Result<QuoteResponse, SwapError>)
    ensures r.Success? ==>
              && r.value.provider == Provider.Titan
              && r.value.inputMint == request.inputMint
              && r.value.outputMint == request.outputMint
              && r.value.priceImpactBps.None?
              && r.value.slippageBps == ResolveSlippage(request, defaultSlippageBps)
              && r.value.providerData == ProviderData(codecs.showPubkey, request, r.value.slippageBps)
    // The amounts are the price reply's, for the request's own mints and amount.
    ensures r.Success? ==>
              && GetClient(p).Success?
              && GetClient(p).value.getSwapPrice(PriceRequest(request))
                   == Success(SwapPrice(r.value.inputAmount, r.value.outputAmount))
    // A connected client whose price request succeeds always yields a quote; each
    // failure is the client's, as a `Titan` error.
    ensures GetClient(p).Failure? ==> r == Failure(GetClient(p).error)
    ensures GetClient(p).Success? ==>
              var price := GetClient(p).value.getSwapPrice(PriceRequest(request));
              && (price.Success? ==> r.Success?)
              && (price.Failure? ==> r == Failure(SwapError.Titan(price.error)))
    ensures r.Failure? ==> r.error.Titan?
  {
    var client :- GetClient(p);
    var price :- client.getSwapPrice(PriceRequest(request)).MapError((e: string) => SwapError.Titan(e));
    var slippageBps := ResolveSlippage(request, defaultSlippageBps);
    Success(QuoteResponse(
      Provider.Titan, request.inputMint, request.outputMint, price.amountIn, price.amountOut,
      None, slippageBps, ProviderData(codecs.showPubkey, request, slippageBps)))
  }

  // ---------------------------------------------------------------------------
  // Swap

  /** The stream request rebuilt from a quote: exact-in on the quote's mints, with the
      amount, slippage and direct-routes hint read back from the provider data. Only a
      missing amount is an error; a missing slippage or hint is simply absent. */
  function SwapRequestFor(quote: QuoteResponse, user: Pubkey): (r: Result<SwapQuoteRequest, SwapError>)
    ensures var data := quote.providerData;
            var amount := Json.AsU64(Json.Get(data, "amount"));
            var slippage := Json.AsU64(Json.Get(data, "slippageBps"));
            && (r.Success? <==> amount.Some?)
            && (r.Failure? ==> r.error == SwapError.Titan("missing amount in provider_data"))
            && (r.Success? ==>
                  && r.value.userPublicKey == user
                  && r.value.swap.inputMint == quote.inputMint
                  && r.value.swap.outputMint == quote.outputMint
                  && r.value.swap.amount == amount.value
                  && r.value.swap.swapMode == Some(ExactIn)
                  && (slippage.None? ==> r.value.swap.slippageBps.None?)
                  && (slippage.Some? ==> r.value.swap.slippageBps == Some(AsU16(slippage.value)))
                  && r.value.swap.onlyDirectRoutes == Json.AsBool(Json.Get(data, "onlyDirectRoutes")))
  {
    var amount :- OkOr(Json.AsU64(Json.Get(quote.providerData, "amount")),
                       SwapError.Titan("missing amount in provider_data"));
    var slippageBps := match Json.AsU64(Json.Get(quote.providerData, "slippageBps"))
                       case Some(v) => Some(AsU16(v))
                       case None => None;
    var onlyDirectRoutes := Json.AsBool(Json.Get(quote.providerData, "onlyDirectRoutes"));
    Success(SwapQuoteRequest(
      SwapParams(quote.inputMint, quote.outputMint, amount, Some(ExactIn), slippageBps, onlyDirectRoutes),
      user))
  }

  /** `compute_units.map(|cu| cu as u32)`. */
  function TruncatedComputeUnits(cu: Option<U64>): (r: Option<U32>)
    ensures r.Some? <==> cu.Some?
    ensures cu.Some? && cu.value < U32_LIMIT ==> r.value == cu.value
    ensures cu.Some? ==> (cu.value - r.value) % U32_LIMIT == 0
  {
    match cu
    case Some(n) => Some(AsU32(n))
    case None => None
  }

  /** The truncation is the one 32-bit value congruent to the compute units: any `u32`
      that agrees with them modulo 2^32 is what the swap carries. */
  lemma TruncationIsLowBits(cu: U64, v: U32)
    requires (cu - v) % U32_LIMIT == 0
    ensures TruncatedComputeUnits(Some(cu)) == Some(v)
  {
  }

  function Swap(p: TitanProvider, quote: QuoteResponse, user: Pubkey, rpc: RpcClient)
    : (r: Result<SwapResult, SwapError>)
    ensures r.Success? ==> r.value.Instructions?
    // The connection is made before the provider data is read.
    ensures GetClient(p).Failure? ==> r == Failure(GetClient(p).error)
    ensures GetClient(p).Success? && SwapRequestFor(quote, user).Failure? ==>
              r == Failure(SwapRequestFor(quote, user).error)
    // No first message, or a message without routes, means no route.
    ensures GetClient(p).Success? && SwapRequestFor(quote, user).Success? ==>
              var first := GetClient(p).value.firstQuotes(SwapRequestFor(quote, user).value);
              && (first.Success? && first.value.None? ==> r == Failure(NoRouteFound))
              && (first.Success? && first.value.Some? && |first.value.value| == 0 ==> r == Failure(NoRouteFound))
    // Opening the stream or preparing the best route can fail only as `Titan`; a
    // prepared route always yields a swap.
    ensures GetClient(p).Success? && SwapRequestFor(quote, user).Success? ==>
              var client := GetClient(p).value;
              var first := client.firstQuotes(SwapRequestFor(quote, user).value);
              && (first.Failure? ==> r == Failure(SwapError.Titan(first.error)))
              && (first.Success? && first.value.Some? && |first.value.value| > 0 ==>
                    var prepared := client.prepareInstructions(SelectBestRoute(first.value.value).value, rpc);
                    && (prepared.Failure? ==> r == Failure(SwapError.Titan(prepared.error)))
                    && (prepared.Success? ==> r.Success?))
    // `NoRouteFound` means exactly: no first message, or one without routes.
    ensures r == Failure(NoRouteFound) <==>
              && GetClient(p).Success? && SwapRequestFor(quote, user).Success?
              && var first := GetClient(p).value.firstQuotes(SwapRequestFor(quote, user).value);
                 first.Success? && (first.value.None? || |first.value.value| == 0)
    // A swap is built from the best route of the first message.
    ensures r.Success? ==>
              && GetClient(p).Success? && SwapRequestFor(quote, user).Success?
              && var client := GetClient(p).value;
                 var first := client.firstQuotes(SwapRequestFor(quote, user).value);
                 && first.Success? && first.value.Some?
                 && var best := SelectBestRoute(first.value.value);
                    && best.Some?
                    && var prepared := client.prepareInstructions(best.value, rpc);
                       && prepared.Success?
                       && r.value.instructions == prepared.value.instructions
                       && r.value.addressLookupTables == prepared.value.addressLookupTableAccounts
                       && r.value.computeUnits == TruncatedComputeUnits(prepared.value.computeUnits)
    // The kinds of error a swap can report.
    ensures r.Failure? ==> r.error.Titan? || r.error.NoRouteFound?
  {
    var client :- GetClient(p);
    var request :- SwapRequestFor(quote, user);
    var first :- client.firstQuotes(request).MapError((e: string) => SwapError.Titan(e));
    var quotes :- OkOr(first, NoRouteFound);
    var route :- OkOr(SelectBestRoute(quotes), NoRouteFound);
    var prepared :- client.prepareInstructions(route, rpc).MapError((e: string) => SwapError.Titan(e));
    Success(Instructions(
      prepared.instructions, prepared.addressLookupTableAccounts, TruncatedComputeUnits(prepared.computeUnits)))
  }

  // ---------------------------------------------------------------------------
  // The quote/swap round trip

  /** The swap asks the stream for exactly what was quoted: the request's mints, amount
      and direct-routes hint, and the slippage the quote resolved. */
  lemma SwapReplaysQuote(p: TitanProvider, codecs: Codecs, request: QuoteRequest, defaultSlippageBps: U16, user: Pubkey)
    requires Quote(p, codecs, request, defaultSlippageBps).Success?
    ensures var quote := Quote(p, codecs, request, defaultSlippageBps).value;
            SwapRequestFor(quote, user)
              == Success(SwapQuoteRequest(
                   SwapParams(request.inputMint, request.outputMint, request.amount, Some(ExactIn),
                              Some(ResolveSlippage(request, defaultSlippageBps)), request.onlyDirectRoutes),
                   user))
  {
  }

  /** End to end: a connected client that prices the pair, streams a non-empty first
      message for the quoted request and prepares its best route gives a quote, and
      that quote swaps. */
  lemma QuoteThenSwap(p: TitanProvider, codecs: Codecs, request: QuoteRequest, defaultSlippageBps: U16,
                      user: Pubkey, rpc: RpcClient)
    requires GetClient(p).Success?
    requires GetClient(p).Success? && GetClient(p).value.getSwapPrice(PriceRequest(request)).Success?
    requires var streamed := SwapQuoteRequest(
               SwapParams(request.inputMint, request.outputMint, request.amount, Some(ExactIn),
                          Some(ResolveSlippage(request, defaultSlippageBps)), request.onlyDirectRoutes),
               user);
             && GetClient(p).Success?
             && var first := GetClient(p).value.firstQuotes(streamed);
                && first.Success? && first.value.Some? && |first.value.value| > 0
                && SelectBestRoute(first.value.value).Some?
                && GetClient(p).value.prepareInstructions(SelectBestRoute(first.value.value).value, rpc).Success?
    ensures Quote(p, codecs, request, defaultSlippageBps).Success?
    ensures Swap(p, Quote(p, codecs, request, defaultSlippageBps).value, user, rpc).Success?
  {
    SwapReplaysQuote(p, codecs, request, defaultSlippageBps, user);
  }
}

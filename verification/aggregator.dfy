/** The aggregator: one optional adapter slot per provider, routing by provider tag. */
module Aggregator {
  import opened Wrappers
  import opened Numeric
  import Json
  import opened Solana
  import opened Types
  import opened Errors
  import opened Http
  import opened Foreign
  import Jupiter
  import Titan
  import Dflow
  import JupiterWire
  import DflowWire

  /** A slot that is `None` is "not configured", which is not an error of the adapter. */
  datatype SwapAggregator = SwapAggregator(
    defaultSlippageBps: U16,
    jupiter: Option<Jupiter.JupiterProvider>,
    titan: Option<Titan.TitanProvider>,
    dflow: Option<Dflow.DflowProvider>)

  /** The outside world the adapters are built against: their backends, and the
      `TITAN_WS_URL` environment variable. */
  datatype Backends = Backends(
    jupiterQuoteApi: Endpoint<Json.Value>,
    jupiterSwapApi: Endpoint<JupiterWire.SwapInstructionsResponse>,
    dflowOrderApi: Endpoint<DflowWire.OrderResponse>,
    titanConnect: (string, string) -> Result<Titan.TitanSession, string>,
    titanWsUrlEnv: Option<string>)

  /** `SwapAggregator::new`: every adapter is built, each from its part of the config. */
  function New(config: SwapConfig, backends: Backends): (agg: SwapAggregator)
    ensures agg.jupiter.Some? && agg.titan.Some? && agg.dflow.Some?
    ensures agg.defaultSlippageBps == config.defaultSlippageBps
    ensures agg.jupiter.value.baseUrl == config.jupiterApiUrl.UnwrapOr(Jupiter.DEFAULT_JUPITER_API_URL)
    ensures agg.jupiter.value.apiKey == config.jupiterApiKey
    ensures agg.dflow.value.baseUrl == config.dflowApiUrl.UnwrapOr(Dflow.DEFAULT_DFLOW_API_URL)
    ensures agg.dflow.value.apiKey == config.dflowApiKey
    ensures agg.dflow.value.maxRouteLength == config.dflowMaxRouteLength
    ensures config.titanWsUrl.Some? ==> agg.titan.value.wsUrl == config.titanWsUrl.value
    ensures config.titanWsUrl.None? ==>
              agg.titan.value.wsUrl == backends.titanWsUrlEnv.UnwrapOr(Titan.DEFAULT_TITAN_WS_URL)
    ensures agg.titan.value.token == config.titanToken.UnwrapOr("")
  {
    SwapAggregator(
      config.defaultSlippageBps,
      Some(Jupiter.New(config.jupiterApiUrl, config.jupiterApiKey, backends.jupiterQuoteApi, backends.jupiterSwapApi)),
      Some(Titan.New(config.titanWsUrl, config.titanToken, backends.titanWsUrlEnv, backends.titanConnect)),
      Some(Dflow.New(config.dflowApiUrl, config.dflowApiKey, config.dflowMaxRouteLength, backends.dflowOrderApi)))
  }

  predicate IsConfigured(agg: SwapAggregator, provider: Provider) {
    match provider
    case Jupiter => agg.jupiter.Some?
    case Titan => agg.titan.Some?
    case Dflow => agg.dflow.Some?
  }

  /** The position of a provider in the fixed consultation order. */
  function Rank(provider: Provider): nat {
    match provider
    case Jupiter => 0
    case Titan => 1
    case Dflow => 2
  }

  /** The configured providers, in the order Jupiter, Titan, Dflow. */
  function ConfiguredProviders(agg: SwapAggregator): (ps: seq<Provider>)
    ensures forall p :: p in ps <==> IsConfigured(agg, p)
    ensures forall i, j :: 0 <= i < j < |ps| ==> Rank(ps[i]) < Rank(ps[j])
  {
    (if agg.jupiter.Some? then [Provider.Jupiter] else [])
    + (if agg.titan.Some? then [Provider.Titan] else [])
    + (if agg.dflow.Some? then [Provider.Dflow] else [])
  }

  /** `quote`: the named provider's adapter answers, or the provider is not configured. */
  function Quote(agg: SwapAggregator, codecs: Codecs, provider: Provider, request: QuoteRequest)
    : (r: Result<QuoteResponse, SwapError>)
    ensures !IsConfigured(agg, provider) ==> r == Failure(ProviderNotConfigured(provider))
    ensures provider == Provider.Jupiter && agg.jupiter.Some? ==>
              r == Jupiter.Quote(agg.jupiter.value, codecs, request, agg.defaultSlippageBps)
    ensures provider == Provider.Titan && agg.titan.Some? ==>
              r == Titan.Quote(agg.titan.value, codecs, request, agg.defaultSlippageBps)
    ensures provider == Provider.Dflow && agg.dflow.Some? ==>
              r == Dflow.Quote(agg.dflow.value, codecs, request, agg.defaultSlippageBps)
    // Whoever answers, a quote is tagged with the provider asked and echoes the mints.
    ensures r.Success? ==>
              && r.value.provider == provider
              && r.value.inputMint == request.inputMint
              && r.value.outputMint == request.outputMint
  {
    match provider
    case Jupiter =>
      var adapter :- OkOr(agg.jupiter, ProviderNotConfigured(Provider.Jupiter));
      Jupiter.Quote(adapter, codecs, request, agg.defaultSlippageBps)
    case Titan =>
      var adapter :- OkOr(agg.titan, ProviderNotConfigured(Provider.Titan));
      Titan.Quote(adapter, codecs, request, agg.defaultSlippageBps)
    case Dflow =>
      var adapter :- OkOr(agg.dflow, ProviderNotConfigured(Provider.Dflow));
      Dflow.Quote(adapter, codecs, request, agg.defaultSlippageBps)
  }

  /** The outcomes of asking each of `providers`, in order (`join_all` keeps the order
      in which the futures were pushed). */
  function QuoteEach(agg: SwapAggregator, codecs: Codecs, providers: seq<Provider>, request: QuoteRequest)
    : (rs: seq<Result<QuoteResponse, SwapError>>)
    ensures |rs| == |providers|
    ensures forall i :: 0 <= i < |providers| ==> rs[i] == Quote(agg, codecs, providers[i], request)
    decreases |providers|
  {
    if |providers| == 0 then []
    else [Quote(agg, codecs, providers[0], request)] + QuoteEach(agg, codecs, providers[1..], request)
  }

  /** `quote_all`: every configured adapter is asked, and the outcomes are listed in the
      fixed order, one per configured slot; each outcome is the one that adapter gives
      alone, so one failure does not disturb the others. */
  function QuoteAll(agg: SwapAggregator, codecs: Codecs, request: QuoteRequest)
    : (rs: seq<Result<QuoteResponse, SwapError>>)
    ensures |rs| == |ConfiguredProviders(agg)|
    ensures forall i :: 0 <= i < |rs| ==> rs[i] == Quote(agg, codecs, ConfiguredProviders(agg)[i], request)
    ensures |rs| == 0 <==> agg.jupiter.None? && agg.titan.None? && agg.dflow.None?
    ensures agg.jupiter.Some? ==>
              rs[0] == Jupiter.Quote(agg.jupiter.value, codecs, request, agg.defaultSlippageBps)
    ensures agg.dflow.Some? ==>
              rs[|rs| - 1] == Dflow.Quote(agg.dflow.value, codecs, request, agg.defaultSlippageBps)
  {
    QuoteEach(agg, codecs, ConfiguredProviders(agg), request)
  }

  /** `swap`: routed solely by the provider the quote names. */
  function Swap(agg: SwapAggregator, codecs: Codecs, quote: QuoteResponse, user: Pubkey, rpc: RpcClient)
    : (r: Result<SwapResult, SwapError>)
    ensures !IsConfigured(agg, quote.provider) ==> r == Failure(ProviderNotConfigured(quote.provider))
    ensures quote.provider == Provider.Jupiter && agg.jupiter.Some? ==>
              r == Jupiter.Swap(agg.jupiter.value, codecs, quote, user, rpc)
    ensures quote.provider == Provider.Titan && agg.titan.Some? ==>
              r == Titan.Swap(agg.titan.value, quote, user, rpc)
    ensures quote.provider == Provider.Dflow && agg.dflow.Some? ==>
              r == Dflow.Swap(agg.dflow.value, codecs, quote, user)
  {
    match quote.provider
    case Jupiter =>
      var adapter :- OkOr(agg.jupiter, ProviderNotConfigured(Provider.Jupiter));
      Jupiter.Swap(adapter, codecs, quote, user, rpc)
    case Titan =>
      var adapter :- OkOr(agg.titan, ProviderNotConfigured(Provider.Titan));
      Titan.Swap(adapter, quote, user, rpc)
    case Dflow =>
      var adapter :- OkOr(agg.dflow, ProviderNotConfigured(Provider.Dflow));
      Dflow.Swap(adapter, codecs, quote, user)
  }

  /** A quote from a provider's adapter is swapped by that same adapter. */
  lemma SwapRoutesToQuotingAdapter(agg: SwapAggregator, codecs: Codecs, provider: Provider,
                                   request: QuoteRequest, user: Pubkey, rpc: RpcClient)
    requires Quote(agg, codecs, provider, request).Success?
    ensures var quote := Quote(agg, codecs, provider, request).value;
            && IsConfigured(agg, provider)
            && (provider == Provider.Jupiter ==>
                  Swap(agg, codecs, quote, user, rpc) == Jupiter.Swap(agg.jupiter.value, codecs, quote, user, rpc))
            && (provider == Provider.Titan ==>
                  Swap(agg, codecs, quote, user, rpc) == Titan.Swap(agg.titan.value, quote, user, rpc))
            && (provider == Provider.Dflow ==>
                  Swap(agg, codecs, quote, user, rpc) == Dflow.Swap(agg.dflow.value, codecs, quote, user))
  {
  }

  /** A built aggregator consults all three providers, in the fixed order, and each slot
      answers as the adapter built from its part of the config. */
  lemma NewConfiguresAll(config: SwapConfig, backends: Backends, codecs: Codecs, request: QuoteRequest)
    ensures ConfiguredProviders(New(config, backends)) == [Provider.Jupiter, Provider.Titan, Provider.Dflow]
    ensures |QuoteAll(New(config, backends), codecs, request)| == 3
    ensures Quote(New(config, backends), codecs, Provider.Jupiter, request)
         == Jupiter.Quote(Jupiter.New(config.jupiterApiUrl, config.jupiterApiKey,
                                      backends.jupiterQuoteApi, backends.jupiterSwapApi),
                          codecs, request, config.defaultSlippageBps)
    ensures Quote(New(config, backends), codecs, Provider.Titan, request)
         == Titan.Quote(Titan.New(config.titanWsUrl, config.titanToken, backends.titanWsUrlEnv, backends.titanConnect),
                        codecs, request, config.defaultSlippageBps)
    ensures Quote(New(config, backends), codecs, Provider.Dflow, request)
         == Dflow.Quote(Dflow.New(config.dflowApiUrl, config.dflowApiKey, config.dflowMaxRouteLength,
                                  backends.dflowOrderApi),
                        codecs, request, config.defaultSlippageBps)
  {
  }

  /** No adapter reports `ProviderNotConfigured` itself: a configured slot never
      answers a quote that way. */
  lemma ConfiguredQuoteNeverUnconfigured(agg: SwapAggregator, codecs: Codecs, provider: Provider,
                                         request: QuoteRequest)
    requires IsConfigured(agg, provider)
    ensures var r := Quote(agg, codecs, provider, request);
            r.Failure? ==> !r.error.ProviderNotConfigured?
  {
    match provider
    case Jupiter =>
      var r := Jupiter.Quote(agg.jupiter.value, codecs, request, agg.defaultSlippageBps);
      assert r.Failure? ==> !r.error.ProviderNotConfigured?;
    case Titan =>
      var r := Titan.Quote(agg.titan.value, codecs, request, agg.defaultSlippageBps);
      assert r.Failure? ==> !r.error.ProviderNotConfigured?;
    case Dflow =>
      var r := Dflow.Quote(agg.dflow.value, codecs, request, agg.defaultSlippageBps);
      assert r.Failure? ==> !r.error.ProviderNotConfigured?;
  }

  /** Nor does a configured slot answer a swap that way. */
  lemma ConfiguredSwapNeverUnconfigured(agg: SwapAggregator, codecs: Codecs, quote: QuoteResponse,
                                        user: Pubkey, rpc: RpcClient)
    requires IsConfigured(agg, quote.provider)
    ensures var r := Swap(agg, codecs, quote, user, rpc);
            r.Failure? ==> !r.error.ProviderNotConfigured?
  {
    match quote.provider
    case Jupiter =>
      var r := Jupiter.Swap(agg.jupiter.value, codecs, quote, user, rpc);
      assert r.Failure? ==> !r.error.ProviderNotConfigured?;
    case Titan =>
      var r := Titan.Swap(agg.titan.value, quote, user, rpc);
      assert r.Failure? ==> !r.error.ProviderNotConfigured?;
    case Dflow =>
      var r := Dflow.Swap(agg.dflow.value, codecs, quote, user);
      assert r.Failure? ==> !r.error.ProviderNotConfigured?;
  }

  /** Hence on a built aggregator neither a quote nor a swap ever fails with
      `ProviderNotConfigured`. */
  lemma NewNeverUnconfigured(config: SwapConfig, backends: Backends, codecs: Codecs, provider: Provider,
                             request: QuoteRequest, quote: QuoteResponse, user: Pubkey, rpc: RpcClient)
    ensures var r := Quote(New(config, backends), codecs, provider, request);
            r.Failure? ==> !r.error.ProviderNotConfigured?
    ensures var r := Swap(New(config, backends), codecs, quote, user, rpc);
            r.Failure? ==> !r.error.ProviderNotConfigured?
  {
    ConfiguredQuoteNeverUnconfigured(New(config, backends), codecs, provider, request);
    ConfiguredSwapNeverUnconfigured(New(config, backends), codecs, quote, user, rpc);
  }
}

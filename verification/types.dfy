/** The canonical, provider-agnostic model every adapter produces. */
module Types {
  import opened Wrappers
  import opened Numeric
  import Json
  import opened Solana

  /** The backends, in the order the aggregator consults them. */
  datatype Provider = Jupiter | Titan | Dflow

  datatype QuoteRequest = QuoteRequest(
    inputMint: Pubkey,
    outputMint: Pubkey,
    amount: U64,
    slippageBps: Option<U16>,
    onlyDirectRoutes: Option<bool>)

  /** `providerData` is whatever the originating adapter needs to execute this quote. */
  datatype QuoteResponse = QuoteResponse(
    provider: Provider,
    inputMint: Pubkey,
    outputMint: Pubkey,
    inputAmount: U64,
    outputAmount: U64,
    priceImpactBps: Option<U16>,
    slippageBps: U16,
    providerData: Json.Value)

  /** What a swap call yields: composable instructions, or a prebuilt transaction. */
  datatype SwapResult =
    | Instructions(
        instructions: seq<Instruction>,
        addressLookupTables: seq<AddressLookupTableAccount>,
        computeUnits: Option<U32>)
    | Transaction(transaction: VersionedTransaction, lastValidBlockHeight: U64)

  datatype SwapConfig = SwapConfig(
    defaultSlippageBps: U16,
    jupiterApiUrl: Option<string>,
    jupiterApiKey: Option<string>,
    titanWsUrl: Option<string>,
    titanToken: Option<string>,
    dflowApiUrl: Option<string>,
    dflowApiKey: Option<string>,
    dflowMaxRouteLength: Option<U32>)
}

/** Record shape of the Dflow `GET /order` reply; optional fields default to `None`. */
module DflowWire {
  import opened Wrappers
  import opened Numeric

  datatype OrderResponse = OrderResponse(
    inputMint: string,
    outputMint: string,
    inAmount: string,
    outAmount: string,
    slippageBps: U16,
    priceImpactPct: Option<string>,
    transaction: Option<string>,
    lastValidBlockHeight: Option<U64>,
    computeUnitLimit: Option<U32>)
}

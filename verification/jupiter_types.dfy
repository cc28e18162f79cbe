/** Record shapes of the Jupiter wire format (camelCase JSON on the wire). */
module JupiterWire {
  import opened Wrappers
  import opened Numeric

  /** The query of `GET /quote`. */
  datatype QuoteParams = QuoteParams(
    inputMint: string,
    outputMint: string,
    amount: U64,
    slippageBps: U16,
    onlyDirectRoutes: Option<bool>)

  datatype QuoteApiResponse = QuoteApiResponse(
    inputMint: string,
    outputMint: string,
    inAmount: string,
    outAmount: string,
    slippageBps: U16,
    otherAmountThreshold: Option<string>,
    priceImpactPct: Option<string>)

  datatype AccountMetaWire = AccountMetaWire(pubkey: string, isSigner: bool, isWritable: bool)

  /** An instruction as Jupiter sends it: base58 program id and keys, base64 data. */
  datatype InstructionWire = InstructionWire(programId: string, accounts: seq<AccountMetaWire>, data: string)

  /** The reply of `POST /swap-instructions`; absent lists decode as empty and an absent
      compute-unit limit as 0. */
  datatype SwapInstructionsResponse = SwapInstructionsResponse(
    tokenLedgerInstruction: Option<InstructionWire>,
    computeBudgetInstructions: seq<InstructionWire>,
    setupInstructions: seq<InstructionWire>,
    swapInstruction: InstructionWire,
    cleanupInstruction: Option<InstructionWire>,
    otherInstructions: seq<InstructionWire>,
    addressLookupTableAddresses: seq<string>,
    computeUnitLimit: U32)
}
